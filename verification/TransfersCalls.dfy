/** What the calls of the transfers pallet mean to whoever makes them: when a call is accepted, and
    what it does to which account and which record. */
module TransfersCalls {
  import opened Types
  import opened Transfers

  // ---------- create ----------

  lemma CreateAccepted(s: State, env: Env, who: Account, target: DomainId, recipient: Account, amount: nat,
                       allowed: bool)
    ensures Create(s, env, who, target, recipient, amount, allowed).Ok? <==>
              amount > 0 && target != env.domain && allowed && amount <= FreeOf(s, who)
  {
  }

  /** The export carries the caller and exactly what was asked for, and the caller's funds move
      from free to held. */
  lemma Created(s: State, env: Env, who: Account, target: DomainId, recipient: Account, amount: nat, allowed: bool,
                s': State)
    requires Create(s, env, who, target, recipient, amount, allowed) == Ok(s')
    ensures var id := ItemId(env.domain, s.nextSequence);
            && id in s'.exports && s'.exports == s.exports[id := s'.exports[id]]
            && s'.exports[id].status == LocalFinal && s'.exports[id].completion.None?
            && var x := s'.exports[id].leaf.input;
               && x.exportId == id && x.sourceDomain == env.domain && x.targetDomain == target
               && x.sender == who && x.recipient == recipient && x.amount == amount
               && x.sourceEpoch == env.epoch && x.sourceBlock == env.height && x.extrinsicIndex == env.extrinsicIndex
    ensures forall a :: FreeOf(s', a) == (if a == who then FreeOf(s, a) - amount else FreeOf(s, a))
    ensures forall a :: HeldOf(s', a) == (if a == who then HeldOf(s, a) + amount else HeldOf(s, a))
    ensures s'.observed == s.observed && s'.epochImportIds == s.epochImportIds
  {
  }

  // ---------- observe ----------

  predicate IsImporter(s: State, who: Account) { s.importer == Some(who) }

  lemma ObserveAccepted(s: State, env: Env, who: Account, claim: ObservedClaim)
    ensures Observe(s, env, who, claim).Ok? <==>
              IsImporter(s, who) && claim.targetDomain == env.domain && claim.exportId !in s.observed
  {
  }

  /** The claim is stored as given, once, and nothing is paid out yet. */
  lemma Observed(s: State, env: Env, who: Account, claim: ObservedClaim, s': State)
    requires Observe(s, env, who, claim) == Ok(s')
    ensures s' == s.(observed := s'.observed) && claim.exportId in s'.observed
    ensures s'.observed == s.observed[claim.exportId := s'.observed[claim.exportId]]
    ensures var r := s'.observed[claim.exportId];
            && r.claim == claim && r.status == RemoteObserved && r.observer == who && r.observedAt == env.height
            && r.finalizedAt.None? && r.finalizer.None?
  {
  }

  // ---------- finalize ----------

  lemma FinalizeAccepted(s: State, env: Env, who: Account, id: ItemId, allowed: bool)
    ensures Finalize(s, env, who, id, allowed).Ok? <==>
              && IsImporter(s, who) && id in s.observed && s.observed[id].claim.targetDomain == env.domain
              && s.observed[id].status == RemoteObserved && allowed
  {
  }

  /** The claim's recipient, and nobody else, is credited with the claim's amount. */
  lemma Finalized(s: State, env: Env, who: Account, id: ItemId, allowed: bool, s': State)
    requires Finalize(s, env, who, id, allowed) == Ok(s')
    ensures id in s.observed && id in s'.observed && s'.observed == s.observed[id := s'.observed[id]]
    ensures var claim := s.observed[id].claim;
            forall a :: FreeOf(s', a) == FreeOf(s, a) + if a == claim.recipient then claim.amount else 0
    ensures var r := s'.observed[id];
            && r.claim == s.observed[id].claim && r.status == ImportFinalized
            && r.finalizer == Some(who) && r.finalizedAt == Some(env.height)
            && r.observer == s.observed[id].observer && r.observedAt == s.observed[id].observedAt
    ensures id in ImportIds(s', env.epoch) && s'.held == s.held && s'.exports == s.exports
  {
  }

  /** The completion leaf says what the claim said. */
  lemma FinalizedLeafSays(r: ObservedRecord)
    ensures var x, claim := FinalizedLeafOf(r).input, r.claim;
            && x.exportId == claim.exportId && x.sourceDomain == claim.sourceDomain
            && x.targetDomain == claim.targetDomain && x.recipient == claim.recipient && x.amount == claim.amount
            && x.sourceEpoch == claim.sourceEpoch && x.summaryHash == claim.summaryHash
            && x.packageHash == claim.packageHash
  {
  }

  // ---------- acknowledge ----------

  lemma AcknowledgeAccepted(s: State, env: Env, who: Account, claim: FinalizationClaim)
    ensures Acknowledge(s, env, who, claim).Ok? <==>
              && IsImporter(s, who) && claim.sourceDomain == env.domain && claim.exportId in s.exports
              && var x := s.exports[claim.exportId].leaf.input;
                 && x.sourceDomain == claim.sourceDomain && x.targetDomain == claim.targetDomain
                 && x.sourceEpoch == claim.sourceEpoch && x.recipient == claim.recipient && x.amount == claim.amount
                 && s.exports[claim.exportId].status == Exported && x.amount <= HeldOf(s, x.sender)
  {
  }

  /** The sender's hold is burnt, nobody is paid, and the record names the evidence. */
  lemma Acknowledged(s: State, env: Env, who: Account, claim: FinalizationClaim, s': State)
    requires Acknowledge(s, env, who, claim) == Ok(s')
    ensures var id := claim.exportId;
            && id in s.exports && id in s'.exports && s'.exports == s.exports[id := s'.exports[id]]
            && s'.exports[id].leaf == s.exports[id].leaf && s'.exports[id].status == RemoteFinalized
            && s'.exports[id].completion.Some?
            && var done := s'.exports[id].completion.value;
               && done.summaryHash == claim.summaryHash && done.packageHash == claim.packageHash
               && done.resolver == who && done.resolvedAt == env.height
    ensures var x := s.exports[claim.exportId].leaf.input;
            forall a :: HeldOf(s', a) == (if a == x.sender then HeldOf(s, a) - x.amount else HeldOf(s, a))
    ensures s'.free == s.free && s'.observed == s.observed
  {
  }
}
