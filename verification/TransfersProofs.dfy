/** What every call of the transfers pallet keeps, on one chain: records and epoch lists agree,
    holds equal the unresolved exports, committed lists never change, statuses only advance. */
module TransfersProofs {
  import opened Types
  import opened Sums
  import opened Sorting
  import opened Commitments
  import opened Transfers

  // ---------- the invariant ----------

  ghost predicate NoDuplicates<T>(s: seq<T>) {
    forall i, j :: 0 <= i < j < |s| ==> s[i] != s[j]
  }

  ghost predicate ExportOk(s: State, domain: DomainId, epoch: EpochId, id: ItemId) {
    && id in s.exports
    && var r := s.exports[id];
       var x := r.leaf.input;
       && r.leaf.Canonical() && x.exportId == id && x.version == LEAF_VERSION
       && id.domain == domain && x.sourceDomain == domain && x.targetDomain != domain && x.amount > 0
       && x.sourceEpoch <= epoch
       && (r.status == LocalFinal <==> x.sourceEpoch == epoch)
       && id in ExportIds(s, x.sourceEpoch)
       && (id.sequence < s.nextSequence || s.nextSequence == U64_MAX)
  }

  ghost predicate ExportListOk(s: State, e: EpochId) {
    && NoDuplicates(ExportIds(s, e))
    && forall id :: id in ExportIds(s, e) ==> id in s.exports && s.exports[id].leaf.input.sourceEpoch == e
  }

  /** Every export sits in exactly one epoch list, that of its source epoch, and is `LocalFinal`
      exactly while that epoch is open. */
  ghost predicate ExportsInv(s: State, domain: DomainId, epoch: EpochId) {
    && (forall id :: id in s.exports ==> ExportOk(s, domain, epoch, id))
    && (forall e: EpochId :: ExportListOk(s, e))
  }

  ghost predicate ImportListOk(s: State, e: EpochId) {
    && NoDuplicates(ImportIds(s, e))
    && forall id :: id in ImportIds(s, e) ==> id in s.observed && s.observed[id].status == ImportFinalized
  }

  ghost predicate ImportsInv(s: State, domain: DomainId) {
    && (forall id :: id in s.observed ==>
          s.observed[id].claim.exportId == id && s.observed[id].claim.targetDomain == domain)
    && (forall e: EpochId :: ImportListOk(s, e))
  }

  /** The weight of an export in the hold of `who`. */
  ghost function HoldWeight(exports: map<ItemId, ExportRecord>, who: Account): ItemId -> nat {
    id => if id in exports && exports[id].leaf.input.sender == who && exports[id].status != RemoteFinalized
          then exports[id].leaf.input.amount else 0
  }

  ghost function Outstanding(exports: map<ItemId, ExportRecord>, who: Account): nat {
    Sum(exports.Keys, HoldWeight(exports, who))
  }

  /** Each account's hold is the sum of its exports not yet resolved at the source. */
  ghost predicate HoldsInv(s: State) {
    forall who :: HeldOf(s, who) == Outstanding(s.exports, who)
  }

  ghost predicate Inv(s: State, domain: DomainId, epoch: EpochId) {
    ExportsInv(s, domain, epoch) && ImportsInv(s, domain) && HoldsInv(s)
  }

  lemma GenesisInv(importer: Option<Account>, free: map<Account, nat>, domain: DomainId, epoch: EpochId)
    ensures Inv(Genesis(importer, free), domain, epoch)
  {
  }

  // ---------- what may change from one state to a later one ----------

  function StatusRank(status: ExportStatus): nat {
    match status
    case LocalFinal => 0
    case Exported => 1
    case RemoteFinalized => 2
  }

  ghost predicate ExportsGrow(s: State, s': State) {
    forall id :: id in s.exports ==>
      id in s'.exports && s'.exports[id].leaf == s.exports[id].leaf
      && StatusRank(s.exports[id].status) <= StatusRank(s'.exports[id].status)
  }

  ghost predicate ObservedGrow(s: State, s': State) {
    forall id :: id in s.observed ==>
      id in s'.observed && s'.observed[id].claim == s.observed[id].claim
      && (s.observed[id].status == ImportFinalized ==> s'.observed[id] == s.observed[id])
  }

  /** The lists of closed epochs are final. */
  ghost predicate ClosedListsKept(s: State, s': State, epoch: EpochId) {
    forall e: EpochId :: e < epoch ==> ExportIds(s', e) == ExportIds(s, e) && ImportIds(s', e) == ImportIds(s, e)
  }

  ghost predicate Evolves(s: State, s': State, epoch: EpochId) {
    ExportsGrow(s, s') && ObservedGrow(s, s') && ClosedListsKept(s, s', epoch) && s'.importer == s.importer
  }

  // ---------- create ----------

  lemma CreateExports(s: State, env: Env, who: Account, target: DomainId, recipient: Account, amount: nat,
                      allowed: bool, s': State)
    requires ExportsInv(s, env.domain, env.epoch)
    requires Create(s, env, who, target, recipient, amount, allowed) == Ok(s')
    requires ItemId(env.domain, s.nextSequence) !in s.exports
    ensures ExportsInv(s', env.domain, env.epoch)
  {
    var newId := ItemId(env.domain, s.nextSequence);
    forall id | id in s'.exports ensures ExportOk(s', env.domain, env.epoch, id) {
      if id != newId {
        assert ExportOk(s, env.domain, env.epoch, id);
      }
    }
    forall e: EpochId ensures ExportListOk(s', e) {
      assert ExportListOk(s, e);
    }
  }

  lemma CreateHolds(s: State, env: Env, who: Account, target: DomainId, recipient: Account, amount: nat, allowed: bool,
                    s': State)
    requires HoldsInv(s)
    requires Create(s, env, who, target, recipient, amount, allowed) == Ok(s')
    requires ItemId(env.domain, s.nextSequence) !in s.exports
    ensures HoldsInv(s')
  {
    hide Sum;
    var newId := ItemId(env.domain, s.nextSequence);
    forall a ensures HeldOf(s', a) == Outstanding(s'.exports, a) {
      assert HeldOf(s, a) == Outstanding(s.exports, a);
      assert s'.exports.Keys == s.exports.Keys + {newId};
      SumAdd(s.exports.Keys, newId, HoldWeight(s.exports, a), HoldWeight(s'.exports, a));
    }
  }

  lemma CreateEvolves(s: State, env: Env, who: Account, target: DomainId, recipient: Account, amount: nat,
                      allowed: bool, s': State)
    requires Create(s, env, who, target, recipient, amount, allowed) == Ok(s')
    requires ItemId(env.domain, s.nextSequence) !in s.exports
    ensures Evolves(s, s', env.epoch)
  {
  }

  lemma CreateKeeps(s: State, env: Env, who: Account, target: DomainId, recipient: Account, amount: nat, allowed: bool,
                    s': State)
    requires Inv(s, env.domain, env.epoch)
    requires Create(s, env, who, target, recipient, amount, allowed) == Ok(s')
    requires ItemId(env.domain, s.nextSequence) !in s.exports
    ensures Inv(s', env.domain, env.epoch) && Evolves(s, s', env.epoch)
  {
    CreateExports(s, env, who, target, recipient, amount, allowed, s');
    CreateHolds(s, env, who, target, recipient, amount, allowed, s');
    CreateEvolves(s, env, who, target, recipient, amount, allowed, s');
    ImportsUntouched(s, s', env.domain);
  }

  lemma ImportsUntouched(s: State, s': State, domain: DomainId)
    requires ImportsInv(s, domain) && s'.observed == s.observed && s'.epochImportIds == s.epochImportIds
    ensures ImportsInv(s', domain)
  {
    forall e: EpochId ensures ImportListOk(s', e) {
      assert ImportListOk(s, e);
    }
  }

  lemma ExportsUntouched(s: State, s': State, domain: DomainId, epoch: EpochId)
    requires ExportsInv(s, domain, epoch) && s'.exports == s.exports && s'.epochExportIds == s.epochExportIds
    requires s'.nextSequence == s.nextSequence
    ensures ExportsInv(s', domain, epoch)
  {
    forall id | id in s'.exports ensures ExportOk(s', domain, epoch, id) {
      assert ExportOk(s, domain, epoch, id);
    }
    forall e: EpochId ensures ExportListOk(s', e) {
      assert ExportListOk(s, e);
    }
  }

  /** Ids stay fresh until the 64-bit counter saturates. */
  lemma FreshUntilSaturation(s: State, domain: DomainId, epoch: EpochId)
    requires ExportsInv(s, domain, epoch) && s.nextSequence < U64_MAX
    ensures ItemId(domain, s.nextSequence) !in s.exports
  {
  }

  /** The id that a creation reuses is already held by an unresolved export. */
  predicate Overwrites(s: State, domain: DomainId) {
    var id := ItemId(domain, s.nextSequence);
    id in s.exports && s.exports[id].status != RemoteFinalized
  }

  /** Writing over an unresolved export loses its weight while the hold stays. */
  lemma OverwriteBreaksHolds(s: State, env: Env, who: Account, target: DomainId, recipient: Account, amount: nat,
                             allowed: bool, s': State)
    requires HoldsInv(s) && Overwrites(s, env.domain)
    requires s.exports[ItemId(env.domain, s.nextSequence)].leaf.input.amount > 0
    requires Create(s, env, who, target, recipient, amount, allowed) == Ok(s')
    ensures !HoldsInv(s')
  {
    hide Sum;
    var id := ItemId(env.domain, s.nextSequence);
    var a := s.exports[id].leaf.input.sender;
    assert s'.exports.Keys == s.exports.Keys;
    SumChange(s.exports.Keys, id, HoldWeight(s.exports, a), HoldWeight(s'.exports, a));
    assert HeldOf(s, a) == Outstanding(s.exports, a);
    assert HeldOf(s', a) != Outstanding(s'.exports, a);
  }

  lemma ReuseKeepsHolds(s: State, env: Env, who: Account, target: DomainId, recipient: Account, amount: nat,
                        allowed: bool, s': State)
    requires HoldsInv(s)
    requires Create(s, env, who, target, recipient, amount, allowed) == Ok(s')
    requires ItemId(env.domain, s.nextSequence) in s.exports && !Overwrites(s, env.domain)
    ensures HoldsInv(s')
  {
    hide Sum;
    var id := ItemId(env.domain, s.nextSequence);
    forall a ensures HeldOf(s', a) == Outstanding(s'.exports, a) {
      assert s'.exports.Keys == s.exports.Keys;
      SumChange(s.exports.Keys, id, HoldWeight(s.exports, a), HoldWeight(s'.exports, a));
      assert HeldOf(s, a) == Outstanding(s.exports, a);
    }
  }

  /** Once the counter has saturated a creation writes over the last export: the holds still
      add up exactly when that export is absent or resolved. */
  lemma CreateHoldsIff(s: State, env: Env, who: Account, target: DomainId, recipient: Account, amount: nat,
                       allowed: bool, s': State)
    requires ExportsInv(s, env.domain, env.epoch) && HoldsInv(s)
    requires Create(s, env, who, target, recipient, amount, allowed) == Ok(s')
    ensures HoldsInv(s') <==> !Overwrites(s, env.domain)
  {
    hide HoldsInv, Create;
    if Overwrites(s, env.domain) {
      assert ExportOk(s, env.domain, env.epoch, ItemId(env.domain, s.nextSequence));
      OverwriteBreaksHolds(s, env, who, target, recipient, amount, allowed, s');
    } else if ItemId(env.domain, s.nextSequence) in s.exports {
      ReuseKeepsHolds(s, env, who, target, recipient, amount, allowed, s');
    } else {
      CreateHolds(s, env, who, target, recipient, amount, allowed, s');
    }
  }

  /** A chain at the end of its ids: two creations in a row, the second of which breaks the
      holds. */
  lemma SaturatedOverwrite(env: Env, who: Account, target: DomainId, recipient: Account, amount: nat)
    requires target != env.domain && amount > 0
    ensures var s0 := Genesis(None, map[who := 2 * amount]).(nextSequence := U64_MAX);
            var r1 := Create(s0, env, who, target, recipient, amount, true);
            && Inv(s0, env.domain, env.epoch) && r1.Ok? && Inv(r1.value, env.domain, env.epoch)
            && Overwrites(r1.value, env.domain)
            && var r2 := Create(r1.value, env, who, target, recipient, amount, true);
               r2.Ok? && !HoldsInv(r2.value)
  {
    hide Sum;
    var s0 := Genesis(None, map[who := 2 * amount]).(nextSequence := U64_MAX);
    SaturatedGenesis(map[who := 2 * amount], env.domain, env.epoch);
    var s1 := Create(s0, env, who, target, recipient, amount, true).value;
    CreateKeeps(s0, env, who, target, recipient, amount, true, s1);
    assert s1.nextSequence == U64_MAX && FreeOf(s1, who) == amount;
    var s2 := Create(s1, env, who, target, recipient, amount, true).value;
    CreateHoldsIff(s1, env, who, target, recipient, amount, true, s2);
  }

  lemma SaturatedGenesis(free: map<Account, nat>, domain: DomainId, epoch: EpochId)
    ensures Inv(Genesis(None, free).(nextSequence := U64_MAX), domain, epoch)
  {
  }

  // ---------- observe and finalize ----------

  lemma ObserveKeeps(s: State, env: Env, who: Account, claim: ObservedClaim, s': State)
    requires Inv(s, env.domain, env.epoch) && Observe(s, env, who, claim) == Ok(s')
    ensures Inv(s', env.domain, env.epoch) && Evolves(s, s', env.epoch)
  {
    ExportsUntouched(s, s', env.domain, env.epoch);
    forall e: EpochId ensures ImportListOk(s', e) {
      assert ImportListOk(s, e);
    }
    HoldsUntouched(s, s');
  }

  lemma HoldsUntouched(s: State, s': State)
    requires HoldsInv(s) && s'.exports == s.exports && s'.held == s.held
    ensures HoldsInv(s')
  {
    forall a ensures HeldOf(s', a) == Outstanding(s'.exports, a) {
      assert HeldOf(s, a) == Outstanding(s.exports, a);
    }
  }

  lemma FinalizeKeeps(s: State, env: Env, who: Account, id: ItemId, allowed: bool, s': State)
    requires Inv(s, env.domain, env.epoch) && Finalize(s, env, who, id, allowed) == Ok(s')
    ensures Inv(s', env.domain, env.epoch) && Evolves(s, s', env.epoch)
  {
    ExportsUntouched(s, s', env.domain, env.epoch);
    forall e: EpochId ensures ImportListOk(s', e) {
      assert ImportListOk(s, e);
    }
    HoldsUntouched(s, s');
  }

  // ---------- acknowledge ----------

  lemma AcknowledgeExports(s: State, env: Env, who: Account, claim: FinalizationClaim, s': State)
    requires ExportsInv(s, env.domain, env.epoch) && Acknowledge(s, env, who, claim) == Ok(s')
    ensures ExportsInv(s', env.domain, env.epoch)
  {
    forall id | id in s'.exports ensures ExportOk(s', env.domain, env.epoch, id) {
      assert ExportOk(s, env.domain, env.epoch, id);
    }
    forall e: EpochId ensures ExportListOk(s', e) {
      assert ExportListOk(s, e);
    }
  }

  lemma AcknowledgeHolds(s: State, env: Env, who: Account, claim: FinalizationClaim, s': State)
    requires HoldsInv(s) && Acknowledge(s, env, who, claim) == Ok(s')
    ensures HoldsInv(s')
  {
    hide Sum;
    forall a ensures HeldOf(s', a) == Outstanding(s'.exports, a) {
      assert s'.exports.Keys == s.exports.Keys;
      SumChange(s.exports.Keys, claim.exportId, HoldWeight(s.exports, a), HoldWeight(s'.exports, a));
      assert HeldOf(s, a) == Outstanding(s.exports, a);
    }
  }

  lemma AcknowledgeEvolves(s: State, env: Env, who: Account, claim: FinalizationClaim, s': State)
    requires Acknowledge(s, env, who, claim) == Ok(s')
    ensures Evolves(s, s', env.epoch)
  {
  }

  lemma AcknowledgeKeeps(s: State, env: Env, who: Account, claim: FinalizationClaim, s': State)
    requires Inv(s, env.domain, env.epoch) && Acknowledge(s, env, who, claim) == Ok(s')
    ensures Inv(s', env.domain, env.epoch) && Evolves(s, s', env.epoch)
  {
    hide ExportsInv, HoldsInv, ImportsInv, Evolves;
    AcknowledgeExports(s, env, who, claim, s');
    AcknowledgeHolds(s, env, who, claim, s');
    AcknowledgeEvolves(s, env, who, claim, s');
    ImportsUntouched(s, s', env.domain);
  }

  /** The hold always covers the exact burn of an export that is not resolved yet. */
  lemma HoldCovers(s: State, id: ItemId)
    requires HoldsInv(s) && id in s.exports && s.exports[id].status != RemoteFinalized
    ensures s.exports[id].leaf.input.amount <= HeldOf(s, s.exports[id].leaf.input.sender)
  {
    var who := s.exports[id].leaf.input.sender;
    SumAtLeast(s.exports.Keys, HoldWeight(s.exports, who), id);
    assert HeldOf(s, who) == Outstanding(s.exports, who);
  }

  // ---------- epoch close ----------

  lemma {:induction false} ExportLeavesMembers(exports: map<ItemId, ExportRecord>, ids: seq<ItemId>, leaf: ExportLeaf)
    ensures leaf in ExportLeaves(exports, ids) <==> exists id :: id in ids && id in exports && exports[id].leaf == leaf
  {
    if ids != [] {
      ExportLeavesMembers(exports, ids[1..], leaf);
      assert forall id :: id in ids <==> id == ids[0] || id in ids[1..];
    }
  }

  lemma {:induction false} ImportLeavesMembers(observed: map<ItemId, ObservedRecord>, ids: seq<ItemId>,
                                               leaf: FinalizedImportLeaf)
    ensures leaf in ImportLeaves(observed, ids) <==>
            exists id :: id in ids && id in observed && observed[id].status == ImportFinalized
                         && FinalizedLeafOf(observed[id]) == leaf
  {
    if ids != [] {
      ImportLeavesMembers(observed, ids[1..], leaf);
      assert forall id :: id in ids <==> id == ids[0] || id in ids[1..];
    }
  }

  lemma CanonicalExportsMembers(s: State, epoch: EpochId, leaf: ExportLeaf)
    ensures leaf in CanonicalExports(s, epoch) <==>
            exists id :: id in ExportIds(s, epoch) && id in s.exports && s.exports[id].leaf == leaf
  {
    SortMembers(ExportLeaves(s.exports, ExportIds(s, epoch)), ExportLeq);
    ExportLeavesMembers(s.exports, ExportIds(s, epoch), leaf);
  }

  lemma CanonicalImportsMembers(s: State, epoch: EpochId, leaf: FinalizedImportLeaf)
    ensures leaf in CanonicalImports(s, epoch) <==>
            exists id :: id in ImportIds(s, epoch) && id in s.observed && s.observed[id].status == ImportFinalized
                         && FinalizedLeafOf(s.observed[id]) == leaf
  {
    SortMembers(ImportLeaves(s.observed, ImportIds(s, epoch)), ImportLeq);
    ImportLeavesMembers(s.observed, ImportIds(s, epoch), leaf);
  }

  /** Closing the open epoch turns exactly its exports from `LocalFinal` into `Exported`; no
      resolved export is written over. */
  lemma CommitEffect(s: State, domain: DomainId, epoch: EpochId, id: ItemId)
    requires ExportsInv(s, domain, epoch)
    ensures var s' := CommitExports(s, epoch);
            && (id in s'.exports <==> id in s.exports)
            && (id in s.exports ==>
                  s'.exports[id] == if s.exports[id].status == LocalFinal then s.exports[id].(status := Exported)
                      else s.exports[id])
  {
    var leaves := CanonicalExports(s, epoch);
    var ids := set leaf | leaf in leaves :: leaf.input.exportId;
    if id in s.exports {
      assert ExportOk(s, domain, epoch, id);
      CanonicalExportsMembers(s, epoch, s.exports[id].leaf);
      if id in ids {
        var leaf :| leaf in leaves && leaf.input.exportId == id;
        CanonicalExportsMembers(s, epoch, leaf);
        var k :| k in ExportIds(s, epoch) && k in s.exports && s.exports[k].leaf == leaf;
        assert ExportOk(s, domain, epoch, k) && ExportListOk(s, epoch);
      }
    }
  }

  lemma CommitExportsInv(s: State, domain: DomainId, epoch: EpochId)
    requires ExportsInv(s, domain, epoch)
    ensures ExportsInv(CommitExports(s, epoch), domain, epoch + 1) && ExportsGrow(s, CommitExports(s, epoch))
  {
    hide MarkExported, CanonicalExports;
    var s' := CommitExports(s, epoch);
    forall id | id in s'.exports ensures ExportOk(s', domain, epoch + 1, id) {
      CommitEffect(s, domain, epoch, id);
      assert ExportOk(s, domain, epoch, id);
    }
    forall e: EpochId ensures ExportListOk(s', e) {
      assert ExportListOk(s, e);
      forall id | id in ExportIds(s', e) ensures id in s'.exports && s'.exports[id].leaf.input.sourceEpoch == e {
        CommitEffect(s, domain, epoch, id);
      }
    }
    forall id | id in s.exports
      ensures id in s'.exports && s'.exports[id].leaf == s.exports[id].leaf
      ensures StatusRank(s.exports[id].status) <= StatusRank(s'.exports[id].status)
    {
      CommitEffect(s, domain, epoch, id);
    }
  }

  lemma CommitHolds(s: State, domain: DomainId, epoch: EpochId)
    requires ExportsInv(s, domain, epoch) && HoldsInv(s)
    ensures HoldsInv(CommitExports(s, epoch))
  {
    hide Sum, ExportsInv, CanonicalExports;
    var s' := CommitExports(s, epoch);
    forall a ensures HeldOf(s', a) == Outstanding(s'.exports, a) {
      assert HeldOf(s, a) == Outstanding(s.exports, a);
      assert s'.exports.Keys == s.exports.Keys;
      forall id | id in s.exports.Keys ensures HoldWeight(s.exports, a)(id) == HoldWeight(s'.exports, a)(id) {
        CommitEffect(s, domain, epoch, id);
      }
      SumSame(s.exports.Keys, HoldWeight(s.exports, a), HoldWeight(s'.exports, a));
    }
  }

  lemma CommitKeeps(s: State, domain: DomainId, epoch: EpochId)
    requires Inv(s, domain, epoch)
    ensures Inv(CommitExports(s, epoch), domain, epoch + 1) && Evolves(s, CommitExports(s, epoch), epoch)
  {
    CommitExportsInv(s, domain, epoch);
    CommitHolds(s, domain, epoch);
    ImportsUntouched(s, CommitExports(s, epoch), domain);
  }

  // ---------- committed lists are stable ----------

  lemma {:induction false} ExportLeavesSame(a: map<ItemId, ExportRecord>, b: map<ItemId, ExportRecord>,
                                            ids: seq<ItemId>)
    requires forall id :: id in ids ==> id in a && id in b && a[id].leaf == b[id].leaf
    ensures ExportLeaves(a, ids) == ExportLeaves(b, ids)
  {
    if ids != [] {
      ExportLeavesSame(a, b, ids[1..]);
    }
  }

  lemma {:induction false} ImportLeavesSame(a: map<ItemId, ObservedRecord>, b: map<ItemId, ObservedRecord>,
                                            ids: seq<ItemId>)
    requires forall id :: id in ids ==> id in a && id in b && a[id] == b[id]
    ensures ImportLeaves(a, ids) == ImportLeaves(b, ids)
  {
    if ids != [] {
      ImportLeavesSame(a, b, ids[1..]);
    }
  }

  /** The canonical leaves of a closed epoch are the same in every later state. */
  lemma ClosedEpochStable(s: State, s': State, domain: DomainId, epoch: EpochId, e: EpochId)
    requires Inv(s, domain, epoch) && Evolves(s, s', epoch) && e < epoch
    ensures CanonicalExports(s', e) == CanonicalExports(s, e) && CanonicalImports(s', e) == CanonicalImports(s, e)
  {
    assert ExportListOk(s, e) && ImportListOk(s, e);
    ExportLeavesSame(s.exports, s'.exports, ExportIds(s, e));
    ImportLeavesSame(s.observed, s'.observed, ImportIds(s, e));
  }

  /** Committing changes statuses only, so the closing epoch's own leaves stay too. */
  lemma CommitStable(s: State, domain: DomainId, epoch: EpochId)
    requires Inv(s, domain, epoch)
    ensures CanonicalExports(CommitExports(s, epoch), epoch) == CanonicalExports(s, epoch)
    ensures CanonicalImports(CommitExports(s, epoch), epoch) == CanonicalImports(s, epoch)
  {
    var s' := CommitExports(s, epoch);
    CommitExportsInv(s, domain, epoch);
    assert ExportListOk(s, epoch) && ImportListOk(s, epoch);
    ExportLeavesSame(s.exports, s'.exports, ExportIds(s, epoch));
  }

  lemma CanonicalLeavesAreCanonical(s: State, domain: DomainId, epoch: EpochId, e: EpochId)
    requires ExportsInv(s, domain, epoch)
    ensures AllCanonical(CanonicalExports(s, e), ExportCanonical)
    ensures AllCanonical(CanonicalImports(s, e), ImportCanonical)
  {
    var leaves, imports := CanonicalExports(s, e), CanonicalImports(s, e);
    forall i | 0 <= i < |leaves| ensures ExportCanonical(leaves[i]) {
      CanonicalExportsMembers(s, e, leaves[i]);
      var id :| id in ExportIds(s, e) && id in s.exports && s.exports[id].leaf == leaves[i];
      assert ExportOk(s, domain, epoch, id);
    }
    forall i | 0 <= i < |imports| ensures ImportCanonical(imports[i]) {
      CanonicalImportsMembers(s, e, imports[i]);
    }
  }

  /** A committed export leaf is the leaf of a stored export of that epoch. */
  lemma CommittedExport(s: State, domain: DomainId, epoch: EpochId, e: EpochId, leaf: ExportLeaf)
    requires ExportsInv(s, domain, epoch) && leaf in CanonicalExports(s, e)
    ensures var id := leaf.input.exportId;
            id in s.exports && s.exports[id].leaf == leaf && (e < epoch ==> s.exports[id].status != LocalFinal)
    ensures leaf.input.sourceDomain == domain && leaf.input.targetDomain != domain && leaf.input.sourceEpoch == e
  {
    hide CanonicalExports;
    CanonicalExportsMembers(s, e, leaf);
    var id :| id in ExportIds(s, e) && id in s.exports && s.exports[id].leaf == leaf;
    assert ExportListOk(s, e) && ExportOk(s, domain, epoch, id);
  }

  /** A committed completion leaf is that of an import finalized here. */
  lemma CommittedImport(s: State, domain: DomainId, e: EpochId, leaf: FinalizedImportLeaf)
    requires ImportsInv(s, domain) && leaf in CanonicalImports(s, e)
    ensures var id := leaf.input.exportId;
            id in s.observed && s.observed[id].status == ImportFinalized && FinalizedLeafOf(s.observed[id]) == leaf
    ensures leaf.input.targetDomain == domain
  {
    hide CanonicalImports;
    CanonicalImportsMembers(s, e, leaf);
    var id :| id in ImportIds(s, e) && id in s.observed && s.observed[id].status == ImportFinalized
              && FinalizedLeafOf(s.observed[id]) == leaf;
  }
}
