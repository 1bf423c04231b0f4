/** The importer's pass over the export proofs of a verified package: observe what the chain does
    not know, finalize what it has not minted, skip the rest. */
module Importer {
  import opened Types
  import T = Transfers
  import TP = TransfersProofs
  import opened Network
  import opened Settlement

  datatype Verdict = AckedVerified | AckedDuplicateLocal | AckedDuplicateRemote | RetryLater

  /** The final state reported for a pass that went through. */
  function VerdictFor(finalized: nat, duplicateLocal: nat, duplicateRemote: nat): Verdict {
    if finalized > 0 then AckedVerified
    else if duplicateLocal > 0 && duplicateRemote == 0 then AckedDuplicateLocal
    else if duplicateRemote > 0 && duplicateLocal == 0 then AckedDuplicateRemote
    else AckedVerified
  }

  /** Two states differ only in the imports among `ids` and in balances. */
  ghost predicate SameElsewhere(t: T.State, t': T.State, ids: set<ItemId>) {
    && t'.importer == t.importer && t'.exports == t.exports && t'.held == t.held && t'.nextSequence == t.nextSequence
    && forall id :: id !in ids ==> (id in t'.observed <==> id in t.observed) && (id in t.observed ==>
         t'.observed[id] == t.observed[id])
  }

  /** Both calls for one export: the observation only when the chain has none. */
  method Submit(t: T.State, env: T.Env, who: Account, package: Package, proof: Inclusion<ExportLeaf>, mintable: bool)
    returns (t': T.State, ok: bool)
    requires T.Gate(t, who).None? && proof.leaf.input.targetDomain == env.domain && TP.ImportsInv(t, env.domain)
    requires !HasMinted(t, proof.leaf.input.exportId)
    ensures ok <==> mintable
    ensures HasMinted(t', proof.leaf.input.exportId) <==> mintable
    ensures T.Gate(t', who).None? && TP.ImportsInv(t', env.domain) && SameElsewhere(t, t', {proof.leaf.input.exportId})
    ensures var id := proof.leaf.input.exportId;
            id in t'.observed && t'.observed[id].claim == if id in t.observed then t.observed[id].claim
                else ClaimOf(package, proof.leaf)
    ensures mintable ==>
              var claim := t'.observed[proof.leaf.input.exportId].claim;
              t'.free == t.free[claim.recipient := T.FreeOf(t, claim.recipient) + claim.amount]
  {
    var id := proof.leaf.input.exportId;
    t' := t;
    if id !in t.observed {
      var observed := T.Observe(t, env, who, ClaimOf(package, proof.leaf));
      t' := observed.value;
      ObservedListsKept(t, env, who, ClaimOf(package, proof.leaf), t');
    }
    var finalized := T.Finalize(t', env, who, id, mintable);
    ok := finalized.Ok?;
    if ok {
      FinalizedListsKept(t', env, who, id, mintable, finalized.value);
      t' := finalized.value;
    }
  }

  lemma ObservedListsKept(t: T.State, env: T.Env, who: Account, claim: T.ObservedClaim, t': T.State)
    requires TP.ImportsInv(t, env.domain) && T.Observe(t, env, who, claim) == Ok(t')
    ensures TP.ImportsInv(t', env.domain)
  {
    forall e: EpochId ensures TP.ImportListOk(t', e) {
      assert TP.ImportListOk(t, e);
    }
  }

  lemma FinalizedListsKept(t: T.State, env: T.Env, who: Account, id: ItemId, allowed: bool, t': T.State)
    requires TP.ImportsInv(t, env.domain) && T.Finalize(t, env, who, id, allowed) == Ok(t')
    ensures TP.ImportsInv(t', env.domain)
  {
    forall e: EpochId ensures TP.ImportListOk(t', e) {
      assert TP.ImportListOk(t, e);
    }
  }

  function IdsOf(proofs: seq<Inclusion<ExportLeaf>>): set<ItemId> { set p | p in proofs :: p.leaf.input.exportId }

  /** The local index answers for the export at place `k`: it is listed there from an earlier pass,
      or an earlier place of this package put it there. */
  predicate AlreadyListed(index: set<ItemId>, proofs: seq<Inclusion<ExportLeaf>>, k: nat)
    requires k < |proofs|
  {
    var id := proofs[k].leaf.input.exportId;
    id in index || exists j :: 0 <= j < k && proofs[j].leaf.input.exportId == id
  }

  /** `process_forward_exports`.  Local index entries are exports already minted here.  A pass that
      is not put off leaves every export of the package minted; a replay changes nothing, and is
      reported as local when the index knew every export, as remote when it knew none. */
  method ProcessForwardExports(t: T.State, index: set<ItemId>, env: T.Env, who: Account, package: Package,
                               proofs: seq<Inclusion<ExportLeaf>>, mintable: set<ItemId>)
    returns (t': T.State, index': set<ItemId>, verdict: Verdict)
    requires T.Gate(t, who).None? && TP.ImportsInv(t, env.domain)
    requires forall p :: p in proofs ==> p.leaf.input.targetDomain == env.domain
    requires forall id :: id in index ==> HasMinted(t, id)
    ensures verdict == RetryLater <==> exists id :: id in IdsOf(proofs) && !HasMinted(t, id) && id !in mintable
    ensures verdict != RetryLater ==> index' == index + IdsOf(proofs)
    ensures forall id :: id in index' ==> HasMinted(t', id)
    ensures forall id :: HasMinted(t', id) ==> HasMinted(t, id) || (id in IdsOf(proofs) && id in mintable)
    ensures SameElsewhere(t, t', IdsOf(proofs)) && TP.ImportsInv(t', env.domain)
    ensures (forall id :: id in IdsOf(proofs) ==> HasMinted(t, id)) ==> t' == t
    ensures (exists id :: id in IdsOf(proofs) && !HasMinted(t, id)) && verdict != RetryLater ==>
        verdict == AckedVerified
    ensures (forall id :: id in IdsOf(proofs) ==> HasMinted(t, id)) ==>
              && (verdict == AckedDuplicateLocal <==> proofs != [] && IdsOf(proofs) <= index)
              && (verdict == AckedDuplicateRemote <==>
                    proofs != [] && forall k :: 0 <= k < |proofs| ==> !AlreadyListed(index, proofs, k))
  {
    hide HasMinted, SameElsewhere, TP.ImportsInv, T.Gate, IdsOf, AlreadyListed;
    t', index' := t, index;
    NothingDone(t, proofs);
    var finalized, duplicateLocal, duplicateRemote := 0, 0, 0;
    var i := 0;
    while i < |proofs|
      invariant 0 <= i <= |proofs|
      invariant index' == index + IdsOf(proofs[..i]) && forall id :: id in index' ==> HasMinted(t', id)
      invariant forall id :: HasMinted(t', id) <==> HasMinted(t, id) || (id in IdsOf(proofs[..i]))
      invariant forall id :: id in IdsOf(proofs[..i]) ==> HasMinted(t, id) || id in mintable
      invariant T.Gate(t', who).None? && SameElsewhere(t, t', IdsOf(proofs[..i])) && TP.ImportsInv(t', env.domain)
      invariant if finalized == 0 then t' == t else exists id :: id in IdsOf(proofs[..i]) && !HasMinted(t, id)
      invariant finalized + duplicateLocal + duplicateRemote == i
      invariant finalized == 0 ==> (duplicateRemote == 0 <==> IdsOf(proofs[..i]) <= index)
      invariant duplicateLocal == 0 <==> forall k :: 0 <= k < i ==> !AlreadyListed(index, proofs, k)
    {
      var id := proofs[i].leaf.input.exportId;
      IdsExtend(proofs, i);
      ListedSoFar(index, proofs, i);
      if HasMinted(t', id) {
        Widen(t, t', IdsOf(proofs[..i]), IdsOf(proofs[..i + 1]));
      }
      if id in index' {
        duplicateLocal := duplicateLocal + 1;
      } else if HasMinted(t', id) {
        duplicateRemote := duplicateRemote + 1;
        index' := index' + {id};
      } else {
        ghost var before := t';
        var ok;
        t', ok := Submit(t', env, who, package, proofs[i], id in mintable);
        MintsExtend(t, before, t', id, IdsOf(proofs[..i]));
        if !ok {
          Widen(t, t', IdsOf(proofs[..i + 1]), IdsOf(proofs));
          return t', index', RetryLater;
        }
        index' := index' + {id};
        finalized := finalized + 1;
      }
      i := i + 1;
    }
    assert proofs[..i] == proofs;
    verdict := VerdictFor(finalized, duplicateLocal, duplicateRemote);
  }

  lemma IdsExtend(proofs: seq<Inclusion<ExportLeaf>>, i: nat)
    requires i < |proofs|
    ensures IdsOf(proofs[..i + 1]) == IdsOf(proofs[..i]) + {proofs[i].leaf.input.exportId}
    ensures IdsOf(proofs[..i + 1]) <= IdsOf(proofs)
  {
    assert proofs[..i + 1] == proofs[..i] + [proofs[i]];
  }

  lemma ListedSoFar(index: set<ItemId>, proofs: seq<Inclusion<ExportLeaf>>, i: nat)
    requires i < |proofs|
    ensures AlreadyListed(index, proofs, i) <==> proofs[i].leaf.input.exportId in index + IdsOf(proofs[..i])
  {
    var id := proofs[i].leaf.input.exportId;
    if id in IdsOf(proofs[..i]) {
      var p :| p in proofs[..i] && p.leaf.input.exportId == id;
      var j :| 0 <= j < i && proofs[..i][j] == p;
      assert proofs[j].leaf.input.exportId == id;
    }
    forall j | 0 <= j < i && proofs[j].leaf.input.exportId == id ensures id in IdsOf(proofs[..i]) {
      assert proofs[..i][j] in proofs[..i];
    }
  }

  lemma NothingDone(t: T.State, proofs: seq<Inclusion<ExportLeaf>>)
    ensures IdsOf(proofs[..0]) == {} && SameElsewhere(t, t, {})
  {
  }

  lemma Widen(t: T.State, t': T.State, few: set<ItemId>, many: set<ItemId>)
    requires SameElsewhere(t, t', few) && few <= many
    ensures SameElsewhere(t, t', many)
  {
  }

  lemma MintsExtend(t: T.State, before: T.State, after: T.State, id: ItemId, done: set<ItemId>)
    requires SameElsewhere(t, before, done) && SameElsewhere(before, after, {id})
    ensures SameElsewhere(t, after, done + {id})
    ensures forall k :: k != id ==> (HasMinted(after, k) <==> HasMinted(before, k))
  {
  }
}
