/** The transfers pallet (chain/pallets/transfers): funds are held at the source, committed at
    epoch close, observed and minted at the destination, and burnt at the source once the
    mint has been proved.  This file holds the calls; TransfersProofs.dfy what they keep. */
module Transfers {
  import opened Types
  import opened Sorting
  import opened Commitments

  datatype ExportStatus = LocalFinal | Exported | RemoteFinalized
  datatype ImportStatus = RemoteObserved | ImportFinalized

  datatype Completion = Completion(summaryHash: Digest, packageHash: Digest, resolvedAt: nat, resolver: Account)
  datatype ExportRecord = ExportRecord(leaf: ExportLeaf, status: ExportStatus, completion: Option<Completion>)

  datatype ObservedClaim = ObservedClaim(
    exportId: ItemId, sourceDomain: DomainId, targetDomain: DomainId, sourceEpoch: EpochId,
    summaryHash: Digest, packageHash: Digest, recipient: Account, amount: nat)

  datatype ObservedRecord = ObservedRecord(
    claim: ObservedClaim, observedAt: nat, observer: Account, status: ImportStatus,
    finalizedAt: Option<nat>, finalizer: Option<Account>)

  datatype FinalizationClaim = FinalizationClaim(
    exportId: ItemId, sourceDomain: DomainId, targetDomain: DomainId, sourceEpoch: EpochId,
    recipient: Account, amount: nat, summaryHash: Digest, packageHash: Digest)

  datatype Error =
    | SameDomainTarget | ZeroAmount | HoldFailed | MissingImporterAccount | UnauthorizedImporter
    | WrongTargetDomain | DuplicateObservedImport | MissingObservedImport | DuplicateFinalizedImport
    | ImportNotObserved | MintFailed | MissingExportRecord | WrongSourceDomain
    | WrongClaimTargetDomain | CompletionMismatch | HoldResolutionFailed

  /** The pallet's storage together with the balances it moves. */
  datatype State = State(
    nextSequence: nat, epochExportIds: map<EpochId, seq<ItemId>>, exports: map<ItemId, ExportRecord>,
    importer: Option<Account>, observed: map<ItemId, ObservedRecord>, epochImportIds: map<EpochId, seq<ItemId>>,
    free: map<Account, nat>, held: map<Account, nat>)

  /** Where and when a call is executed. */
  datatype Env = Env(domain: DomainId, epoch: EpochId, height: nat, extrinsicIndex: nat)

  function Genesis(importer: Option<Account>, free: map<Account, nat>): State {
    State(0, map[], map[], importer, map[], map[], free, map[])
  }

  function ExportIds(s: State, epoch: EpochId): seq<ItemId> { Lookup(s.epochExportIds, epoch, []) }
  function ImportIds(s: State, epoch: EpochId): seq<ItemId> { Lookup(s.epochImportIds, epoch, []) }
  function FreeOf(s: State, who: Account): nat { Lookup(s.free, who, 0) }
  function HeldOf(s: State, who: Account): nat { Lookup(s.held, who, 0) }

  // ---------- specification of the calls ----------

  /** `allowed` is the currency's own verdict (deposits, freezes) beyond the free balance. */
  function Create(s: State, env: Env, who: Account, target: DomainId, recipient: Account, amount: nat, allowed: bool)
    : Result<State, Error>
  {
    if amount == 0 then Err(ZeroAmount)
    else if target == env.domain then Err(SameDomainTarget)
    else if !allowed || FreeOf(s, who) < amount then Err(HoldFailed)
    else
      var id := ItemId(env.domain, s.nextSequence);
      var leaf := MakeExportLeaf(ExportLeafInput(LEAF_VERSION, id, env.domain, target, who, recipient, amount,
                                                 env.epoch, env.height, env.extrinsicIndex));
      Ok(s.(nextSequence := SatAdd(s.nextSequence, 1, U64_MAX),
            free := s.free[who := FreeOf(s, who) - amount],
            held := s.held[who := HeldOf(s, who) + amount],
            exports := s.exports[id := ExportRecord(leaf, LocalFinal, None)],
            epochExportIds := s.epochExportIds[env.epoch := ExportIds(s, env.epoch) + [id]]))
  }

  function Gate(s: State, who: Account): Option<Error> {
    if s.importer.None? then Some(MissingImporterAccount)
    else if who != s.importer.value then Some(UnauthorizedImporter)
    else None
  }

  function Observe(s: State, env: Env, who: Account, claim: ObservedClaim): Result<State, Error> {
    if Gate(s, who).Some? then Err(Gate(s, who).value)
    else if claim.targetDomain != env.domain then Err(WrongTargetDomain)
    else if claim.exportId in s.observed then Err(DuplicateObservedImport)
    else Ok(s.(observed := s.observed[claim.exportId :=
                             ObservedRecord(claim, env.height, who, RemoteObserved, None, None)]))
  }

  function Finalize(s: State, env: Env, who: Account, id: ItemId, allowed: bool): Result<State, Error> {
    if Gate(s, who).Some? then Err(Gate(s, who).value)
    else if id !in s.observed then Err(MissingObservedImport)
    else
      var record := s.observed[id];
      if record.claim.targetDomain != env.domain then Err(WrongTargetDomain)
      else if record.status != RemoteObserved then Err(ImportNotObserved)
      else if !allowed then Err(MintFailed)
      else
        var to := record.claim.recipient;
        var ids := ImportIds(s, env.epoch);
        Ok(s.(free := s.free[to := FreeOf(s, to) + record.claim.amount],
              observed := s.observed[id := record.(status := ImportFinalized, finalizedAt := Some(env.height),
                                                   finalizer := Some(who))],
              epochImportIds := s.epochImportIds[env.epoch := if id in ids then ids else ids + [id]]))
  }

  /** The checks of `acknowledge_remote_finalization` on the stored export. */
  function AckCheck(record: ExportRecord, claim: FinalizationClaim): Option<Error> {
    var input := record.leaf.input;
    if input.sourceDomain != claim.sourceDomain then Some(WrongSourceDomain)
    else if input.targetDomain != claim.targetDomain then Some(WrongClaimTargetDomain)
    else if input.sourceEpoch != claim.sourceEpoch || input.recipient != claim.recipient || input.amount != claim.amount
      then Some(CompletionMismatch)
    else if record.status == RemoteFinalized then Some(DuplicateFinalizedImport)
    else if record.status != Exported then Some(CompletionMismatch)
    else None
  }

  function Acknowledge(s: State, env: Env, who: Account, claim: FinalizationClaim): Result<State, Error> {
    if Gate(s, who).Some? then Err(Gate(s, who).value)
    else if claim.sourceDomain != env.domain then Err(WrongSourceDomain)
    else if claim.exportId !in s.exports then Err(MissingExportRecord)
    else
      var record := s.exports[claim.exportId];
      var sender := record.leaf.input.sender;
      if AckCheck(record, claim).Some? then Err(AckCheck(record, claim).value)
      else if HeldOf(s, sender) < record.leaf.input.amount then Err(HoldResolutionFailed)
      else
        Ok(s.(held := s.held[sender := HeldOf(s, sender) - record.leaf.input.amount],
              exports := s.exports[claim.exportId := record.(status := RemoteFinalized,
                completion := Some(Completion(claim.summaryHash, claim.packageHash, env.height, who)))]))
  }

  /** `filter_map` over the ids of an epoch. */
  function ExportLeaves(exports: map<ItemId, ExportRecord>, ids: seq<ItemId>): seq<ExportLeaf> {
    if ids == [] then []
    else (if ids[0] in exports then [exports[ids[0]].leaf] else []) + ExportLeaves(exports, ids[1..])
  }

  function FinalizedLeafOf(record: ObservedRecord): FinalizedImportLeaf {
    MakeFinalizedLeaf(FinalizedLeafInput(
      LEAF_VERSION, record.claim.exportId, record.claim.sourceDomain, record.claim.targetDomain, record.claim.recipient,
      record.claim.amount, record.claim.sourceEpoch, record.claim.summaryHash, record.claim.packageHash))
  }

  function ImportLeaves(observed: map<ItemId, ObservedRecord>, ids: seq<ItemId>): seq<FinalizedImportLeaf> {
    if ids == [] then []
    else (if ids[0] in observed
      && observed[ids[0]].status == ImportFinalized then [FinalizedLeafOf(observed[ids[0]])] else [])
         + ImportLeaves(observed, ids[1..])
  }

  function CanonicalExports(s: State, epoch: EpochId): seq<ExportLeaf> {
    Sort(ExportLeaves(s.exports, ExportIds(s, epoch)), ExportLeq)
  }

  function CanonicalImports(s: State, epoch: EpochId): seq<FinalizedImportLeaf> {
    Sort(ImportLeaves(s.observed, ImportIds(s, epoch)), ImportLeq)
  }

  /** Every committed leaf's record becomes `Exported`, whatever it was. */
  function MarkExported(exports: map<ItemId, ExportRecord>, leaves: seq<ExportLeaf>): map<ItemId, ExportRecord> {
    var ids := set leaf | leaf in leaves :: leaf.input.exportId;
    map id | id in exports :: if id in ids then exports[id].(status := Exported) else exports[id]
  }

  function CommitExports(s: State, epoch: EpochId): State {
    s.(exports := MarkExported(s.exports, CanonicalExports(s, epoch)))
  }

  // ---------- the pallet ----------

  class Pallet {
    var nextSequence: nat
    var epochExportIds: map<EpochId, seq<ItemId>>
    var exports: map<ItemId, ExportRecord>
    var importer: Option<Account>
    var observed: map<ItemId, ObservedRecord>
    var epochImportIds: map<EpochId, seq<ItemId>>
    var free: map<Account, nat>
    var held: map<Account, nat>

    function Storage(): State
      reads this
    {
      State(nextSequence, epochExportIds, exports, importer, observed, epochImportIds, free, held)
    }

    constructor (importer: Option<Account>, free: map<Account, nat>)
      ensures Storage() == Genesis(importer, free)
    {
      nextSequence, epochExportIds, exports, observed, epochImportIds, held := 0, map[], map[], map[], map[], map[];
      this.importer, this.free := importer, free;
    }

    method CreateCrossDomainTransfer(env: Env, who: Account, target: DomainId, recipient: Account, amount: nat,
                                     allowed: bool)
      returns (error: Option<Error>)
      modifies this
      ensures match Create(old(Storage()), env, who, target, recipient, amount, allowed)
              case Ok(s) => error == None && Storage() == s
              case Err(e) => error == Some(e) && Storage() == old(Storage())
    {
      if amount == 0 {
        return Some(ZeroAmount);
      }
      if target == env.domain {
        return Some(SameDomainTarget);
      }
      var balance := Lookup(free, who, 0);
      if !allowed || balance < amount {
        return Some(HoldFailed);
      }
      free := free[who := balance - amount];
      held := held[who := Lookup(held, who, 0) + amount];
      var sequence := nextSequence;
      nextSequence := SatAdd(sequence, 1, U64_MAX);
      var id := ItemId(env.domain, sequence);
      var leaf := MakeExportLeaf(ExportLeafInput(LEAF_VERSION, id, env.domain, target, who, recipient, amount,
                                                 env.epoch, env.height, env.extrinsicIndex));
      exports := exports[id := ExportRecord(leaf, LocalFinal, None)];
      epochExportIds := epochExportIds[env.epoch := Lookup(epochExportIds, env.epoch, []) + [id]];
      error := None;
    }

    method ObserveVerifiedImport(env: Env, who: Account, claim: ObservedClaim) returns (error: Option<Error>)
      modifies this`observed
      ensures match Observe(old(Storage()), env, who, claim)
              case Ok(s) => error == None && Storage() == s
              case Err(e) => error == Some(e) && Storage() == old(Storage())
    {
      if importer.None? {
        return Some(MissingImporterAccount);
      }
      if who != importer.value {
        return Some(UnauthorizedImporter);
      }
      if claim.targetDomain != env.domain {
        return Some(WrongTargetDomain);
      }
      if claim.exportId in observed {
        return Some(DuplicateObservedImport);
      }
      observed := observed[claim.exportId := ObservedRecord(claim, env.height, who, RemoteObserved, None, None)];
      error := None;
    }

    method FinalizeVerifiedImport(env: Env, who: Account, id: ItemId, allowed: bool) returns (error: Option<Error>)
      modifies this
      ensures match Finalize(old(Storage()), env, who, id, allowed)
              case Ok(s) => error == None && Storage() == s
              case Err(e) => error == Some(e) && Storage() == old(Storage())
    {
      if importer.None? {
        return Some(MissingImporterAccount);
      }
      if who != importer.value {
        return Some(UnauthorizedImporter);
      }
      if id !in observed {
        return Some(MissingObservedImport);
      }
      var record := observed[id];
      if record.claim.targetDomain != env.domain {
        return Some(WrongTargetDomain);
      }
      if record.status != RemoteObserved {
        return Some(ImportNotObserved);
      }
      if !allowed {
        return Some(MintFailed);
      }
      var recipient := record.claim.recipient;
      free := free[recipient := Lookup(free, recipient, 0) + record.claim.amount];
      record := record.(status := ImportFinalized, finalizedAt := Some(env.height), finalizer := Some(who));
      observed := observed[id := record];
      var ids := Lookup(epochImportIds, env.epoch, []);
      if id !in ids {
        ids := ids + [id];
      }
      epochImportIds := epochImportIds[env.epoch := ids];
      error := None;
    }

    method AcknowledgeRemoteFinalization(env: Env, who: Account, claim: FinalizationClaim)
      returns (error: Option<Error>)
      modifies this`held, this`exports
      ensures match Acknowledge(old(Storage()), env, who, claim)
              case Ok(s) => error == None && Storage() == s
              case Err(e) => error == Some(e) && Storage() == old(Storage())
    {
      if importer.None? {
        return Some(MissingImporterAccount);
      }
      if who != importer.value {
        return Some(UnauthorizedImporter);
      }
      if claim.sourceDomain != env.domain {
        return Some(WrongSourceDomain);
      }
      if claim.exportId !in exports {
        return Some(MissingExportRecord);
      }
      var record := exports[claim.exportId];
      var input := record.leaf.input;
      if input.sourceDomain != claim.sourceDomain {
        return Some(WrongSourceDomain);
      }
      if input.targetDomain != claim.targetDomain {
        return Some(WrongClaimTargetDomain);
      }
      if input.sourceEpoch != claim.sourceEpoch || input.recipient != claim.recipient || input.amount != claim.amount {
        return Some(CompletionMismatch);
      }
      if record.status == RemoteFinalized {
        return Some(DuplicateFinalizedImport);
      }
      if record.status != Exported {
        return Some(CompletionMismatch);
      }
      var onHold := Lookup(held, input.sender, 0);
      if onHold < input.amount {
        return Some(HoldResolutionFailed);
      }
      held := held[input.sender := onHold - input.amount];
      record := record.(status := RemoteFinalized,
                        completion := Some(Completion(claim.summaryHash, claim.packageHash, env.height, who)));
      exports := exports[claim.exportId := record];
      error := None;
    }

    /** The loop of `commit_epoch_exports` over the canonical leaves. */
    method MarkLeaves(leaves: seq<ExportLeaf>)
      modifies this`exports
      ensures exports == MarkExported(old(exports), leaves)
    {
      for i := 0 to |leaves|
        invariant exports == MarkExported(old(exports), leaves[..i])
      {
        MarkOneMore(old(exports), leaves, i);
        var id := leaves[i].input.exportId;
        if id in exports && exports[id].status != Exported {
          exports := exports[id := exports[id].(status := Exported)];
        }
      }
      assert leaves[..|leaves|] == leaves;
    }

    /** `commit_epoch_exports`: the root over the canonical leaves, and every leaf marked. */
    method CommitEpochExports(domain: DomainId, epoch: EpochId, start: nat, end: nat) returns (root: Digest)
      modifies this`exports
      ensures Storage() == CommitExports(old(Storage()), epoch)
      ensures root == ExportRoot(domain, epoch, start, end, CanonicalExports(old(Storage()), epoch))
    {
      var leaves := CanonicalExports(Storage(), epoch);
      root := ComputeCommitRoot(ExportTree, EmptyRoot(ExportTree, domain, epoch, start, end), leaves, ExportHash,
          ExportLeq);
      MarkLeaves(leaves);
    }

    /** `commit_epoch_imports`: only a root, no change. */
    method CommitEpochImports(domain: DomainId, epoch: EpochId, start: nat, end: nat) returns (root: Digest)
      ensures root == ImportRoot(domain, epoch, start, end, CanonicalImports(Storage(), epoch))
    {
      var leaves := CanonicalImports(Storage(), epoch);
      root := ComputeCommitRoot(ImportTree, EmptyRoot(ImportTree, domain, epoch, start, end), leaves, ImportHash,
          ImportLeq);
    }
  }

  lemma MarkOneMore(exports: map<ItemId, ExportRecord>, leaves: seq<ExportLeaf>, i: nat)
    requires i < |leaves|
    ensures var marked, id := MarkExported(exports, leaves[..i]), leaves[i].input.exportId;
            MarkExported(exports, leaves[..i + 1])
            == if id in marked && marked[id].status != Exported then marked[id := marked[id].(status := Exported)]
                else marked
  {
    assert leaves[..i + 1] == leaves[..i] + [leaves[i]];
    var ids := set leaf | leaf in leaves[..i] :: leaf.input.exportId;
    var ids' := set leaf | leaf in leaves[..i + 1] :: leaf.input.exportId;
    assert ids' == ids + {leaves[i].input.exportId};
  }
}
