/** The epoch state machine (chain/pallets/epochs): blocks are tiled into epochs, each block is
    folded into the accumulators of its epoch, and at an epoch boundary a write-once,
    hash-chained summary header is staged. */
module Epochs {
  import opened Types

  datatype Observation = Observation(
    blockNumber: nat, stateRoot: Digest, extrinsicCount: nat, extrinsicsLen: nat, eventCount: nat)

  datatype Accumulators = Accumulators(
    stateRoot: Digest, blockRoot: Digest, txRoot: Digest, eventRoot: Digest,
    blocksObserved: nat, lastObserved: nat)

  datatype SlotStatus = Reserved | Staged

  datatype Slot = Slot(
    epoch: EpochId, startHeight: nat, endHeight: Option<nat>, reservedAt: nat, stagedAt: Option<nat>,
    lastTouched: nat, header: Option<SummaryHeader>, status: SlotStatus, accumulators: Accumulators)

  /** The answers of the three commitment providers for the epoch being closed. */
  datatype Roots = Roots(exportRoot: Digest, importRoot: Digest, governanceRoot: Digest)

  /** What the runtime context supplies while a block is initialised. */
  datatype Context = Context(domain: DomainId, parentHash: Digest, validatorSetHash: Digest)

  datatype State = State(
    length: nat, currentEpoch: EpochId, currentStart: nat, slots: map<EpochId, Slot>,
    headers: map<EpochId, SummaryHeader>, latestHeader: Option<SummaryHeader>, latestHash: Digest,
    count: nat, pending: Option<Observation>, initialized: bool)

  function Genesis(lengthBlocks: nat): State {
    State(if lengthBlocks == 0 then 1 else lengthBlocks, 0, 1, map[], map[], None, Zero, 0, None, false)
  }

  // ---------- specification ----------

  function SeedAccumulators(domain: DomainId, epoch: EpochId): Accumulators {
    Accumulators(Zero, Seed(BlockRoot, domain, epoch), Seed(TxRoot, domain, epoch),
                 Seed(EventRoot, domain, epoch), 0, 0)
  }

  function FreshSlot(domain: DomainId, epoch: EpochId, start: nat, block: nat): Slot {
    Slot(epoch, start, None, block, None, block, None, Reserved, SeedAccumulators(domain, epoch))
  }

  function FoldBlock(acc: Accumulators, block: nat, obs: Observation, blockHash: Digest): Accumulators {
    Accumulators(
      obs.stateRoot,
      Fold(acc.blockRoot, block, blockHash),
      Fold(acc.txRoot, block, TxEnvelope(block, obs.extrinsicCount, obs.extrinsicsLen)),
      Fold(acc.eventRoot, block, EventEnvelope(block, obs.eventCount)),
      SatAdd(acc.blocksObserved, 1, U32_MAX), block)
  }

  function HeaderFor(s: State, slot: Slot, ctx: Context, epoch: EpochId, end: nat, roots: Roots): SummaryHeader {
    var input := SummaryInput(
      SUMMARY_VERSION, ctx.domain, epoch, if epoch == 0 then Zero else s.latestHash, s.currentStart, end,
      slot.accumulators.stateRoot, slot.accumulators.blockRoot, slot.accumulators.txRoot, slot.accumulators.eventRoot,
      roots.exportRoot, roots.importRoot, roots.governanceRoot, ctx.validatorSetHash);
    SummaryHeader(input, SummaryDigest(input))
  }

  function StageHeader(s: State, slot: Slot, header: SummaryHeader, epoch: EpochId, end: nat, opening: nat): State {
    s.(slots := s.slots[epoch := slot.(endHeight := Some(end), stagedAt := Some(opening), lastTouched := opening,
                                       header := Some(header), status := Staged)],
       headers := s.headers[epoch := header], latestHeader := Some(header), latestHash := header.summaryHash,
       count := s.count + 1)
  }

  function CloseEpoch(s: State, ctx: Context, epoch: EpochId, end: nat, opening: nat, roots: Roots): State {
    var staged :=
      if epoch in s.slots && s.slots[epoch].status == Reserved then
        StageHeader(s, s.slots[epoch], HeaderFor(s, s.slots[epoch], ctx, epoch, end, roots), epoch, end, opening)
      else s;
    staged.(currentEpoch := epoch + 1, currentStart := opening,
            slots := staged.slots[epoch + 1 := FreshSlot(ctx.domain, epoch + 1, opening, opening)])
  }

  /** Whether initialising block `number` closes the current epoch. */
  predicate Closes(s: State, number: nat) {
    number > 1 && s.pending.Some? && (number - 1) % (if s.length == 0 then 1 else s.length) == 0
  }

  function FoldParent(s: State, ctx: Context, number: nat): State
    requires number > 1 && s.pending.Some?
  {
    var s1 := s.(pending := None);
    if s.currentEpoch in s.slots then
      var slot := s.slots[s.currentEpoch];
      s1.(slots := s.slots[s.currentEpoch := slot.(
        accumulators := FoldBlock(slot.accumulators, number - 1, s.pending.value, ctx.parentHash),
        lastTouched := number)])
    else s1
  }

  function OnInitialize(s: State, ctx: Context, number: nat, roots: Roots): State {
    if number == 0 then s else
      var s0 := if s.initialized then s
                else s.(initialized := true, slots := s.slots[0 := FreshSlot(ctx.domain, 0, 1, number)]);
      if number == 1 || s0.pending.None? then s0 else
        var s1 := FoldParent(s0, ctx, number);
        if Closes(s0, number) then CloseEpoch(s1, ctx, s1.currentEpoch, number - 1, number, roots) else s1
  }

  function OnFinalize(s: State, number: nat, obs: Observation): State {
    if number == 0 then s else s.(pending := Some(obs))
  }

  // ---------- the pallet ----------

  class Pallet {
    var length: nat
    var currentEpoch: EpochId
    var currentStart: nat
    var slots: map<EpochId, Slot>
    var headers: map<EpochId, SummaryHeader>
    var latestHeader: Option<SummaryHeader>
    var latestHash: Digest
    var count: nat
    var pending: Option<Observation>
    var initialized: bool

    function Storage(): State
      reads this
    {
      State(length, currentEpoch, currentStart, slots, headers, latestHeader, latestHash, count, pending, initialized)
    }

    constructor (lengthBlocks: nat)
      ensures Storage() == Genesis(lengthBlocks)
    {
      length := if lengthBlocks == 0 then 1 else lengthBlocks;
      currentEpoch, currentStart, slots, headers := 0, 1, map[], map[];
      latestHeader, latestHash, count, pending, initialized := None, Zero, 0, None, false;
    }

    method ReserveSlot(domain: DomainId, epoch: EpochId, start: nat, block: nat)
      modifies this`slots
      ensures slots == old(slots)[epoch := FreshSlot(domain, epoch, start, block)]
    {
      slots := slots[epoch := FreshSlot(domain, epoch, start, block)];
    }

    method StageSummaryForClosedEpoch(ctx: Context, epoch: EpochId, end: nat, opening: nat, roots: Roots)
      modifies this
      ensures Storage() == CloseEpoch(old(Storage()), ctx, epoch, end, opening, roots)
    {
      if epoch in slots && slots[epoch].status == Reserved {
        var slot := slots[epoch];
        var header := HeaderFor(Storage(), slot, ctx, epoch, end, roots);
        slots := slots[epoch := slot.(endHeight := Some(end), stagedAt := Some(opening), lastTouched := opening,
                                      header := Some(header), status := Staged)];
        headers := headers[epoch := header];
        latestHeader := Some(header);
        latestHash := header.summaryHash;
        count := count + 1;
      }
      currentEpoch := epoch + 1;
      currentStart := opening;
      ReserveSlot(ctx.domain, epoch + 1, opening, opening);
    }

    method ApplyParentBlockObservation(ctx: Context, number: nat, roots: Roots)
      requires number > 1
      modifies this
      ensures Storage() ==
        if old(pending).None? then old(Storage())
        else var s1 := FoldParent(old(Storage()), ctx, number);
             if Closes(old(Storage()), number) then CloseEpoch(s1, ctx, s1.currentEpoch, number - 1, number, roots)
                 else s1
    {
      if pending.None? {
        return;
      }
      var observation := pending.value;
      pending := None;
      if currentEpoch in slots {
        var slot := slots[currentEpoch];
        slots := slots[currentEpoch := slot.(
          accumulators := FoldBlock(slot.accumulators, number - 1, observation, ctx.parentHash),
              lastTouched := number)];
      }
      var epochLength := if length == 0 then 1 else length;
      if (number - 1) % epochLength == 0 {
        StageSummaryForClosedEpoch(ctx, currentEpoch, number - 1, number, roots);
      }
    }

    method OnInitializeBlock(ctx: Context, number: nat, roots: Roots)
      modifies this
      ensures Storage() == OnInitialize(old(Storage()), ctx, number, roots)
    {
      if number == 0 {
        return;
      }
      if !initialized {
        ReserveSlot(ctx.domain, 0, 1, number);
        initialized := true;
      }
      if number > 1 {
        ApplyParentBlockObservation(ctx, number, roots);
      }
    }

    method OnFinalizeBlock(number: nat, observation: Observation)
      modifies this`pending
      ensures Storage() == OnFinalize(old(Storage()), number, observation)
    {
      if number != 0 {
        pending := Some(observation);
      }
    }
  }

  // ---------- every run ----------

  /** A produced block: what `on_finalize` observed, the hash it got, and the validator set in force
      when the next block opened. */
  datatype BlockFacts = BlockFacts(observation: Observation, hash: Digest, validators: Digest)

  function FactsOf(observation: Observation, ctx: Context): BlockFacts {
    BlockFacts(observation, ctx.parentHash, ctx.validatorSetHash)
  }

  /** The accumulators the design calls for after blocks `first + 1 .. last` of an epoch;
      `blocks[i]` is block number `i + 1`. */
  function Expected(domain: DomainId, epoch: EpochId, blocks: seq<BlockFacts>, first: nat, last: nat): Accumulators
    requires first <= last <= |blocks|
    decreases last
  {
    if first == last then
      Accumulators(Zero, Seed(BlockRoot, domain, epoch), Seed(TxRoot, domain, epoch),
                 Seed(EventRoot, domain, epoch), 0, 0)
    else
      var before, obs := Expected(domain, epoch, blocks, first, last - 1), blocks[last - 1].observation;
      Accumulators(
        obs.stateRoot,
        Fold(before.blockRoot, last, blocks[last - 1].hash),
        Fold(before.txRoot, last, TxEnvelope(last, obs.extrinsicCount, obs.extrinsicsLen)),
        Fold(before.eventRoot, last, EventEnvelope(last, obs.eventCount)),
        Min(last - first, U32_MAX), last)
  }

  lemma {:induction false} ExpectedExtends(domain: DomainId, epoch: EpochId, blocks: seq<BlockFacts>,
                                           more: seq<BlockFacts>, first: nat, last: nat)
    requires first <= last <= |blocks| && blocks <= more
    ensures Expected(domain, epoch, blocks, first, last) == Expected(domain, epoch, more, first, last)
    decreases last
  {
    if first < last {
      ExpectedExtends(domain, epoch, blocks, more, first, last - 1);
    }
  }

  /** The last block before an epoch: `epoch * length`, in steps of one epoch. */
  function Before(epoch: EpochId, length: nat): nat {
    if epoch == 0 then 0 else Before(epoch - 1, length) + length
  }

  function PrevHash(headers: map<EpochId, SummaryHeader>, epoch: EpochId): Digest {
    if epoch == 0 then Zero else if epoch - 1 in headers then headers[epoch - 1].summaryHash else Zero
  }

  /** The header of one closed epoch: tiled, chained and folded. */
  ghost predicate HeaderOk(headers: map<EpochId, SummaryHeader>, epoch: EpochId, domain: DomainId, length: nat,
                           blocks: seq<BlockFacts>) {
    && epoch in headers
    && Before(epoch, length) + length <= |blocks|
    && HeaderMeets(headers[epoch], PrevHash(headers, epoch), domain, epoch,
                   Before(epoch, length), Before(epoch, length) + length, blocks)
  }

  ghost predicate HeaderMeets(header: SummaryHeader, prev: Digest, domain: DomainId, epoch: EpochId, first: nat,
                              last: nat, blocks: seq<BlockFacts>)
    requires first <= last <= |blocks|
  {
    var acc := Expected(domain, epoch, blocks, first, last);
    && header.summaryHash == SummaryDigest(header.input)
    && header.input.domain == domain && header.input.epoch == epoch && header.input.prevHash == prev
    && header.input.start == first + 1 && header.input.end == last
    && header.input.stateRoot == acc.stateRoot && header.input.blockRoot == acc.blockRoot
    && header.input.txRoot == acc.txRoot && header.input.eventRoot == acc.eventRoot
    && header.input.version == 1 && last > 0 && header.input.validatorSetHash == blocks[last - 1].validators
  }

  /** The staged headers are exactly those of the closed epochs. */
  ghost predicate HeadersOk(headers: map<EpochId, SummaryHeader>, current: EpochId, domain: DomainId, length: nat,
                            blocks: seq<BlockFacts>) {
    && (forall e: EpochId :: e in headers <==> e < current)
    && (forall e: EpochId :: e < current ==> HeaderOk(headers, e, domain, length, blocks))
  }

  /** The open epoch: its first block, its slot and what has been folded into it. */
  ghost predicate SlotOk(s: State, domain: DomainId, number: nat, blocks: seq<BlockFacts>) {
    var first := Before(s.currentEpoch, s.length);
    && |blocks| == number - 1
    && s.length >= 1 && first <= number - 1 < first + s.length
    && s.currentStart == first + 1
    && s.currentEpoch in s.slots && s.slots[s.currentEpoch].status == Reserved
    && s.slots[s.currentEpoch].startHeight == s.currentStart && s.slots[s.currentEpoch].epoch == s.currentEpoch
    && s.slots[s.currentEpoch].accumulators == Expected(domain, s.currentEpoch, blocks, first, number - 1)
  }

  /** The slot of a closed epoch records its header, its blocks and when it was staged. */
  ghost predicate ClosedSlotOk(slots: map<EpochId, Slot>, headers: map<EpochId, SummaryHeader>, e: EpochId) {
    && e in slots && e in headers
    && var slot, header := slots[e], headers[e];
       && slot.epoch == e && slot.status == Staged && slot.header == Some(header)
       && slot.startHeight == header.input.start && slot.endHeight == Some(header.input.end)
       && slot.stagedAt == Some(header.input.end + 1)
  }

  /** After `on_initialize` of block `number`, with the blocks before it. */
  ghost predicate Inv(s: State, domain: DomainId, number: nat, blocks: seq<BlockFacts>) {
    && number >= 1 && s.initialized
    && SlotOk(s, domain, number, blocks)
    && HeadersOk(s.headers, s.currentEpoch, domain, s.length, blocks)
    && s.latestHash == PrevHash(s.headers, s.currentEpoch)
    && s.count == s.currentEpoch
    && s.latestHeader == (if s.currentEpoch - 1 in s.headers then Some(s.headers[s.currentEpoch - 1]) else None)
    && forall e: EpochId :: e < s.currentEpoch ==> ClosedSlotOk(s.slots, s.headers, e)
  }

  lemma InvStart(lengthBlocks: nat, ctx: Context, roots: Roots)
    ensures Inv(OnInitialize(Genesis(lengthBlocks), ctx, 1, roots), ctx.domain, 1, [])
  {
  }

  lemma {:induction false} BeforeIsProduct(epoch: EpochId, length: nat)
    ensures Before(epoch, length) == epoch * length
  {
    if epoch > 0 {
      BeforeIsProduct(epoch - 1, length);
    }
  }

  lemma MulStep(a: nat, b: nat, m: nat)
    requires a < b
    ensures a * m + m <= b * m
  {
    assert b * m == (a + 1) * m + (b - a - 1) * m;
  }

  lemma DivUnique(n: nat, q: nat, m: nat, r: nat)
    requires m >= 1 && r < m && n == q * m + r
    ensures n / m == q && n % m == r
  {
    var q' := n / m;
    assert n == q' * m + n % m;
    if q < q' {
      MulStep(q, q', m);
    } else if q' < q {
      MulStep(q', q, m);
    }
  }

  /** Within one epoch the only multiple of the length is the last block. */
  lemma Boundary(n: nat, length: nat, epoch: EpochId)
    requires length >= 1 && Before(epoch, length) < n <= Before(epoch, length) + length
    ensures n % length == 0 <==> n == Before(epoch, length) + length
  {
    var first := Before(epoch, length);
    BeforeIsProduct(epoch, length);
    if n == first + length {
      BeforeIsProduct(epoch + 1, length);
      DivUnique(n, epoch + 1, length, 0);
    } else {
      DivUnique(n, epoch, length, n - first);
    }
  }

  lemma HeadersExtend(headers: map<EpochId, SummaryHeader>, current: EpochId, domain: DomainId, length: nat,
                      blocks: seq<BlockFacts>, more: seq<BlockFacts>)
    requires HeadersOk(headers, current, domain, length, blocks) && blocks <= more
    ensures HeadersOk(headers, current, domain, length, more)
  {
    forall e: EpochId | e < current ensures HeaderOk(headers, e, domain, length, more) {
      assert HeaderOk(headers, e, domain, length, blocks);
      ExpectedExtends(domain, e, blocks, more, Before(e, length), Before(e, length) + length);
    }
  }

  lemma FoldStep(s: State, ctx: Context, number: nat, blocks: seq<BlockFacts>)
    requires number >= 1 && SlotOk(s, ctx.domain, number, blocks) && s.pending.Some?
    ensures var s1 := FoldParent(s, ctx, number + 1);
            var first := Before(s.currentEpoch, s.length);
            s1.slots[s.currentEpoch].accumulators
            == Expected(ctx.domain, s.currentEpoch, blocks + [FactsOf(s.pending.value, ctx)], first,
                number)
  {
    var first := Before(s.currentEpoch, s.length);
    var more := blocks + [FactsOf(s.pending.value, ctx)];
    ExpectedExtends(ctx.domain, s.currentEpoch, blocks, more, first, number - 1);
    ExpectedCount(ctx.domain, s.currentEpoch, more, first, number - 1);
  }

  lemma ExpectedCount(domain: DomainId, epoch: EpochId, blocks: seq<BlockFacts>, first: nat, last: nat)
    requires first <= last <= |blocks|
    ensures Expected(domain, epoch, blocks, first, last).blocksObserved == Min(last - first, U32_MAX)
  {
  }

  /** The header of the epoch being closed meets its specification. */
  lemma NewHeaderMeets(s: State, ctx: Context, blocks: seq<BlockFacts>, roots: Roots)
    requires |blocks| == Before(s.currentEpoch, s.length) + s.length
    requires s.currentStart == Before(s.currentEpoch, s.length) + 1
    requires s.currentEpoch in s.slots
    requires s.slots[s.currentEpoch].accumulators
          == Expected(ctx.domain, s.currentEpoch, blocks, Before(s.currentEpoch, s.length), |blocks|)
    requires s.latestHash == PrevHash(s.headers, s.currentEpoch)
    requires |blocks| > 0 && blocks[|blocks| - 1].validators == ctx.validatorSetHash
    ensures HeaderMeets(HeaderFor(s, s.slots[s.currentEpoch], ctx, s.currentEpoch, |blocks|, roots),
                        PrevHash(s.headers, s.currentEpoch), ctx.domain, s.currentEpoch,
                        Before(s.currentEpoch, s.length), |blocks|, blocks)
  {
  }

  lemma AddHeader(headers: map<EpochId, SummaryHeader>, current: EpochId, header: SummaryHeader, domain: DomainId,
                  length: nat, blocks: seq<BlockFacts>)
    requires HeadersOk(headers, current, domain, length, blocks)
    requires Before(current, length) + length <= |blocks|
    requires HeaderMeets(header, PrevHash(headers, current), domain, current,
                         Before(current, length), Before(current, length) + length, blocks)
    ensures HeadersOk(headers[current := header], current + 1, domain, length, blocks)
  {
    var headers' := headers[current := header];
    forall e: EpochId | e < current + 1 ensures HeaderOk(headers', e, domain, length, blocks) {
      assert PrevHash(headers', e) == PrevHash(headers, e);
      if e != current {
        assert HeaderOk(headers, e, domain, length, blocks);
      }
    }
  }

  /** A block inside the epoch. */
  lemma InvStepInside(s: State, ctx: Context, number: nat, blocks: seq<BlockFacts>)
    requires Inv(s, ctx.domain, number, blocks) && s.pending.Some? && !Closes(s, number + 1)
    ensures Inv(FoldParent(s, ctx, number + 1), ctx.domain, number + 1,
                blocks + [FactsOf(s.pending.value, ctx)])
  {
    var more := blocks + [FactsOf(s.pending.value, ctx)];
    Boundary(number, s.length, s.currentEpoch);
    FoldStep(s, ctx, number, blocks);
    HeadersExtend(s.headers, s.currentEpoch, ctx.domain, s.length, blocks, more);
    var s1 := FoldParent(s, ctx, number + 1);
    forall e: EpochId | e < s.currentEpoch ensures ClosedSlotOk(s1.slots, s1.headers, e) {
      assert ClosedSlotOk(s.slots, s.headers, e);
    }
  }

  /** The last block of the epoch: its header is staged and the next epoch is opened. */
  lemma InvStepClosing(s: State, ctx: Context, number: nat, blocks: seq<BlockFacts>, roots: Roots)
    requires Inv(s, ctx.domain, number, blocks) && s.pending.Some? && Closes(s, number + 1)
    ensures Inv(CloseEpoch(FoldParent(s, ctx, number + 1), ctx, s.currentEpoch, number, number + 1, roots),
                ctx.domain, number + 1, blocks + [FactsOf(s.pending.value, ctx)])
  {
    hide HeadersOk, HeaderMeets;
    var more := blocks + [FactsOf(s.pending.value, ctx)];
    var s1 := FoldParent(s, ctx, number + 1);
    Boundary(number, s.length, s.currentEpoch);
    FoldStep(s, ctx, number, blocks);
    HeadersExtend(s.headers, s.currentEpoch, ctx.domain, s.length, blocks, more);
    NewHeaderMeets(s1, ctx, more, roots);
    AddHeader(s.headers, s.currentEpoch, HeaderFor(s1, s1.slots[s.currentEpoch], ctx, s.currentEpoch, number, roots),
              ctx.domain, s.length, more);
    ClosingSlots(s, ctx, number, roots);
  }

  lemma ClosingSlots(s: State, ctx: Context, number: nat, roots: Roots)
    requires s.pending.Some? && number >= 1 && s.currentEpoch in s.slots
    requires var slot := s.slots[s.currentEpoch];
             slot.status == Reserved && slot.startHeight == s.currentStart && slot.epoch == s.currentEpoch
    requires forall e: EpochId :: e < s.currentEpoch ==> ClosedSlotOk(s.slots, s.headers, e)
    ensures var s' := CloseEpoch(FoldParent(s, ctx, number + 1), ctx, s.currentEpoch, number, number + 1, roots);
            forall e: EpochId :: e < s.currentEpoch + 1 ==> ClosedSlotOk(s'.slots, s'.headers, e)
  {
    var s' := CloseEpoch(FoldParent(s, ctx, number + 1), ctx, s.currentEpoch, number, number + 1, roots);
    forall e: EpochId | e < s.currentEpoch + 1 ensures ClosedSlotOk(s'.slots, s'.headers, e) {
      if e < s.currentEpoch {
        assert ClosedSlotOk(s.slots, s.headers, e);
      }
    }
  }

  /** One more block keeps everything; at a boundary it stages exactly one header, which
      carries the roots the providers returned. */
  lemma InvStep(s: State, ctx: Context, number: nat, blocks: seq<BlockFacts>, roots: Roots)
    requires Inv(s, ctx.domain, number, blocks) && s.pending.Some?
    ensures var s' := OnInitialize(s, ctx, number + 1, roots);
            Inv(s', ctx.domain, number + 1, blocks + [FactsOf(s.pending.value, ctx)])
            && s'.pending.None? && s'.length == s.length
  {
    if Closes(s, number + 1) {
      InvStepClosing(s, ctx, number, blocks, roots);
    } else {
      InvStepInside(s, ctx, number, blocks);
    }
  }

  /** What a step does to the headers. */
  lemma HeaderStep(s: State, ctx: Context, number: nat, blocks: seq<BlockFacts>, roots: Roots)
    requires Inv(s, ctx.domain, number, blocks) && s.pending.Some?
    ensures var s' := OnInitialize(s, ctx, number + 1, roots);
            if Closes(s, number + 1) then
              && s'.currentEpoch == s.currentEpoch + 1
              && s.currentEpoch !in s.headers && s.currentEpoch in s'.headers
              && s'.headers == s.headers[s.currentEpoch := s'.headers[s.currentEpoch]]
              && s'.headers[s.currentEpoch].input.exportRoot == roots.exportRoot
              && s'.headers[s.currentEpoch].input.importRoot == roots.importRoot
              && s'.headers[s.currentEpoch].input.governanceRoot == roots.governanceRoot
              && s'.headers[s.currentEpoch].input.start == s.currentStart
              && s'.headers[s.currentEpoch].input.end == number
            else s'.currentEpoch == s.currentEpoch && s'.headers == s.headers
  {
  }

  /** The tiling in closed form: after `on_initialize` of block n the epoch is (n - 1) / L, and
      the header of epoch e covers exactly the blocks e * L + 1 .. (e + 1) * L. */
  lemma Tiling(s: State, domain: DomainId, number: nat, blocks: seq<BlockFacts>)
    requires Inv(s, domain, number, blocks)
    ensures s.currentEpoch == (number - 1) / s.length
    ensures forall e: EpochId :: e in s.headers <==> e < (number - 1) / s.length
    ensures forall e: EpochId :: e in s.headers ==>
              s.headers[e].input.start == e * s.length + 1 && s.headers[e].input.end == e * s.length + s.length
    ensures forall e: EpochId :: e in s.headers && e > 0 ==> s.headers[e].input.prevHash == s.headers[e - 1].summaryHash
  {
    BeforeIsProduct(s.currentEpoch, s.length);
    DivUnique(number - 1, s.currentEpoch, s.length, number - 1 - Before(s.currentEpoch, s.length));
    forall e: EpochId | e in s.headers
      ensures s.headers[e].input.start == e * s.length + 1 && s.headers[e].input.end == e * s.length + s.length
      ensures e > 0 ==> s.headers[e].input.prevHash == s.headers[e - 1].summaryHash
    {
      assert HeaderOk(s.headers, e, domain, s.length, blocks);
      BeforeIsProduct(e, s.length);
    }
  }
}
