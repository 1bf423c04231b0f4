/** The shared vocabulary of the three domains: identifiers, hashes, leaves, proofs,
    headers and packages (crates/common-types).

    Hashes are modelled by a free datatype: two digests are equal exactly when the same
    constructor was applied to the same contents, which is what an ideal, domain-separated
    hash promises.  SCALE encoding is the identity, except that bytes received from outside
    may fail to decode. */
module Types {
  datatype Option<+T> = None | Some(value: T)
  datatype Result<+T, +E> = Ok(value: T) | Err(error: E)

  const U32_MAX: nat := 0xFFFF_FFFF
  const U64_MAX: nat := 0xFFFF_FFFF_FFFF_FFFF
  const U128_MAX: nat := 0xFFFF_FFFF_FFFF_FFFF_FFFF_FFFF_FFFF_FFFF

  function Min(a: nat, b: nat): nat { if a <= b then a else b }

  /** `saturating_add` and `saturating_mul` at the width whose largest value is `max`. */
  function SatAdd(a: nat, b: nat, max: nat): nat { Min(a + b, max) }
  function SatMul(a: nat, b: nat, max: nat): nat { Min(a * b, max) }

  /** The `as u32` cast. */
  function AsU32(n: nat): (r: nat)
    ensures n <= U32_MAX ==> r == n
  {
    n % 0x1_0000_0000
  }

  datatype DomainId = Earth | Moon | Mars

  /** The derived `Ord` of the enumeration. */
  function DomainRank(d: DomainId): nat {
    match d
    case Earth => 0
    case Moon => 1
    case Mars => 2
  }

  type EpochId = nat
  type Account = nat

  /** An export or proposal id: the hash of its domain and its sequence number. */
  datatype ItemId = ItemId(domain: DomainId, sequence: nat)

  datatype Family = ExportTree | ImportTree | GovernanceTree
  datatype AccumulatorLabel = BlockRoot | TxRoot | EventRoot

  datatype Digest =
    | Zero
    | Foreign(bytes: nat)
    | ExportDigest(exported: ExportLeafInput)
    | ImportDigest(completion: FinalizedLeafInput)
    | ProposalDigest(proposal: ProposalLeafInput)
    | AckDigest(ack: AckLeafInput)
    | PayloadDigest(newVersion: nat)
    | Node(family: Family, left: Digest, right: Digest)
    | EmptyRoot(family: Family, domain: DomainId, epoch: EpochId, start: nat, end: nat)
    | Seed(kind: AccumulatorLabel, domain: DomainId, epoch: EpochId)
    | Fold(accumulator: Digest, block: nat, payload: Digest)
    | TxEnvelope(block: nat, extrinsicCount: nat, extrinsicsLen: nat)
    | EventEnvelope(block: nat, eventCount: nat)
    | SummaryDigest(summary: SummaryInput)
    | BlockDigest(header: BlockHeader)
    | PackageDigest(package: PackageInput)

  datatype ExportLeafInput = ExportLeafInput(
    version: nat, exportId: ItemId, sourceDomain: DomainId, targetDomain: DomainId,
    sender: Account, recipient: Account, amount: nat,
    sourceEpoch: EpochId, sourceBlock: nat, extrinsicIndex: nat)

  /** A leaf carries the hash that was stored with it; it is canonical when that hash is
      the hash of its contents. */
  datatype ExportLeaf = ExportLeaf(input: ExportLeafInput, exportHash: Digest) {
    predicate Canonical() { exportHash == ExportDigest(input) }
  }

  datatype FinalizedLeafInput = FinalizedLeafInput(
    version: nat, exportId: ItemId, sourceDomain: DomainId, targetDomain: DomainId,
    recipient: Account, amount: nat, sourceEpoch: EpochId,
    summaryHash: Digest, packageHash: Digest)

  datatype FinalizedImportLeaf = FinalizedImportLeaf(input: FinalizedLeafInput, importHash: Digest) {
    predicate Canonical() { importHash == ImportDigest(input) }
  }

  datatype ProposalLeafInput = ProposalLeafInput(
    version: nat, proposalId: ItemId, sourceDomain: DomainId, targetDomain: DomainId,
    targetDomains: seq<DomainId>, proposer: Account, payloadHash: Digest, newVersion: nat,
    createdEpoch: EpochId, votingStart: EpochId, votingEnd: EpochId,
    approvalEpoch: EpochId, activationEpoch: EpochId)

  datatype AckLeafInput = AckLeafInput(
    version: nat, proposalId: ItemId, sourceDomain: DomainId, targetDomain: DomainId,
    acknowledgingDomain: DomainId, targetDomains: seq<DomainId>, payloadHash: Digest,
    newVersion: nat, activationEpoch: EpochId, acknowledgedEpoch: EpochId)

  datatype GovernanceLeaf =
    | ProposalLeaf(proposal: ProposalLeafInput, leafHash: Digest)
    | AckLeaf(ack: AckLeafInput, leafHash: Digest)
  {
    predicate Canonical() {
      match this
      case ProposalLeaf(input, hash) => hash == ProposalDigest(input)
      case AckLeaf(input, hash) => hash == AckDigest(input)
    }
    function TargetDomain(): DomainId {
      match this
      case ProposalLeaf(input, _) => input.targetDomain
      case AckLeaf(input, _) => input.targetDomain
    }
    function ProposalId(): ItemId {
      match this
      case ProposalLeaf(input, _) => input.proposalId
      case AckLeaf(input, _) => input.proposalId
    }
    function OrderingDomain(): DomainId {
      match this
      case ProposalLeaf(input, _) => input.sourceDomain
      case AckLeaf(input, _) => input.acknowledgingDomain
    }
    /** The epoch whose governance root commits to this leaf. */
    function LeafEpoch(): EpochId {
      match this
      case ProposalLeaf(input, _) => input.approvalEpoch
      case AckLeaf(input, _) => input.acknowledgedEpoch
    }
  }

  datatype SummaryInput = SummaryInput(
    version: nat, domain: DomainId, epoch: EpochId, prevHash: Digest, start: nat, end: nat,
    stateRoot: Digest, blockRoot: Digest, txRoot: Digest, eventRoot: Digest,
    exportRoot: Digest, importRoot: Digest, governanceRoot: Digest, validatorSetHash: Digest)

  datatype SummaryHeader = SummaryHeader(input: SummaryInput, summaryHash: Digest)

  datatype BlockHeader = BlockHeader(parentHash: Digest, number: nat, stateRoot: Digest)

  /** Bytes received from outside: they decode to a value or they do not. */
  datatype Encoded<T> = Encoded(value: T) | Garbage

  datatype Inclusion<L> = Inclusion(
    version: nat, leaf: L, leafIndex: nat, leafCount: nat, siblings: seq<Digest>)

  datatype InclusionProof =
    | StorageProof(proofBlockNumber: nat, proofBlockHash: Digest, storageEpoch: EpochId)
    | ExportProof(exportProof: Inclusion<ExportLeaf>)
    | FinalizedImportProof(importProof: Inclusion<FinalizedImportLeaf>)
    | GovernanceProof(governanceProof: Inclusion<GovernanceLeaf>)

  datatype Certificate = Certificate(
    grandpaSetId: nat, targetNumber: nat, targetHash: Digest, proofNumber: nat, proofHash: Digest,
    ancestry: seq<Encoded<BlockHeader>>)

  datatype PackageInput = PackageInput(
    version: nat, header: SummaryHeader, certificate: Certificate,
    inclusionProofs: seq<Encoded<InclusionProof>>, artifacts: seq<nat>)

  datatype Package = Package(input: PackageInput, packageHash: Digest)

  const LEAF_VERSION: nat := 1
  const PROOF_VERSION: nat := 1
  const SUMMARY_VERSION: nat := 1
  const PACKAGE_VERSION: nat := 1

  function MakeExportLeaf(input: ExportLeafInput): (leaf: ExportLeaf)
    ensures leaf.Canonical()
  {
    ExportLeaf(input, ExportDigest(input))
  }

  function MakeFinalizedLeaf(input: FinalizedLeafInput): (leaf: FinalizedImportLeaf)
    ensures leaf.Canonical()
  {
    FinalizedImportLeaf(input, ImportDigest(input))
  }

  /** A stored map with a default value for missing keys (`ValueQuery`). */
  function Lookup<K, V>(m: map<K, V>, k: K, default: V): V {
    if k in m then m[k] else default
  }
}
