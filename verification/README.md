# IALP settlement and governance

A Dafny model of IALP, a three-domain (Earth, Moon, Mars) asynchronous settlement and governance protocol, with proofs about
every run of the three chains together.

Each chain holds funds at the source of a transfer, closes an epoch every *L* blocks with a summary header that commits to the
epoch's exports, finalized imports and governance leaves, and acts on other chains only through certified packages of inclusion
proofs. An exporter builds the packages, a relay delivers them after a link delay and outside blackout windows, an importer
verifies them and submits calls at the destination. Governance proposals travel the same way, are acknowledged by every target
and become active at a scheduled epoch.

## How the model is organised

| files | content |
|---|---|
| `Types`, `Sums`, `Sorting` | entities, ideal hashes, sums over sets, the canonical sort |
| `Merkle`, `Commitments` | Merkle roots and inclusion proofs, the three leaf families |
| `Epochs`, `Transfers`, `Governance`, `GovernancePallet` | the pallets: storage as a value, calls as functions on it, and classes whose methods are proved against those functions |
| `TransfersCalls`, `GovernanceCalls` | when each call is accepted, and what it does to which account and record |
| `TransfersProofs`, `GovernanceProofs`, `GovernanceSteps`, `GovernanceTiming`, `GovernanceFlow`, `Voting`, `Ballots` | what every call and hook keeps on one chain |
| `Packages`, `Exporter`, `Importer`, `Ancestry` | packages, their construction, verification and processing; finality ancestry |
| `Chain`, `Network` | one chain with its block hooks; the three chains, actions and evidence |
| `Settlement`, `History`, `Conservation`, `Agreement`, `Runs`, `Theorems`, `Origins`, `Activation`, `Versions`, `Delivery`, `Completion`, `Adoption` | invariants and theorems over every run |
| `Blackout`, `RelayQueue`, `RelayProgress`, `RelayStore`, `RelayRuns` | the relay: blackout search, life of a package, whether it can still arrive, store, runs of the whole relay |

Modelling decisions:

- Hashes are ideal: a digest is the constructor applied to what was hashed, so equal digests have equal contents. The tree tags
  keep the three families apart. SCALE bytes either decode to a value or do not.
- Export and proposal ids are the hashed pair of domain and sequence number. Leaves are ordered by that pair rather than by digest
  bytes; only totality of the order is used.
- A certified header is one that its chain has staged. GRANDPA signatures and trie proofs stand behind this and are not modelled.
- Calls on a chain may come from anyone. The configured importer account, the only one that passes the pallets' gate, submits only
  claims backed by a package that passed `verify_package_flow`. No other assumption is made about delivery: packages may be late,
  repeated, reordered or never used.
- Runs hand out fresh ids: a creation whose id is in use, possible only after 2^64 - 1 creations on one chain, is not an admissible
  action. What such a creation does is stated separately, for all states.
- The currency may refuse a hold or a mint for its own reasons; that verdict is a parameter.
- Block numbers and epochs are unbounded; 32-bit positions in proofs, 32-bit heights in ancestry, 64-bit counters and times and
  128-bit balances saturate or wrap as in the code.

Findings, each with the exact condition under which the intended behaviour holds:

- The majority test of `close_proposal` is exact unless the turnout reaches 2^128 - 1; then nothing is approved
  (`Voting.MajorityExact`, `Voting.UnanimousRejected`).
- After the export counter saturates, a creation writes over the last export and breaks the hold bookkeeping exactly when that
  export is unresolved (`TransfersProofs.CreateHoldsIff`, `TransfersProofs.SaturatedOverwrite`). Value is lost exactly when that
  export has not been minted, or something has been minted under the id at the new target (`Conservation.CreationConservesIff`).
- An inclusion proof with a false leaf count can move a leaf to another position (`Merkle.FalseCountMovesPosition`); membership is
  unaffected, and `Merkle.PositionBinding` says when the position is right.
- The relay gives up after one attempt more than `max_attempts`, because the limit is compared with the count before the attempt
  (`RelayQueue.ExhaustedExactly`, `RelayQueue.ExhaustedAfter`, `RelayQueue.OneMoreThanConfigured`).
- `next_delivery_after` rounds down to milliseconds: its answer lies in a window exactly when some window ends inside a millisecond
  at the first instant left uncovered (`Blackout.DeliveryIsFree`); with whole-millisecond ends it is right
  (`Blackout.WholeEndsSuffice`).
- `attempt_delivery` checks the planned time, not the current one: a late tick can deliver inside a window
  (`RelayQueue.SentInBlackout`, `RelayQueue.SentOutsideBlackout`, `RelayQueue.LateTickIgnoresWindow`).
- A package whose planned time cannot be turned into a date is never sent, and every other unfinished one can still be
  acknowledged (`RelayProgress.DeliverableIff`). After a receipt that cannot be read it takes a restart
  (`RelayProgress.UnreadableReceiptWaits`).
- The relay compares whole envelopes, submission time included: the same package submitted again is a conflict unless it carries
  the same time (`RelayStore.ResubmissionNeedsSameTime`).
- `verify_ancestry_chain` accepts, besides true ancestors, one certificate that wraps around below genesis when 32-bit addition
  wraps (`Ancestry.AncestryIff`).

## Model

| member | source | states |
|---|---|---|
| Theorems.BurnHistory | chain/pallets/transfers/src/lib.rs:228-378 | in every run, a burnt hold has exactly one history: created, committed, minted, burnt, in this order; no event of the log occurs twice |
| Theorems.MintHistory | chain/pallets/transfers/src/lib.rs:228-309 | in every run, whatever is minted was minted once, only at its target, with the committed recipient and amount, after creation and commitment |
| Origins.MintTraced | chain/pallets/transfers/src/lib.rs:165-309 | in every run, whatever is minted goes back to exactly one transfer call and was paid by exactly one later finalization, at the domain that call named, to the recipient it named, the amount it named, and to nobody else |
| Origins.ExportOrigin | chain/pallets/transfers/src/lib.rs:165-224 | in every run, each export goes back to a transfer call whose caller, target, recipient, amount, epoch, height and index it carries |
| Origins.AccountStatement | chain/pallets/transfers/src/lib.rs:165-378 | in every run, the free balance of each account on each chain is its genesis balance plus the mints paid to it minus the transfers it made |
| Origins.LogsOnce | chain/pallets/transfers/src/lib.rs:165-421 | no two actions of a run create the same export, or mint it, or burn it |
| Theorems.SupplyIsConstant | chain/pallets/transfers/src/lib.rs:165-378 | in every run, free balances plus exports not yet minted at their target equal the genesis supply |
| Theorems.HappenedForever | chain/pallets/transfers/src/lib.rs:165-421 | in every run, what has happened to an export (created, committed, minted, burnt) stays so |
| Theorems.ResolvedForever | chain/pallets/transfers/src/lib.rs:406-418 | in every run a resolved export stays resolved; no later commitment overwrites it |
| Completion.EveryExportCanSettle | services/exporter/src/lib.rs:236-403 | from every reachable state, with importers at both ends and room in the epochs, every committed export has a legal continuation that observes, mints, proves back and resolves it |
| Adoption.EveryProposalCanActivate | chain/pallets/governance/src/lib.rs:389-866 | from every reachable state, with importers and room in the epochs, every approved proposal has a legal continuation after which its source and all its targets hold it active |
| Adoption.FullyAckedIsScheduled | chain/pallets/governance/src/lib.rs:738-801 | in every reachable state an approved proposal that knows the acknowledgements of all its targets is scheduled or active |
| Theorems.VerifiedForever | services/importer/src/lib.rs:1574-1587 | a package that verifies keeps verifying after any action on any chain |
| Theorems.ObservationAccepted | chain/pallets/transfers/src/lib.rs:228-260 | an observation backed by a verified package is refused only as a duplicate |
| Theorems.CompletionAccepted | chain/pallets/transfers/src/lib.rs:313-378 | a verified completion passes every field check and the hold covers the burn; it is refused only when already resolved |
| Agreement.HomeDomain | chain/pallets/governance/src/lib.rs:446-514 | every copy of a proposal names the source its id names |
| Theorems.CopiesAgree | chain/pallets/governance/src/lib.rs:446-579 | approved copies on any two chains agree on proposer, source, targets, payload, version and all epochs |
| Theorems.ScheduledEverywhere | chain/pallets/governance/src/lib.rs:738-801 | a proposal scheduled or active anywhere is held, with the same facts, by every target |
| Theorems.ActivatedOnTime | chain/pallets/governance/src/lib.rs:755-866 | an active record is never early; scheduled before its epoch e it was activated in block e*L+1, the first of e; otherwise within an epoch of scheduling, in a block of the recorded epoch |
| Activation.ActivatesInItsBlock | chain/pallets/governance/src/lib.rs:235-245 | in every run a scheduled proposal stays as it is until its block and is active, stamped with that block and its one epoch, from then on; the block is the next one if the epoch is already reached, else the first of the activation epoch |
| Activation.ActivatedForever | chain/pallets/governance/src/lib.rs:827-866 | in every run an active proposal keeps status, epoch and block of its activation |
| Activation.BlockStamp | chain/pallets/governance/src/lib.rs:235-245 | each block activates exactly the scheduled proposals whose epoch it has reached, with its own height |
| Activation.CallStamp | chain/pallets/governance/src/lib.rs:252-579 | no call touches the times of a scheduled or active proposal |
| Versions.HookVersion | chain/pallets/governance/src/lib.rs:235-245 | after a block the protocol version is that of the due proposal that comes last in the epoch's bucket followed by the ready queue; unchanged when none is due |
| Versions.SoleDueVersion | chain/pallets/governance/src/lib.rs:827-866 | a proposal that alone is due sets the version to its own |
| Versions.CallVersion | chain/pallets/governance/src/lib.rs:252-579 | calls never change the version |
| Versions.VersionIsActive | chain/pallets/governance/src/lib.rs:809-866 | in every run the version of a chain is its genesis version or that of a proposal active there |
| Theorems.ProposalAccepted | chain/pallets/governance/src/lib.rs:446-514 | a verified proposal from another chain is refused only as a duplicate |
| Theorems.AckAccepted | chain/pallets/governance/src/lib.rs:518-579 | a verified acknowledgement is refused only as a duplicate or ahead of its proposal |
| Theorems.ProposalIdsFresh | chain/pallets/governance/src/lib.rs:252-317 | new proposal ids are unused until the counter saturates |
| Delivery.CommittedCanBeObserved | services/exporter/src/lib.rs:335-396 | at any later time the exporter's package is evidence for observing a committed export at its target, and the call succeeds unless it is a duplicate |
| Delivery.MintedCanBeAcknowledged | services/exporter/src/lib.rs:335-396 | the same for acknowledging a mint of a closed epoch at its source |
| Delivery.ProposalCanBeImported | services/exporter/src/lib.rs:335-396 | the same for importing a committed proposal at each target |
| Delivery.AckCanBeImported | services/exporter/src/lib.rs:335-396 | the same for importing a committed acknowledgement where its proposal is known |
| Runs.EveryRun | chain/pallets/transfers/src/lib.rs:165-442 | every reachable state of the three chains satisfies all invariants, and total value never changes |
| Runs.GenesisExists | chain/pallets/transfers/src/lib.rs:99-106 | runs exist for every choice of importers, balances and voters |
| Runs.WorldStep | chain/runtime/src/lib.rs:161-168 | any admissible action on any chain keeps the whole invariant and the total value |
| Settlement.ObservationBacked | services/importer/src/lib.rs:1589-1633 | a verified export proof shows an export its source has committed, addressed here |
| Settlement.CompletionBacked | services/importer/src/lib.rs:1635-1678 | a verified completion proof shows an import minted at the issuing chain |
| Settlement.SettlementStep | services/importer/src/lib.rs:798-912 | observed imports match committed exports field by field, and resolved exports are minted, after every action |
| History.EventStep | chain/pallets/transfers/src/lib.rs:165-421 | each action causes exactly the events it logs, none of which had happened before, each after the one it follows from |
| History.LogStep | chain/pallets/transfers/src/lib.rs:165-421 | the log stays ordered, free of repetitions and equal to what storage says |
| Conservation.ValueStep | chain/pallets/transfers/src/lib.rs:264-309 | a mint moves exactly the exported amount from the source's exports in flight to the target's balances; nothing else moves value between domains |
| Conservation.ValueConserved | chain/pallets/transfers/src/lib.rs:165-378 | no admissible action changes the total value |
| Conservation.CreationConservesIff | chain/pallets/transfers/src/lib.rs:165-224 | a creation, under a new or a used id, conserves value exactly when an export it writes over has been minted at its target and nothing has been minted under the id at the new target |
| Conservation.SecondSaturatedCreation | chain/pallets/transfers/src/lib.rs:165-224 | at a saturated counter the second of two creations makes the first amount disappear |
| Conservation.SaturatedWorldLoses | chain/pallets/transfers/src/lib.rs:165-224 | such a world: two transfers of 3 from a balance of 10, the second of which loses 3 |
| Agreement.GovernanceLeafBacked | services/importer/src/lib.rs:1680-1741 | a verified governance proof shows a proposal or acknowledgement that the issuing chain holds |
| Agreement.AgreementStep | chain/pallets/governance/src/lib.rs:446-579 | imported copies state what their source approved and known acknowledgements are real, after every action |
| Agreement.ProposalOnly | chain/pallets/governance/src/lib.rs:252-514 | proposals appear only by creation at their source and by verified import |
| Agreement.AcksOnly | chain/pallets/governance/src/lib.rs:738-753 | acknowledgements become known only through an import here or a verified acknowledgement |
| Chain.NextBlockKeeps | chain/pallets/epochs/src/lib.rs:231-350 | across block boundaries, recomputing the roots of every staged epoch from current storage gives the stored header's roots |
| Chain.CallKeeps | chain/pallets/epochs/src/lib.rs:257-350 | pallet calls never disturb the roots of closed epochs |
| Network.ChainStep | chain/runtime/src/lib.rs:161-168 | every action keeps its chain's invariant and only moves its storage forward |
| Exporter.GroupByAddressee | services/exporter/src/lib.rs:450-486 | groups are the leaves per addressee, in order, and only non-empty groups exist |
| Exporter.GroupsPartition | services/exporter/src/lib.rs:450-486 | each leaf is in its addressee's group and in no other |
| Exporter.CombineTargetInputs | services/exporter/src/lib.rs:488-510 | one entry per domain with anything addressed to it, with all three kinds of leaves |
| Exporter.BuildPackages | services/exporter/src/lib.rs:252-396 | packages come out exactly when the roots match and every proof can be built, one per addressed domain |
| Exporter.FlowOfPack | crates/common-types/src/lib.rs:1527-1556 | unpacking a package returns the packed proofs of each kind, in order |
| Exporter.EndToEnd | services/exporter/src/lib.rs:335-396 | from sound epoch data a package is built that relay and importer accept and that carries exactly the addressed leaves |
| Exporter.PackagesAreDeliverable | services/exporter/src/lib.rs:257-448 | for every staged epoch of a reachable chain, up to 2^32 - 1 leaves per family: the root checks pass, every package builds, the importer accepts it with exactly its leaves, its envelope exists exactly when the items fit 32 bits and then passes the relay |
| Exporter.EnvelopeAccepted | services/exporter/src/lib.rs:405-448 | the relay envelope exists exactly when the item count fits 32 bits, and then passes validation |
| Packages.DeriveTargetDomain | services/relay/src/lib.rs:584-670 | finds the one domain all items are addressed to, and rejects exactly the packages without one |
| Packages.OneTarget | services/relay/src/lib.rs:584-670 | a package is well formed for at most one target |
| Packages.DecodeAndValidateEnvelope | services/relay/src/lib.rs:549-582 | accepts exactly the envelopes that agree with a well-formed, correctly hashed package |
| Packages.InspectForIngest | services/importer/src/lib.rs:1331-1428 | accepts exactly the packages well formed for this importer, with the item count |
| Packages.VerifyForwardExportProofs | services/importer/src/lib.rs:1589-1633 | returns the export proofs in order exactly when every item is readable and every export proof passes |
| Packages.VerifyFinalizedImportProofs | services/importer/src/lib.rs:1635-1678 | the same for completion proofs |
| Packages.VerifyGovernanceProofs | services/importer/src/lib.rs:1680-1741 | the same for governance proofs |
| Packages.VerifyPackageFlow | services/importer/src/lib.rs:1574-1587 | accepts exactly the packages in which every item passes its own verification, and returns them by kind |
| Packages.FlowItems | services/importer/src/lib.rs:1574-1741 | every proof in an accepted flow has passed |
| Importer.Submit | services/importer/src/lib.rs:830-878 | observes when needed, then mints exactly once; only a refused mint fails, and nothing else changes |
| Importer.ProcessForwardExports | services/importer/src/lib.rs:778-945 | a pass is put off exactly when an unminted export cannot be minted; otherwise all exports of the package are minted; a replay changes nothing and is reported as a local duplicate exactly when the index knew every export, as a remote one exactly when it knew none |
| Ancestry.AncestryHeaders | chain/node/src/rpc.rs:197-225 | returns the headers after the target up to the proof block exactly when none is missing |
| Ancestry.FindEarliestJustified | chain/node/src/rpc.rs:166-182 | returns the least justified block of the range, if any |
| Ancestry.VerifyAncestryChain | services/importer/src/lib.rs:1514-1541 | accepts exactly the certificates whose headers lead from target to proof block |
| Ancestry.AncestryIff | services/importer/src/lib.rs:1514-1541 | for a canonical proof block a certificate passes exactly when target and headers are canonical, apart from the wrap-around below genesis |
| Ancestry.AcceptedDescends | services/importer/src/lib.rs:1514-1541 | for any accepted certificate, parent links as many as the headers lead from proof block to target, and the heights differ by that number modulo 2^32 |
| Ancestry.CertificateRoundTrip | chain/node/src/rpc.rs:197-225 | headers gathered from a canonical chain always pass the importer's walk |
| Merkle.ComputeRoot | crates/common-types/src/lib.rs:1636-1655 | the level-by-level loop computes the recursive root, the last node paired with itself at odd widths |
| Merkle.CollectSiblings | crates/common-types/src/lib.rs:1671-1697 | the loop collects the sibling on each level |
| Merkle.VerifyClimb | crates/common-types/src/lib.rs:1713-1750 | the climbing loop accepts exactly what the recursive climb accepts |
| Merkle.Completeness | crates/common-types/src/lib.rs:1621-1750 | every position's siblings lead from its leaf to the root |
| Merkle.Soundness | crates/common-types/src/lib.rs:1713-1750 | whatever index, count and siblings are claimed, an accepted leaf is one of the leaves |
| Merkle.EmptyRootAcceptsNothing | crates/common-types/src/lib.rs:1603-1619 | no proof is accepted against an empty root |
| Merkle.PositionBinding | crates/common-types/src/lib.rs:1713-1750 | whatever count is claimed, an accepted leaf is the one at the claimed index exactly when that index is below the true count, and the siblings are as many as the tree is high |
| Merkle.FalseCountMovesPosition | crates/common-types/src/lib.rs:1713-1750 | with a false count it need not be |
| Merkle.RootDeterminesList | crates/common-types/src/lib.rs:1636-1655 | distinct leaf hashes: equal roots only for equal lists, despite last-node duplication |
| Sorting.SortIdempotent | crates/common-types/src/lib.rs:1592-1601 | sorting the sorted leaves again, as exporter and root do, changes nothing |
| Commitments.ComputeCommitRoot | crates/common-types/src/lib.rs:1621-1656 | sorts, then computes the root; the empty root for no leaves |
| Commitments.BuildInclusionProof | crates/common-types/src/lib.rs:1658-1711 | proof of the first wanted leaf in canonical order, index and count cut to 32 bits |
| Commitments.VerifyInclusionProof | crates/common-types/src/lib.rs:1713-1750 | canonical leaf and accepted climb |
| Commitments.ProofSound | crates/common-types/src/lib.rs:1713-1750 | an accepted proof shows a committed leaf, for every family |
| Commitments.ProofComplete | crates/common-types/src/lib.rs:1658-1750 | below 2^32 leaves every wanted leaf has a proof that verifies |
| Commitments.RootPermutation | crates/common-types/src/lib.rs:1592-1656 | the root does not depend on storage order |
| Commitments.RootCanonical | crates/common-types/src/lib.rs:1592-1656 | two non-empty lists with distinct keys have the same root exactly when they hold the same leaves |
| Commitments.ExportRootCanonical | crates/common-types/src/lib.rs:1592-1656 | the same for export leaves with distinct ids |
| Commitments.ExportSound | crates/common-types/src/lib.rs:1713-1750 | soundness of export proofs |
| Commitments.ImportSound | crates/common-types/src/lib.rs:1930-1970 | soundness of finalized-import proofs |
| Commitments.GovernanceSound | crates/common-types/src/lib.rs:2097-2137 | soundness of governance proofs |
| Epochs.Pallet.OnInitializeBlock | chain/pallets/epochs/src/lib.rs:201-255 | the hook changes storage as the specification says |
| Epochs.Pallet.OnFinalizeBlock | chain/pallets/epochs/src/lib.rs:220-229 | the observation of the block is kept for the next one |
| Epochs.Pallet.ApplyParentBlockObservation | chain/pallets/epochs/src/lib.rs:231-255 | the parent block is folded and the epoch closed at its boundary |
| Epochs.Pallet.StageSummaryForClosedEpoch | chain/pallets/epochs/src/lib.rs:257-350 | a reserved slot is staged once, with the given roots |
| Epochs.InvStep | chain/pallets/epochs/src/lib.rs:231-381 | each block keeps the accumulators equal to the fold over exactly the epoch's blocks, and every header at version 1 with the folds of its own blocks, the hash of its predecessor and the validator set of its last block |
| Epochs.HeaderStep | chain/pallets/epochs/src/lib.rs:257-350 | a boundary adds exactly one header, with the given roots and block range; nothing else touches headers |
| Epochs.Tiling | chain/pallets/epochs/src/lib.rs:231-350 | after block n the epoch is (n-1)/L, headers exist exactly for earlier epochs, cover their L blocks and chain by hash |
| Transfers.Pallet.CreateCrossDomainTransfer | chain/pallets/transfers/src/lib.rs:165-224 | storage after the call, or the error and unchanged storage |
| Transfers.Pallet.ObserveVerifiedImport | chain/pallets/transfers/src/lib.rs:228-260 | storage after the call, or the error and unchanged storage |
| Transfers.Pallet.FinalizeVerifiedImport | chain/pallets/transfers/src/lib.rs:264-309 | storage after the call, or the error and unchanged storage |
| Transfers.Pallet.AcknowledgeRemoteFinalization | chain/pallets/transfers/src/lib.rs:313-378 | storage after the call, or the error and unchanged storage |
| Transfers.Pallet.CommitEpochExports | chain/pallets/transfers/src/lib.rs:391-421 | the root of the epoch's exports, whose records become exported |
| Transfers.Pallet.CommitEpochImports | chain/pallets/transfers/src/lib.rs:434-442 | the root of the epoch's finalized imports, storage unchanged |
| TransfersCalls.CreateAccepted | chain/pallets/transfers/src/lib.rs:165-187 | accepted exactly for a positive amount, another domain, a currency that agrees and enough free balance |
| TransfersCalls.Created | chain/pallets/transfers/src/lib.rs:165-224 | the new export carries caller, target, recipient, amount, epoch, height and index of the call; the caller's amount moves from free to held, no other balance or export changes |
| TransfersCalls.ObserveAccepted | chain/pallets/transfers/src/lib.rs:228-260 | accepted exactly from the importer, for this domain, once per export |
| TransfersCalls.Observed | chain/pallets/transfers/src/lib.rs:228-260 | the claim is stored as given under its id; nothing else changes |
| TransfersCalls.FinalizeAccepted | chain/pallets/transfers/src/lib.rs:264-309 | accepted exactly from the importer for an observed, not yet finalized import of this domain |
| TransfersCalls.Finalized | chain/pallets/transfers/src/lib.rs:264-309 | the claim's recipient, and nobody else, gains the claim's amount; the import enters this epoch's list with caller and height |
| TransfersCalls.AcknowledgeAccepted | chain/pallets/transfers/src/lib.rs:313-378 | accepted exactly from the importer when every fact agrees with the stored, exported record and the hold covers the amount |
| TransfersCalls.Acknowledged | chain/pallets/transfers/src/lib.rs:313-378 | the sender's hold, and no other balance, shrinks by the amount; the record names summary, package, caller and height |
| TransfersCalls.FinalizedLeafSays | chain/pallets/transfers/src/lib.rs:423-432 | a completion leaf repeats the facts of its claim |
| TransfersProofs.CreateKeeps | chain/pallets/transfers/src/lib.rs:165-224 | with a fresh id: one more export in one epoch list, each hold the sum of unresolved exports |
| TransfersProofs.FreshUntilSaturation | chain/pallets/transfers/src/lib.rs:165-224 | export ids are fresh until the counter saturates |
| TransfersProofs.CreateHoldsIff | chain/pallets/transfers/src/lib.rs:165-224 | holds add up after a creation exactly when it does not write over an unresolved export |
| TransfersProofs.SaturatedOverwrite | chain/pallets/transfers/src/lib.rs:165-224 | two creations in a row at the last sequence number: the second breaks the holds |
| TransfersProofs.FinalizeKeeps | chain/pallets/transfers/src/lib.rs:264-309 | finalized records, closed epoch lists and exports never change |
| TransfersProofs.AcknowledgeKeeps | chain/pallets/transfers/src/lib.rs:313-378 | the hold shrinks by exactly the resolved export |
| TransfersProofs.HoldCovers | chain/pallets/transfers/src/lib.rs:350-370 | the hold of a sender covers each of the sender's unresolved exports |
| TransfersProofs.CommitEffect | chain/pallets/transfers/src/lib.rs:406-418 | a commitment marks exactly the local-final exports; a resolved export is never overwritten |
| TransfersProofs.CommitKeeps | chain/pallets/transfers/src/lib.rs:391-421 | the invariant moves on to the next epoch |
| TransfersProofs.ClosedEpochStable | chain/pallets/transfers/src/lib.rs:382-432 | the canonical lists of closed epochs never change |
| TransfersProofs.CommittedExport | chain/pallets/transfers/src/lib.rs:382-389 | a committed leaf is that of a stored, committed export of that epoch |
| TransfersProofs.CommittedImport | chain/pallets/transfers/src/lib.rs:423-432 | a committed completion is that of an import finalized here |
| GovernancePallet.Pallet.CreateProposalCall | chain/pallets/governance/src/lib.rs:252-317 | storage after the call, or the error and unchanged storage |
| GovernancePallet.Pallet.SnapshotVoters | chain/pallets/governance/src/lib.rs:279-285 | the loop records every voter's power and returns the saturated total |
| GovernancePallet.Pallet.CastVoteCall | chain/pallets/governance/src/lib.rs:321-385 | storage after the call, or the error and unchanged storage |
| GovernancePallet.Pallet.CloseProposalCall | chain/pallets/governance/src/lib.rs:389-442 | storage after the call, or the error and unchanged storage |
| GovernancePallet.Pallet.ImportVerifiedGovernanceProposal | chain/pallets/governance/src/lib.rs:446-514 | storage after the call, or the error and unchanged storage |
| GovernancePallet.Pallet.ImportVerifiedGovernanceAck | chain/pallets/governance/src/lib.rs:518-579 | storage after the call, or the error and unchanged storage |
| GovernancePallet.Pallet.InsertOutboundProposalLeaves | chain/pallets/governance/src/lib.rs:654-676 | one leaf per target, in order |
| GovernancePallet.Pallet.RecordLocalAckAndFanout | chain/pallets/governance/src/lib.rs:678-726 | the acknowledgement and one leaf per other domain involved |
| GovernancePallet.Pallet.NoteKnownAckDomain | chain/pallets/governance/src/lib.rs:738-753 | the acknowledging domain is added once, then scheduling is tried |
| GovernancePallet.Pallet.MaybeScheduleActivation | chain/pallets/governance/src/lib.rs:755-801 | storage after the attempt: scheduled, in a bucket or in the ready queue, when approved and acknowledged by all targets |
| GovernancePallet.Pallet.ActivateEpochBucket | chain/pallets/governance/src/lib.rs:809-814 | the loop tries every id of the bucket |
| GovernancePallet.Pallet.ActivateReadyQueue | chain/pallets/governance/src/lib.rs:816-825 | the loop tries every ready id and keeps the unsettled ones |
| GovernancePallet.Pallet.TryActivateProposal | chain/pallets/governance/src/lib.rs:827-866 | activates exactly when scheduled, due and fully acknowledged |
| GovernancePallet.Pallet.OnInitializeBlock | chain/pallets/governance/src/lib.rs:235-245 | bucket of the epoch, then ready queue |
| GovernancePallet.Pallet.CommitEpochGovernance | chain/pallets/governance/src/lib.rs:592-600 | the root of the epoch's leaves, storage unchanged |
| GovernanceCalls.ProposeAccepted | chain/pallets/governance/src/lib.rs:252-317 | accepted exactly for a non-empty list of distinct other domains and a version that is neither 0 nor the current one |
| GovernanceCalls.Proposed | chain/pallets/governance/src/lib.rs:252-317 | the proposal carries the caller, the version and its payload hash, the targets asked for in ascending order, and one epoch of voting; no other proposal changes |
| GovernanceCalls.VoteAccepted | chain/pallets/governance/src/lib.rs:321-350 | accepted exactly while voting is open, once per account, from accounts with recorded power |
| GovernanceCalls.BallotCounted | chain/pallets/governance/src/lib.rs:348-378 | the voter's recorded power is added to the sum of the choice given; the other sums, all other ballots and all other proposals are unchanged, and the stored choice is the one given |
| GovernanceCalls.CloseAccepted | chain/pallets/governance/src/lib.rs:389-400 | accepted exactly once, from the end of the vote on |
| GovernanceCalls.ImportProposalAccepted | chain/pallets/governance/src/lib.rs:446-480 | accepted exactly from the importer for an unknown proposal of another source that targets this domain and hashes its version |
| GovernanceCalls.ImportAckAccepted | chain/pallets/governance/src/lib.rs:518-560 | accepted exactly from the importer for a known proposal with the same facts, once per other target |
| GovernanceCalls.AckImported | chain/pallets/governance/src/lib.rs:518-579 | the acknowledgement is recorded and counted; the last one missing, and no other, schedules the proposal, in its bucket or, when its epoch has come, in the ready queue |
| GovernanceSteps.CreateKeeps | chain/pallets/governance/src/lib.rs:252-317 | with a fresh id the invariant is kept and nothing known changes |
| GovernanceSteps.CloseKeeps | chain/pallets/governance/src/lib.rs:389-442 | approval adds leaves backed by the approved proposal and an activation record that agrees with it |
| GovernanceSteps.ImportProposalKeeps | chain/pallets/governance/src/lib.rs:446-514 | an import keeps the invariant; the only new acknowledgement is the local one |
| GovernanceSteps.ImportAckKeeps | chain/pallets/governance/src/lib.rs:518-579 | the same for an acknowledgement, whose domain is the only new one |
| GovernanceSteps.ActivateEffect | chain/pallets/governance/src/lib.rs:809-866 | a list activates exactly the ids that can be, each once |
| GovernanceSteps.HookEffect | chain/pallets/governance/src/lib.rs:235-245 | each block activates exactly the due proposals, wherever they wait |
| GovernanceSteps.HookQueues | chain/pallets/governance/src/lib.rs:809-825 | after the hook nothing due is left scheduled and the ready queue is empty |
| GovernanceSteps.CommittedLeaf | chain/pallets/governance/src/lib.rs:583-590 | a committed leaf is backed by a stored, approved proposal |
| GovernanceSteps.ClosedEpochStable | chain/pallets/governance/src/lib.rs:583-600 | committed leaf lists never change |
| GovernanceFlow.ApprovalCommits | chain/pallets/governance/src/lib.rs:389-442 | an approval in epoch e sets activation epoch e + 4 and lists a leaf for every target in epoch e |
| GovernanceFlow.ApprovedIsCommitted | chain/pallets/governance/src/lib.rs:583-676 | in every reachable state the canonical leaves of the approval epoch hold a leaf of the proposal for each target |
| GovernanceFlow.ImportCommits | chain/pallets/governance/src/lib.rs:446-514 | an import records the acknowledgement and lists a leaf for the source and every other target |
| GovernanceFlow.ImportIsCommitted | chain/pallets/governance/src/lib.rs:583-726 | in every reachable state the canonical leaves of the acknowledgement's epoch hold one for the source and for each other target |
| GovernanceFlow.ImportAckFlow | chain/pallets/governance/src/lib.rs:518-579 | importing an acknowledgement keeps all of these; every recorded acknowledgement is counted and no fully acknowledged proposal is left unscheduled |
| GovernanceFlow.ScheduleIsPrompt | chain/pallets/governance/src/lib.rs:755-801 | the scheduling attempt leaves no fully acknowledged approved proposal behind |
| GovernanceTiming.HookTiming | chain/pallets/governance/src/lib.rs:755-866 | activation epochs and heights stay exact: first block of the activation epoch, or a block of the epoch of a late scheduling or the next |
| Voting.CreateVotes | chain/pallets/governance/src/lib.rs:252-317 | a new proposal has no ballots and its snapshot is its electorate, saturated |
| Voting.CastVoteVotes | chain/pallets/governance/src/lib.rs:321-385 | tallies stay equal to the sums of ballots cast, saturated |
| Voting.TurnoutBounded | chain/pallets/governance/src/lib.rs:321-385 | turnout never exceeds the electorate |
| Voting.TalliesWithinSnapshot | chain/pallets/governance/src/lib.rs:279-285 | the recorded turnout never exceeds the snapshot; below 2^128 - 1 the tallies are exact and together within it |
| Voting.CloseDecides | chain/pallets/governance/src/lib.rs:389-442 | below 2^128 - 1, approved exactly when at least half of the electorate took part and more than half of the turnout said yes |
| Voting.QuorumExact | chain/pallets/governance/src/lib.rs:389-418 | the quorum test is exact with respect to the recorded snapshot |
| Voting.MajorityExact | chain/pallets/governance/src/lib.rs:389-418 | the majority test holds exactly when more than half of the turnout said yes and the turnout is below 2^128 - 1 |
| Voting.UnanimousRejected | chain/pallets/governance/src/lib.rs:389-418 | a unanimous vote is rejected exactly when its power is 2^128 - 1 |
| Voting.SoleVoterReached | chain/pallets/governance/src/lib.rs:252-385 | that election comes about by a creation and one vote |
| Theorems.ClosingEndsVotingForever | chain/pallets/governance/src/lib.rs:321-418 | once a proposal can be closed, no ballot on it is accepted in any continuation of the run |
| Origins.BallotTraced | chain/pallets/governance/src/lib.rs:321-385 | in every run each stored ballot goes back to a vote of that account, with that choice, cast with the power recorded for it at the creation of the proposal |
| Ballots.VotesStep | chain/pallets/governance/src/lib.rs:321-385 | every action on a chain keeps tallies equal to ballots |
| Blackout.NextDeliveryAfter | services/relay/src/lib.rs:692-706 | the repeated passes end, at the first free instant, in whole milliseconds; out of range is an error |
| Blackout.NextFree | services/relay/src/lib.rs:692-706 | the first instant from the given one that lies in no window, for any list of windows |
| Blackout.DeliveryIsFree | services/relay/src/lib.rs:692-706 | the returned millisecond is free, and the first free instant, exactly unless some window ends inside a millisecond at the first instant left uncovered |
| Blackout.WholeEndsSuffice | services/relay/src/lib.rs:692-706 | for any list of windows with whole-millisecond ends the result is the least instant, at or after the input, in no window |
| Blackout.NextFreeIsAnEnd | services/relay/src/lib.rs:692-706 | the first free instant is the input or the end of a window |
| Blackout.DeliveryInsideWindow | services/relay/src/lib.rs:692-706 | a window ending inside a millisecond yields a time inside it |
| Blackout.NextDeliveryMonotone | services/relay/src/lib.rs:692-706 | later requests are never served earlier |
| RelayQueue.EveryRun | services/relay/src/lib.rs:198-520 | with a clock that does not go backwards every waiting record has a due time, every delivered one a poll time, and attempts stay bounded |
| RelayQueue.NeverEarly | services/relay/src/lib.rs:252-310 | no attempt precedes acceptance plus link delay |
| RelayQueue.FinalForever | services/relay/src/lib.rs:227-250 | acknowledged and failed records never change |
| RelayQueue.AttemptsBounded | services/relay/src/lib.rs:481-520 | attempts are at most the limit plus one plus interrupted attempts at restarts |
| RelayQueue.ExhaustedExactly | services/relay/src/lib.rs:481-500 | a transient failure is final exactly when the copy taken before the attempt had reached a non-zero limit |
| RelayQueue.ExhaustedAfter | services/relay/src/lib.rs:481-500 | so a package is given up exactly from one attempt more than the limit on, and without restarts at exactly that number |
| RelayQueue.OneMoreThanConfigured | services/relay/src/lib.rs:481-500 | two attempts under a limit of one |
| RelayQueue.SentInBlackout | services/relay/src/lib.rs:279-304 | a send falls into a window exactly before the first free instant within its millisecond or in a window opened after that instant |
| RelayQueue.SentOutsideBlackout | services/relay/src/lib.rs:279-304 | with whole-millisecond ends, a send on the planned millisecond is free, and a later one is if no window opened in between |
| RelayQueue.LateTickIgnoresWindow | services/relay/src/lib.rs:279-304 | a late tick sends inside a window |
| RelayQueue.BackoffGrows | services/relay/src/lib.rs:499-506 | retry delays never shrink and never exceed the maximum |
| RelayQueue.BackoffDoubles | services/relay/src/lib.rs:499-506 | the delay starts at the initial one, doubles from each attempt to the next up to the sixteenth doubling, and is capped throughout |
| RelayQueue.Answers | services/relay/src/lib.rs:322-479 | at every step a record becomes acknowledged exactly on a terminal receipt, by answer or poll; failed exactly on a client error or an exhausted limit; and delivered exactly from a non-terminal receipt until one of these |
| RelayQueue.AnswerTimes | services/relay/src/lib.rs:328-479 | a delivered record is polled after the interval, each unfinished poll puts the next one off by it, a finished record is neither sent nor polled |
| RelayQueue.RetryPlanned | services/relay/src/lib.rs:481-520 | a transient failure below the limit plans the next attempt after the backoff and past every blackout, and says whether a blackout moved it |
| RelayQueue.FirstPlanned | services/relay/src/lib.rs:252-277 | the first attempt is planned at acceptance plus link delay, past every blackout |
| RelayQueue.SentExactly | services/relay/src/lib.rs:198-310 | only a waiting record that is due and no longer blocked is sent, and each send is counted |
| RelayQueue.FinalHasCause | services/relay/src/lib.rs:322-479 | in every run an acknowledged record has had a terminal receipt and a failed one a refusal |
| RelayProgress.DeliverableIff | services/relay/src/lib.rs:198-520 | from every state a run can reach, a package that is not final has a continuation that gets it acknowledged, exactly unless its planned time is out of range |
| RelayProgress.StuckForever | services/relay/src/lib.rs:692-706 | a package whose planned time is out of range is never sent again |
| RelayProgress.UnreadableReceiptWaits | services/relay/src/lib.rs:322-345 | after a receipt that cannot be read the record stays in delivery under every step but a restart |
| RelayStore.Store.AcceptEnvelope | services/relay/src/store.rs:180-243 | new, known with equal bytes, or conflict with unchanged store |
| RelayStore.Store.Find | services/relay/src/store.rs:40-54 | the first record with the identity |
| RelayStore.Store.UpdateRecord | services/relay/src/lib.rs:522-547 | the current record with the identity is changed, all others kept |
| RelayStore.Store.ScheduleRecord | services/relay/src/lib.rs:252-277 | the current record is scheduled or blocked by the times of the caller's copy |
| RelayStore.Store.BeginAttempt | services/relay/src/lib.rs:279-304 | the attempt is put off or counted in the current record, by the due time of the caller's copy |
| RelayStore.Store.FinishAttempt | services/relay/src/lib.rs:322-393 | each answer moves the current record, and no other, as specified |
| RelayStore.Store.ScheduleRetry | services/relay/src/lib.rs:481-520 | gives up or plans the retry, by the count of the copy taken before the attempt |
| RelayStore.Store.PollImporterStatus | services/relay/src/lib.rs:395-479 | each answer to a status request moves the current record, and no other, as specified |
| RelayStore.Store.NormalizeRestartState | services/relay/src/lib.rs:672-690 | interrupted deliveries become retries, missing poll times are restored |
| RelayRuns.EveryRun | services/relay/src/lib.rs:165-250 | over all submissions, scheduler steps and restarts, identities stay unique, payloads are kept and every record is the end of an ordered run of its own |
| RelayRuns.NeverEarly | services/relay/src/lib.rs:252-310 | no package of the store is sent before its acceptance plus the delay of its link |
| RelayRuns.AttemptsBounded | services/relay/src/lib.rs:481-520 | attempts of every package of the store are bounded and waiting ones have due times |
| RelayRuns.FinalForever | services/relay/src/lib.rs:227-250 | acknowledged and failed packages keep their record in every continuation |
| RelayRuns.FinalHasCause | services/relay/src/lib.rs:322-479 | the same for every package of the store |
| RelayStore.AcceptKeeps | services/relay/src/store.rs:180-243 | identities stay unique and every record has its payload |
| RelayStore.AcceptIsIdempotent | services/relay/src/store.rs:186-202 | an accepted envelope stays accepted without effect, whatever became of its record |
| RelayStore.ResubmissionNeedsSameTime | services/relay/src/store.rs:186-202 | the same package submitted again is accepted exactly with the same submission time |

## Left out

- Hash functions, SCALE encoding, trie proofs and GRANDPA signatures: ideal hashes and a trusted notion of certified header stand for them.
- Transaction fees, existential deposits, weights and ordinary balance transfers: only holds, mints and burns move value.
- HTTP, RPC, files, command lines, configuration loading, signing and nonces: input and output.
- Local indexes of exporter and importer: only the importer's set of processed export ids is modelled.
- `process_settlement_completions` and `process_governance_proofs`: same pattern as the forward exports; their calls are actions of `Network`.
- `resolve_grandpa_set_id`, storage keys, identity padding, the domain pallet: easy facts only.
- Error messages: services report success or failure; pallet errors are modelled one by one.
- Importer.ProcessForwardExports: the calls of one pass run one after the other on the chain state, without other calls in between; interleavings are covered by the runs of `Network`.
- RelayQueue.EveryRun: like RelayRuns.EveryRun, assumes a clock that does not go backwards; system clocks may.
- Agreement of protocol versions across chains: not claimed by the source and not proved; `Versions` says what each chain's version is.
