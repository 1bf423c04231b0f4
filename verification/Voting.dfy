/** Token-weighted voting: the stored tallies are the sums of the ballots cast, cut off at the
    largest 128-bit number; no ballot counts twice; and what the two tests of `close_proposal`
    decide in terms of the exact sums. */
module Voting {
  import opened Types
  import opened Sums
  import opened Sorting
  import opened Governance
  import opened GovernanceProofs

  type VoterKey = (ItemId, Account)

  // ---------- exact sums ----------

  ghost function Ballot(votes: map<VoterKey, Vote>, id: ItemId, choice: Choice): VoterKey -> nat {
    k => if k in votes && k.0 == id && votes[k].choice == choice then votes[k].power else 0
  }

  /** The power behind one choice. */
  ghost function Cast(votes: map<VoterKey, Vote>, id: ItemId, choice: Choice): nat {
    Sum(votes.Keys, Ballot(votes, id, choice))
  }

  ghost function Turnout(votes: map<VoterKey, Vote>, id: ItemId): nat {
    Cast(votes, id, Yes) + Cast(votes, id, No) + Cast(votes, id, Abstain)
  }

  ghost function Share(powers: map<VoterKey, nat>, id: ItemId): VoterKey -> nat {
    k => if k in powers && k.0 == id then powers[k] else 0
  }

  /** The power of everyone entitled to vote on a proposal. */
  ghost function Electorate(powers: map<VoterKey, nat>, id: ItemId): nat { Sum(powers.Keys, Share(powers, id)) }

  // ---------- the invariant ----------

  ghost predicate TallyOk(s: State, id: ItemId) {
    && id in s.proposals
    && var p := s.proposals[id];
       && p.yes == Min(Cast(s.votes, id, Yes), U128_MAX) && p.no == Min(Cast(s.votes, id, No), U128_MAX)
       && p.abstain == Min(Cast(s.votes, id, Abstain), U128_MAX)
       && p.snapshot == Min(Electorate(s.powers, id), U128_MAX)
  }

  /** Each ballot is cast with the power recorded when the proposal was created. */
  ghost predicate BallotsOk(s: State) {
    && (forall k :: k in s.votes ==> k in s.powers && s.votes[k].power == s.powers[k])
    && (forall k :: k in s.powers ==> k.0 in s.proposals)
  }

  ghost predicate DistinctVoters(voters: seq<Account>) {
    forall i, j :: 0 <= i < j < |voters| ==> voters[i] != voters[j]
  }

  ghost predicate VotesInv(s: State) {
    BallotsOk(s) && DistinctVoters(s.voters) && forall id :: id in s.proposals ==> TallyOk(s, id)
  }

  /** At genesis the voter list is sorted and deduplicated. */
  lemma GenesisVotes(version: nat, importer: Option<Account>, voters: seq<Account>)
    ensures VotesInv(Genesis(version, importer, voters))
  {
    var leq := (a: Account, b: Account) => a <= b;
    SortSorted(voters, leq);
    DedupAscends(Sort(voters, leq), leq);
  }

  lemma {:induction false} DedupAscends(s: seq<Account>, leq: (Account, Account) -> bool)
    requires Sorted(s, leq) && forall a, b :: leq(a, b) <==> a <= b
    ensures forall i, j :: 0 <= i < j < |Dedup(s)| ==> Dedup(s)[i] < Dedup(s)[j]
    ensures forall i :: 0 <= i < |Dedup(s)| ==> |s| > 0 && s[0] <= Dedup(s)[i]
  {
    if |s| > 1 {
      DedupAscends(s[1..], leq);
    }
  }

  // ---------- creation ----------

  /** The recorded power is the exact total, cut off. */
  lemma {:induction false} SnapshotIsElectorate(powers: map<VoterKey, nat>, id: ItemId, voters: seq<Account>,
                                                balances: map<Account, nat>)
    requires DistinctVoters(voters) && forall k :: k in powers ==> k.0 != id
    ensures var powers' := AssignPowers(powers, id, voters, balances);
            && SnapshotPower(voters, balances) == Min(Electorate(powers', id), U128_MAX)
            && forall a: Account :: (id, a) in powers' <==> a in voters
  {
    if voters == [] {
      SumZero(powers.Keys, Share(powers, id));
    } else {
      var n := |voters| - 1;
      SnapshotIsElectorate(powers, id, voters[..n], balances);
      var before := AssignPowers(powers, id, voters[..n], balances);
      AddShare(before, (id, voters[n]), Lookup(balances, voters[n], 0), id);
      assert forall a: Account :: a in voters <==> a in voters[..n] || a == voters[n];
    }
  }

  lemma AddShare(powers: map<VoterKey, nat>, k: VoterKey, power: nat, id: ItemId)
    requires k !in powers
    ensures Electorate(powers[k := power], id) == Electorate(powers, id) + if k.0 == id then power else 0
  {
    var powers' := powers[k := power];
    assert powers'.Keys == powers.Keys + {k};
    SumAdd(powers.Keys, k, Share(powers, id), Share(powers', id));
  }

  lemma {:induction false} OthersKept(powers: map<VoterKey, nat>, id: ItemId, voters: seq<Account>,
                                      balances: map<Account, nat>, k: VoterKey)
    requires k.0 != id
    ensures var powers' := AssignPowers(powers, id, voters, balances);
            (k in powers' <==> k in powers) && (k in powers ==> powers'[k] == powers[k])
  {
    if voters != [] {
      OthersKept(powers, id, voters[..|voters| - 1], balances, k);
    }
  }

  lemma {:induction false} OthersElectorate(powers: map<VoterKey, nat>, id: ItemId, voters: seq<Account>,
                                            balances: map<Account, nat>, other: ItemId)
    requires other != id && DistinctVoters(voters) && forall k :: k in powers ==> k.0 != id
    ensures Electorate(AssignPowers(powers, id, voters, balances), other) == Electorate(powers, other)
  {
    if voters != [] {
      var n := |voters| - 1;
      OthersElectorate(powers, id, voters[..n], balances, other);
      SnapshotIsElectorate(powers, id, voters[..n], balances);
      AddShare(AssignPowers(powers, id, voters[..n], balances), (id, voters[n]), Lookup(balances, voters[n], 0), other);
    }
  }

  lemma NoBallots(votes: map<VoterKey, Vote>, id: ItemId, choice: Choice)
    requires forall k :: k in votes ==> k.0 != id
    ensures Cast(votes, id, choice) == 0
  {
    SumZero(votes.Keys, Ballot(votes, id, choice));
  }

  lemma CreateBallots(s: State, env: Env, who: Account, targets: seq<DomainId>, newVersion: nat,
                      balances: map<Account, nat>, s': State)
    requires VotesInv(s) && CreateProposal(s, env, who, targets, newVersion, balances) == Ok(s')
    requires ItemId(env.domain, s.nextSequence) !in s.proposals
    ensures BallotsOk(s')
  {
    var id := ItemId(env.domain, s.nextSequence);
    forall k | k in s'.powers ensures k.0 in s'.proposals {
      if k.0 != id {
        OthersKept(s.powers, id, s.voters, balances, k);
      }
    }
    forall k | k in s'.votes ensures k in s'.powers && s'.votes[k].power == s'.powers[k] {
      OthersKept(s.powers, id, s.voters, balances, k);
    }
  }

  /** A new proposal has no ballots and its snapshot is its electorate. */
  lemma NewTally(s: State, s': State, id: ItemId, balances: map<Account, nat>)
    requires BallotsOk(s) && DistinctVoters(s.voters) && id !in s.proposals && id in s'.proposals && s'.votes == s.votes
    requires s'.powers == AssignPowers(s.powers, id, s.voters, balances)
    requires var p := s'.proposals[id];
             p.yes == 0 && p.no == 0 && p.abstain == 0 && p.snapshot == SnapshotPower(s.voters, balances)
    ensures TallyOk(s', id)
  {
    NoBallots(s.votes, id, Yes);
    NoBallots(s.votes, id, No);
    NoBallots(s.votes, id, Abstain);
    SnapshotIsElectorate(s.powers, id, s.voters, balances);
  }

  lemma OldTally(s: State, s': State, id: ItemId, balances: map<Account, nat>, k: ItemId)
    requires BallotsOk(s) && DistinctVoters(s.voters) && id !in s.proposals && s'.votes == s.votes
    requires s'.powers == AssignPowers(s.powers, id, s.voters, balances)
    requires TallyOk(s, k) && k in s'.proposals && s'.proposals[k] == s.proposals[k]
    ensures TallyOk(s', k)
  {
    OthersElectorate(s.powers, id, s.voters, balances, k);
  }

  lemma CreateVotes(s: State, env: Env, who: Account, targets: seq<DomainId>, newVersion: nat,
                    balances: map<Account, nat>, s': State)
    requires VotesInv(s) && CreateProposal(s, env, who, targets, newVersion, balances) == Ok(s')
    requires ItemId(env.domain, s.nextSequence) !in s.proposals
    ensures VotesInv(s')
  {
    var id := ItemId(env.domain, s.nextSequence);
    CreateBallots(s, env, who, targets, newVersion, balances, s');
    forall k | k in s'.proposals ensures TallyOk(s', k) {
      if k == id {
        NewTally(s, s', id, balances);
      } else {
        OldTally(s, s', id, balances, k);
      }
    }
  }

  // ---------- casting ----------

  lemma AddBallot(votes: map<VoterKey, Vote>, k: VoterKey, vote: Vote, id: ItemId, choice: Choice)
    requires k !in votes
    ensures Cast(votes[k := vote], id, choice)
         == Cast(votes, id, choice) + if k.0 == id && vote.choice == choice then vote.power else 0
  {
    var votes' := votes[k := vote];
    assert votes'.Keys == votes.Keys + {k};
    SumAdd(votes.Keys, k, Ballot(votes, id, choice), Ballot(votes', id, choice));
  }

  lemma SaturatedSum(total: nat, power: nat, max: nat)
    ensures SatAdd(Min(total, max), power, max) == Min(total + power, max)
  {
  }

  lemma CastTally(s: State, s': State, k: VoterKey, vote: Vote, id: ItemId)
    requires TallyOk(s, id) && k !in s.votes && s'.votes == s.votes[k := vote] && s'.powers == s.powers
    requires id in s'.proposals
    requires s'.proposals[id] == if k.0 == id then Tally(s.proposals[id], vote.choice, vote.power) else s.proposals[id]
    ensures TallyOk(s', id)
    ensures Turnout(s'.votes, id) == Turnout(s.votes, id) + if k.0 == id then vote.power else 0
  {
    AddBallot(s.votes, k, vote, id, Yes);
    AddBallot(s.votes, k, vote, id, No);
    AddBallot(s.votes, k, vote, id, Abstain);
    SaturatedSum(Cast(s.votes, id, vote.choice), vote.power, U128_MAX);
  }

  lemma CastBallots(s: State, s': State, k: VoterKey, vote: Vote)
    requires BallotsOk(s) && k in s.powers && vote.power == s.powers[k]
    requires s'.votes == s.votes[k := vote] && s'.powers == s.powers && s'.proposals.Keys == s.proposals.Keys
    ensures BallotsOk(s')
  {
  }

  lemma BallotKeeps(s: State, s': State, k: VoterKey, vote: Vote)
    requires VotesInv(s) && k !in s.votes && k in s.powers && vote.power == s.powers[k] && k.0 in s.proposals
    requires s'.votes == s.votes[k := vote] && s'.powers == s.powers && s'.voters == s.voters
    requires s'.proposals == s.proposals[k.0 := Tally(s.proposals[k.0], vote.choice, vote.power)]
    ensures VotesInv(s')
  {
    hide Sum;
    CastBallots(s, s', k, vote);
    forall id | id in s'.proposals ensures TallyOk(s', id) {
      CastTally(s, s', k, vote, id);
    }
  }

  lemma CastVoteVotes(s: State, env: Env, who: Account, id: ItemId, choice: Choice, s': State)
    requires VotesInv(s) && CastVote(s, env, who, id, choice) == Ok(s')
    ensures VotesInv(s')
  {
    hide Sum;
    BallotKeeps(s, s', (id, who), Vote(choice, s.powers[(id, who)], env.epoch, env.height));
  }

  // ---------- everything else leaves ballots alone ----------

  ghost predicate SameTally(p: Proposal, p': Proposal) {
    p'.yes == p.yes && p'.no == p.no && p'.abstain == p.abstain && p'.snapshot == p.snapshot
  }

  /** A step that casts nothing: known proposals keep their tallies, new ones start at zero. */
  ghost predicate NoVoting(s: State, s': State) {
    && s'.votes == s.votes && s'.powers == s.powers && s'.voters == s.voters
    && (forall id :: id in s.proposals ==> id in s'.proposals && SameTally(s.proposals[id], s'.proposals[id]))
    && (forall id :: id in s'.proposals && id !in s.proposals ==>
          var p := s'.proposals[id]; p.yes == 0 && p.no == 0 && p.abstain == 0 && p.snapshot == 0)
  }

  lemma NoVotingKeeps(s: State, s': State)
    requires VotesInv(s) && NoVoting(s, s')
    ensures VotesInv(s')
  {
    forall id | id in s'.proposals ensures TallyOk(s', id) {
      if id in s.proposals {
        assert TallyOk(s, id);
      } else {
        NoBallots(s.votes, id, Yes);
        NoBallots(s.votes, id, No);
        NoBallots(s.votes, id, Abstain);
        SumZero(s.powers.Keys, Share(s.powers, id));
      }
    }
  }

  // ---------- what the tests decide ----------

  /** Every voter counts at most once: turnout never exceeds the electorate. */
  lemma TurnoutBounded(s: State, id: ItemId)
    requires BallotsOk(s)
    ensures Turnout(s.votes, id) <= Electorate(s.powers, id)
  {
    var yes, no, abstain := Ballot(s.votes, id, Yes), Ballot(s.votes, id, No), Ballot(s.votes, id, Abstain);
    var decided := (k: VoterKey) => yes(k) + no(k);
    var all := (k: VoterKey) => decided(k) + abstain(k);
    SumPlus(s.votes.Keys, yes, no, decided);
    SumPlus(s.votes.Keys, decided, abstain, all);
    SumSubset(s.votes.Keys, s.powers.Keys, all, Share(s.powers, id));
  }

  /** The recorded turnout never exceeds the recorded snapshot; below the 128-bit limit neither do
      the three tallies together, and they are the exact sums. */
  lemma TalliesWithinSnapshot(s: State, id: ItemId)
    requires BallotsOk(s) && TallyOk(s, id)
    ensures var p := s.proposals[id];
            && Recorded(p) <= p.snapshot
            && (p.snapshot < U128_MAX ==>
                  && p.yes + p.no + p.abstain == Turnout(s.votes, id) <= p.snapshot == Electorate(s.powers, id)
                  && p.yes == Cast(s.votes, id, Yes))
  {
    hide Sum, BallotsOk;
    TurnoutBounded(s, id);
    RecordedIs(Cast(s.votes, id, Yes), Cast(s.votes, id, No), Cast(s.votes, id, Abstain), U128_MAX);
  }

  /** Saturating addition loses nothing below the limit. */
  lemma RecordedIs(yes: nat, no: nat, abstain: nat, max: nat)
    ensures SatAdd(SatAdd(Min(yes, max), Min(no, max), max), Min(abstain, max), max) == Min(yes + no + abstain, max)
  {
  }

  lemma QuorumTest(turnout: nat, snapshot: nat, max: nat)
    requires snapshot <= max
    ensures Min(Min(turnout, max) * 2, max) >= snapshot <==> 2 * turnout >= snapshot
  {
  }

  lemma MajorityTest(yes: nat, turnout: nat, max: nat)
    requires yes <= turnout
    ensures Min(Min(yes, max) * 2, max) > Min(turnout, max) <==> 2 * yes > turnout && turnout < max
  {
  }

  /** Both tests, for any exact sums behind the stored tallies. */
  lemma QuorumOf(p: Proposal, yes: nat, no: nat, abstain: nat)
    requires p.yes == Min(yes, U128_MAX) && p.no == Min(no, U128_MAX) && p.abstain == Min(abstain, U128_MAX)
    requires p.snapshot <= U128_MAX
    ensures QuorumMet(p) <==> 2 * (yes + no + abstain) >= p.snapshot
  {
    RecordedIs(yes, no, abstain, U128_MAX);
    QuorumTest(yes + no + abstain, p.snapshot, U128_MAX);
  }

  lemma MajorityOf(p: Proposal, yes: nat, no: nat, abstain: nat)
    requires p.yes == Min(yes, U128_MAX) && p.no == Min(no, U128_MAX) && p.abstain == Min(abstain, U128_MAX)
    ensures Approved(p) <==> 2 * yes > yes + no + abstain && yes + no + abstain < U128_MAX
  {
    RecordedIs(yes, no, abstain, U128_MAX);
    MajorityTest(yes, yes + no + abstain, U128_MAX);
  }

  /** The quorum test is exact: at least half of the recorded snapshot took part. */
  lemma QuorumExact(s: State, id: ItemId)
    requires TallyOk(s, id)
    ensures QuorumMet(s.proposals[id]) <==> 2 * Turnout(s.votes, id) >= s.proposals[id].snapshot
  {
    QuorumOf(s.proposals[id], Cast(s.votes, id, Yes), Cast(s.votes, id, No), Cast(s.votes, id, Abstain));
  }

  /** The majority test agrees with the exact one (more than half of the turnout said yes)
      unless the turnout reaches the largest 128-bit number; then nothing is ever approved. */
  lemma MajorityExact(s: State, id: ItemId)
    requires TallyOk(s, id)
    ensures Approved(s.proposals[id]) <==>
              2 * Cast(s.votes, id, Yes) > Turnout(s.votes, id) && Turnout(s.votes, id) < U128_MAX
  {
    MajorityOf(s.proposals[id], Cast(s.votes, id, Yes), Cast(s.votes, id, No), Cast(s.votes, id, Abstain));
  }

  /** What `close_proposal` decides, for electorates below the 128-bit limit: approved exactly when
      at least half of the electorate took part and more than half of the turnout said yes. */
  lemma CloseDecides(s: State, env: Env, id: ItemId, s': State)
    requires VotesInv(s) && CloseProposal(s, env, id) == Ok(s') && s.proposals[id].snapshot < U128_MAX
    ensures id in s'.proposals
    ensures var turnout := Turnout(s.votes, id);
            s'.proposals[id].status ==
              if 2 * turnout >= Electorate(s.powers, id)
                && 2 * Cast(s.votes, id, Yes) > turnout then LocallyFinalized else Rejected
  {
    hide Sum, BallotsOk, Turnout, Cast, Electorate, QuorumMet, Approved, InsertProposalLeaves;
    assert TallyOk(s, id);
    TalliesWithinSnapshot(s, id);
    QuorumExact(s, id);
    MajorityExact(s, id);
  }

  /** One voter and one ballot. */
  lemma SingleBallot(k: VoterKey, vote: Vote)
    requires vote.choice == Yes
    ensures var votes := map[k := vote];
            && Cast(votes, k.0, Yes) == vote.power && Cast(votes, k.0, No) == 0 && Cast(votes, k.0, Abstain) == 0
            && Electorate(map[k := vote.power], k.0) == vote.power
  {
    var none: map<VoterKey, Vote> := map[];
    var nobody: map<VoterKey, nat> := map[];
    assert map[k := vote] == none[k := vote] && map[k := vote.power] == nobody[k := vote.power];
    NoBallots(none, k.0, Yes);
    NoBallots(none, k.0, No);
    NoBallots(none, k.0, Abstain);
    AddBallot(none, k, vote, k.0, Yes);
    AddBallot(none, k, vote, k.0, No);
    AddBallot(none, k, vote, k.0, Abstain);
    SumZero(nobody.Keys, Share(nobody, k.0));
    AddShare(nobody, k, vote.power, k.0);
  }

  /** An election in which the only voter holds `power` and said yes. */
  ghost function SoleVoter(power: nat): State {
    var id := ItemId(Earth, 0);
    var p := Proposal(id, Earth, [Moon], 7, 2, PayloadDigest(2), 0, 0, 1, None, 0, power, power, 0, 0, Voting);
    State(1, None, [7], 1, map[id := p], map[(id, 7) := Vote(Yes, power, 0, 1)], map[(id, 7) := power],
          map[], map[], map[], map[], map[], [])
  }

  lemma SoleVoterPower(power: nat)
    ensures var balances: map<Account, nat> := map[7 := power];
            var id := ItemId(Earth, 0);
            && AssignPowers(map[], id, [7], balances) == map[(id, 7) := power]
            && SnapshotPower([7], balances) == Min(power, U128_MAX)
  {
    var balances: map<Account, nat> := map[7 := power];
    var voters: seq<Account> := [7];
    assert voters[..0] == [];
    assert AssignPowers(map[], ItemId(Earth, 0), voters[..0], balances) == map[];
    assert SnapshotPower(voters[..0], balances) == 0;
  }

  /** The election above comes about by creation and one vote. */
  lemma SoleVoterReached(power: nat)
    requires power > 0
    ensures var env := Env(Earth, 0, 1);
            var created := CreateProposal(Genesis(1, None, [7]), env, 7, [Moon], 2, map[7 := power]);
            && created.Ok?
            && (power <= U128_MAX ==> CastVote(created.value, env, 7, ItemId(Earth, 0), Yes) == Ok(SoleVoter(power)))
  {
    var env := Env(Earth, 0, 1);
    var s0 := Genesis(1, None, [7]);
    assert s0.voters == [7];
    assert [Moon][1..] == [];
    assert Sort([Moon], DomainLeq) == [Moon];
    SoleVoterPower(power);
    if power <= U128_MAX {
      var id := ItemId(Earth, 0);
      var s1 := CreateProposal(s0, env, 7, [Moon], 2, map[7 := power]).value;
      assert s1.nextSequence == 1 && s1.powers == map[(id, 7) := power];
      assert s1.proposals[id].targetDomains == [Moon] && s1.proposals[id].snapshot == power;
      var s2 := CastVote(s1, env, 7, id, Yes).value;
      assert s2.votes == SoleVoter(power).votes && s2.powers == SoleVoter(power).powers;
      assert s2.proposals[id] == SoleVoter(power).proposals[id];
      assert s2.proposals == SoleVoter(power).proposals;
    }
  }

  lemma SoleVoterTally(power: nat)
    requires power <= U128_MAX
    ensures TallyOk(SoleVoter(power), ItemId(Earth, 0))
    ensures var s := SoleVoter(power);
            var id := ItemId(Earth, 0);
            Cast(s.votes, id, Yes) == Turnout(s.votes, id) == Electorate(s.powers, id) == power
  {
    hide Sum;
    SingleBallot((ItemId(Earth, 0), 7), Vote(Yes, power, 0, 1));
  }

  /** A unanimous vote is rejected when its power is the largest 128-bit number, and only then. */
  lemma UnanimousRejected(power: nat)
    requires 0 < power <= U128_MAX
    ensures var s' := CloseProposal(SoleVoter(power), Env(Earth, 1, 2), ItemId(Earth, 0));
            && s'.Ok? && ItemId(Earth, 0) in s'.value.proposals
            && (s'.value.proposals[ItemId(Earth, 0)].status == Rejected <==> power == U128_MAX)
  {
    var s := SoleVoter(power);
    var id := ItemId(Earth, 0);
    SoleVoterTally(power);
    QuorumExact(s, id);
    MajorityExact(s, id);
  }

  /** Once a proposal can be closed no ballot on it is accepted any more, in this epoch or later. */
  lemma ClosingEndsVoting(s: State, env: Env, id: ItemId, later: State, env': Env, who: Account, choice: Choice)
    requires CloseProposal(s, env, id).Ok? && env.epoch <= env'.epoch && ProposalsGrow(s.proposals, later.proposals)
    ensures CastVote(later, env', who, id, choice).Err?
  {
    assert ProposalGrows(s.proposals[id], later.proposals[id]);
  }
}
