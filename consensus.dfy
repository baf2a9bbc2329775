/** The consensus engine: per world, a list of claims extracted from
    conversations. A claim enters as "proposed" with its proposer's vote;
    `vote` adds distinct agents' votes and promotes the claim to "canon" once
    three agents from two factions back it; `check_consensus` reports the
    canon claims and removes them from the list. */
module Consensus {
  import opened Wrappers
  import opened Envelopes
  import Sorting

  datatype ClaimStatus = Proposed | Canon

  datatype Ballot = Ballot(agent: AgentId, faction: FactionId)

  /** A claim entry: the extracted claim text, who proposed it on behalf of
      which faction, the ballots cast and its status. */
  datatype ClaimEntry = ClaimEntry(
    text: string,
    proposer: AgentId,
    faction: FactionId,
    votes: seq<Ballot>,
    status: ClaimStatus)

  /** The entry `propose_claim` appends: the proposer's own ballot, status "proposed". */
  function NewEntry(text: string, proposer: AgentId, faction: FactionId): ClaimEntry {
    ClaimEntry(text, proposer, faction, [Ballot(proposer, faction)], Proposed)
  }

  /** The factions represented among the ballots. */
  function Factions(votes: seq<Ballot>): set<FactionId> {
    set b | b in votes :: b.faction
  }

  /** The quorum rule: at least three ballots and at least two factions. */
  predicate Quorum(votes: seq<Ballot>) {
    |votes| >= 3 && |Factions(votes)| >= 2
  }

  /** Two factions among the ballots is the same as two ballots that disagree
      on their faction. */
  lemma TwoFactionsIffDisagreement(votes: seq<Ballot>)
    ensures |Factions(votes)| >= 2 <==>
      exists i, j :: 0 <= i < |votes| && 0 <= j < |votes| && votes[i].faction != votes[j].faction
  {
    var fs := Factions(votes);
    if |fs| >= 2 {
      var f :| f in fs;
      assert |fs - {f}| == |fs| - 1;
      var g :| g in fs - {f};
      var i :| 0 <= i < |votes| && votes[i].faction == f;
      var j :| 0 <= j < |votes| && votes[j].faction == g;
    }
    if exists i, j :: 0 <= i < |votes| && 0 <= j < |votes| && votes[i].faction != votes[j].faction {
      var i, j :| 0 <= i < |votes| && 0 <= j < |votes| && votes[i].faction != votes[j].faction;
      assert {votes[i].faction, votes[j].faction} <= fs;
      assert |{votes[i].faction, votes[j].faction}| == 2;
      SubsetCard({votes[i].faction, votes[j].faction}, fs);
    }
  }

  lemma SubsetCard<T>(a: set<T>, b: set<T>)
    requires a <= b
    ensures |a| <= |b|
  {
    assert b == a + (b - a);
  }

  predicate HasVoter(votes: seq<Ballot>, agent: AgentId) {
    exists k :: 0 <= k < |votes| && votes[k].agent == agent
  }

  /** No agent appears twice among the ballots. */
  predicate DistinctVoters(votes: seq<Ballot>) {
    forall i, j :: 0 <= i < j < |votes| ==> votes[i].agent != votes[j].agent
  }

  /** A vote on one proposed entry: the ballot is added when the agent has not
      voted yet, then the entry becomes canon if the quorum is met. */
  function CastOn(c: ClaimEntry, voter: AgentId, faction: FactionId): (r: ClaimEntry)
    ensures r.text == c.text && r.proposer == c.proposer && r.faction == c.faction
    ensures HasVoter(c.votes, voter) ==> r.votes == c.votes
    ensures !HasVoter(c.votes, voter) ==> r.votes == c.votes + [Ballot(voter, faction)]
    ensures r.status == Canon <==> Quorum(r.votes)
  {
    var votes := if HasVoter(c.votes, voter) then c.votes else c.votes + [Ballot(voter, faction)];
    c.(votes := votes, status := if Quorum(votes) then Canon else Proposed)
  }

  lemma CastKeepsDistinct(c: ClaimEntry, voter: AgentId, faction: FactionId)
    requires DistinctVoters(c.votes)
    ensures DistinctVoters(CastOn(c, voter, faction).votes)
    ensures HasVoter(CastOn(c, voter, faction).votes, voter)
  {
    var r := CastOn(c, voter, faction);
    if !HasVoter(c.votes, voter) {
      assert r.votes[|r.votes| - 1].agent == voter;
    } else {
      var k :| 0 <= k < |c.votes| && c.votes[k].agent == voter;
      assert r.votes[k].agent == voter;
    }
  }

  predicate Matches(c: ClaimEntry, text: string) {
    c.text == text && c.status == Proposed
  }

  /** The index of the first entry with exactly this text that is still proposed. */
  function FirstMatch(claims: seq<ClaimEntry>, text: string): (r: Option<nat>)
    ensures r.Some? ==> r.value < |claims| && Matches(claims[r.value], text)
    ensures r.Some? ==> forall j :: 0 <= j < r.value ==> !Matches(claims[j], text)
    ensures r.None? <==> forall j :: 0 <= j < |claims| ==> !Matches(claims[j], text)
  {
    if claims == [] then None
    else if Matches(claims[0], text) then Some(0)
    else match FirstMatch(claims[1..], text)
      case None => None
      case Some(k) => Some(k + 1)
  }

  /** `vote` on a world's list: the new list and the status returned. */
  function VoteOn(claims: seq<ClaimEntry>, text: string, voter: AgentId, faction: FactionId)
    : (seq<ClaimEntry>, Option<ClaimStatus>)
  {
    match FirstMatch(claims, text)
    case None => (claims, None)
    case Some(i) =>
      var c := CastOn(claims[i], voter, faction);
      (claims[i := c], Some(c.status))
  }

  /** Only the first matching proposed entry is touched; every other entry,
      canon ones in particular, is left as it was. */
  lemma VoteTouchesFirstMatchOnly(claims: seq<ClaimEntry>, text: string, voter: AgentId, faction: FactionId)
    ensures var (after, st) := VoteOn(claims, text, voter, faction);
      |after| == |claims|
      && (st.None? <==> FirstMatch(claims, text).None?)
      && (forall j :: 0 <= j < |claims| && Some(j) != FirstMatch(claims, text) ==> after[j] == claims[j])
      && (forall j :: 0 <= j < |claims| && claims[j].status == Canon ==> after[j] == claims[j])
  {
  }

  /** "canon" is answered exactly when the entry voted on now has three ballots
      from two factions, "proposed" otherwise, and `None` when nothing matched. */
  lemma VoteAnswer(claims: seq<ClaimEntry>, text: string, voter: AgentId, faction: FactionId)
    ensures var (after, st) := VoteOn(claims, text, voter, faction);
      match FirstMatch(claims, text)
      case None => st == None && after == claims
      case Some(i) =>
        (st == Some(Canon) <==> Quorum(after[i].votes))
        && (st == Some(Proposed) <==> !Quorum(after[i].votes))
        && after[i].status == st.value
  {
  }

  /** The invariant of a world's list: every entry's first ballot is its
      proposer's, no agent has voted twice on it, and it is canon exactly
      when its ballots meet the quorum. */
  predicate WellFormedEntry(c: ClaimEntry) {
    && |c.votes| >= 1
    && c.votes[0] == Ballot(c.proposer, c.faction)
    && DistinctVoters(c.votes)
    && (c.status == Canon <==> Quorum(c.votes))
  }

  predicate WellFormedList(claims: seq<ClaimEntry>) {
    forall k :: 0 <= k < |claims| ==> WellFormedEntry(claims[k])
  }

  lemma VoteKeepsWellFormed(claims: seq<ClaimEntry>, text: string, voter: AgentId, faction: FactionId)
    requires WellFormedList(claims)
    ensures WellFormedList(VoteOn(claims, text, voter, faction).0)
  {
    match FirstMatch(claims, text)
    case None =>
    case Some(i) =>
      CastKeepsDistinct(claims[i], voter, faction);
  }

  /** A canon entry is out of reach of `vote`: a second vote with the same text
      does not touch it, so the promotion to canon happens at most once. */
  lemma CanonIsFinal(claims: seq<ClaimEntry>, text: string, voter: AgentId, faction: FactionId, i: nat)
    requires i < |claims| && claims[i].status == Canon
    ensures VoteOn(claims, text, voter, faction).0[i] == claims[i]
  {
  }

  /** A proposal followed by votes of two more agents, one of them from another
      faction, makes the claim canon on the last vote. */
  lemma ThreeVotesTwoFactions(text: string, a: AgentId, b: AgentId, c: AgentId, f: FactionId, g: FactionId)
    requires a != b && a != c && b != c && f != g
    ensures var l1 := [NewEntry(text, a, f)];
      var (l2, s2) := VoteOn(l1, text, b, f);
      var (l3, s3) := VoteOn(l2, text, c, g);
      s2 == Some(Proposed) && s3 == Some(Canon) && l3[0].status == Canon && |l3[0].votes| == 3
  {
    var l1 := [NewEntry(text, a, f)];
    assert FirstMatch(l1, text) == Some(0);
    var (l2, s2) := VoteOn(l1, text, b, f);
    assert !HasVoter(l1[0].votes, b);
    assert l2[0].votes == [Ballot(a, f), Ballot(b, f)];
    assert Factions(l2[0].votes) == {f};
    assert FirstMatch(l2, text) == Some(0);
    assert !HasVoter(l2[0].votes, c);
    var (l3, s3) := VoteOn(l2, text, c, g);
    assert l3[0].votes == [Ballot(a, f), Ballot(b, f), Ballot(c, g)];
    assert Factions(l3[0].votes) == {f, g};
  }

  /** The entries reported by `check_consensus`, in list order. */
  function CanonOf(claims: seq<ClaimEntry>): seq<ClaimEntry> {
    Sorting.Filter(claims, (c: ClaimEntry) => c.status == Canon)
  }

  /** The entries `check_consensus` keeps, in list order. */
  function Remaining(claims: seq<ClaimEntry>): seq<ClaimEntry> {
    Sorting.Filter(claims, (c: ClaimEntry) => c.status != Canon)
  }

  function ReachedEnvelope(c: ClaimEntry): Envelope {
    Envelope(0, ConsensusReached(c.text, |c.votes|))
  }

  /** One `consensus.reached` broadcast per reported claim. */
  function ReachedAll(cs: seq<ClaimEntry>): (r: seq<Envelope>)
    ensures |r| == |cs|
    ensures forall k :: 0 <= k < |cs| ==> r[k] == ReachedEnvelope(cs[k])
  {
    if cs == [] then [] else ReachedAll(cs[..|cs| - 1]) + [ReachedEnvelope(cs[|cs| - 1])]
  }

  /** What `check_consensus` reports is canon and what it keeps is not, and the
      two together account for the whole list. */
  lemma {:induction false} ReconcileSplits(claims: seq<ClaimEntry>)
    ensures forall k :: 0 <= k < |CanonOf(claims)| ==> CanonOf(claims)[k].status == Canon
    ensures forall k :: 0 <= k < |Remaining(claims)| ==> Remaining(claims)[k].status == Proposed
    ensures |CanonOf(claims)| + |Remaining(claims)| == |claims|
  {
    if claims != [] {
      ReconcileSplits(claims[1..]);
    }
  }

  /** Nothing is left to report after a reconciliation: a second
      `check_consensus` with no vote in between returns []. */
  lemma {:induction false} ReconcileIdempotent(claims: seq<ClaimEntry>)
    ensures CanonOf(Remaining(claims)) == []
    ensures Remaining(Remaining(claims)) == Remaining(claims)
  {
    var r := Remaining(claims);
    ReconcileSplits(claims);
    Sorting.FilterNone(r, (c: ClaimEntry) => c.status == Canon);
    AllKept(r);
  }

  lemma {:induction false} AllKept(r: seq<ClaimEntry>)
    requires forall k :: 0 <= k < |r| ==> r[k].status == Proposed
    ensures Remaining(r) == r
  {
    if r != [] {
      AllKept(r[1..]);
      assert r == [r[0]] + r[1..];
    }
  }

  /** A list without canon entries has nothing to report. */
  lemma NoCanonNothingReported(claims: seq<ClaimEntry>)
    requires forall k :: 0 <= k < |claims| ==> claims[k].status == Proposed
    ensures CanonOf(claims) == []
    ensures Remaining(claims) == claims
  {
    Sorting.FilterNone(claims, (c: ClaimEntry) => c.status == Canon);
    AllKept(claims);
  }

  class ConsensusEngine {
    /** world id to its claim list */
    var proposed: map<WorldId, seq<ClaimEntry>>

    constructor()
      ensures proposed == map[]
    {
      proposed := map[];
    }

    function Claims(world: WorldId): seq<ClaimEntry>
      reads this
    {
      if world in proposed then proposed[world] else []
    }

    /** Every list of every world satisfies the entry invariant. */
    predicate Valid()
      reads this
    {
      forall w :: w in proposed ==> WellFormedList(proposed[w])
    }

    /** Appends the new entry to the world's list, creating the list if needed. */
    method ProposeClaim(world: WorldId, text: string, proposer: AgentId, faction: FactionId)
      requires Valid()
      modifies this
      ensures Valid()
      ensures proposed == old(proposed)[world := old(Claims(world)) + [NewEntry(text, proposer, faction)]]
    {
      var claims := Claims(world);
      var after := claims + [NewEntry(text, proposer, faction)];
      assert forall k :: 0 <= k < |claims| ==> after[k] == claims[k];
      proposed := proposed[world := after];
    }

    /** Casts `voter`'s ballot on the first proposed entry whose text is `text`;
        answers the entry's new status, or `None` when no entry matched. */
    method Vote(world: WorldId, text: string, voter: AgentId, faction: FactionId) returns (status: Option<ClaimStatus>)
      requires Valid()
      modifies this
      ensures Valid()
      ensures status == VoteOn(old(Claims(world)), text, voter, faction).1
      ensures world in old(proposed) ==> proposed == old(proposed)[world := VoteOn(old(Claims(world)), text, voter, faction).0]
      ensures world !in old(proposed) ==> proposed == old(proposed)
    {
      var claims := Claims(world);
      var i := 0;
      while i < |claims|
        invariant 0 <= i <= |claims|
        invariant forall j :: 0 <= j < i ==> !Matches(claims[j], text)
      {
        if claims[i].text == text && claims[i].status == Proposed {
          assert FirstMatch(claims, text) == Some(i);
          var c := claims[i];
          var votes := c.votes;
          if !HasVoter(votes, voter) {
            votes := votes + [Ballot(voter, faction)];
          }
          var factions := set b | b in votes :: b.faction;
          var entry: ClaimEntry;
          if |votes| >= 3 && |factions| >= 2 {
            entry := c.(votes := votes, status := Canon);
            status := Some(Canon);
          } else {
            entry := c.(votes := votes, status := Proposed);
            status := Some(Proposed);
          }
          proposed := proposed[world := claims[i := entry]];
          VoteKeepsWellFormed(claims, text, voter, faction);
          return;
        }
        i := i + 1;
      }
      status := None;
    }

    /** Reports the world's canon entries in order, broadcasting one
        `consensus.reached` per entry, and keeps only the other entries. */
    method CheckConsensus(world: WorldId) returns (canon: seq<ClaimEntry>, emitted: seq<Envelope>)
      requires Valid()
      modifies this
      ensures Valid()
      ensures canon == CanonOf(old(Claims(world)))
      ensures emitted == ReachedAll(canon)
      ensures proposed == old(proposed)[world := Remaining(old(Claims(world)))]
    {
      var claims := Claims(world);
      canon, emitted := CollectCanon(claims);
      assert WellFormedList(claims);
      RemainingWellFormed(claims);
      proposed := proposed[world := Remaining(claims)];
      assert WellFormedList(proposed[world]);
    }
  }

  /** The loop of `check_consensus`: the canon entries in list order, one
      `consensus.reached` per entry. */
  method CollectCanon(claims: seq<ClaimEntry>) returns (canon: seq<ClaimEntry>, emitted: seq<Envelope>)
    ensures canon == CanonOf(claims)
    ensures emitted == ReachedAll(canon)
  {
    canon := [];
    emitted := [];
    var i := 0;
    while i < |claims|
      invariant 0 <= i <= |claims|
      invariant canon == CanonOf(claims[..i])
      invariant emitted == ReachedAll(canon)
    {
      assert claims[..i + 1] == claims[..i] + [claims[i]];
      CanonOfSnoc(claims[..i], claims[i]);
      if claims[i].status == Canon {
        ReachedAllSnoc(canon, claims[i]);
        canon := canon + [claims[i]];
        emitted := emitted + [ReachedEnvelope(claims[i])];
      }
      i := i + 1;
    }
    assert claims[..i] == claims;
  }

  lemma CanonOfSnoc(claims: seq<ClaimEntry>, c: ClaimEntry)
    ensures CanonOf(claims + [c]) == CanonOf(claims) + (if c.status == Canon then [c] else [])
  {
    Sorting.FilterAppend(claims, [c], (c: ClaimEntry) => c.status == Canon);
  }

  lemma ReachedAllSnoc(cs: seq<ClaimEntry>, c: ClaimEntry)
    ensures ReachedAll(cs + [c]) == ReachedAll(cs) + [ReachedEnvelope(c)]
  {
    assert (cs + [c])[..|cs|] == cs;
  }

  lemma {:induction false} RemainingWellFormed(claims: seq<ClaimEntry>)
    requires WellFormedList(claims)
    ensures WellFormedList(Remaining(claims))
  {
    if claims != [] {
      RemainingWellFormed(claims[1..]);
      assert Remaining(claims) == (if claims[0].status != Canon then [claims[0]] else []) + Remaining(claims[1..]);
    }
  }

  /** The runner only proposes claims and reconciles; it never votes. From a
      list without canon entries, proposing keeps it that way, so every
      reconciliation in that pipeline reports nothing. */
  lemma ProposeNeverCanonizes(claims: seq<ClaimEntry>, text: string, proposer: AgentId, faction: FactionId)
    requires forall k :: 0 <= k < |claims| ==> claims[k].status == Proposed
    ensures var after := claims + [NewEntry(text, proposer, faction)];
      (forall k :: 0 <= k < |after| ==> after[k].status == Proposed)
      && CanonOf(after) == []
  {
    var after := claims + [NewEntry(text, proposer, faction)];
    NoCanonNothingReported(after);
  }
}
