/**
  A run in which `find_conflict` as written loses a committed entry. Node 1 commits
  an entry that node 2 acknowledged; a late, shorter copy of the same append makes
  node 2 drop it again; node 2 then leads the next term and commits another entry
  at that index.
 */
module ClusterWritten {
  import opened Quorum
  import opened Raft
  import opened Cluster
  import opened ClusterBase
  import opened ClusterRuns

  const IDS: set<nat> := {1, 2, 3}

  const WRITTEN: Settings := Settings(JointConfig(IDS, {}), false, map[], false, map[], false, false)

  const N1: Entry := Entry(1, false, NOOP)
  const E1: Entry := Entry(1, false, "a")
  const N2: Entry := Entry(2, false, NOOP)

  const ASK_TWO: Message := Vote(false, 1, 2, 1, 0, 0, 0, 0, 0)
  const TWO_GRANTS: Message := VoteResp(false, 2, 1, 1, false, 0, 0)
  const SHORT: Message := App(1, 2, 1, 0, 0, [N1], 0)
  const LONG: Message := App(1, 2, 1, 0, 0, [N1, E1], 0)
  const TWO_HOLDS: Message := AppResp(2, 1, 1, false, 2, 0, 0, 0)
  const ASK_THREE: Message := Vote(false, 2, 3, 2, 1, 1, 0, 0, 0)
  const THREE_GRANTS: Message := VoteResp(false, 3, 2, 2, false, 0, 0)
  const OTHER: Message := App(2, 3, 2, 0, 0, [N1, N2], 0)
  const THREE_HOLDS: Message := AppResp(3, 2, 2, false, 2, 0, 0, 0)

  const SCHEDULE: seq<Event> := [
    Hup(1, false), Deliver(ASK_TWO), Deliver(TWO_GRANTS),
    Propose(1, [Entry(0, false, "a")]), SendAppend(1, 2, 0, 1), SendAppend(1, 2, 0, 2),
    Deliver(LONG), Persist(1, 2), Deliver(TWO_HOLDS),
    Deliver(SHORT),
    Hup(2, false), Deliver(ASK_THREE), Deliver(THREE_GRANTS),
    SendAppend(2, 3, 0, 2), Deliver(OTHER), Persist(2, 2), Deliver(THREE_HOLDS)]

  // node 1: candidate, leader, proposer, and after its commit
  const A1: Node := Node(1, 1, Candidate, 0, [], 0, 0, map[1 := true], map[1 := 0], HardState(1, 1))
  const A2: Node := Node(1, 1, Leader, 1, [N1], 0, 0, map[], map[1 := 0], HardState(1, 1))
  const A3: Node := A2.(log := [N1, E1])
  const A4: Node := A3.(persisted := 2, matched := map[1 := 2])
  const A5: Node := A4.(committed := 2, matched := map[1 := 2, 2 := 2])

  // node 2: voter, holder, truncated, candidate, leader, and after its commit
  const B1: Node := Node(1, 1, Follower, 0, [], 0, 0, map[], map[2 := 0], HardState(1, 1))
  const B2: Node := B1.(leaderId := 1, log := [N1, E1], persisted := 2)
  const B3: Node := B2.(log := [N1], persisted := 1)
  const B4: Node := Node(2, 2, Candidate, 0, [N1], 0, 1, map[2 := true], map[2 := 1], HardState(2, 2))
  const B5: Node := Node(2, 2, Leader, 2, [N1, N2], 0, 1, map[], map[2 := 1], HardState(2, 2))
  const B6: Node := B5.(persisted := 2, matched := map[2 := 2])
  const B7: Node := B6.(committed := 2, matched := map[2 := 2, 3 := 2])

  const C1: Node := Node(2, 2, Follower, 0, [], 0, 0, map[], map[3 := 0], HardState(2, 2))
  const C2: Node := C1.(leaderId := 2, log := [N1, N2], persisted := 2)

  predicate Is(s: State, a: Node, b: Node, c: Node) {
    s.nodes == map[1 := a, 2 := b, 3 := c]
  }

  ghost function At(k: nat): State
    requires k <= |SCHEDULE|
  {
    After(WRITTEN, IDS, SCHEDULE, k)
  }

  lemma Moves(k: nat)
    requires k < |SCHEDULE|
    ensures At(k + 1) == Apply(WRITTEN, At(k), SCHEDULE[k])
  {
    hide Apply;
  }

  lemma Delivered(s: State, m: Message, n: Node, r: Reply)
    requires Enabled(s, Deliver(m)) && Serve(WRITTEN, m.to, s.nodes[m.to], m) == Next(n, r)
    ensures Apply(WRITTEN, s, Deliver(m)) == Post(Put(s, m.to, n), Replies(r))
  {
    hide Serve;
  }

  lemma VotesWon(v: nat, w: nat)
    requires v in IDS && w in IDS && v != w
    ensures JointVote(WRITTEN.voters, map[v := true]) == Pending
    ensures JointVote(WRITTEN.voters, map[v := true, w := true]) == Won
  {
    assert Yes(IDS, map[v := true]) == {v};
    assert Missing(IDS, map[v := true]) == IDS - {v};
    assert Yes(IDS, map[v := true, w := true]) == {v, w};
  }

  lemma Counted(n: Node, acked: set<nat>, r: nat)
    requires acked <= IDS && forall v :: v in IDS ==> Matched(n, v) == if v in acked then 2 else 0
    requires r == if |acked| >= 2 then 2 else 0
    ensures JointIndex(WRITTEN.voters, false, AckMap(WRITTEN, n)) == r
  {
    var l := AckMap(WRITTEN, n);
    assert Voters(WRITTEN) == IDS;
    assert AckedAtLeast(IDS, l, 0) == IDS;
    forall k: nat | 0 < k <= 2 ensures AckedAtLeast(IDS, l, k) == acked {}
    forall k: nat | k > 2 ensures AckedAtLeast(IDS, l, k) == {} {}
    assert IsCommittedIndex(IDS, false, l, r, false);
    assert JointParts(WRITTEN.voters, false, l, r, false, U64_MAX, true);
    assert IsJointCommittedIndex(WRITTEN.voters, false, l, r, false);
    JointIndexIs(WRITTEN.voters, false, l, r, false);
  }

  // ------------------------------------------------ term 1: elected, committed

  lemma FirstVote(s: State)
    requires Is(s, FRESH, FRESH, FRESH)
    ensures var t := Apply(WRITTEN, s, Hup(1, false)); Is(t, A1, FRESH, FRESH) && ASK_TWO in t.msgs
  {
    VotesWon(1, 2);
    var c := A1.(saved := FRESH.saved);
    assert Campaign(WRITTEN, 1, FRESH) == Next(c, Silent) && Saving(c) == A1;
    assert 2 in Voters(WRITTEN);
    assert ASK_TWO in VoteRequests(WRITTEN, 1, c, false);
  }

  lemma GrantedByTwo(s: State)
    requires Is(s, A1, FRESH, FRESH) && ASK_TWO in s.msgs
    ensures var t := Apply(WRITTEN, s, Deliver(ASK_TWO)); Is(t, A1, B1, FRESH) && TWO_GRANTS in t.msgs
  {
    assert Serve(WRITTEN, 2, FRESH, ASK_TWO) == Next(B1, Send(TWO_GRANTS));
    Delivered(s, ASK_TWO, B1, Send(TWO_GRANTS));
  }

  lemma OneLeads(s: State)
    requires Is(s, A1, B1, FRESH) && TWO_GRANTS in s.msgs
    ensures Is(Apply(WRITTEN, s, Deliver(TWO_GRANTS)), A2, B1, FRESH)
  {
    VotesWon(1, 2);
    assert HandleVoteResponse(WRITTEN, 1, A1, TWO_GRANTS) == Next(A2, Silent);
    assert Serve(WRITTEN, 1, A1, TWO_GRANTS) == Next(A2, Silent);
    Delivered(s, TWO_GRANTS, A2, Silent);
  }

  lemma OneSends(s: State)
    requires Is(s, A2, B1, FRESH)
    ensures var t := Apply(WRITTEN, s, Propose(1, [Entry(0, false, "a")]));
            var u := Apply(WRITTEN, t, SendAppend(1, 2, 0, 1));
            var v := Apply(WRITTEN, u, SendAppend(1, 2, 0, 2));
            Is(v, A3, B1, FRESH) && SHORT in v.msgs && LONG in v.msgs
  {
    assert Stamp(1, [Entry(0, false, "a")]) == [E1];
    assert A2.log + [E1] == A3.log;
    assert A3.log[0..1] == [N1] && A3.log[0..2] == [N1, E1];
  }

  /** A follower with an empty log takes two entries. */
  lemma AppendTwo(id: nat, n: Node, m: Message)
    requires n.role == Follower && n.log == [] && n.committed == 0
    requires m.App? && m.term == n.term > 0 && m.index == m.logTerm == m.commit == 0 && |m.entries| == 2
    ensures Serve(WRITTEN, id, n, m) ==
            Next(Saving(n.(leaderId := m.from, log := m.entries)), Send(AppResp(id, m.from, n.term, false, 2, 0, 0, 0)))
  {
    assert MaybeAppend(false, [], 0, 0, 0, m.entries, 0) == Appended(m.entries, 0, 2) by {
      assert [] + m.entries == m.entries;
    }
  }

  lemma TwoHolds(s: State)
    requires Is(s, A3, B1, FRESH) && LONG in s.msgs
    ensures var t := Apply(WRITTEN, s, Deliver(LONG)); Is(t, A3, B2, FRESH) && TWO_HOLDS in t.msgs
    ensures s.msgs <= Apply(WRITTEN, s, Deliver(LONG)).msgs
  {
    hide Serve;
    AppendTwo(2, B1, LONG);
    Delivered(s, LONG, B2, Send(TWO_HOLDS));
  }

  lemma OneSaves()
    ensures OnPersist(WRITTEN, 1, A3, 2) == A4
  {
    Counted(A4, {1}, 0);
    assert A3.matched[1 := 2] == A4.matched;
  }

  lemma OnePersists(s: State)
    requires Is(s, A3, B2, FRESH)
    ensures var t := Apply(WRITTEN, s, Persist(1, 2)); Is(t, A4, B2, FRESH) && t.msgs == s.msgs
  {
    OneSaves();
    hide OnPersist;
  }

  lemma OneCounts()
    ensures HandleAppendResponse(WRITTEN, A4, TWO_HOLDS) == A5
  {
    Counted(A4.(matched := map[1 := 2, 2 := 2]), {1, 2}, 2);
  }

  lemma OneCommits(s: State)
    requires Is(s, A4, B2, FRESH) && TWO_HOLDS in s.msgs
    ensures var t := Apply(WRITTEN, s, Deliver(TWO_HOLDS)); Is(t, A5, B2, FRESH) && t.msgs == s.msgs
  {
    OneCounts();
    hide HandleAppendResponse;
    Delivered(s, TWO_HOLDS, A5, Silent);
  }

  /** The late, shorter append: every entry it carries is held already, yet the log shrinks. */
  lemma TwoForgets(s: State)
    requires Is(s, A5, B2, FRESH) && SHORT in s.msgs
    ensures Is(Apply(WRITTEN, s, Deliver(SHORT)), A5, B3, FRESH)
  {
    assert MaybeAppend(false, B2.log, 0, 0, 0, SHORT.entries, 0) == Appended([N1], 0, 1);
    var r := Send(AppResp(2, 1, 1, false, 1, 0, 0, 0));
    assert Serve(WRITTEN, 2, B2, SHORT) == Next(B3, r);
    Delivered(s, SHORT, B3, r);
  }

  // ------------------------------------------- term 2: the same index, again

  lemma SecondVote(s: State)
    requires Is(s, A5, B3, FRESH)
    ensures var t := Apply(WRITTEN, s, Hup(2, false)); Is(t, A5, B4, FRESH) && ASK_THREE in t.msgs
  {
    VotesWon(2, 3);
    var c := B4.(saved := B3.saved);
    assert Campaign(WRITTEN, 2, B3) == Next(c, Silent) && Saving(c) == B4;
    assert 3 in Voters(WRITTEN);
    assert ASK_THREE in VoteRequests(WRITTEN, 2, c, false);
  }

  lemma GrantedByThree(s: State)
    requires Is(s, A5, B4, FRESH) && ASK_THREE in s.msgs
    ensures var t := Apply(WRITTEN, s, Deliver(ASK_THREE)); Is(t, A5, B4, C1) && THREE_GRANTS in t.msgs
  {
    assert Serve(WRITTEN, 3, FRESH, ASK_THREE) == Next(C1, Send(THREE_GRANTS));
    Delivered(s, ASK_THREE, C1, Send(THREE_GRANTS));
  }

  lemma TwoLeads(s: State)
    requires Is(s, A5, B4, C1) && THREE_GRANTS in s.msgs
    ensures Is(Apply(WRITTEN, s, Deliver(THREE_GRANTS)), A5, B5, C1)
  {
    VotesWon(2, 3);
    assert HandleVoteResponse(WRITTEN, 2, B4, THREE_GRANTS) == Next(B5, Silent);
    assert Serve(WRITTEN, 2, B4, THREE_GRANTS) == Next(B5, Silent);
    Delivered(s, THREE_GRANTS, B5, Silent);
  }

  lemma TwoSends(s: State)
    requires Is(s, A5, B5, C1)
    ensures var t := Apply(WRITTEN, s, SendAppend(2, 3, 0, 2)); Is(t, A5, B5, C1) && OTHER in t.msgs
  {
    assert B5.log[0..2] == [N1, N2];
  }

  lemma ThreeHolds(s: State)
    requires Is(s, A5, B5, C1) && OTHER in s.msgs
    ensures var t := Apply(WRITTEN, s, Deliver(OTHER)); Is(t, A5, B5, C2) && THREE_HOLDS in t.msgs
  {
    hide Serve;
    AppendTwo(3, C1, OTHER);
    Delivered(s, OTHER, C2, Send(THREE_HOLDS));
  }

  lemma TwoSaves()
    ensures OnPersist(WRITTEN, 2, B5, 2) == B6
  {
    Counted(B6, {2}, 0);
    assert B5.matched[2 := 2] == B6.matched;
  }

  lemma TwoPersists(s: State)
    requires Is(s, A5, B5, C2)
    ensures var t := Apply(WRITTEN, s, Persist(2, 2)); Is(t, A5, B6, C2) && t.msgs == s.msgs
  {
    TwoSaves();
    hide OnPersist;
  }

  lemma TwoCounts()
    ensures HandleAppendResponse(WRITTEN, B6, THREE_HOLDS) == B7
  {
    Counted(B6.(matched := map[2 := 2, 3 := 2]), {2, 3}, 2);
  }

  lemma TwoCommits(s: State)
    requires Is(s, A5, B6, C2) && THREE_HOLDS in s.msgs
    ensures Is(Apply(WRITTEN, s, Deliver(THREE_HOLDS)), A5, B7, C2)
  {
    TwoCounts();
    hide HandleAppendResponse;
    Delivered(s, THREE_HOLDS, B7, Silent);
  }

  lemma StartIs()
    ensures Is(At(0), FRESH, FRESH, FRESH)
  {
  }

  lemma FirstTerm()
    ensures Is(At(6), A3, B1, FRESH) && SHORT in At(6).msgs && LONG in At(6).msgs
  {
    hide Is, Apply;
    StartIs();
    Moves(0);
    FirstVote(At(0));
    Moves(1);
    GrantedByTwo(At(1));
    Moves(2);
    OneLeads(At(2));
    Moves(3);
    Moves(4);
    Moves(5);
    OneSends(At(3));
  }

  lemma FirstCommit()
    requires Is(At(6), A3, B1, FRESH) && SHORT in At(6).msgs && LONG in At(6).msgs
    ensures Is(At(9), A5, B2, FRESH) && SHORT in At(9).msgs && Is(At(10), A5, B3, FRESH)
  {
    hide Is, Apply;
    Moves(6);
    TwoHolds(At(6));
    Moves(7);
    OnePersists(At(7));
    Moves(8);
    OneCommits(At(8));
    Moves(9);
    TwoForgets(At(9));
  }

  lemma SecondTerm()
    requires Is(At(10), A5, B3, FRESH)
    ensures Is(At(17), A5, B7, C2)
  {
    hide Is, Apply;
    Moves(10);
    SecondVote(At(10));
    Moves(11);
    GrantedByThree(At(11));
    Moves(12);
    TwoLeads(At(12));
    Moves(13);
    TwoSends(At(13));
    Moves(14);
    ThreeHolds(At(14));
    Moves(15);
    TwoPersists(At(15));
    Moves(16);
    TwoCommits(At(16));
  }

  lemma NoneAlone(p: nat)
    ensures !HasQuorum(WRITTEN.voters, {p})
  {
    HasQuorumIsMajority(WRITTEN.voters, {p});
    assert IDS * {p} <= {p};
    assert |IDS| == 3;
    if |IDS * {p}| > 1 {
      OneOf(IDS * {p}, p);
    }
  }

  lemma OneOf(s: set<nat>, p: nat)
    requires s <= {p}
    ensures |s| <= 1
  {
    assert s == {} || s == {p};
  }

  lemma ScheduleDiscreet()
    ensures Discreet(WRITTEN, IDS, SCHEDULE, 17)
  {
    hide HasQuorum, Discreet;
    forall p | p in IDS
      ensures !HasQuorum(WRITTEN.voters, {p})
    {
      NoneAlone(p);
    }
    AlwaysDiscreet(WRITTEN, IDS, SCHEDULE, 17);
  }

  /**
    With `find_conflict` as written, state-machine safety fails: two nodes end up
    with different committed entries at index 2.
   */
  lemma WrittenBreaksStateMachineSafety()
    ensures GoodCluster(WRITTEN, IDS) && Discreet(WRITTEN, IDS, SCHEDULE, 17)
    ensures var x, y := NodeAfter(WRITTEN, IDS, SCHEDULE, 17, 1), NodeAfter(WRITTEN, IDS, SCHEDULE, 17, 2);
            && x.committed == y.committed == 2 && |x.log| == |y.log| == 2
            && x.log[1] != y.log[1]
  {
    hide Discreet, Apply;
    ScheduleDiscreet();
    FirstTerm();
    FirstCommit();
    SecondTerm();
  }
}
