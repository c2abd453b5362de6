/**
  What goes wrong when a leader speaks before its term is stored. Only a node that is a quorum by itself can:
  it leads at once, and a leader's messages do not wait. If it crashes then, others hold entries of an
  election it has forgotten, and it may win the same term again with other entries, or give it to somebody else.
 */
module ClusterUnsaved {
  import opened Common
  import opened Quorum
  import opened Raft
  import opened Cluster
  import opened ClusterBase
  import opened ClusterStored
  import opened ClusterHidden
  import opened ClusterRuns
  import opened ClusterSafety
  import opened ClusterPanics

  /** Node 1 is the only voter, node 2 a learner. */
  const PAIR: set<nat> := {1, 2}

  const N: Entry := Entry(1, false, NOOP)
  const A: Entry := Entry(1, false, "a")
  const B: Entry := Entry(1, false, "b")
  const N2: Entry := Entry(2, false, NOOP)

  const FIRST: Message := App(1, 2, 1, 0, 0, [N, A], 0)
  const SECOND: Message := App(1, 2, 1, 0, 0, [N, B], 2)
  const ASK: Message := Vote(false, 2, 1, 2, 2, 1, 2, 1, 0)
  const GRANT: Message := VoteResp(false, 1, 2, 2, false, 0, 0)

  const FORGETFUL: seq<Event> := [
    Hup(1, false), Propose(1, [A]), SendAppend(1, 2, 0, 2), Deliver(FIRST), Lose(1, 0),
    Hup(1, false), Propose(1, [B]), Persist(1, 2), SendAppend(1, 2, 0, 2), Deliver(SECOND),
    Hup(2, false), Deliver(ASK), Deliver(GRANT)]

  // node 1: leads, proposes, loses everything, leads again, proposes, commits, votes
  const L2: Node := LEADS.(log := [N, A])
  const LOST: Node := Node(0, 0, Follower, 0, [], 0, 0, map[], map[1 := 0], HardState(0, 0))
  const L4: Node := LEADS.(log := [N, B])
  const L5: Node := L4.(persisted := 2, saved := HardState(1, 1), matched := map[1 := 2], committed := 2)
  const VOTER: Node := Node(2, 2, Follower, 0, [N, B], 2, 2, map[], map[1 := 2], HardState(2, 2))

  // node 2: takes the entries, commits them, campaigns, leads
  const F1: Node := Node(1, 0, Follower, 1, [N, A], 0, 2, map[], map[2 := 0], HardState(1, 0))
  const F2: Node := F1.(committed := 2)
  const C2: Node := Node(2, 2, Candidate, 0, [N, A], 2, 2, map[2 := true], map[2 := 2], HardState(2, 2))
  const W2: Node := Node(2, 2, Leader, 2, [N, A, N2], 2, 2, map[], map[2 := 2], HardState(2, 2))

  predicate Are(s: State, x: Node, y: Node) {
    s.nodes == map[1 := x, 2 := y]
  }

  ghost function Then(es: seq<Event>, k: nat): State
    requires k <= |es|
  {
    After(ALONE, PAIR, es, k)
  }

  lemma Goes(es: seq<Event>, k: nat)
    requires k < |es|
    ensures Then(es, k + 1) == Apply(ALONE, Then(es, k), es[k])
  {
    hide Apply;
  }

  lemma Arrives(s: State, m: Message, n: Node, r: Reply)
    requires Enabled(s, Deliver(m)) && Serve(ALONE, m.to, s.nodes[m.to], m) == Next(n, r)
    ensures Apply(ALONE, s, Deliver(m)) == Post(Put(s, m.to, n), Replies(r))
  {
    hide Serve;
  }

  lemma Leads(s: State, n: Node, y: Node)
    requires Are(s, n, y) && (n == FRESH || n == LOST)
    ensures var t := Apply(ALONE, s, Hup(1, false)); Are(t, LEADS, y) && s.msgs <= t.msgs
  {
    hide VoteRequests, Campaign;
    Wins(n);
  }

  lemma Wins(n: Node)
    requires n == FRESH || n == LOST
    ensures Campaign(ALONE, 1, n) == Next(LEADS, Silent)
  {
    hide JointVote;
    AloneVotes();
  }

  lemma Proposes(s: State, e: Entry, y: Node)
    requires Are(s, LEADS, y) && e.term == 1
    ensures var t := Apply(ALONE, s, Propose(1, [e])); Are(t, LEADS.(log := [N, e]), y) && t.msgs == s.msgs
  {
    assert Stamp(1, [e]) == [e];
    assert LEADS.log + [e] == [N, e];
  }

  lemma SendsFirst(s: State, y: Node)
    requires Are(s, L2, y)
    ensures var t := Apply(ALONE, s, SendAppend(1, 2, 0, 2)); Are(t, L2, y) && FIRST in t.msgs && Leaks(s, SendAppend(1, 2, 0, 2))
  {
    assert L2.log[0..2] == [N, A];
  }

  lemma MergesFirst()
    ensures MaybeAppend(true, [], 0, 0, 0, [N, A], 0) == Appended([N, A], 0, 2) && FindConflict(true, [], 0, [N, A]) == 1
  {
    assert [] + [N, A] == [N, A];
  }

  lemma TakesFirst(s: State, x: Node)
    requires Are(s, x, FRESH) && FIRST in s.msgs
    ensures Are(Apply(ALONE, s, Deliver(FIRST)), x, F1)
  {
    hide MaybeAppend, FindConflict, FindConflictByTerm;
    var r := Send(AppResp(2, 1, 1, false, 2, 0, 0, 0));
    MergesFirst();
    assert Serve(ALONE, 2, FRESH, FIRST) == Next(F1, r);
    hide Serve;
    Arrives(s, FIRST, F1, r);
  }

  lemma Loses(s: State, y: Node)
    requires Are(s, L2, y)
    ensures Are(Apply(ALONE, s, Lose(1, 0)), LOST, y)
  {
    assert L2.log[..0] == [];
  }

  lemma Counts(n: Node, r: nat)
    requires Matched(n, 1) == r <= U64_MAX
    ensures JointIndex(ALONE.voters, false, AckMap(ALONE, n)) == r
  {
    var l := AckMap(ALONE, n);
    assert Voters(ALONE) == {1};
    forall k: nat
      ensures AckedAtLeast({1}, l, k) == if k <= r then {1} else {}
    {
    }
    assert IsCommittedIndex({1}, false, l, r, false);
    assert JointParts(ALONE.voters, false, l, r, false, U64_MAX, true);
    assert IsJointCommittedIndex(ALONE.voters, false, l, r, false);
    JointIndexIs(ALONE.voters, false, l, r, false);
  }

  lemma Persists(s: State, y: Node)
    requires Are(s, L4, y)
    ensures Are(Apply(ALONE, s, Persist(1, 2)), L5, y)
  {
    Counts(L5.(committed := 0), 2);
    assert L4.matched[1 := 2] == L5.matched;
    assert OnPersist(ALONE, 1, L4, 2) == L5;
  }

  lemma SendsSecond(s: State, y: Node)
    requires Are(s, L5, y)
    ensures var t := Apply(ALONE, s, SendAppend(1, 2, 0, 2)); Are(t, L5, y) && SECOND in t.msgs && !Leaks(s, SendAppend(1, 2, 0, 2))
  {
    assert L5.log[0..2] == [N, B];
  }

  lemma MergesSecond()
    ensures MaybeAppend(true, [N, A], 0, 0, 0, [N, B], 2) == Appended([N, A], 2, 2) && FindConflict(true, [N, A], 0, [N, B]) == 0
  {
    assert [N, B][1..] == [B] && [B][1..] == [];
    assert FirstConflict([N, A], 1, [B]) == FirstConflict([N, A], 2, []);
  }

  /** The terms agree, so the learner keeps what it has, and commits that. */
  lemma TakesSecond(s: State, x: Node)
    requires Are(s, x, F1) && SECOND in s.msgs
    ensures Are(Apply(ALONE, s, Deliver(SECOND)), x, F2)
  {
    hide MaybeAppend, FindConflict, FindConflictByTerm;
    var r := Send(AppResp(2, 1, 1, false, 2, 0, 0, 2));
    MergesSecond();
    assert Serve(ALONE, 2, F1, SECOND) == Next(F2, r);
    hide Serve;
    Arrives(s, SECOND, F2, r);
  }

  lemma LearnerAsks(s: State, x: Node)
    requires Are(s, x, F2)
    ensures var t := Apply(ALONE, s, Hup(2, false)); Are(t, x, C2) && ASK in t.msgs
  {
    AloneVotes();
    var c := C2.(saved := F2.saved);
    assert Campaign(ALONE, 2, F2) == Next(c, Silent) && Saving(c) == C2;
    assert 1 in Voters(ALONE);
    assert ASK in VoteRequests(ALONE, 2, c, false);
  }

  lemma VoterGrants(s: State, y: Node)
    requires Are(s, L5, y) && ASK in s.msgs
    ensures var t := Apply(ALONE, s, Deliver(ASK)); Are(t, VOTER, y) && GRANT in t.msgs
  {
    assert Serve(ALONE, 1, L5, ASK) == Next(VOTER, Send(GRANT));
    Arrives(s, ASK, VOTER, Send(GRANT));
  }

  lemma GrantWins(other: nat)
    ensures JointVote(ALONE.voters, map[other := true, 1 := true]) == Won
  {
    assert Yes({1}, map[other := true, 1 := true]) == {1};
  }

  lemma LearnerWins(s: State, x: Node)
    requires Are(s, x, C2) && GRANT in s.msgs
    ensures Are(Apply(ALONE, s, Deliver(GRANT)), x, W2)
  {
    GrantWins(2);
    assert [N, A] + [N2] == [N, A, N2];
    assert HandleVoteResponse(ALONE, 2, C2, GRANT) == Next(W2, Silent);
    assert Serve(ALONE, 2, C2, GRANT) == Next(W2, Silent);
    Arrives(s, GRANT, W2, Silent);
  }

  // ------------------------------------------------------------- the run

  lemma UpToTheLoss()
    ensures Are(Then(FORGETFUL, 5), LOST, F1) && Leaks(Then(FORGETFUL, 2), FORGETFUL[2])
  {
    hide Apply, Are, Leaks;
    assert Are(Then(FORGETFUL, 0), FRESH, FRESH) by {
      StartsFresh(FORGETFUL);
    }
    Goes(FORGETFUL, 0);
    Leads(Then(FORGETFUL, 0), FRESH, FRESH);
    Goes(FORGETFUL, 1);
    Proposes(Then(FORGETFUL, 1), A, FRESH);
    Goes(FORGETFUL, 2);
    SendsFirst(Then(FORGETFUL, 2), FRESH);
    Goes(FORGETFUL, 3);
    TakesFirst(Then(FORGETFUL, 3), L2);
    Goes(FORGETFUL, 4);
    Loses(Then(FORGETFUL, 4), F1);
  }

  lemma StartsFresh(es: seq<Event>)
    ensures Are(Then(es, 0), FRESH, FRESH)
  {
  }

  lemma UpToTheCommit()
    requires Are(Then(FORGETFUL, 5), LOST, F1)
    ensures Are(Then(FORGETFUL, 10), L5, F2)
  {
    hide Apply, Are, Leaks, Then;
    Goes(FORGETFUL, 5);
    Leads(Then(FORGETFUL, 5), LOST, F1);
    Goes(FORGETFUL, 6);
    Proposes(Then(FORGETFUL, 6), B, F1);
    Goes(FORGETFUL, 7);
    Persists(Then(FORGETFUL, 7), F1);
    Goes(FORGETFUL, 8);
    SendsSecond(Then(FORGETFUL, 8), F1);
    Goes(FORGETFUL, 9);
    TakesSecond(Then(FORGETFUL, 9), L5);
  }

  lemma UpToTheWin()
    requires Are(Then(FORGETFUL, 10), L5, F2)
    ensures Are(Then(FORGETFUL, 13), VOTER, W2)
  {
    hide Apply, Are, Then;
    Goes(FORGETFUL, 10);
    LearnerAsks(Then(FORGETFUL, 10), L5);
    Goes(FORGETFUL, 11);
    VoterGrants(Then(FORGETFUL, 11), C2);
    Goes(FORGETFUL, 12);
    LearnerWins(Then(FORGETFUL, 12), VOTER);
  }

  /**
    One append that leaves too early is enough: the sole voter and a learner commit different entries of the
    same term at index 2, and the learner goes on to lead the next term without what the voter committed.
   */
  lemma UnsavedBreaksSafety()
    ensures GoodCluster(ALONE, PAIR) && ALONE.documented && !Discreet(ALONE, PAIR, FORGETFUL, 3)
    ensures var x, y := NodeAfter(ALONE, PAIR, FORGETFUL, 10, 1), NodeAfter(ALONE, PAIR, FORGETFUL, 10, 2);
            && x.role == Leader && x.term == 1 && x.committed == y.committed == |x.log| == |y.log| == 2
            && x.log[1].term == y.log[1].term == 1 && x.log[1] != y.log[1]
    ensures var x, y := NodeAfter(ALONE, PAIR, FORGETFUL, 10, 1), NodeAfter(ALONE, PAIR, FORGETFUL, 13, 2);
            y.role == Leader && y.term == 2 && y.saved.term == 2 && !AgreesUpTo(x.log, y.log, x.committed)
  {
    UpToTheLoss();
    UpToTheCommit();
    UpToTheWin();
    hide Apply, Then, Leaks;
    assert L5.log[..2][1] != W2.log[..2][1];
  }

  // ---------------------------------------- an election nobody hears of again

  const ASK_FIRST: Message := Vote(false, 2, 1, 1, 0, 0, 0, 0, 0)
  const GRANT_FIRST: Message := VoteResp(false, 1, 2, 1, false, 0, 0)

  const TWICE: seq<Event> := [Hup(1, false), Lose(1, 0), Hup(2, false), Deliver(ASK_FIRST), Deliver(GRANT_FIRST)]

  const GRANTS: Node := Node(1, 2, Follower, 0, [], 0, 0, map[], map[1 := 0], HardState(1, 2))
  const W1: Node := Node(1, 2, Leader, 2, [N], 0, 0, map[], map[2 := 0], HardState(1, 2))

  lemma TwiceLed()
    ensures Are(Then(TWICE, 1), LEADS, FRESH) && Are(Then(TWICE, 2), LOST, FRESH)
  {
    hide Apply, Are;
    StartsFresh(TWICE);
    Goes(TWICE, 0);
    Leads(Then(TWICE, 0), FRESH, FRESH);
    Goes(TWICE, 1);
    LosesAll(Then(TWICE, 1), FRESH);
  }

  lemma LosesAll(s: State, y: Node)
    requires Are(s, LEADS, y)
    ensures Are(Apply(ALONE, s, Lose(1, 0)), LOST, y)
  {
    assert LEADS.log[..0] == [];
  }

  lemma OtherCampaigns(s: State)
    requires Are(s, LOST, FRESH)
    ensures var t := Apply(ALONE, s, Hup(2, false)); Are(t, LOST, ASKS) && ASK_FIRST in t.msgs
  {
    AloneVotes();
    var c := ASKS.(saved := HardState(0, 0));
    assert Campaign(ALONE, 2, FRESH) == Next(c, Silent) && Saving(c) == ASKS;
    assert 1 in Voters(ALONE);
    assert ASK_FIRST in VoteRequests(ALONE, 2, c, false);
  }

  lemma OtherWins(s: State)
    requires Are(s, LOST, ASKS) && ASK_FIRST in s.msgs
    ensures var t := Apply(ALONE, s, Deliver(ASK_FIRST)); Are(Apply(ALONE, t, Deliver(GRANT_FIRST)), GRANTS, W1)
  {
    hide Serve;
    OtherServed();
    Arrives(s, ASK_FIRST, GRANTS, Send(GRANT_FIRST));
    var t := Apply(ALONE, s, Deliver(ASK_FIRST));
    assert Are(t, GRANTS, ASKS) && GRANT_FIRST in t.msgs;
    Arrives(t, GRANT_FIRST, W1, Silent);
  }

  lemma OtherServed()
    ensures Serve(ALONE, 1, LOST, ASK_FIRST) == Next(GRANTS, Send(GRANT_FIRST))
    ensures Serve(ALONE, 2, ASKS, GRANT_FIRST) == Next(W1, Silent)
  {
    GrantWins(2);
    assert [] + [N] == [N];
    assert HandleVoteResponse(ALONE, 2, ASKS, GRANT_FIRST) == Next(W1, Silent);
  }

  lemma TwiceIsDiscreet()
    ensures Discreet(ALONE, PAIR, TWICE, 5)
  {
    hide After;
    assert forall j :: 0 <= j < 5 ==> !TWICE[j].SendAppend? && !TWICE[j].SendHeartbeat? && !TWICE[j].SendReadIndex?;
  }

  lemma TwiceEnds()
    ensures Are(Then(TWICE, 1), LEADS, FRESH) && Are(Then(TWICE, 5), GRANTS, W1)
  {
    hide Apply, Are, Then;
    TwiceLed();
    Goes(TWICE, 2);
    OtherCampaigns(Then(TWICE, 2));
    Goes(TWICE, 3);
    Goes(TWICE, 4);
    OtherWins(Then(TWICE, 3));
  }

  /** Even if nothing leaves too early, a term lost unstored may be led again by another node: nobody knows of the first time. */
  lemma ForgottenElection()
    ensures GoodCluster(ALONE, PAIR) && Discreet(ALONE, PAIR, TWICE, 5)
    ensures var x, y := NodeAfter(ALONE, PAIR, TWICE, 1, 1), NodeAfter(ALONE, PAIR, TWICE, 5, 2);
            x.role == Leader && y.role == Leader && x.term == y.term == 1 && x.saved.term == 0
  {
    hide Apply, After, Discreet;
    TwiceIsDiscreet();
    TwiceEnds();
    NodeIs(ALONE, PAIR, TWICE, 1, 1);
    NodeIs(ALONE, PAIR, TWICE, 5, 2);
  }

}
