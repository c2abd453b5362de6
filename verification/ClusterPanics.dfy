/** The two ways in which a node of the cluster can be stopped do happen. */
module ClusterPanics {
  import opened Quorum
  import opened Raft
  import opened Cluster
  import opened ClusterStored
  import opened ClusterRuns

  // ---------------------------------------------------- a pre-vote refused

  const PRIORITIZED: Settings := Settings(JointConfig({1, 2, 3}, {}), false, map[], false, map[2 := 1], true, true)

  const PRE_VOTE: Message := Vote(true, 1, 2, 2, 0, 0, 0, 0, 0)

  const ASKING: Node := Node(1, 1, Candidate, 0, [], 0, 0, map[1 := true], map[1 := 0], HardState(0, 0))

  lemma FirstAsks()
    ensures Campaign(PRIORITIZED, 1, FRESH) == Next(ASKING, Silent)
    ensures PRE_VOTE in VoteRequests(PRIORITIZED, 1, ASKING, true)
  {
    NoneAlone(PRIORITIZED, {1, 2, 3}, 1);
    hide JointVote;
    assert 2 in Voters(PRIORITIZED);
  }

  lemma SecondRefuses()
    ensures Step(PRIORITIZED, 2, FRESH, PRE_VOTE).Panic?
  {
  }

  /** One event after the start, a node of higher priority that has no term yet is asked for a pre-vote and stops. */
  lemma PreVotePanics()
    ensures GoodCluster(PRIORITIZED, {1, 2, 3})
    ensures var s := After(PRIORITIZED, {1, 2, 3}, [Hup(1, true)], 1);
            Enabled(s, Deliver(PRE_VOTE)) && Step(PRIORITIZED, 2, s.nodes[2], PRE_VOTE).Panic?
  {
    FirstAsks();
    SecondRefuses();
    hide Campaign, VoteRequests, Step;
    var es := [Hup(1, true)];
    assert After(PRIORITIZED, {1, 2, 3}, es, 0) == Start({1, 2, 3});
    assert After(PRIORITIZED, {1, 2, 3}, es, 1) == Apply(PRIORITIZED, Start({1, 2, 3}), es[0]);
  }

  /** One vote of three decides nothing. */
  lemma NoneAlone(cfg: Settings, voters: set<nat>, v: nat)
    requires cfg.voters == JointConfig(voters, {}) && |voters| == 3 && v in voters
    ensures JointVote(cfg.voters, map[v := true]) == Pending
  {
    assert Yes(voters, map[v := true]) == {v};
    assert Missing(voters, map[v := true]) == voters - {v};
  }

  // ------------------------------------------------ a sole voter campaigns

  const ALONE: Settings := Settings(JointConfig({1}, {}), false, map[], true, map[], true, true)

  const BEAT: Message := Heartbeat(1, 2, 1, 0)
  const LATER: Message := AppResp(2, 1, 2, false, 0, 0, 0, 0)

  /** Node 2 is no voter any more, but does not know it yet: it campaigns, and answers a heartbeat from its later term. */
  const DISTURBED: seq<Event> := [
    Hup(1, false), Persist(1, 1), SendHeartbeat(1, 2),
    Hup(2, false), Hup(2, false), Deliver(BEAT),
    Propose(1, [Entry(0, false, "a")]), Deliver(LATER)]

  const LEADS: Node := Node(1, 1, Leader, 1, [Entry(1, false, NOOP)], 0, 0, map[], map[1 := 0], HardState(0, 0))
  const ASKS: Node := Node(1, 2, Candidate, 0, [], 0, 0, map[2 := true], map[2 := 0], HardState(1, 2))
  const ASKS_AGAIN: Node := ASKS.(term := 2, saved := HardState(2, 2))

  /** The leader of term 1 with a log of `k` entries, of which the first is persisted. */
  predicate Led(n: Node, k: nat) {
    n.role == Leader && n.term == 1 && |n.log| == k && n.persisted == 1 && Matched(n, 2) == 0 && n.saved == HardState(1, 1)
  }

  lemma AloneVotes()
    ensures JointVote(ALONE.voters, map[1 := true]) == Won && JointVote(ALONE.voters, map[2 := true]) == Pending
  {
    assert Yes({1}, map[1 := true]) == {1} && Yes({1}, map[2 := true]) == {};
    assert Missing({1}, map[2 := true]) == {1};
  }

  ghost function At(k: nat): State
    requires k <= |DISTURBED|
  {
    After(ALONE, {1, 2}, DISTURBED, k)
  }

  lemma Moves(k: nat)
    requires k < |DISTURBED|
    ensures At(k + 1) == Apply(ALONE, At(k), DISTURBED[k])
  {
    hide Apply;
  }

  lemma SoleVoterLeads(s: State)
    requires s.nodes == map[1 := FRESH, 2 := FRESH]
    ensures Apply(ALONE, s, Hup(1, false)).nodes == map[1 := LEADS, 2 := FRESH]
  {
    AloneVotes();
    assert Campaign(ALONE, 1, FRESH) == Next(LEADS, Silent);
  }

  lemma SoleVoterPersists(s: State)
    requires s.nodes == map[1 := LEADS, 2 := FRESH]
    ensures var t := Apply(ALONE, s, Persist(1, 1)); t.nodes.Keys == {1, 2} && Led(t.nodes[1], 1) && t.nodes[2] == FRESH
  {
    PersistIs(ALONE, 1, LEADS, 1);
    LeaderCommitIs(ALONE, LEADS.(persisted := 1, saved := HardState(1, 1), matched := LEADS.matched[1 := 1]));
    hide LeaderCommit;
  }

  lemma SoleVoterBeats(s: State)
    requires s.nodes.Keys == {1, 2} && Led(s.nodes[1], 1)
    ensures var t := Apply(ALONE, s, SendHeartbeat(1, 2)); t.nodes == s.nodes && BEAT in t.msgs && !Leaks(s, SendHeartbeat(1, 2))
  {
  }

  lemma OtherAsks(s: State, n: Node, c: Node)
    requires s.nodes.Keys == {1, 2} && s.nodes[2] == n && ((n == FRESH && c == ASKS) || (n == ASKS && c == ASKS_AGAIN))
    ensures var t := Apply(ALONE, s, Hup(2, false)); t.nodes == s.nodes[2 := c] && s.msgs <= t.msgs
  {
    AloneVotes();
    var raw := c.(saved := n.saved);
    assert Campaign(ALONE, 2, n) == Next(raw, Silent) && Saving(raw) == c;
    hide Campaign, VoteRequests;
  }

  lemma OtherAnswers(s: State)
    requires s.nodes.Keys == {1, 2} && s.nodes[2] == ASKS_AGAIN && BEAT in s.msgs
    ensures var t := Apply(ALONE, s, Deliver(BEAT)); t.nodes == s.nodes && LATER in t.msgs
  {
    assert Serve(ALONE, 2, ASKS_AGAIN, BEAT) == Next(ASKS_AGAIN, Send(LATER));
  }

  lemma SoleVoterProposes(s: State)
    requires s.nodes.Keys == {1, 2} && Led(s.nodes[1], 1)
    ensures var t := Apply(ALONE, s, Propose(1, [Entry(0, false, "a")])); t.nodes.Keys == {1, 2} && Led(t.nodes[1], 2) && t.msgs == s.msgs
  {
  }

  lemma SoleVoterStandsDown(s: State)
    requires s.nodes.Keys == {1, 2} && Led(s.nodes[1], 2) && LATER in s.msgs
    ensures var n := Apply(ALONE, s, Deliver(LATER)).nodes[1]; n.role == Follower && n.persisted == 1 && |n.log| == 2
  {
    var o := Serve(ALONE, 1, s.nodes[1], LATER);
    assert o.Next? && o.reply == Silent && o.node.role == Follower && o.node.log == s.nodes[1].log && o.node.persisted == 1;
  }

  lemma FirstHalf()
    ensures At(4).nodes.Keys == {1, 2} && Led(At(4).nodes[1], 1) && At(4).nodes[2] == ASKS && BEAT in At(4).msgs
    ensures !Leaks(At(2), DISTURBED[2])
  {
    hide Apply, Led, Leaks;
    assert At(0).nodes == map[1 := FRESH, 2 := FRESH];
    Moves(0);
    SoleVoterLeads(At(0));
    Moves(1);
    SoleVoterPersists(At(1));
    Moves(2);
    SoleVoterBeats(At(2));
    Moves(3);
    OtherAsks(At(3), FRESH, ASKS);
  }

  lemma SecondHalf()
    requires At(4).nodes.Keys == {1, 2} && Led(At(4).nodes[1], 1) && At(4).nodes[2] == ASKS && BEAT in At(4).msgs
    ensures At(8).nodes.Keys == {1, 2} && var n := At(8).nodes[1]; n.role == Follower && n.persisted == 1 && |n.log| == 2
  {
    hide Apply, Led, At;
    Moves(4);
    OtherAsks(At(4), ASKS, ASKS_AGAIN);
    Moves(5);
    OtherAnswers(At(5));
    Moves(6);
    SoleVoterProposes(At(6));
    Moves(7);
    SoleVoterStandsDown(At(7));
    ActsAlone(ALONE, At(7), DISTURBED[7]);
  }

  /**
    A sole voter is made to step down by a message of a later term before its latest entry is persisted, and
    campaigns again: the log it wins with is not persisted, although nobody else can have voted.
   */
  lemma SoleVoterPanics()
    ensures GoodCluster(ALONE, {1, 2}) && Discreet(ALONE, {1, 2}, DISTURBED, 8)
    ensures Campaign(ALONE, 1, NodeAfter(ALONE, {1, 2}, DISTURBED, 8, 1)).Panic?
  {
    FirstHalf();
    SecondHalf();
    AloneVotes();
    hide JointVote, Apply;
    assert Campaign(ALONE, 1, At(8).nodes[1]).Panic?;
    hide At, Campaign;
    assert forall j :: 0 <= j < 8 && j != 2 ==> !DISTURBED[j].SendAppend? && !DISTURBED[j].SendHeartbeat? && !DISTURBED[j].SendReadIndex?;
  }

}
