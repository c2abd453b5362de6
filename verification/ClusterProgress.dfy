/**
  A cluster is never stuck. From whatever state a schedule leads to, it can be continued so that the node with
  the best log is elected in a new term and everything in that log is committed by every voter.
 */
module ClusterProgress {
  import opened Common
  import opened Quorum
  import opened Raft
  import opened Voting
  import opened Commit
  import opened Cluster
  import opened ClusterBase
  import opened ClusterStored
  import opened ClusterSteps
  import opened ClusterEvents
  import opened ClusterHidden
  import opened ClusterRuns
  import opened ClusterCommit
  import opened ClusterSafety
  import opened ClusterSafetyGrowth
  import opened ClusterSafetySteps
  import opened ClusterSafetyEvents
  import opened ClusterSafetyHidden
  import opened ClusterSafetyRuns

  /** The voters are among the nodes, and none of them is a quorum by itself. */
  ghost predicate Settled(cfg: Settings, ids: set<nat>) {
    GoodCluster(cfg, ids) && cfg.documented && Voters(cfg) <= ids && forall p :: p in ids ==> !HasQuorum(cfg.voters, {p})
  }

  /** The state a schedule ends in. */
  ghost function Now(cfg: Settings, ids: set<nat>, es: seq<Event>): State {
    After(cfg, ids, es, |es|)
  }

  lemma {:induction false} SameAfter(cfg: Settings, ids: set<nat>, es: seq<Event>, fs: seq<Event>, k: nat)
    requires k <= |es| && k <= |fs| && es[..k] == fs[..k]
    ensures After(cfg, ids, es, k) == After(cfg, ids, fs, k)
  {
    hide Apply;
    if k > 0 {
      assert es[..k][..k - 1] == es[..k - 1] && fs[..k][..k - 1] == fs[..k - 1];
      assert es[..k][k - 1] == fs[..k][k - 1];
      SameAfter(cfg, ids, es, fs, k - 1);
    }
  }

  lemma NowNext(cfg: Settings, ids: set<nat>, es: seq<Event>, e: Event)
    ensures Now(cfg, ids, es + [e]) == Apply(cfg, Now(cfg, ids, es), e)
  {
    hide Apply;
    assert (es + [e])[..|es|] == es[..|es|];
    SameAfter(cfg, ids, es + [e], es, |es|);
  }

  lemma NowKeys(cfg: Settings, ids: set<nat>, es: seq<Event>)
    requires GoodCluster(cfg, ids)
    ensures Now(cfg, ids, es).nodes.Keys == ids && SoundState(cfg, Now(cfg, ids, es))
  {
    SoundAlways(cfg, ids, es, |es|);
  }

  // ------------------------------------------------------------ one vote

  lemma EveryoneIsQuorum(cfg: Settings, s: set<nat>)
    requires Voters(cfg) <= s
    ensures HasQuorum(cfg.voters, s)
  {
    HasQuorumIsMajority(cfg.voters, s);
    assert cfg.voters.incoming * s == cfg.voters.incoming && cfg.voters.outgoing * s == cfg.voters.outgoing;
  }

  /** The votes of a candidate nobody has refused. */
  predicate AllGranted(votes: Votes, granted: set<nat>) {
    votes.Keys == granted && forall v :: v in votes ==> votes[v]
  }

  lemma Tally(cfg: Settings, votes: Votes, granted: set<nat>)
    requires AllGranted(votes, granted)
    ensures JointVote(cfg.voters, votes) == if HasQuorum(cfg.voters, granted) then Won else Pending
  {
    hide JointVote, HasQuorum;
    assert YesIds(votes) == granted;
    WonIsMajority(cfg.voters, votes);
    HasQuorumIsMajority(cfg.voters, granted);
    LostIsHopeless(cfg.voters, votes);
    EveryoneIsQuorum(cfg, YesIds(votes) + Missing(Voters(cfg), votes));
  }

  /** One more vote wins or leaves it open. */
  lemma OneMoreVote(cfg: Settings, a: nat, n: Node, v: nat, granted: set<nat>)
    requires n.role == Candidate && n.term > 0 && n.persisted == |n.log| && AllGranted(n.votes, granted)
    ensures var o := Serve(cfg, a, n, VoteResp(false, v, a, n.term, false, 0, 0));
            && o.Next? && o.reply == Silent && o.node.term == n.term && o.node.persisted == |n.log|
            && if HasQuorum(cfg.voters, granted + {v})
               then o.node.role == Leader && o.node.log == n.log + [Entry(n.term, false, NOOP)] && o.node.matched == map[a := |n.log|]
               else o.node.role == Candidate && o.node.log == n.log && AllGranted(o.node.votes, granted + {v})
  {
    hide JointVote, HasQuorum, TermAt, HasConf, HandleAppend, HandleHeartbeat, HandleVote, HandleAppendResponse;
    Tally(cfg, RecordVote(n.votes, v, true), granted + {v});
  }

  /** A leader takes no notice of further votes. */
  lemma LateVote(cfg: Settings, a: nat, n: Node, v: nat)
    requires n.role == Leader && n.term > 0
    ensures Serve(cfg, a, n, VoteResp(false, v, a, n.term, false, 0, 0)) == Next(n, Silent)
  {
    hide JointVote, HasQuorum, TermAt;
  }

  /** A voter of an earlier term grants a request that reaches it. */
  lemma VoteGiven(cfg: Settings, v: nat, n: Node, m: Message)
    requires m.Vote? && !m.pre && m.term > n.term && UpToDate(n.log, m.index, m.logTerm) && GivesWay(cfg, v, n, m)
    ensures var o := Serve(cfg, v, n, m);
            && o.Next? && o.reply == Send(VoteResp(false, v, m.from, m.term, false, 0, 0))
            && o.node.term == m.term && o.node.role == Follower && o.node.log == n.log && o.node.committed == n.committed
  {
    hide UpToDate, TermAt, CommitByVote;
  }

  // ------------------------------------------------------- the election

  /** What the candidate asks of a voter. */
  function Request(cfg: Settings, a: nat, c: Node, v: nat): Message {
    Vote(false, a, v, c.term, |c.log|, LastTerm(c.log), c.committed, TermAt(c.log, c.committed), Priority(cfg, a))
  }

  /** A voter that will grant the request: of an earlier term, with no better log, and giving way. */
  ghost predicate Willing(cfg: Settings, s: State, a: nat, t: nat, log: Log, v: nat) {
    && v in s.nodes && s.nodes[v].term < t && LastTerm(s.nodes[v].log) < t
    && Reaches(s.nodes[v].log, log) && (|log| > |s.nodes[v].log| || Priority(cfg, v) <= Priority(cfg, a))
  }

  /** A request of the candidate's log and term waits for the voter. */
  ghost predicate Waits(cfg: Settings, s: State, a: nat, t: nat, log: Log, v: nat) {
    exists c: Node :: c.term == t && c.log == log && Request(cfg, a, c, v) in s.msgs
  }

  /** A voter that has granted: it follows in the term, its log as it was. */
  ghost predicate Granted(s: State, t: nat, v: nat) {
    v in s.nodes && s.nodes[v].term == t && s.nodes[v].role == Follower && LastTerm(s.nodes[v].log) < t
  }

  ghost predicate Standing(cfg: Settings, s: State, a: nat, t: nat, log: Log, done: set<nat>) {
    && a in s.nodes && t > 0
    && var n := s.nodes[a];
       && n.term == t && n.persisted == |log|
       && if HasQuorum(cfg.voters, done + {a}) then n.role == Leader && n.log == log + [Entry(t, false, NOOP)] && n.matched == map[a := |log|]
          else n.role == Candidate && n.log == log && AllGranted(n.votes, done + {a})
  }

  ghost predicate Electing(cfg: Settings, s: State, a: nat, t: nat, log: Log, todo: set<nat>, done: set<nat>) {
    && Standing(cfg, s, a, t, log, done)
    && (forall v :: v in todo ==> v != a && Willing(cfg, s, a, t, log, v) && Waits(cfg, s, a, t, log, v))
    && (forall v :: v in done ==> v != a && Granted(s, t, v))
  }

  lemma AskOne(cfg: Settings, s: State, a: nat, t: nat, log: Log, todo: set<nat>, done: set<nat>, v: nat) returns (m: Message)
    requires Electing(cfg, s, a, t, log, todo, done) && v in todo && todo !! done
    ensures var u := Apply(cfg, s, Deliver(m));
            && u.nodes.Keys == s.nodes.Keys && s.msgs <= u.msgs && (forall q :: q in s.nodes && q != v ==> u.nodes[q] == s.nodes[q])
            && Granted(u, t, v) && VoteResp(false, v, a, t, false, 0, 0) in u.msgs
  {
    hide Serve, HasQuorum, Standing, LastTerm, TermAt, UpToDate;
    assert Waits(cfg, s, a, t, log, v) && Willing(cfg, s, a, t, log, v);
    var c: Node :| c.term == t && c.log == log && Request(cfg, a, c, v) in s.msgs;
    m := Request(cfg, a, c, v);
    VoteGiven(cfg, v, s.nodes[v], m);
  }

  lemma CountOne(cfg: Settings, s: State, a: nat, t: nat, log: Log, done: set<nat>, v: nat)
    requires Standing(cfg, s, a, t, log, done) && VoteResp(false, v, a, t, false, 0, 0) in s.msgs && v !in done
    ensures var u := Apply(cfg, s, Deliver(VoteResp(false, v, a, t, false, 0, 0)));
            && u.nodes.Keys == s.nodes.Keys && s.msgs <= u.msgs && (forall q :: q in s.nodes && q != a ==> u.nodes[q] == s.nodes[q])
            && Standing(cfg, u, a, t, log, done + {v})
  {
    hide Serve, HasQuorum, AllGranted;
    var n := s.nodes[a];
    assert done + {a} + {v} == done + {v} + {a};
    if n.role == Leader {
      LateVote(cfg, a, n, v);
      HasQuorumMonotone(cfg.voters, done + {a}, done + {v} + {a});
    } else {
      OneMoreVote(cfg, a, n, v, done + {a});
    }
  }

  lemma ElectingOn(cfg: Settings, s: State, u: State, a: nat, t: nat, log: Log, todo: set<nat>, done: set<nat>, v: nat)
    requires Electing(cfg, s, a, t, log, todo, done) && v in todo && todo !! done
    requires u.nodes.Keys == s.nodes.Keys && s.msgs <= u.msgs && forall q :: q in s.nodes && q != v && q != a ==> u.nodes[q] == s.nodes[q]
    requires Standing(cfg, u, a, t, log, done + {v}) && Granted(u, t, v)
    ensures Electing(cfg, u, a, t, log, todo - {v}, done + {v})
  {
    hide Standing, HasQuorum, Reaches, LastTerm;
    forall w | w in todo - {v}
      ensures w != a && Willing(cfg, u, a, t, log, w) && Waits(cfg, u, a, t, log, w)
    {
      assert Willing(cfg, s, a, t, log, w) && Waits(cfg, s, a, t, log, w);
      var c: Node :| c.term == t && c.log == log && Request(cfg, a, c, w) in s.msgs;
      assert Request(cfg, a, c, w) in u.msgs;
    }
    forall w | w in done + {v}
      ensures w != a && Granted(u, t, w)
    {
      assert w in done ==> Granted(s, t, w);
      assert Willing(cfg, s, a, t, log, v);
    }
  }

  /** Every voter asked grants, one after the other. */
  lemma {:induction false} ElectAll(cfg: Settings, ids: set<nat>, es: seq<Event>, a: nat, t: nat, log: Log, todo: set<nat>, done: set<nat>) returns (fs: seq<Event>)
    requires Settled(cfg, ids) && Electing(cfg, Now(cfg, ids, es), a, t, log, todo, done) && todo !! done
    ensures es <= fs && Electing(cfg, Now(cfg, ids, fs), a, t, log, {}, done + todo)
    decreases |todo|
  {
    hide Settled, Electing, Standing, Apply, Now, Granted;
    if todo == {} {
      fs := es;
      assert done + todo == done;
    } else {
      var v :| v in todo;
      var e, f := ElectOne(cfg, Now(cfg, ids, es), a, t, log, todo, done, v);
      NowNext(cfg, ids, es, e);
      NowNext(cfg, ids, es + [e], f);
      fs := ElectAll(cfg, ids, es + [e] + [f], a, t, log, todo - {v}, done + {v});
      assert done + {v} + (todo - {v}) == done + todo;
    }
  }

  /** One voter is asked, and its answer counted. */
  lemma ElectOne(cfg: Settings, s: State, a: nat, t: nat, log: Log, todo: set<nat>, done: set<nat>, v: nat) returns (e: Event, f: Event)
    requires Electing(cfg, s, a, t, log, todo, done) && todo !! done && v in todo
    ensures Electing(cfg, Apply(cfg, Apply(cfg, s, e), f), a, t, log, todo - {v}, done + {v})
  {
    hide Electing, Standing, Apply, Granted;
    var m := AskOne(cfg, s, a, t, log, todo, done, v);
    e, f := Deliver(m), Deliver(VoteResp(false, v, a, t, false, 0, 0));
    var s1 := Apply(cfg, s, e);
    ElectingParts(cfg, s, a, t, log, todo, done, v);
    StandsStill(cfg, s, s1, a, t, log, done);
    CountOne(cfg, s1, a, t, log, done, v);
    var s2 := Apply(cfg, s1, f);
    GrantStays(s1, s2, t, v);
    ElectingOn(cfg, s, s2, a, t, log, todo, done, v);
  }

  lemma ElectingParts(cfg: Settings, s: State, a: nat, t: nat, log: Log, todo: set<nat>, done: set<nat>, v: nat)
    requires Electing(cfg, s, a, t, log, todo, done) && v in todo
    ensures Standing(cfg, s, a, t, log, done) && a in s.nodes && v in s.nodes && v != a
  {
    hide HasQuorum, Reaches, LastTerm, AllGranted;
    assert Willing(cfg, s, a, t, log, v);
  }

  lemma StandsStill(cfg: Settings, s: State, u: State, a: nat, t: nat, log: Log, done: set<nat>)
    requires Standing(cfg, s, a, t, log, done) && a in u.nodes && u.nodes[a] == s.nodes[a]
    ensures Standing(cfg, u, a, t, log, done)
  {
    hide HasQuorum, AllGranted;
  }

  lemma GrantStays(s: State, u: State, t: nat, v: nat)
    requires Granted(s, t, v) && v in u.nodes && u.nodes[v] == s.nodes[v]
    ensures Granted(u, t, v)
  {
  }

  // -------------------------------------------------------- the campaign

  /** The node is a candidate in a later term than `t`, and every other voter is asked. */
  ghost predicate Campaigning(cfg: Settings, s: State, a: nat, t: nat, log: Log) {
    && a in s.nodes
    && var n := s.nodes[a];
       && n.role == Candidate && n.term > t && n.log == log && n.persisted == |log| && AllGranted(n.votes, {a})
       && forall v :: v in Voters(cfg) && v != a ==> Waits(cfg, s, a, n.term, log, v)
  }

  lemma HupOnce(cfg: Settings, s: State, a: nat)
    requires a in s.nodes && s.nodes[a].role != Leader && !HasQuorum(cfg.voters, {a})
    ensures var u := Apply(cfg, s, Hup(a, false));
            && Campaigning(cfg, u, a, s.nodes[a].term, s.nodes[a].log) && u.nodes[a].term == s.nodes[a].term + 1
            && u.nodes.Keys == s.nodes.Keys && forall q :: q in s.nodes && q != a ==> u.nodes[q] == s.nodes[q]
  {
    hide HasQuorum, Campaign;
    var n := s.nodes[a];
    CampaignOutcome(cfg, a, n);
    var c := BecomeCandidate(a, n).(votes := map[a := true]);
    var u := Apply(cfg, s, Hup(a, false));
    assert u == Post(Put(s, a, Saving(c)), VoteRequests(cfg, a, c, false));
    forall v | v in Voters(cfg) && v != a
      ensures Waits(cfg, u, a, c.term, n.log, v)
    {
      assert Request(cfg, a, c, v) in VoteRequests(cfg, a, c, false);
    }
  }

  /** A node that does not lead can campaign until its term is as late as is wanted. */
  lemma {:induction false} CampaignOn(cfg: Settings, ids: set<nat>, es: seq<Event>, a: nat, t: nat) returns (fs: seq<Event>)
    requires Settled(cfg, ids) && a in ids && a in Now(cfg, ids, es).nodes && Now(cfg, ids, es).nodes[a].role != Leader
    ensures es <= fs && Campaigning(cfg, Now(cfg, ids, fs), a, t, Now(cfg, ids, es).nodes[a].log)
    ensures Now(cfg, ids, fs).nodes.Keys == Now(cfg, ids, es).nodes.Keys
    ensures forall q :: q in Now(cfg, ids, es).nodes && q != a ==> Now(cfg, ids, fs).nodes[q] == Now(cfg, ids, es).nodes[q]
    decreases t + 1 - Now(cfg, ids, es).nodes[a].term
  {
    hide Apply, Now, HasQuorum, Waits, AllGranted;
    var s := Now(cfg, ids, es);
    HupOnce(cfg, s, a);
    NowNext(cfg, ids, es, Hup(a, false));
    fs := es + [Hup(a, false)];
    if s.nodes[a].term < t {
      fs := CampaignOn(cfg, ids, fs, a, t);
    }
  }

  /** So can any node: a leader stands down first. */
  lemma Campaigns(cfg: Settings, ids: set<nat>, es: seq<Event>, a: nat, t: nat) returns (fs: seq<Event>)
    requires Settled(cfg, ids) && a in ids && a in Now(cfg, ids, es).nodes
    ensures es <= fs && Campaigning(cfg, Now(cfg, ids, fs), a, t, Now(cfg, ids, es).nodes[a].log)
    ensures Now(cfg, ids, fs).nodes.Keys == Now(cfg, ids, es).nodes.Keys
    ensures forall q :: q in Now(cfg, ids, es).nodes && q != a ==> Now(cfg, ids, fs).nodes[q] == Now(cfg, ids, es).nodes[q]
  {
    hide Now, Campaigning, Settled;
    if Now(cfg, ids, es).nodes[a].role == Leader {
      NowNext(cfg, ids, es, StepDown(a));
      fs := CampaignOn(cfg, ids, es + [StepDown(a)], a, t);
    } else {
      fs := CampaignOn(cfg, ids, es, a, t);
    }
  }

  /** The terms of some nodes have a bound. */
  lemma {:induction false} TermBound(nodes: map<nat, Node>, some: set<nat>) returns (t: nat)
    requires some <= nodes.Keys
    ensures forall v :: v in some ==> nodes[v].term <= t
    decreases |some|
  {
    t := 0;
    if some != {} {
      var v :| v in some;
      t := TermBound(nodes, some - {v});
      t := Max(t, nodes[v].term);
    }
  }

  /** The node's log is at least as up to date as any voter's, and none outranks it unless its log is shorter. */
  ghost predicate Best(cfg: Settings, s: State, a: nat) {
    a in s.nodes && forall v :: v in Voters(cfg) && v in s.nodes ==>
      Reaches(s.nodes[v].log, s.nodes[a].log) && (|s.nodes[a].log| > |s.nodes[v].log| || Priority(cfg, v) <= Priority(cfg, a))
  }

  /** The node with the best log wins. */
  lemma Elects(cfg: Settings, ids: set<nat>, es: seq<Event>, a: nat) returns (fs: seq<Event>)
    requires Settled(cfg, ids) && a in Voters(cfg) && Best(cfg, Now(cfg, ids, es), a)
    ensures es <= fs && a in Now(cfg, ids, fs).nodes && a in Now(cfg, ids, es).nodes
    ensures var n, l := Now(cfg, ids, fs).nodes[a], Now(cfg, ids, es).nodes[a].log;
            && n.role == Leader && n.log == l + [Entry(n.term, false, NOOP)] && n.persisted == |l| && n.matched == map[a := |l|]
            && (forall v :: v in Voters(cfg) && v != a ==> Granted(Now(cfg, ids, fs), n.term, v))
            && forall v :: v in Voters(cfg) && v in Now(cfg, ids, es).nodes ==> Now(cfg, ids, es).nodes[v].term < n.term
  {
    hide Now, Apply, HasQuorum, LastTerm, Reaches, AllGranted, Waits, GoodCluster;
    var s := Now(cfg, ids, es);
    NowKeys(cfg, ids, es);
    var others := Voters(cfg) - {a};
    var t := TermBound(s.nodes, Voters(cfg));
    var gs := Campaigns(cfg, ids, es, a, t);
    var u := Now(cfg, ids, gs);
    var n, l := u.nodes[a], s.nodes[a].log;
    forall v | v in others
      ensures Willing(cfg, u, a, n.term, l, v)
    {
      LastTermNow(cfg, ids, es, v);
    }
    assert {} + {a} == {a};
    assert Electing(cfg, u, a, n.term, l, others, {});
    fs := ElectAll(cfg, ids, gs, a, n.term, l, others, {});
    assert {} + others == others;
    EveryoneIsQuorum(cfg, others + {a});
  }

  lemma LastTermNow(cfg: Settings, ids: set<nat>, es: seq<Event>, v: nat)
    requires Settled(cfg, ids) && v in ids
    ensures v in Now(cfg, ids, es).nodes && LastTerm(Now(cfg, ids, es).nodes[v].log) <= Now(cfg, ids, es).nodes[v].term
  {
    hide Apply, HasQuorum, LastTerm, Backed, NodeOK, HistoryOK, Leaks;
    NowKeys(cfg, ids, es);
    NodeIs(cfg, ids, es, |es|, v);
    AlwaysDiscreet(cfg, ids, es, |es|);
    NodeFull(cfg, ids, es, |es|, v);
    LastTermBound(cfg, HistoryAfter(cfg, ids, es, |es|), v, NodeAfter(cfg, ids, es, |es|, v));
  }

  // ------------------------------------------------------ what is reached

  /** Everything the safety invariant says of a node of such a cluster and of the messages. */
  lemma Open(cfg: Settings, ids: set<nat>, es: seq<Event>, p: nat) returns (h: History)
    requires Settled(cfg, ids) && p in ids
    ensures h == HistoryAfter(cfg, ids, es, |es|) && p in Now(cfg, ids, es).nodes
    ensures var n := Now(cfg, ids, es).nodes[p];
            !Hidden(n) && HistorySafe(cfg, h) && NodeOK(h, p, n) && NodeSafe(cfg, h, p, n)
  {
    hide Apply, HasQuorum, Backed, NodeOK, HistorySafe, NodeSafe, SafelyBacked, Leaks, HistoryAfter;
    h := HistoryAfter(cfg, ids, es, |es|);
    NowKeys(cfg, ids, es);
    NodeIs(cfg, ids, es, |es|, p);
    AlwaysDiscreet(cfg, ids, es, |es|);
    NodeFullSafe(cfg, ids, es, |es|, p);
    if Hidden(NodeAfter(cfg, ids, es, |es|, p)) {
      ShapeOf(cfg, h, p, NodeAfter(cfg, ids, es, |es|, p));
    }
  }

  /** If no voter is past a term, nobody has been elected past it. */
  lemma NoLaterReign(cfg: Settings, ids: set<nat>, es: seq<Event>, t: nat, u: nat)
    requires Settled(cfg, ids) && u in HistoryAfter(cfg, ids, es, |es|).reigns
    requires forall v :: v in Voters(cfg) && v in Now(cfg, ids, es).nodes ==> Now(cfg, ids, es).nodes[v].term <= t
    ensures u <= t
  {
    hide Apply, HasQuorum, NodeSafe, BallotsRemember, AcksKnown, HistoryAfter, Hidden, Now, LogOK;
    var h := HistoryAfter(cfg, ids, es, |es|);
    var w :| w in cfg.voters.incoming;
    h := Open(cfg, ids, es, w);
    assert ReignOK(cfg, h, u);
    EveryoneIsQuorum(cfg, Voters(cfg));
    var p := QuorumsMeet(cfg.voters, h.reigns[u].voters, Voters(cfg));
    h := Open(cfg, ids, es, p);
    assert VotesOK(h, p, Now(cfg, ids, es).nodes[p]);
  }

  /** What any node has committed is in the log of the leader of the latest term. */
  lemma CommittedIsLed(cfg: Settings, ids: set<nat>, es: seq<Event>, a: nat, v: nat)
    requires Settled(cfg, ids) && a in ids && v in ids && a in Now(cfg, ids, es).nodes && v in Now(cfg, ids, es).nodes
    requires Now(cfg, ids, es).nodes[a].role == Leader
    requires forall w :: w in Voters(cfg) && w in Now(cfg, ids, es).nodes ==> Now(cfg, ids, es).nodes[w].term <= Now(cfg, ids, es).nodes[a].term
    ensures var n, m := Now(cfg, ids, es).nodes[a], Now(cfg, ids, es).nodes[v];
            AgreesUpTo(m.log, n.log, m.committed)
  {
    hide Apply, HasQuorum, HistoryOK, BallotsRemember, AcksKnown, HistoryAfter, Hidden, Now, CommittedBy, LogOK, VotesOK, CandidateOK, AcksOK, CurrentAck, LeaderSafe;
    var h := Open(cfg, ids, es, a);
    h := Open(cfg, ids, es, v);
    var n, m := Now(cfg, ids, es).nodes[a], Now(cfg, ids, es).nodes[v];
    var log := m.log[..m.committed];
    if m.committed > 0 {
      var t: nat, k: nat :| CommittedBy(cfg, h, log, t, k);
      CommittedTerms(cfg, h, log, t, k);
      NoLaterReign(cfg, ids, es, n.term, t);
      CompletePrefix(cfg, h, log, t, k, n.term);
      assert log[..|log|] == m.log[..m.committed];
    }
  }

  // -------------------------------------------------------- replication

  /** The follower's part: an append anchored at its commit index turns its log into the leader's. */
  lemma Copies(cfg: Settings, h: History, v: nat, n: Node, m: Message)
    requires cfg.documented && HistorySafe(cfg, h) && NodeOK(h, v, n) && n.role == Follower
    requires m.App? && m.term == n.term && n.term in h.reigns && m.index == n.committed
    requires var r := h.reigns[n.term].log;
             && LastTerm(n.log) < n.term && r != [] && r[|r| - 1].term == n.term
             && m.index <= |r| && m.entries == r[m.index..] && m.logTerm == TermAt(r, m.index) && AgreesUpTo(n.log, r, n.committed) && m.commit <= |r|
    ensures var r, o := h.reigns[n.term].log, Serve(cfg, v, n, m);
            && o.Next? && o.node.log == r && o.node.term == n.term && o.node.role == Follower && o.node.committed <= |r|
            && o.reply.Send? && o.reply.m.AppResp? && o.reply.m == AppResp(v, m.from, n.term, false, |r|, 0, 0, o.reply.m.commit)
  {
    hide HistoryOK, BallotsRemember, AcksKnown, LogOK, LastTerm, TermAt, FirstConflict, Spliced;
    var f, r := n.(leaderId := m.from), h.reigns[n.term].log;
    ReignLogOK(cfg, h, n.term);
    AllPositive(cfg, h, r);
    SameTerms(n.log, r, n.committed, n.committed);
    assert Matches(f.log, r, m.index, m.entries);
    AcceptedAppend(cfg, h, f, m);
    MatchedAppend(cfg, h, f.log, m.index, m.entries, n.term);
    if FirstConflict(f.log, m.index, m.entries) == 0 {
      EndsInTerm(cfg, h, n.log, r, n.term);
    }
    assert r[..|r|] == r;
    HandlesAppend(cfg, v, f, m);
  }

  /** A log of earlier terms does not reach what a leader began with. */
  lemma EndsInTerm(cfg: Settings, h: History, log: Log, r: Log, t: nat)
    requires HistoryOK(cfg, h) && LogOK(h, log) && LastTerm(log) < t && r != [] && r[|r| - 1].term == t
    ensures !AgreesUpTo(log, r, |r|)
  {
    hide HistoryOK, LogOK;
    if AgreesUpTo(log, r, |r|) {
      assert log[..|r|][|r| - 1] == r[..|r|][|r| - 1];
      Sorted(cfg, h, log, |r| - 1, |log| - 1);
    }
  }

  lemma HandlesAppend(cfg: Settings, v: nat, n: Node, m: Message)
    requires m.App? && m.term == n.term && n.role == Follower && m.index >= n.committed
    requires MaybeAppend(cfg.documented, n.log, n.committed, m.index, m.logTerm, m.entries, m.commit).Appended?
    ensures var a := MaybeAppend(cfg.documented, n.log, n.committed, m.index, m.logTerm, m.entries, m.commit);
            var o := Stored(HandleAppend(cfg, v, n, m));
            && o.Next? && o.node.log == a.log && o.node.committed == a.committed && o.node.term == n.term && o.node.role == Follower
            && o.reply == Send(AppResp(v, m.from, n.term, false, a.last, 0, 0, a.committed))
  {
    hide MaybeAppend, FindConflict, FindConflictByTerm, ResetPersisted;
  }

  /** The leader with its whole log persisted, and what it knows of the voters; once it knows all to hold its log, that is committed. */
  ghost predicate Leading(cfg: Settings, s: State, a: nat, t: nat, log: Log, done: set<nat>) {
    && a in s.nodes && t > 0 && log != [] && log[|log| - 1].term == t && |log| <= U64_MAX
    && var n := s.nodes[a];
       && n.role == Leader && n.term == t && n.log == log && n.persisted == |log| && n.committed <= |log|
       && (forall v :: Matched(n, v) == if v in done || v == a then |log| else 0)
       && (Voters(cfg) <= done + {a} ==> n.committed == |log|)
  }

  /** A voter with the leader's log. */
  ghost predicate Copied(s: State, t: nat, log: Log, v: nat) {
    && v in s.nodes
    && var n := s.nodes[v];
       n.term == t && n.role == Follower && n.log == log && n.committed <= |log|
  }

  ghost predicate Copying(cfg: Settings, s: State, a: nat, t: nat, log: Log, todo: set<nat>, done: set<nat>) {
    && Leading(cfg, s, a, t, log, done)
    && (forall v :: v in todo ==> v != a && Granted(s, t, v)) && (forall v :: v in done ==> v != a && Copied(s, t, log, v))
  }

  /** The leader sends a voter everything past what that voter has committed. */
  lemma SendOne(cfg: Settings, s: State, a: nat, t: nat, log: Log, done: set<nat>, v: nat)
    requires Leading(cfg, s, a, t, log, done) && v in s.nodes && v != a && s.nodes[v].committed <= |log|
    ensures var c := s.nodes[v].committed;
            var u := Apply(cfg, s, SendAppend(a, v, c, |log| - c));
            && u.nodes == s.nodes && s.msgs <= u.msgs
            && App(a, v, t, c, TermAt(log, c), log[c..], s.nodes[a].committed) in u.msgs
  {
    hide TermAt;
    var c := s.nodes[v].committed;
    assert log[c..c + (|log| - c)] == log[c..];
  }

  /** The acknowledgement of the whole log. */
  lemma AckWhole(cfg: Settings, s: State, a: nat, t: nat, log: Log, done: set<nat>, v: nat, m: Message)
    requires cfg.voters.incoming != {} && Leading(cfg, s, a, t, log, done) && v != a && v !in done && m in s.msgs
    requires m.AppResp? && m == AppResp(v, a, t, false, |log|, 0, 0, m.commit)
    ensures var u := Apply(cfg, s, Deliver(m));
            && u.nodes.Keys == s.nodes.Keys && s.msgs <= u.msgs && (forall q :: q in s.nodes && q != a ==> u.nodes[q] == s.nodes[q])
            && Leading(cfg, u, a, t, log, done + {v})
  {
    hide LeaderCommit, HandleVote, HandleAppend, HandleHeartbeat, HandleVoteResponse, Voters;
    var n := s.nodes[a];
    var n1 := n.(matched := n.matched[v := |log|]);
    assert Matched(n, v) == 0;
    LeaderCommitIs(cfg, n1);
    assert forall w :: Matched(n1, w) == if w == v then |log| else Matched(n, w);
    if Voters(cfg) <= done + {v} + {a} {
      AllHeldCommits(cfg, n1);
    }
    assert Step(cfg, a, n, m) == Next(LeaderCommit(cfg, n1), Silent);
    assert forall w :: Matched(LeaderCommit(cfg, n1), w) == Matched(n1, w);
  }

  /** The voter takes the append and answers. */
  lemma TakeOne(cfg: Settings, ids: set<nat>, es: seq<Event>, s: State, a: nat, t: nat, log: Log, done: set<nat>, v: nat, m: Message) returns (r: Message)
    requires Settled(cfg, ids) && Leading(cfg, s, a, t, log, done) && Granted(s, t, v) && a in ids && v in ids && v != a
    requires var n := s.nodes[v];
             AgreesUpTo(n.log, log, n.committed)
             && m == App(a, v, t, n.committed, TermAt(log, n.committed), log[n.committed..], s.nodes[a].committed) && m in s.msgs
    requires s == Now(cfg, ids, es)
    ensures var u := Apply(cfg, s, Deliver(m));
            && u.nodes.Keys == s.nodes.Keys && s.msgs <= u.msgs && (forall q :: q in s.nodes && q != v ==> u.nodes[q] == s.nodes[q])
            && Copied(u, t, log, v) && r in u.msgs && r.AppResp? && r == AppResp(v, a, t, false, |log|, 0, 0, r.commit)
  {
    hide Now, LastTerm, TermAt, HistorySafe, NodeSafe, NodeOK, Serve, Hidden, HistoryAfter, Apply, Settled, Leading, AgreesUpTo;
    var h := Open(cfg, ids, es, a);
    h := Open(cfg, ids, es, v);
    Documented(cfg, ids);
    LeadsAt(cfg, s, a, t, log, done);
    CopiesFrom(cfg, h, a, s.nodes[a], v, s.nodes[v], m);
    r := Delivered(cfg, s, t, log, v, m);
  }

  lemma CopiesFrom(cfg: Settings, h: History, a: nat, l: Node, v: nat, n: Node, m: Message)
    requires cfg.documented && HistorySafe(cfg, h) && NodeOK(h, v, n) && NodeOK(h, a, l)
    requires l.role == Leader && n.role == Follower && n.term == l.term && LastTerm(n.log) < n.term && AgreesUpTo(n.log, l.log, n.committed)
    requires m == App(a, v, l.term, n.committed, TermAt(l.log, n.committed), l.log[n.committed..], l.committed)
    ensures var o := Serve(cfg, v, n, m);
            && o.Next? && o.node.log == l.log && o.node.term == n.term && o.node.role == Follower && o.node.committed <= |l.log|
            && o.reply.Send? && o.reply.m.AppResp? && o.reply.m == AppResp(v, m.from, n.term, false, |l.log|, 0, 0, o.reply.m.commit)
  {
    hide NodeOK, HistoryOK, BallotsRemember, AcksKnown, Serve, LastTerm, TermAt;
    Leads(h, a, l);
    PersistedBound(h, a, l);
    LeadersLast(cfg, h, l.term);
    Copies(cfg, h, v, n, m);
  }

  lemma Documented(cfg: Settings, ids: set<nat>)
    requires Settled(cfg, ids)
    ensures cfg.documented
  {
    hide HasQuorum;
  }

  lemma Delivered(cfg: Settings, s: State, t: nat, log: Log, v: nat, m: Message) returns (r: Message)
    requires m in s.msgs && m.to == v && v in s.nodes
    requires var o := Serve(cfg, v, s.nodes[v], m);
             && o.Next? && o.node.log == log && o.node.term == t && o.node.role == Follower && o.node.committed <= |log|
             && o.reply.Send? && o.reply.m.AppResp? && o.reply.m == AppResp(v, m.from, t, false, |log|, 0, 0, o.reply.m.commit)
    ensures var u := Apply(cfg, s, Deliver(m));
            && u.nodes.Keys == s.nodes.Keys && s.msgs <= u.msgs && (forall q :: q in s.nodes && q != v ==> u.nodes[q] == s.nodes[q])
            && Copied(u, t, log, v) && r in u.msgs && r.AppResp? && r == AppResp(v, m.from, t, false, |log|, 0, 0, r.commit)
  {
    hide Serve;
    r := Serve(cfg, v, s.nodes[v], m).reply.m;
  }

  lemma LeadingStays(cfg: Settings, s: State, u: State, a: nat, t: nat, log: Log, done: set<nat>)
    requires Leading(cfg, s, a, t, log, done) && a in u.nodes && u.nodes[a] == s.nodes[a]
    ensures Leading(cfg, u, a, t, log, done)
  {
    hide Voters;
  }

  /** Only the voter that was brought up to date and the leader have changed. */
  lemma CopyingOn(cfg: Settings, s: State, u: State, a: nat, t: nat, log: Log, todo: set<nat>, done: set<nat>, v: nat)
    requires Copying(cfg, s, a, t, log, todo, done) && v in todo && todo !! done
    requires u.nodes.Keys == s.nodes.Keys && forall q :: q in s.nodes && q != v && q != a ==> u.nodes[q] == s.nodes[q]
    requires Leading(cfg, u, a, t, log, done + {v}) && Copied(u, t, log, v)
    ensures Copying(cfg, u, a, t, log, todo - {v}, done + {v})
  {
    hide Leading, LastTerm;
    forall w | w in todo - {v}
      ensures w != a && Granted(u, t, w)
    {
      assert Granted(s, t, w);
    }
    forall w | w in done + {v}
      ensures w != a && Copied(u, t, log, w)
    {
      assert w in done ==> Copied(s, t, log, w);
    }
  }

  /** One voter is brought up to date and says so. */
  lemma CopyOne(cfg: Settings, ids: set<nat>, es: seq<Event>, a: nat, t: nat, log: Log, todo: set<nat>, done: set<nat>, v: nat) returns (fs: seq<Event>)
    requires Settled(cfg, ids) && Copying(cfg, Now(cfg, ids, es), a, t, log, todo, done) && a in ids && v in todo && todo !! done
    requires Voters(cfg) <= todo + done + {a} && todo <= ids
    ensures es <= fs && Copying(cfg, Now(cfg, ids, fs), a, t, log, todo - {v}, done + {v})
  {
    hide Apply, Now, HasQuorum, LastTerm, TermAt, HistoryAfter, Leading, GoodCluster;
    var s := Now(cfg, ids, es);
    NowKeys(cfg, ids, es);
    assert cfg.voters.incoming != {} by { Populated(cfg, ids); }
    LeadsAt(cfg, s, a, t, log, done);
    forall w | w in Voters(cfg) && w in s.nodes
      ensures s.nodes[w].term <= t
    {
      assert w in todo ==> Granted(s, t, w);
      assert w in done ==> Copied(s, t, log, w);
    }
    CommittedIsLed(cfg, ids, es, a, v);
    SendOne(cfg, s, a, t, log, done, v);
    var c := s.nodes[v].committed;
    var e0 := SendAppend(a, v, c, |log| - c);
    var m := App(a, v, t, c, TermAt(log, c), log[c..], s.nodes[a].committed);
    NowNext(cfg, ids, es, e0);
    var es0 := es + [e0];
    var s0 := Apply(cfg, s, e0);
    LeadingStays(cfg, s, s0, a, t, log, done);
    GrantStays(s, s0, t, v);
    var r := TakeOne(cfg, ids, es0, s0, a, t, log, done, v, m);
    NowNext(cfg, ids, es0, Deliver(m));
    var s1 := Apply(cfg, s0, Deliver(m));
    LeadingStays(cfg, s0, s1, a, t, log, done);
    AckWhole(cfg, s1, a, t, log, done, v, r);
    NowNext(cfg, ids, es0 + [Deliver(m)], Deliver(r));
    fs := es0 + [Deliver(m)] + [Deliver(r)];
    CopyingOn(cfg, s, Apply(cfg, s1, Deliver(r)), a, t, log, todo, done, v);
  }

  lemma Populated(cfg: Settings, ids: set<nat>)
    requires Settled(cfg, ids)
    ensures cfg.voters.incoming != {}
  {
    hide HasQuorum;
  }

  lemma LeadsAt(cfg: Settings, s: State, a: nat, t: nat, log: Log, done: set<nat>)
    requires Leading(cfg, s, a, t, log, done)
    ensures a in s.nodes && s.nodes[a].role == Leader && s.nodes[a].term == t && s.nodes[a].log == log
  {
    hide Voters;
  }

  lemma {:induction false} CopyAll(cfg: Settings, ids: set<nat>, es: seq<Event>, a: nat, t: nat, log: Log, todo: set<nat>, done: set<nat>) returns (fs: seq<Event>)
    requires Settled(cfg, ids) && Copying(cfg, Now(cfg, ids, es), a, t, log, todo, done) && a in ids && todo !! done
    requires Voters(cfg) <= todo + done + {a} && todo <= ids
    ensures es <= fs && Copying(cfg, Now(cfg, ids, fs), a, t, log, {}, done + todo)
    decreases |todo|
  {
    hide Settled, Copying, Now, Voters;
    if todo == {} {
      fs := es;
      assert done + todo == done;
    } else {
      var v :| v in todo;
      fs := CopyOne(cfg, ids, es, a, t, log, todo, done, v);
      fs := CopyAll(cfg, ids, fs, a, t, log, todo - {v}, done + {v});
      assert done + {v} + (todo - {v}) == done + todo;
    }
  }

  // ------------------------------------------------------- commit everywhere

  /** A node that has the leader's log, all of it committed. */
  ghost predicate Whole(s: State, t: nat, log: Log, v: nat) {
    v in s.nodes && s.nodes[v].term == t && s.nodes[v].log == log && s.nodes[v].committed == |log|
  }

  ghost predicate Telling(cfg: Settings, s: State, a: nat, t: nat, log: Log, todo: set<nat>, done: set<nat>) {
    && Leading(cfg, s, a, t, log, todo + done) && s.nodes[a].committed == |log|
    && (forall v :: v in todo ==> v != a && Copied(s, t, log, v)) && (forall v :: v in done ==> v != a && Whole(s, t, log, v))
  }

  /** A heartbeat raises the commit index of a follower that holds what it names. */
  lemma Told(cfg: Settings, v: nat, n: Node, a: nat, commit: nat)
    requires n.role == Follower && n.term > 0 && n.committed <= commit <= |n.log|
    ensures var o := Serve(cfg, v, n, Heartbeat(a, v, n.term, commit));
            o.Next? && o.node.log == n.log && o.node.term == n.term && o.node.committed == commit
  {
    hide HandleAppend, HandleVote, TermAt, MaybeCommit;
  }

  lemma TellOne(cfg: Settings, ids: set<nat>, es: seq<Event>, a: nat, t: nat, log: Log, todo: set<nat>, done: set<nat>, v: nat) returns (fs: seq<Event>)
    requires Telling(cfg, Now(cfg, ids, es), a, t, log, todo, done) && v in todo && todo !! done
    ensures es <= fs && Telling(cfg, Now(cfg, ids, fs), a, t, log, todo - {v}, done + {v})
  {
    hide Now, Serve, Voters;
    var s := Now(cfg, ids, es);
    assert Copied(s, t, log, v);
    var m := Heartbeat(a, v, t, |log|);
    NowNext(cfg, ids, es, SendHeartbeat(a, v));
    var s0 := Apply(cfg, s, SendHeartbeat(a, v));
    assert s0.nodes == s.nodes && m in s0.msgs;
    Told(cfg, v, s.nodes[v], a, |log|);
    NowNext(cfg, ids, es + [SendHeartbeat(a, v)], Deliver(m));
    fs := es + [SendHeartbeat(a, v)] + [Deliver(m)];
    assert todo - {v} + (done + {v}) == todo + done;
    TellingOn(cfg, s, Apply(cfg, s0, Deliver(m)), a, t, log, todo, done, v);
  }

  lemma TellingOn(cfg: Settings, s: State, u: State, a: nat, t: nat, log: Log, todo: set<nat>, done: set<nat>, v: nat)
    requires Telling(cfg, s, a, t, log, todo, done) && v in todo && todo !! done
    requires u.nodes.Keys == s.nodes.Keys && forall q :: q in s.nodes && q != v ==> u.nodes[q] == s.nodes[q]
    requires Whole(u, t, log, v)
    ensures Telling(cfg, u, a, t, log, todo - {v}, done + {v})
  {
    hide Leading;
    assert todo - {v} + (done + {v}) == todo + done;
    assert a in s.nodes by { LeadsAt(cfg, s, a, t, log, todo + done); }
    LeadingStays(cfg, s, u, a, t, log, todo + done);
    forall w | w in todo - {v}
      ensures w != a && Copied(u, t, log, w)
    {
      assert Copied(s, t, log, w);
    }
    forall w | w in done + {v}
      ensures w != a && Whole(u, t, log, w)
    {
      assert w in done ==> Whole(s, t, log, w);
    }
  }

  lemma {:induction false} TellAll(cfg: Settings, ids: set<nat>, es: seq<Event>, a: nat, t: nat, log: Log, todo: set<nat>, done: set<nat>) returns (fs: seq<Event>)
    requires Telling(cfg, Now(cfg, ids, es), a, t, log, todo, done) && todo !! done
    ensures es <= fs && Telling(cfg, Now(cfg, ids, fs), a, t, log, {}, done + todo)
    decreases |todo|
  {
    hide Telling, Now;
    if todo == {} {
      fs := es;
      assert done + todo == done;
    } else {
      var v :| v in todo;
      fs := TellOne(cfg, ids, es, a, t, log, todo, done, v);
      fs := TellAll(cfg, ids, fs, a, t, log, todo - {v}, done + {v});
      assert done + {v} + (todo - {v}) == done + todo;
    }
  }

  /** A new leader takes a proposal and persists its whole log. */
  lemma Proposes(cfg: Settings, ids: set<nat>, es: seq<Event>, s: State, a: nat, log: Log, proposed: Log) returns (fs: seq<Event>)
    requires Settled(cfg, ids) && a in ids && a in s.nodes && |log| + 1 + |proposed| <= U64_MAX
    requires var n := s.nodes[a];
             n.role == Leader && n.term > 0 && n.log == log + [Entry(n.term, false, NOOP)] && n.persisted == |log| && n.matched == map[a := |log|]
             && n.committed <= |n.log|
    requires s == Now(cfg, ids, es)
    ensures es <= fs && Leading(cfg, Now(cfg, ids, fs), a, s.nodes[a].term, s.nodes[a].log + Stamp(s.nodes[a].term, proposed), {})
    ensures Now(cfg, ids, fs).nodes.Keys == s.nodes.Keys && forall q :: q in s.nodes && q != a ==> Now(cfg, ids, fs).nodes[q] == s.nodes[q]
  {
    hide Now, HasQuorum, Stamp, OnPersist, GoodCluster;
    var n := s.nodes[a];
    var whole := n.log + Stamp(n.term, proposed);
    var e, p := Propose(a, proposed), Persist(a, |whole|);
    NowNext(cfg, ids, es, e);
    NowNext(cfg, ids, es + [e], p);
    fs := es + [e] + [p];
    StampTerms(n.term, proposed);
    PersistWhole(cfg, a, n.(log := whole));
    if Voters(cfg) <= {a} {
      EveryoneIsQuorum(cfg, {a});
    }
  }

  lemma PersistWhole(cfg: Settings, a: nat, n: Node)
    requires n.role == Leader && n.term > 0 && n.committed <= |n.log| && n.persisted < |n.log| && n.matched == map[a := n.persisted]
    ensures var m := OnPersist(cfg, a, n, |n.log|);
            && m.role == Leader && m.term == n.term && m.log == n.log && m.persisted == |n.log| && m.committed <= |n.log|
            && forall v :: Matched(m, v) == if v == a then |n.log| else 0
  {
    hide LeaderCommit;
    LeaderCommitIs(cfg, n.(persisted := |n.log|, saved := HardState(n.term, n.vote), matched := n.matched[a := |n.log|]));
  }

  lemma CommittedNow(cfg: Settings, ids: set<nat>, es: seq<Event>, a: nat)
    requires Settled(cfg, ids) && a in ids
    ensures a in Now(cfg, ids, es).nodes && Now(cfg, ids, es).nodes[a].committed <= |Now(cfg, ids, es).nodes[a].log|
  {
    hide Now, HasQuorum, HistorySafe, NodeSafe, HistoryAfter, Settled, Hidden, NodeOK;
    var h := Open(cfg, ids, es, a);
    PersistedBound(h, a, Now(cfg, ids, es).nodes[a]);
  }

  /**
    No schedule leads a cluster into a state it cannot get out of. Whatever happened, the node whose log is the
    best can be elected in a term later than any voter's, and then all of its log and whatever is proposed to it
    are committed by every voter.
   */
  lemma NeverStuck(cfg: Settings, ids: set<nat>, es: seq<Event>, a: nat, proposed: Log) returns (fs: seq<Event>)
    requires Settled(cfg, ids) && a in Voters(cfg) && Best(cfg, Now(cfg, ids, es), a)
    requires |Now(cfg, ids, es).nodes[a].log| + 1 + |proposed| <= U64_MAX
    ensures es <= fs && a in Now(cfg, ids, fs).nodes && Voters(cfg) <= Now(cfg, ids, fs).nodes.Keys && Voters(cfg) <= Now(cfg, ids, es).nodes.Keys
    ensures var s, u := Now(cfg, ids, es), Now(cfg, ids, fs);
            var t := u.nodes[a].term;
            && u.nodes[a].role == Leader
            && forall v :: v in Voters(cfg) ==>
                 && s.nodes[v].term < t && u.nodes[v].term == t && u.nodes[v].committed == |u.nodes[v].log|
                 && u.nodes[v].log == s.nodes[a].log + [Entry(t, false, NOOP)] + Stamp(t, proposed)
  {
    hide Now, Apply, HasQuorum, Best, Stamp, LastTerm, Voters, GoodCluster;
    NowKeys(cfg, ids, es) by { InGoodCluster(cfg, ids); }
    var s := Now(cfg, ids, es);
    var gs := Elects(cfg, ids, es, a);
    var g := Now(cfg, ids, gs);
    var t := g.nodes[a].term;
    CommittedNow(cfg, ids, gs, a);
    var hs := Proposes(cfg, ids, gs, g, a, s.nodes[a].log, proposed);
    var log := g.nodes[a].log + Stamp(t, proposed);
    var others := Voters(cfg) - {a};
    assert Copying(cfg, Now(cfg, ids, hs), a, t, log, others, {}) by {
      forall v | v in others
        ensures Granted(Now(cfg, ids, hs), t, v)
      {
        GrantStays(g, Now(cfg, ids, hs), t, v);
      }
    }
    var copied := CopyAll(cfg, ids, hs, a, t, log, others, {});
    assert {} + others == others == others + {};
    assert Telling(cfg, Now(cfg, ids, copied), a, t, log, others, {});
    fs := TellAll(cfg, ids, copied, a, t, log, others, {});
    InGoodCluster(cfg, ids);
    NowKeys(cfg, ids, fs);
    forall v | v in Voters(cfg)
      ensures v in ids && Whole(Now(cfg, ids, fs), t, log, v)
    {
    }
  }

  lemma InGoodCluster(cfg: Settings, ids: set<nat>)
    requires Settled(cfg, ids)
    ensures GoodCluster(cfg, ids) && Voters(cfg) <= ids
  {
    hide HasQuorum, Voters;
  }

  /** Without priorities some voter always has the best log, so some schedule always gets everything on. */
  lemma SomeoneGetsOn(cfg: Settings, ids: set<nat>, es: seq<Event>, proposed: Log) returns (fs: seq<Event>, a: nat)
    requires Settled(cfg, ids) && forall v, w :: v in Voters(cfg) && w in Voters(cfg) ==> Priority(cfg, v) == Priority(cfg, w)
    requires forall v :: v in Voters(cfg) && v in Now(cfg, ids, es).nodes ==> |Now(cfg, ids, es).nodes[v].log| + 1 + |proposed| <= U64_MAX
    ensures Voters(cfg) <= Now(cfg, ids, es).nodes.Keys && Voters(cfg) <= Now(cfg, ids, fs).nodes.Keys
    ensures es <= fs && a in Voters(cfg)
    ensures var s, u := Now(cfg, ids, es), Now(cfg, ids, fs);
            forall v :: v in Voters(cfg) ==>
              && u.nodes[v].committed == |u.nodes[v].log|
              && u.nodes[v].log == s.nodes[a].log + [Entry(u.nodes[a].term, false, NOOP)] + Stamp(u.nodes[a].term, proposed)
              && Reaches(s.nodes[v].log, s.nodes[a].log)
  {
    hide Now, Apply, HasQuorum, Stamp, LastTerm, Reaches, GoodCluster;
    InGoodCluster(cfg, ids);
    NowKeys(cfg, ids, es);
    var s := Now(cfg, ids, es);
    var logs := map v | v in Voters(cfg) :: s.nodes[v].log;
    assert logs.Keys == Voters(cfg);
    Populated(cfg, ids);
    a := BestLog(logs);
    assert forall v :: v in Voters(cfg) ==> Reaches(logs[v], logs[a]);
    assert Best(cfg, s, a);
    fs := NeverStuck(cfg, ids, es, a, proposed);
  }
}
