/** Leaders nobody knows of are as safe: they commit nothing, and once known they are leaders like any other. */
module ClusterSafetyHidden {
  import opened Common
  import opened Quorum
  import opened Raft
  import opened Cluster
  import opened ClusterBase
  import opened ClusterStored
  import opened ClusterSteps
  import opened ClusterEvents
  import opened ClusterHidden
  import opened ClusterRuns
  import opened ClusterSafety
  import opened ClusterSafetyGrowth
  import opened ClusterSafetySteps
  import opened ClusterSafetyEvents

  // ------------------------------------------------------------ invariants

  /** An unknown leader has committed only what it had stored when it was elected, and nobody has acknowledged anything to it. */
  ghost predicate Unheeded(cfg: Settings, h: History, p: nat, n: Node) {
    && n.committed <= n.persisted <= |n.log| && CommittedLog(cfg, h, n.log[..n.committed])
    && (n.role == Leader ==> forall q :: Matched(n, q) <= if q == p then n.persisted else 0)
  }

  ghost predicate SafelyBacked(cfg: Settings, h: History, p: nat, n: Node) {
    NodeSafe(cfg, h, p, Image(p, n)) && (Hidden(n) ==> Unheeded(cfg, h, p, n))
  }

  ghost predicate FullSafe(cfg: Settings, s: State, h: History) {
    && SafeInv(cfg, Public(s), h) && Full(cfg, s, h)
    && forall p :: p in s.nodes ==> SafelyBacked(cfg, h, p, s.nodes[p])
  }

  lemma OfficialSafe(cfg: Settings, s: State, h: History, p: nat)
    requires FullSafe(cfg, s, h) && p in s.nodes
    ensures NodeSafe(cfg, h, p, Official(p, s.nodes[p])) && HistorySafe(cfg, h)
  {
    hide NodeSafe, HistorySafe, MessageSafe, BaseInv, Full, SafelyBacked, Official;
    assert Public(s).nodes[p] == Official(p, s.nodes[p]);
  }

  lemma ImageIsReboot(id: nat, n: Node)
    requires Fresh(n) && n.persisted <= |n.log|
    ensures Image(id, n) == Reboot(id, n, n.persisted, 0)
  {
  }

  /** What a node has just stored is as safe as the node. */
  lemma FreshImageSafe(cfg: Settings, h: History, id: nat, n: Node)
    requires HistorySafe(cfg, h) && NodeOK(h, id, n) && NodeSafe(cfg, h, id, n) && Fresh(n)
    ensures SafelyBacked(cfg, h, id, n)
  {
    hide HistorySafe, NodeSafe, CommittedLog, Image, Reboot, LogOK;
    FreshImage(h, id, n);
    ImageIsReboot(id, n);
    RebootSafe(cfg, h, id, n, n.persisted, 0);
  }

  lemma SafelyBackedStays(cfg: Settings, h: History, h': History, q: nat, n: Node)
    requires Later(h, h') && HistoryOK(cfg, h) && HistoryOK(cfg, h') && AcksKnown(h) && SameAcks(h, h', q)
    requires SafelyBacked(cfg, h, q, n)
    ensures SafelyBacked(cfg, h', q, n)
  {
    hide HistoryOK, AcksKnown, SameAcks, Grows, NodeSafe, CommittedLog, Image, Hidden;
    NodeStaysSafe(cfg, h, h', q, Image(q, n));
    if Hidden(n) {
      CommittedLogStays(cfg, h, h', n.log[..n.committed]);
    }
  }

  lemma FullSafeOne(cfg: Settings, s: State, h: History, s': State, h': History, id: nat)
    requires FullSafe(cfg, s, h) && SafeKept(cfg, Public(s), h, Public(s'), h', id) && Full(cfg, s', h')
    requires s'.nodes.Keys == s.nodes.Keys && forall q :: q in s.nodes && q != id ==> s'.nodes[q] == s.nodes[q]
    requires id in s'.nodes ==> SafelyBacked(cfg, h', id, s'.nodes[id])
    ensures FullSafe(cfg, s', h')
  {
    hide Full, SafelyBacked, SameAcks, BaseInv, NodeSafe, MessageSafe, HistoryOK, BallotsRemember, AcksKnown, Grows;
    forall q | q in s'.nodes
      ensures SafelyBacked(cfg, h', q, s'.nodes[q])
    {
      if q != id {
        SafelyBackedStays(cfg, h, h', q, s.nodes[q]);
      }
    }
  }

  // ---------------------------------------------------------- one event

  lemma OpenSafe(cfg: Settings, s: State, h: History, e: Event)
    requires cfg.voters.incoming != {} && cfg.documented && SoundState(cfg, s) && FullSafe(cfg, s, h)
    requires Enabled(s, e) && Ordinary(cfg, s, e) && !Hidden(s.nodes[Actor(e)])
    ensures FullSafe(cfg, Apply(cfg, s, e), Track(cfg, s, h, e))
  {
    hide Apply, Track, HistorySafe, NodeOK, NodeSafe, HasQuorum, Hidden, Calm, SafeKept, Full, SafeInv, SafelyBacked;
    var id, u := Actor(e), Public(s);
    var n, s', h' := s.nodes[id], Apply(cfg, s, e), Track(cfg, s, h, e);
    ActsAlone(cfg, s, e);
    ActsAlike(cfg, s, u, h, e);
    EventSafe(cfg, u, h, e);
    OpenKeeps(cfg, s, h, e);
    BackedCalm(cfg, s, h, e);
    if Fresh(s'.nodes[id]) {
      KeptNode(cfg, u, h, Public(s'), h', id);
      FreshImageSafe(cfg, h', id, s'.nodes[id]);
    } else {
      CalmSafe(cfg, h, id, n, s'.nodes[id]);
    }
    FullSafeOne(cfg, s, h, s', h', id);
  }

  lemma BackedCalm(cfg: Settings, s: State, h: History, e: Event)
    requires SoundState(cfg, s) && Full(cfg, s, h) && Enabled(s, e) && Ordinary(cfg, s, e) && !Hidden(s.nodes[Actor(e)])
    ensures Actor(e) in Apply(cfg, s, e).nodes
    ensures var n, n' := s.nodes[Actor(e)], Apply(cfg, s, e).nodes[Actor(e)];
            Fresh(n') || (Calm(n, n') && Track(cfg, s, h, e) == h)
  {
    hide Apply, Track, BaseInv, SoundState, NodeOK, HasQuorum;
    assert Backed(cfg, h, Actor(e), s.nodes[Actor(e)]);
    ActsAlone(cfg, s, e);
    EventCalm(cfg, s, h, e);
  }

  lemma KeptNode(cfg: Settings, s: State, h: History, s': State, h': History, id: nat)
    requires SafeKept(cfg, s, h, s', h', id) && id in s'.nodes
    ensures NodeOK(h', id, s'.nodes[id]) && NodeSafe(cfg, h', id, s'.nodes[id]) && HistorySafe(cfg, h')
  {
    hide NodeOK, NodeSafe, MessageSafe, MessageOK, HistorySafe, HistoryOK, SameAcks, Grows;
  }

  lemma CalmSafe(cfg: Settings, h: History, id: nat, n: Node, n': Node)
    requires SafelyBacked(cfg, h, id, n) && Calm(n, n') && !Fresh(n') && !Hidden(n')
    ensures SafelyBacked(cfg, h, id, n')
  {
    hide NodeSafe;
    assert Image(id, n') == Image(id, n);
  }

  // ------------------------------------------- an election by one's own vote

  lemma AloneUnheeded(cfg: Settings, h: History, id: nat, n: Node)
    requires SafelyBacked(cfg, h, id, n) && CommitSafe(cfg, h, n) && n.persisted == |n.log|
    ensures var n' := BecomeLeader(id, BecomeCandidate(id, n)).node;
            Image(id, n') == Image(id, n) ==> SafelyBacked(cfg, h, id, n')
  {
    hide CommittedLog, NodeSafe, Image, Hidden;
    var n' := BecomeLeader(id, BecomeCandidate(id, n)).node;
    assert n'.log[..n.committed] == n.log[..n.committed];
  }

  lemma AloneSafe(cfg: Settings, s: State, h: History, id: nat, pre: bool)
    requires FullSafe(cfg, s, h) && id in s.nodes && !Hidden(s.nodes[id])
    requires s.nodes[id].role != Leader && HasQuorum(cfg.voters, {id})
    ensures FullSafe(cfg, Apply(cfg, s, Hup(id, pre)), h)
  {
    hide Apply, HistorySafe, NodeOK, NodeSafe, MessageOK, HasQuorum, Hidden, Image, HiddenShape, BecomeLeader, Full, SafeInv, SafelyBacked;
    var n, s' := s.nodes[id], Apply(cfg, s, Hup(id, pre));
    AloneApply(cfg, s, h, id, pre);
    AloneKeeps(cfg, s, h, id, pre);
    if n.persisted == |n.log| {
      FullNode(cfg, s, h, id);
      OfficialSafe(cfg, s, h, id);
      CommitOfSafe(cfg, h, id, n);
      AloneHides(cfg, h, id, n);
      AloneUnheeded(cfg, h, id, n);
      MovedSafe(cfg, s, h, s', id);
    }
  }

  lemma FullNode(cfg: Settings, s: State, h: History, p: nat)
    requires Full(cfg, s, h) && p in s.nodes
    ensures NodeOK(h, p, Official(p, s.nodes[p])) && HistoryOK(cfg, h) && Backed(cfg, h, p, s.nodes[p])
  {
    hide NodeOK, HistoryOK, Backed, BaseInv;
    OfficialOK(cfg, s, h, p);
  }

  /** An event the history does not learn of. */
  lemma MovedSafe(cfg: Settings, s: State, h: History, s': State, id: nat)
    requires FullSafe(cfg, s, h) && Full(cfg, s', h) && id in s.nodes && s'.nodes.Keys == s.nodes.Keys
    requires forall q :: q in s.nodes && q != id ==> s'.nodes[q] == s.nodes[q]
    requires SafelyBacked(cfg, h, id, s'.nodes[id])
    requires !Hidden(s'.nodes[id]) ==> NodeSafe(cfg, h, id, s'.nodes[id])
    requires forall m :: m in s'.msgs && m !in s.msgs ==> MessageSafe(cfg, h, m)
    ensures FullSafe(cfg, s', h)
  {
    hide HistorySafe, NodeSafe, MessageSafe, Hidden, Image, Full, Unheeded, SameAcks, BaseInv;
    var u, u' := Public(s), Public(s');
    assert BaseInv(cfg, u', h) by {
      FullBase(cfg, s', h);
    }
    forall p | p in u'.nodes
      ensures NodeSafe(cfg, h, p, u'.nodes[p])
    {
      if p != id {
        assert u'.nodes[p] == u.nodes[p];
      }
    }
    QuietLater(h);
    FullSafeOne(cfg, s, h, s', h, id);
  }

  lemma FullBase(cfg: Settings, s: State, h: History)
    requires Full(cfg, s, h)
    ensures BaseInv(cfg, Public(s), h)
  {
    hide BaseInv;
  }

  lemma QuietLater(h: History)
    ensures Later(h, h) && forall q :: SameAcks(h, h, q)
  {
  }

  // ------------------------------------------------------------- a loss

  /** Whether or not it is known, what a node has committed is committed. */
  lemma CommittedOf(cfg: Settings, h: History, id: nat, n: Node)
    requires NodeSafe(cfg, h, id, Official(id, n)) && SafelyBacked(cfg, h, id, n)
    ensures n.committed <= |n.log| && CommittedLog(cfg, h, n.log[..n.committed])
  {
    hide CommittedLog, AcksOK, CurrentAck, LeaderSafe;
  }

  lemma LostSafe(cfg: Settings, h: History, id: nat, n: Node, commit: nat)
    requires HistorySafe(cfg, h) && NodeSafe(cfg, h, id, Official(id, n)) && SafelyBacked(cfg, h, id, n)
    requires commit <= Min(n.committed, n.persisted) && n.persisted <= |n.log|
    requires NodeOK(h, id, Image(id, n).(committed := commit))
    ensures var n' := Image(id, n).(committed := commit);
            NodeSafe(cfg, h, id, n') && SafelyBacked(cfg, h, id, n')
  {
    hide HistorySafe, CommittedLog, NodeSafe, NodeOK, Official, Hidden, SafelyBacked;
    var n', i := Image(id, n).(committed := commit), Image(id, n);
    CommittedOf(cfg, h, id, n);
    CommittedPrefix(cfg, h, n.log[..n.committed], commit);
    assert n.log[..n.committed][..commit] == i.log[..commit];
    ImageSafe(cfg, h, id, n);
    MoreCommitted(cfg, h, id, i, commit);
    FreshImageSafe(cfg, h, id, n');
  }

  lemma ImageSafe(cfg: Settings, h: History, id: nat, n: Node)
    requires SafelyBacked(cfg, h, id, n)
    ensures NodeSafe(cfg, h, id, Image(id, n))
  {
    hide NodeSafe;
  }

  lemma LoseSafe(cfg: Settings, s: State, h: History, id: nat, commit: nat)
    requires SoundState(cfg, s) && FullSafe(cfg, s, h) && Enabled(s, Lose(id, commit))
    ensures FullSafe(cfg, Apply(cfg, s, Lose(id, commit)), h)
  {
    hide HistorySafe, NodeOK, NodeSafe, MessageSafe, HasQuorum, Hidden, Image, Full, SafelyBacked, Official, Backed;
    var n := s.nodes[id];
    assert Sound(cfg, id, n);
    LoseKeeps(cfg, s, h, id, commit);
    FullNode(cfg, s, h, id);
    OfficialSafe(cfg, s, h, id);
    LostOK(cfg, h, id, n, commit);
    LostSafe(cfg, h, id, n, commit);
    MovedSafe(cfg, s, h, Apply(cfg, s, Lose(id, commit)), id);
  }

  // ------------------------------------------- an unknown leader goes on

  lemma StaysUnheeded(cfg: Settings, h: History, id: nat, n: Node, n': Node)
    requires Hidden(n) && SafelyBacked(cfg, h, id, n) && Image(id, n') == Image(id, n)
    requires Moves(n, n') && n'.committed == n.committed && (n'.role == Leader ==> n'.matched == n.matched)
    requires n.persisted < |n.log|
    ensures SafelyBacked(cfg, h, id, n')
  {
    hide NodeSafe, CommittedLog, Hidden, Image, LastTerm;
    assert n'.log[..|n.log|][..n.committed] == n'.log[..n.committed];
    assert n'.role == Leader ==> forall q :: Matched(n', q) == Matched(n, q);
  }

  lemma ProposeUnheeded(cfg: Settings, s: State, h: History, e: Event)
    requires FullSafe(cfg, s, h) && Enabled(s, e) && (e.Propose? || e.StepDown?) && Hidden(s.nodes[e.id])
    ensures FullSafe(cfg, Apply(cfg, s, e), h)
  {
    hide NodeOK, NodeSafe, HasQuorum, Hidden, Image, Full, SafelyBacked, Backed, Moves, SafeInv, Stamp;
    var id, s' := e.id, Apply(cfg, s, e);
    var n := s.nodes[id];
    FullNode(cfg, s, h, id);
    ShapeOf(cfg, h, id, n);
    if e.Propose? {
      HiddenPropose(cfg, s, h, id, e.es);
    } else {
      HiddenStepDown(cfg, s, h, id);
    }
    HiddenStays(cfg, h, id, n, s'.nodes[id]);
    StaysUnheeded(cfg, h, id, n, s'.nodes[id]);
    MovedSafe(cfg, s, h, s', id);
  }

  /** What changes of the commit index in a step after which nothing is stored. */
  predicate Commits(n: Node, m: Message, n': Node) {
    n'.committed == n.committed || (m.ReadIndexResp? && n'.role == Follower && n'.committed == m.index > 0 && TermAt(n.log, m.index) == m.term)
  }

  lemma ByRoleCommits(cfg: Settings, id: nat, n: Node, m: Message)
    requires n.role != Candidate && m.term > 0
    requires n.role == Leader && m.AppResp? ==> m.reject || m.index <= Matched(n, m.from)
    ensures var o := StepByRole(cfg, id, n, m);
            o.Next? && Unheard(o) ==> Commits(n, m, o.node) && (o.node.role == Leader ==> n.role == Leader && o.node.matched == n.matched)
  {
    hide LeaderCommit, HandleAppend, HandleHeartbeat, UpToDate, HasConf, TermAt;
    if m.Vote? {
      VoteIsNoWin(cfg, id, n, m);
    } else if n.role == Follower && m.App? {
      AppendReplies(cfg, id, n.(leaderId := m.from), m);
    } else if n.role == Follower && m.Heartbeat? {
      HeartbeatReplies(id, n.(leaderId := m.from), m);
    }
  }

  lemma StepCommits(cfg: Settings, id: nat, n: Node, m: Message)
    requires n.role != Candidate && m.term > 0
    requires n.role == Leader && m.AppResp? && m.term == n.term ==> m.reject || m.index <= Matched(n, m.from)
    ensures var o := Step(cfg, id, n, m);
            o.Next? && Unheard(o) ==> Commits(n, m, o.node) && (o.node.role == Leader ==> n.role == Leader && o.node.matched == n.matched)
  {
    hide StepByRole, TermAt;
    if m.term >= n.term {
      ByRoleCommits(cfg, id, CatchUp(id, n, m), m);
    }
  }

  /** Nobody acknowledges anything in a term the history does not have. */
  lemma NoneAcked(h: History, p: nat, t: nat)
    requires AcksKnown(h) && t !in h.reigns
    ensures AckOf(h, p, t) == 0
  {
  }

  /** A read index names a known entry, so one that was stored. */
  lemma ReadUnheeded(cfg: Settings, h: History, id: nat, n: Node, c: nat, t: nat)
    requires cfg.voters.incoming != {} && HistorySafe(cfg, h) && Backed(cfg, h, id, n) && Hidden(n)
    requires c > 0 && t > 0 && CommittedTerm(cfg, h, c, t) && TermAt(n.log, c) == t
    ensures c <= n.persisted && CommittedLog(cfg, h, n.log[..c])
  {
    hide HistoryOK, NodeOK, CommittedLog, BallotsRemember, AcksKnown, HasQuorum;
    NoReign(cfg, h, id, n);
    ShapeOf(cfg, h, id, n);
    var i := Image(id, n);
    assert c <= n.persisted;
    assert TermAt(i.log, c) == t;
    ImageLogOK(cfg, h, id, n);
    CommitTermSafe(cfg, h, i.log, c, t);
    assert i.log[..c] == n.log[..c];
  }

  lemma ImageLogOK(cfg: Settings, h: History, id: nat, n: Node)
    requires Backed(cfg, h, id, n)
    ensures LogOK(h, Image(id, n).log)
  {
    hide LogOK, HasQuorum;
  }

  lemma CommitsUnheeded(cfg: Settings, h: History, id: nat, n: Node, m: Message, n': Node)
    requires cfg.voters.incoming != {} && HistorySafe(cfg, h) && Backed(cfg, h, id, n) && Hidden(n)
    requires SafelyBacked(cfg, h, id, n) && MessageSafe(cfg, h, m) && m.term > 0
    requires Commits(n, m, n') && (n'.role == Leader ==> n.role == Leader && n'.matched == n.matched)
    requires Image(id, n') == Image(id, n) && n'.log == n.log && n'.persisted == n.persisted
    ensures SafelyBacked(cfg, h, id, n')
  {
    hide HistorySafe, NodeSafe, CommittedLog, CommittedTerm, Hidden, Image, LastTerm, Backed, TermAt;
    if n'.committed != n.committed {
      ReadUnheeded(cfg, h, id, n, m.index, m.term);
      ShapeOf(cfg, h, id, n);
    }
    assert n'.role == Leader ==> forall q :: Matched(n', q) == Matched(n, q);
  }

  lemma LeaderHears(cfg: Settings, h: History, id: nat, n: Node, m: Message)
    requires cfg.voters.incoming != {} && HistorySafe(cfg, h) && Backed(cfg, h, id, n) && Hidden(n) && MessageSafe(cfg, h, m)
    requires n.role == Leader && m.AppResp? && m.term == n.term
    ensures m.reject || m.index == 0
  {
    hide HistoryOK, BallotsRemember, Backed, Hidden, LastTerm, HasQuorum;
    NoReign(cfg, h, id, n);
    ShapeOf(cfg, h, id, n);
    NoneAcked(h, m.from, n.term);
  }

  /** What an unknown leader answers commits nobody to anything. */
  lemma AnswersSafe(cfg: Settings, h: History, id: nat, n: Node, m: Message)
    requires n.role == Leader && m.term > 0
    requires var t := TermAt(n.log, n.committed); n.committed != 0 && t != 0 ==> CommittedTerm(cfg, h, n.committed, t)
    ensures var o := Step(cfg, id, n, m);
            o.Next? && o.reply.Send? && o.node.role == Leader ==> MessageSafe(cfg, h, o.reply.m)
  {
    hide HandleAppend, HandleHeartbeat, UpToDate, HasConf, TermAt, LeaderCommit, HasQuorum, CommittedTerm;
    if m.term > n.term {
      var f := CatchUp(id, n, m);
      if m.App? {
        AppendReplies(cfg, id, f.(leaderId := m.from), m);
      } else if m.Heartbeat? {
        HeartbeatReplies(id, f.(leaderId := m.from), m);
      } else if m.Vote? && !m.pre {
        FollowerVotes(cfg, id, f, m);
      }
    }
  }

  lemma UnheededReport(cfg: Settings, h: History, id: nat, n: Node)
    requires HistoryOK(cfg, h) && Backed(cfg, h, id, n) && SafelyBacked(cfg, h, id, n) && Hidden(n)
    ensures var t := TermAt(n.log, n.committed); n.committed != 0 && t != 0 ==> CommittedTerm(cfg, h, n.committed, t)
  {
    hide HistoryOK, CommittedLog, NodeSafe, CommittedTerm, HasQuorum, LogOK;
    ImageLogOK(cfg, h, id, n);
    var i := Image(id, n).(committed := n.committed);
    assert i.log[..n.committed] == n.log[..n.committed];
    ReportedCommit(cfg, h, i);
  }

  lemma DeliverUnheeded(cfg: Settings, s: State, h: History, m: Message)
    requires cfg.voters.incoming != {} && FullSafe(cfg, s, h) && SoundState(cfg, s)
    requires Enabled(s, Deliver(m)) && Hidden(s.nodes[m.to]) && !Saves(cfg, s, Deliver(m))
    ensures FullSafe(cfg, Apply(cfg, s, Deliver(m)), h)
  {
    hide HistorySafe, NodeOK, NodeSafe, HasQuorum, Hidden, Image, Full, SafelyBacked, Backed, Moves, BaseInv, Step, Commits, MessageSafe;
    var id, n, s' := m.to, s.nodes[m.to], Apply(cfg, s, Deliver(m));
    HiddenDeliver(cfg, s, h, m);
    FullNode(cfg, s, h, id);
    ShapeOf(cfg, h, id, n);
    assert MessageSafe(cfg, h, m);
    var o := Step(cfg, id, n, m);
    if o.Next? {
      HistoryIsOK(cfg, h);
      if n.role == Leader {
        if m.AppResp? && m.term == n.term {
          LeaderHears(cfg, h, id, n, m);
        }
        UnheededReport(cfg, h, id, n);
        AnswersSafe(cfg, h, id, n, m);
      }
      StepCommits(cfg, id, n, m);
      UnheardStep(cfg, id, n, m);
      HiddenStays(cfg, h, id, n, o.node);
      CommitsUnheeded(cfg, h, id, n, m, o.node);
      MovedSafe(cfg, s, h, s', id);
    }
  }

  // --------------------------------------------------------------- reveal

  lemma RevealWins(cfg: Settings, h: History, id: nat, n: Node)
    requires cfg.voters.incoming != {} && HistorySafe(cfg, h) && Backed(cfg, h, id, n) && SafelyBacked(cfg, h, id, n) && Hidden(n)
    ensures var c := Running(id, Before(id, n));
            var h1 := Cast(h, id, c.term, id, c.log);
            var o := BecomeLeader(id, c);
            && o.Next?
            && SafeStep(cfg, h, id, o.node, Ack(Elect(h1, c.term, id, {id}, |c.log|, o.node.log), id, c.term, |c.log|))
  {
    hide HistorySafe, NodeOK, NodeSafe, SafeStep, HasQuorum, Cast, Elect, Ack, Running, StoredLog, BecomeLeader;
    FollowerOK(h, id, Image(id, n), LastTerm(n.log) - 1, INVALID_ID);
    FollowerSafe(cfg, h, id, Image(id, n), LastTerm(n.log) - 1, INVALID_ID);
    HupWins(cfg, h, id, Before(id, n));
  }

  lemma RevealStep(cfg: Settings, h: History, id: nat, n: Node)
    requires cfg.voters.incoming != {} && HistorySafe(cfg, h) && Backed(cfg, h, id, n) && SafelyBacked(cfg, h, id, n) && Hidden(n)
    ensures SafeStep(cfg, h, id, Unveiled(id, n), Reveal(h, id, n))
  {
    hide HistoryOK, BallotsRemember, AcksKnown, NodeOK, NodeSafe, SafeStep, HasQuorum, Cast, Elect, Ack, Grows, Untouched, MessageOK, StoredLog, SafelyBacked, Image;
    RevealElects(cfg, h, id, n);
    RevealWins(cfg, h, id, n);
    WholeLog(n);
    var c := Running(id, Before(id, n));
    var t, l := c.term, BecomeLeader(id, c).node;
    var h2 := Ack(Elect(Cast(h, id, t, id, c.log), t, id, {id}, |c.log|, l.log), id, t, |c.log|);
    var rest := Rest(n);
    Leads(h2, id, l);
    ExtendOK(cfg, h2, t, rest);
    BallotsStay(cfg, h, id, l, h2);
    StepFacts(cfg, h, id, l, h2);
    var h3 := Extend(h2, t, l.log + rest);
    ExtendSafe(cfg, h2, id, l, rest);
    BallotBound(h2, id, l);
    ComposeSafe(cfg, h, h2, h3, id, l, l.(log := l.log + rest));
    assert l.(log := l.log + rest) == Unveiled(id, n);
  }

  /** Wherever it has got to since, what it committed it had stored before. */
  lemma RevealedSafe(cfg: Settings, h: History, id: nat, n: Node, u: Node)
    requires NodeSafe(cfg, h, id, u) && Unheeded(cfg, h, id, n)
    requires u.log == n.log && u.persisted == n.persisted && u.term <= n.term && (n.role == Leader ==> n.term == u.term)
    requires AckOf(h, id, u.term) == n.persisted && BaseIs(h, u.term, n.persisted)
    ensures NodeSafe(cfg, h, id, Revealed(n))
  {
    hide Remembers, CommittedLog, CommittedAt, CurrentAck;
    RevealedAck(cfg, h, id, n, u);
    assert forall q :: Matched(Revealed(n), q) == Matched(n, q);
  }

  lemma RevealedAck(cfg: Settings, h: History, id: nat, n: Node, u: Node)
    requires AcksOK(h, id, u) && CurrentAck(cfg, h, id, u)
    requires u.log == n.log && u.persisted == n.persisted && u.term <= n.term
    ensures CurrentAck(cfg, h, id, Revealed(n))
  {
    hide Remembers, AckKept;
  }

  ghost predicate BaseIs(h: History, t: nat, base: nat) {
    t in h.reigns && h.reigns[t].base == base
  }

  /** What the revealed election is recorded as. */
  lemma RevealIs(cfg: Settings, h: History, id: nat, n: Node)
    requires cfg.voters.incoming != {} && HistoryOK(cfg, h) && AcksKnown(h) && Backed(cfg, h, id, n) && Hidden(n)
    ensures var h', t := Reveal(h, id, n), LastTerm(n.log);
            AckOf(h', id, t) == n.persisted && BaseIs(h', t, n.persisted)
  {
    hide HistoryOK, AcksKnown, NodeOK, HasQuorum, LastTerm;
    NoReign(cfg, h, id, n);
    ShapeOf(cfg, h, id, n);
    NoneAcked(h, id, LastTerm(n.log));
  }

  /** As soon as its election is known, an unknown leader is a safe one. */
  lemma RevealSafe(cfg: Settings, s: State, h: History, id: nat)
    requires cfg.voters.incoming != {} && FullSafe(cfg, s, h) && id in s.nodes && Hidden(s.nodes[id])
    ensures FullSafe(cfg, Put(s, id, Revealed(s.nodes[id])), Reveal(h, id, s.nodes[id]))
  {
    hide HistoryOK, BallotsRemember, AcksKnown, NodeOK, NodeSafe, SafeStep, HasQuorum, Grows, Untouched, MessageOK, Hidden, Image, Revealed, Reveal, Unveiled, Full, SafelyBacked, BaseInv, SafeKept, Kept, MessageSafe, Backed;
    var n, u := s.nodes[id], Public(s);
    var s', h', l := Put(s, id, Revealed(n)), Reveal(h, id, n), Unveiled(id, n);
    FullNode(cfg, s, h, id);
    RevealKept(cfg, s, h, id);
    RevealStep(cfg, h, id, n);
    OneSafe(cfg, u, h, Put(u, id, l), h', id);
    KeptNode(cfg, u, h, Put(u, id, l), h', id);
    RevealKeeps(cfg, s, h, id);
    FullNode(cfg, s', h', id);
    UnheededStays(cfg, s, h, h', id);
    RevealIs(cfg, h, id, n);
    UnveiledIs(cfg, h, id, n);
    RevealedSafe(cfg, h', id, n, l);
    RevealedIs(cfg, s, h, id);
    RevealedFresh(n);
    FreshImageSafe(cfg, h', id, Revealed(n));
    PutAgain(cfg, u, h, h', id, l, Revealed(n));
    PublicAfter(s, s', id);
    FullSafeOne(cfg, s, h, s', h', id);
  }

  lemma UnveiledIs(cfg: Settings, h: History, id: nat, n: Node)
    requires Backed(cfg, h, id, n) && Hidden(n)
    ensures var u := Unveiled(id, n);
            u.log == n.log && u.persisted == n.persisted && u.term == LastTerm(n.log) <= n.term && (n.role == Leader ==> n.term == u.term)
  {
    hide NodeOK, HasQuorum, LastTerm;
    ShapeOf(cfg, h, id, n);
  }

  lemma RevealKept(cfg: Settings, s: State, h: History, id: nat)
    requires cfg.voters.incoming != {} && Full(cfg, s, h) && id in s.nodes && Hidden(s.nodes[id])
    ensures Kept(cfg, Public(s), h, Put(Public(s), id, Unveiled(id, s.nodes[id])), Reveal(h, id, s.nodes[id]), id)
  {
    hide HistoryOK, NodeOK, MessageOK, Grows, Untouched, HasQuorum, Reveal, Hidden, HiddenShape, Unveiled, Official, Kept;
    var n, u := s.nodes[id], Public(s);
    assert Backed(cfg, h, id, n);
    RevealOK(cfg, h, id, n);
    KeptOne(cfg, u, h, Put(u, id, Unveiled(id, n)), Reveal(h, id, n), id);
  }

  lemma UnheededStays(cfg: Settings, s: State, h: History, h': History, id: nat)
    requires FullSafe(cfg, s, h) && id in s.nodes && Hidden(s.nodes[id]) && Grows(h, h')
    ensures Unheeded(cfg, h', id, s.nodes[id])
  {
    hide SafeInv, Full, NodeSafe, CommittedLog, Hidden, Grows;
    assert SafelyBacked(cfg, h, id, s.nodes[id]);
    CommittedLogStays(cfg, h, h', s.nodes[id].log[..s.nodes[id].committed]);
  }

  /** A second change of the same node, which the history does not record. */
  lemma PutAgain(cfg: Settings, s: State, h: History, h': History, id: nat, l: Node, n: Node)
    requires id in s.nodes && SafeKept(cfg, s, h, Put(s, id, l), h', id) && NodeOK(h', id, n) && NodeSafe(cfg, h', id, n)
    ensures SafeKept(cfg, s, h, Put(s, id, n), h', id)
  {
    hide NodeOK, NodeSafe, SafeInv, SameAcks, Later;
    PutSafe(cfg, Put(s, id, l), h', id, n);
    PutTwice(s, id, l);
  }

  // ---------------------------------------------------------- every event

  lemma SavesSafe(cfg: Settings, s: State, h: History, e: Event)
    requires cfg.voters.incoming != {} && cfg.documented && FullSafe(cfg, s, h) && SoundState(cfg, s)
    requires Enabled(s, e) && Hidden(s.nodes[Actor(e)]) && Saves(cfg, s, e)
    ensures FullSafe(cfg, Apply(cfg, s, e), Chronicle(cfg, s, h, e))
  {
    hide Apply, Track, Full, Grows, Saves, Sound, SoundState, Hidden, Revealed, Reveal, SafeInv, SafelyBacked;
    var id := Actor(e);
    var n := s.nodes[id];
    var s1, h1 := Put(s, id, Revealed(n)), Reveal(h, id, n);
    if e.Hup? {
      HiddenHup(cfg, s, h, id, e.pre);
    } else {
      RevealSafe(cfg, s, h, id);
      RevealedSound(cfg, s, id);
      RevealedIs(cfg, s, h, id);
      ApplySaves(cfg, s, e, HardState(n.term, n.vote));
      NoLoss(cfg, s, e);
      OpenSafe(cfg, s1, h1, e);
    }
  }

  lemma GoesSafe(cfg: Settings, s: State, h: History, e: Event)
    requires cfg.voters.incoming != {} && FullSafe(cfg, s, h) && SoundState(cfg, s)
    requires Enabled(s, e) && Hidden(s.nodes[Actor(e)]) && !Saves(cfg, s, e) && !Leaks(s, e)
    ensures FullSafe(cfg, Apply(cfg, s, e), h)
  {
    hide Apply, BaseInv, Hidden, SoundState, Backed, SafelyBacked, SafeInv, Full;
    match e
    case Deliver(m) => DeliverUnheeded(cfg, s, h, m);
    case Hup(id, pre) => HiddenHup(cfg, s, h, id, pre);
    case Propose(_, _) => ProposeUnheeded(cfg, s, h, e);
    case StepDown(_) => ProposeUnheeded(cfg, s, h, e);
    case Lose(id, commit) => LoseSafe(cfg, s, h, id, commit);
    case _ => SendsLeak(cfg, s, h, e);
  }

  /** Every event that does not leak keeps the safety invariant. */
  lemma EventFullSafe(cfg: Settings, s: State, h: History, e: Event)
    requires cfg.voters.incoming != {} && cfg.documented && FullSafe(cfg, s, h) && SoundState(cfg, s) && !Leaks(s, e)
    ensures FullSafe(cfg, Apply(cfg, s, e), Chronicle(cfg, s, h, e))
  {
    hide Apply, Track, FullSafe, Saves, SoundState, Hidden, Revealed, Reveal, HasQuorum;
    if !Enabled(s, e) {
      Idle(cfg, s, e);
    } else if Hidden(s.nodes[Actor(e)]) {
      if Saves(cfg, s, e) {
        SavesSafe(cfg, s, h, e);
      } else {
        GoesSafe(cfg, s, h, e);
      }
    } else if Ordinary(cfg, s, e) {
      OpenSafe(cfg, s, h, e);
    } else if e.Lose? {
      LoseSafe(cfg, s, h, e.id, e.commit);
      LoseTracks(cfg, s, h, e);
    } else {
      AloneApply(cfg, s, h, e.id, e.pre);
      AloneSafe(cfg, s, h, e.id, e.pre);
    }
  }

  lemma LoseTracks(cfg: Settings, s: State, h: History, e: Event)
    requires e.Lose?
    ensures Track(cfg, s, h, e) == h
  {
  }
}
