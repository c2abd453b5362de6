/** Each event of a node whose term is stored keeps the safety invariant. */
module ClusterSafetyEvents {
  import opened Common
  import opened Quorum
  import opened Raft
  import opened Cluster
  import opened ClusterBase
  import opened ClusterSteps
  import opened ClusterStored
  import opened ClusterEvents
  import opened ClusterSafety
  import opened ClusterSafetyGrowth
  import opened ClusterSafetySteps

  // ------------------------------------------------------------------ step

  ghost predicate SafelyHandled(cfg: Settings, h: History, id: nat, was: Node, m: Message, o: Outcome) {
    o.Next? ==> Handled(cfg, h, id, was, m, o)
  }

  /** The only outcome that stops a node: it refuses a pre-vote before it has a term of its own. */
  predicate RefusesTermless(n: Node, m: Message) {
    m.Vote? && m.pre && n.term == 0
  }

  lemma SilentHandled(cfg: Settings, h: History, id: nat, was: Node, n': Node, m: Message)
    requires SafeStep(cfg, h, id, n', h) && (n'.role == Leader ==> was.role == Leader)
    ensures Handled(cfg, h, id, was, m, Next(n', Silent))
  {
    hide SafeStep;
  }

  lemma ByRoleSafe(cfg: Settings, h: History, id: nat, was: Node, n: Node, m: Message)
    requires cfg.voters.incoming != {} && cfg.documented
    requires HistorySafe(cfg, h) && NodeOK(h, id, n) && NodeSafe(cfg, h, id, n)
    requires MessageOK(h, m) && MessageSafe(cfg, h, m) && m.to == id
    requires m.term == n.term || (m.Vote? && m.pre) || (m.VoteResp? && m.pre)
    requires n == was || n.role == Follower
    ensures var o := Stored(StepByRole(cfg, id, n, m));
            SafelyHandled(cfg, h, id, was, m, o) && (o.Panic? ==> RefusesTermless(n, m))
  {
    hide HistorySafe, NodeOK, NodeSafe, MessageOK, MessageSafe, Handled, HandleVote, HandleAppend, HandleHeartbeat, HandleVoteResponse, HandleAppendResponse, Stored;
    var o := StepByRole(cfg, id, n, m);
    if m.App? && n.role != Leader {
      FollowerOK(h, id, n, m.term, m.from);
      LeaderIdOK(h, id, n, m.from);
      FollowerSafe(cfg, h, id, n, m.term, m.from);
      LeaderIdSafe(cfg, h, id, n, m.from);
      AppendSafe(cfg, h, id, was, if n.role == Candidate then BecomeFollower(id, n, m.term, m.from) else n.(leaderId := m.from), m);
      HandledNext(cfg, h, id, was, m, Stored(o));
    } else {
      OtherByRoleSafe(cfg, h, id, was, n, m);
      OtherByRoleOK(cfg, h, id, was, n, m) by {
        HistoryIsOK(cfg, h);
      }
      StoredHandled(cfg, h, id, was, m, o);
    }
  }

  lemma HistoryIsOK(cfg: Settings, h: History)
    requires HistorySafe(cfg, h)
    ensures HistoryOK(cfg, h)
  {
    hide HistoryOK;
  }

  lemma StoredHandled(cfg: Settings, h: History, id: nat, was: Node, m: Message, o: Outcome)
    requires SafelyHandled(cfg, h, id, was, m, o)
    requires o.Next? ==> GoodStep(cfg, h, id, o.node, o.reply, TrackReply(h, id, was, o.node, m, o.reply))
    ensures SafelyHandled(cfg, h, id, was, m, Stored(o)) && (Stored(o).Panic? <==> o.Panic?)
  {
    hide Handled, HistoryOK, MessageOK, Grows, Untouched, TrackReply, LogOK, Saving;
    if o.Next? {
      StoredSafe(cfg, h, id, was, m, o);
    }
  }

  lemma OtherByRoleSafe(cfg: Settings, h: History, id: nat, was: Node, n: Node, m: Message)
    requires cfg.voters.incoming != {} && cfg.documented
    requires HistorySafe(cfg, h) && NodeOK(h, id, n) && NodeSafe(cfg, h, id, n)
    requires MessageOK(h, m) && MessageSafe(cfg, h, m) && m.to == id
    requires m.term == n.term || (m.Vote? && m.pre) || (m.VoteResp? && m.pre)
    requires (n == was || n.role == Follower) && (m.App? ==> n.role == Leader)
    ensures var o := StepByRole(cfg, id, n, m);
            SafelyHandled(cfg, h, id, was, m, o) && (o.Panic? ==> RefusesTermless(n, m))
  {
    hide HistorySafe, NodeOK, NodeSafe, MessageOK, MessageSafe, Handled, SafeStep, HandleVote, HandleAppend, HandleHeartbeat, HandleVoteResponse, HandleAppendResponse;
    var o := StepByRole(cfg, id, n, m);
    PositiveTerm(h, m);
    QuietSafe(cfg, h, id, n);
    SilentHandled(cfg, h, id, was, n, m);
    HandledNext(cfg, h, id, was, m, o);
    if m.Vote? {
      VoteHandled(cfg, h, id, was, n, m);
    } else if n.role == Leader {
      if m.AppResp? {
        AppendResponseSafe(cfg, h, id, n, m);
        SilentHandled(cfg, h, id, was, o.node, m);
      }
    } else if m.Heartbeat? {
      var f := if n.role == Candidate then BecomeFollower(id, n, m.term, m.from) else n.(leaderId := m.from);
      FollowerSafe(cfg, h, id, n, m.term, m.from);
      LeaderIdSafe(cfg, h, id, n, m.from);
      HeartbeatSafe(cfg, h, id, was, f, m);
    } else if n.role == Candidate {
      if m.VoteResp? && !m.pre {
        VoteResponseSafe(cfg, h, id, n, m);
      }
    } else if m.ReadIndexResp? {
      ReadIndexSafe(cfg, h, id, n, m);
      SilentHandled(cfg, h, id, was, o.node, m);
    }
  }

  lemma HandledNext(cfg: Settings, h: History, id: nat, was: Node, m: Message, o: Outcome)
    ensures Handled(cfg, h, id, was, m, o) ==> o.Next?
  {
    hide SafeStep, GoodReply;
  }

  lemma ReadIndexSafe(cfg: Settings, h: History, id: nat, n: Node, m: Message)
    requires HistorySafe(cfg, h) && NodeOK(h, id, n) && NodeSafe(cfg, h, id, n) && n.role == Follower
    requires m.ReadIndexResp? && MessageSafe(cfg, h, m) && m.term > 0
    ensures SafeStep(cfg, h, id, MaybeCommit(n, m.index, m.term), h) && MaybeCommit(n, m.index, m.term).role == Follower
  {
    hide HistorySafe, NodeOK, NodeSafe, CommittedTerm, SafeStep;
    MaybeCommitSafe(cfg, h, id, n, m.index, m.term);
    QuietSafe(cfg, h, id, MaybeCommit(n, m.index, m.term));
  }

  lemma VoteHandled(cfg: Settings, h: History, id: nat, was: Node, n: Node, m: Message)
    requires HistorySafe(cfg, h) && NodeOK(h, id, n) && NodeSafe(cfg, h, id, n)
    requires m.Vote? && MessageOK(h, m) && MessageSafe(cfg, h, m) && (m.term == n.term || m.pre)
    ensures var o := HandleVote(cfg, id, n, m);
            SafelyHandled(cfg, h, id, was, m, o) && (o.Panic? ==> RefusesTermless(n, m))
  {
    hide HistorySafe, NodeOK, NodeSafe, SafeStep, MessageSafe, UpToDate, CommitByVote, GoodReply;
    VoteSafe(cfg, h, id, n, m);
    VoteIsNoWin(cfg, id, n, m);
    var o := HandleVote(cfg, id, n, m);
    if o.Next? {
      assert TrackReply(h, id, was, o.node, m, o.reply) == TrackReply(h, id, n, o.node, m, o.reply);
    }
    PositiveTerm(h, m);
  }

  lemma PositiveTerm(h: History, m: Message)
    requires MessageOK(h, m)
    ensures m.term > 0
  {
  }

  lemma StepSafe(cfg: Settings, h: History, id: nat, n: Node, m: Message)
    requires cfg.voters.incoming != {} && cfg.documented
    requires HistorySafe(cfg, h) && NodeOK(h, id, n) && NodeSafe(cfg, h, id, n)
    requires MessageOK(h, m) && MessageSafe(cfg, h, m) && m.to == id
    ensures var o := Serve(cfg, id, n, m);
            SafelyHandled(cfg, h, id, n, m, o) && (o.Panic? ==> RefusesTermless(n, m))
  {
    hide HistorySafe, NodeOK, NodeSafe, MessageOK, Handled, StepByRole, CatchUp, Stored;
    PositiveTerm(h, m);
    if m.term < n.term {
      LowerTermSafe(cfg, h, id, n, m);
      LowerTermOK(cfg, h, id, n, m) by {
        HistoryIsOK(cfg, h);
      }
      HandledNext(cfg, h, id, n, m, Step(cfg, id, n, m));
      StoredHandled(cfg, h, id, n, m, Step(cfg, id, n, m));
    } else {
      CatchUpOK(h, id, n, m);
      CatchUpSafe(cfg, h, id, n, m);
      CatchUpTerm(id, n, m);
      ByRoleSafe(cfg, h, id, n, CatchUp(id, n, m), m);
      CaughtUpTerm(id, n, m);
    }
  }

  lemma CaughtUpTerm(id: nat, n: Node, m: Message)
    ensures m.Vote? && m.pre ==> CatchUp(id, n, m) == n
  {
  }

  lemma LowerTermSafe(cfg: Settings, h: History, id: nat, n: Node, m: Message)
    requires HistorySafe(cfg, h) && NodeSafe(cfg, h, id, n) && 0 < m.term < n.term
    ensures Handled(cfg, h, id, n, m, Step(cfg, id, n, m))
  {
    hide HistorySafe, NodeSafe, SafeStep, StepByRole;
    QuietSafe(cfg, h, id, n);
  }

  // ---------------------------------------------------------------- events

  /** What an event of node `id` keeps. */
  ghost predicate SafeKept(cfg: Settings, s: State, h: History, s': State, h': History, id: nat) {
    SafeInv(cfg, s', h') && Later(h, h') && forall q :: q != id ==> SameAcks(h, h', q)
  }

  lemma SameSafe(cfg: Settings, s: State, h: History, s': State, id: nat)
    requires SafeInv(cfg, s', h)
    ensures SafeKept(cfg, s, h, s', h, id)
  {
    hide SafeInv;
  }

  lemma OneSafe(cfg: Settings, s: State, h: History, s': State, h': History, id: nat)
    requires SafeInv(cfg, s, h) && Kept(cfg, s, h, s', h', id) && id in s'.nodes
    requires forall q :: q in s.nodes && q != id ==> s'.nodes[q] == s.nodes[q]
    requires SafeStep(cfg, h, id, s'.nodes[id], h')
    requires forall m :: m in s'.msgs && m !in s.msgs ==> MessageSafe(cfg, h', m)
    ensures SafeKept(cfg, s, h, s', h', id)
  {
    hide SafeInv, BaseInv, NodeSafe, MessageSafe, Grows, SameAcks, BallotRemembers, Untouched;
    OneNodeSafe(cfg, s, h, s', h', id);
  }

  /** Nothing but one node changes, and the history is the same. */
  lemma PutSafe(cfg: Settings, s: State, h: History, id: nat, n: Node)
    requires SafeInv(cfg, s, h) && id in s.nodes && NodeOK(h, id, n) && NodeSafe(cfg, h, id, n)
    ensures SafeKept(cfg, s, h, Put(s, id, n), h, id)
  {
    hide HistorySafe, NodeOK, NodeSafe, MessageSafe, MessageOK, HistoryOK;
    SameSafe(cfg, s, h, Put(s, id, n), id);
  }

  lemma PostSafe(cfg: Settings, s: State, h: History, id: nat, ms: set<Message>)
    requires SafeInv(cfg, s, h) && forall m :: m in ms ==> MessageOK(h, m) && MessageSafe(cfg, h, m)
    ensures SafeKept(cfg, s, h, Post(s, ms), h, id)
  {
    hide HistorySafe, NodeOK, NodeSafe, MessageSafe, MessageOK, HistoryOK;
    SameSafe(cfg, s, h, Post(s, ms), id);
  }

  lemma DeliverSafe(cfg: Settings, s: State, h: History, m: Message)
    requires cfg.voters.incoming != {} && cfg.documented && SafeInv(cfg, s, h) && Enabled(s, Deliver(m))
    ensures SafeKept(cfg, s, h, Apply(cfg, s, Deliver(m)), Track(cfg, s, h, Deliver(m)), m.to)
  {
    hide HistorySafe, HistoryOK, NodeOK, NodeSafe, MessageSafe, MessageOK, SafeStep, Serve, TrackReply, Grows, Kept, SafeKept;
    var id, n := m.to, s.nodes[m.to];
    DeliverKeeps(cfg, s, h, m);
    StepSafe(cfg, h, id, n, m);
    var o := Serve(cfg, id, n, m);
    if o.Next? {
      OneSafe(cfg, s, h, Apply(cfg, s, Deliver(m)), Track(cfg, s, h, Deliver(m)), id);
    } else {
      SameSafe(cfg, s, h, s, id);
    }
  }

  lemma RequestsSafe(cfg: Settings, h: History, id: nat, c: Node, pre: bool)
    requires HistoryOK(cfg, h) && LogOK(h, c.log) && CommitSafe(cfg, h, c)
    ensures forall m :: m in VoteRequests(cfg, id, c, pre) ==> MessageSafe(cfg, h, m)
  {
    hide HistoryOK, LogOK, CommitSafe, CommittedTerm;
    ReportedCommit(cfg, h, c);
  }

  lemma CandidateSafe(cfg: Settings, h: History, id: nat, n: Node)
    requires HistorySafe(cfg, h) && NodeOK(h, id, n) && NodeSafe(cfg, h, id, n)
    ensures SafeStep(cfg, h, id, Running(id, n), Cast(h, id, n.term + 1, id, n.log))
  {
    hide HistoryOK, NodeSafe, SafeStep, BallotsRemember, AcksKnown, LogOK;
    var f := BecomeFollower(id, n, n.term + 1, INVALID_ID);
    SelfVote(cfg, h, id, n);
    FollowerSafe(cfg, h, id, n, n.term + 1, INVALID_ID);
    RoleSafe(cfg, h, id, f, id, map[id := true]);
    PersistAllSafe(cfg, h, id, BecomeCandidate(id, n).(votes := map[id := true]));
    CastSafe(cfg, h, id, n, n.term + 1, id, Running(id, n));
  }

  lemma RoleSafe(cfg: Settings, h: History, id: nat, n: Node, vote: nat, votes: Votes)
    requires NodeSafe(cfg, h, id, n)
    ensures NodeSafe(cfg, h, id, n.(vote := vote, role := Candidate, votes := votes))
  {
    hide Remembers, CommittedLog, CommittedAt, AgreesUpTo;
  }

  lemma ComposeSafe(cfg: Settings, h: History, h1: History, h2: History, id: nat, c: Node, n': Node)
    requires SafeStep(cfg, h, id, c, h1) && SafeStep(cfg, h1, id, n', h2) && c.term == n'.term
    requires HistoryOK(cfg, h1) && HistoryOK(cfg, h2) && AcksKnown(h1)
    requires forall u :: (id, u) in h1.ballots ==> u <= c.term
    ensures SafeStep(cfg, h, id, n', h2)
  {
    hide HistoryOK, NodeSafe, BallotRemembers;
    GrowsTrans(h, h1, h2);
    forall q | q != id
      ensures SameAcks(h, h2, q)
    {
      assert SameAcks(h, h1, q) && SameAcks(h1, h2, q);
    }
    forall p, u | (p, u) in h2.ballots && (p, u) !in h.ballots
      ensures p == id && BallotRemembers(h2, p, u)
    {
      if (p, u) in h1.ballots {
        BallotStaysSafe(cfg, h1, h2, p, u);
      }
    }
    LaterTrans(h, h1, h2);
  }

  lemma LaterTrans(a: History, b: History, c: History)
    requires Later(a, b) && Later(b, c)
    ensures Later(a, c)
  {
    GrowsTrans(a, b, c);
    forall w | w in c.reigns && w !in a.reigns
      ensures c.reigns[w].at >= |a.reigns|
    {
      if w in b.reigns {
        assert ReignGrows(b.reigns[w], c.reigns[w]);
      }
    }
  }

  /** An election by one's own vote, once it is known. */
  lemma HupWins(cfg: Settings, h: History, id: nat, n: Node)
    requires cfg.voters.incoming != {} && HistorySafe(cfg, h) && NodeOK(h, id, n) && NodeSafe(cfg, h, id, n)
    requires HasQuorum(cfg.voters, {id})
    ensures var c := Running(id, n);
            var h1 := Cast(h, id, c.term, id, c.log);
            var o := BecomeLeader(id, c);
            && o.Next?
            && SafeStep(cfg, h, id, o.node, Ack(Elect(h1, c.term, id, {id}, |c.log|, o.node.log), id, c.term, |c.log|))
  {
    hide HistoryOK, NodeSafe, SafeStep, BallotsRemember, AcksKnown, HasQuorum, NodeOK, Grows, Untouched, Cast, Elect, Ack;
    var c := Running(id, n);
    var h1 := Cast(h, id, c.term, id, c.log);
    var o := BecomeLeader(id, c);
    var e := Elect(h1, c.term, id, {id}, |c.log|, o.node.log);
    var h2 := Ack(e, id, c.term, |c.log|);
    CandidateSafe(cfg, h, id, n);
    SelfVote(cfg, h, id, n);
    BallotsStay(cfg, h, id, c, h1);
    StepFacts(cfg, h, id, c, h1);
    ElectHistory(cfg, h1, id, c, {id});
    WinSafe(cfg, h1, id, c, {id});
    WinOK(cfg, h1, id, c, {id});
    GoodHistory(cfg, h1, id, o.node, Silent, h2);
    BallotBound(h1, id, c);
    ComposeSafe(cfg, h, h1, h2, id, c, o.node);
  }

  lemma BallotBound(h: History, id: nat, n: Node)
    requires NodeOK(h, id, n)
    ensures forall u :: (id, u) in h.ballots ==> u <= n.term
  {
  }

  lemma StepFacts(cfg: Settings, h: History, id: nat, n': Node, h': History)
    requires SafeStep(cfg, h, id, n', h')
    ensures NodeSafe(cfg, h', id, n') && AcksKnown(h')
  {
    hide NodeSafe, AcksKnown;
  }

  lemma HupSafe(cfg: Settings, s: State, h: History, id: nat, pre: bool)
    requires cfg.voters.incoming != {} && SafeInv(cfg, s, h) && Enabled(s, Hup(id, pre))
    requires s.nodes[id].role != Leader ==> !HasQuorum(cfg.voters, {id})
    ensures SafeKept(cfg, s, h, Apply(cfg, s, Hup(id, pre)), Track(cfg, s, h, Hup(id, pre)), id)
  {
    hide HistorySafe, HistoryOK, NodeOK, NodeSafe, MessageSafe, MessageOK, SafeStep, Campaign, VoteRequests, Grows, Cast, HasQuorum, Kept, SafeKept;
    var n := s.nodes[id];
    HupKeeps(cfg, s, h, id, pre);
    CampaignOutcome(cfg, id, n);
    var s', h' := Apply(cfg, s, Hup(id, pre)), Track(cfg, s, h, Hup(id, pre));
    if n.role == Leader {
      SameSafe(cfg, s, h, s, id);
    } else {
      CandidateSafe(cfg, h, id, n);
      SelfVoteSafe(cfg, h, id, n);
      RequestsSafe(cfg, h', id, BecomeCandidate(id, n).(votes := map[id := true]), pre);
      OneSafe(cfg, s, h, s', h', id);
    }
  }

  lemma SelfVoteSafe(cfg: Settings, h: History, id: nat, n: Node)
    requires HistorySafe(cfg, h) && NodeOK(h, id, n)
    requires SafeStep(cfg, h, id, Running(id, n), Cast(h, id, n.term + 1, id, n.log))
    ensures var h1 := Cast(h, id, n.term + 1, id, n.log);
            HistoryOK(cfg, h1) && LogOK(h1, n.log) && CommitSafe(cfg, h1, BecomeCandidate(id, n).(votes := map[id := true]))
  {
    hide HistoryOK, NodeSafe, Grows, Cast;
    SelfVote(cfg, h, id, n);
    CommitOfSafe(cfg, Cast(h, id, n.term + 1, id, n.log), id, Running(id, n));
  }

  lemma ProposeSafe(cfg: Settings, s: State, h: History, id: nat, es: Log)
    requires SafeInv(cfg, s, h) && Enabled(s, Propose(id, es))
    ensures SafeKept(cfg, s, h, Apply(cfg, s, Propose(id, es)), Track(cfg, s, h, Propose(id, es)), id)
  {
    hide HistoryOK, NodeSafe, MessageSafe, MessageOK, Stamp, LogOK, Grows, BallotsRemember, AcksKnown, Kept, SafeKept;
    var n := s.nodes[id];
    assert NodeOK(h, id, n);
    ProposeKeeps(cfg, s, h, id, es);
    StampTerms(n.term, es);
    var stamped := Stamp(n.term, es);
    ExtendOK(cfg, h, n.term, stamped);
    ExtendSafe(cfg, h, id, n, stamped);
    OneSafe(cfg, s, h, Apply(cfg, s, Propose(id, es)), Track(cfg, s, h, Propose(id, es)), id);
  }

  /** A leader that appends forgets nothing, and nobody has acknowledged what it appends. */
  lemma ExtendSafe(cfg: Settings, h: History, id: nat, n: Node, es: Log)
    requires HistorySafe(cfg, h) && NodeOK(h, id, n) && NodeSafe(cfg, h, id, n) && n.role == Leader
    requires var h' := Extend(h, n.term, n.log + es); HistoryOK(cfg, h') && Grows(h, h')
    ensures SafeStep(cfg, h, id, n.(log := n.log + es), Extend(h, n.term, n.log + es))
  {
    hide HistoryOK, Remembers, CommittedLog, CommittedAt, LogOK, Grows, BallotsRemember, CurrentAck;
    var h', n' := Extend(h, n.term, n.log + es), n.(log := n.log + es);
    ExtendGrows(h, n.term, es);
    ExtendIs(h, n.term, n.log + es);
    assert (n.log + es)[..n.persisted] == n.log[..n.persisted];
    assert (n.log + es)[..n.committed] == n.log[..n.committed];
    AcksStay(cfg, h, h', id, n);
    CommittedLogStays(cfg, h, h', n.log[..n.committed]);
    LeaderStaysSafe(cfg, h, h', n);
    CurrentAckStays(cfg, h, h', id, n);
    LongerCurrent(cfg, h', id, n, n');
  }

  lemma ExtendIs(h: History, t: nat, log: Log)
    ensures var h' := Extend(h, t, log);
            && h'.acks == h.acks && h'.ballots == h.ballots && h'.reigns.Keys == h.reigns.Keys
            && (t in h.reigns ==> h'.reigns[t] == h.reigns[t].(log := log))
  {
  }

  lemma PersistSafe(cfg: Settings, s: State, h: History, id: nat, upTo: nat)
    requires SafeInv(cfg, s, h) && Enabled(s, Persist(id, upTo))
    ensures SafeKept(cfg, s, h, Apply(cfg, s, Persist(id, upTo)), Track(cfg, s, h, Persist(id, upTo)), id)
  {
    hide HistoryOK, NodeSafe, MessageSafe, MessageOK, NodeOK, SafeStep, Ack, OnPersist, BallotsRemember, AcksKnown, Kept, SafeKept;
    var n := s.nodes[id];
    PersistKeeps(cfg, s, h, id, upTo);
    if n.role == Leader {
      LeaderPersists(cfg, h, id, n, upTo);
      OneSafe(cfg, s, h, Apply(cfg, s, Persist(id, upTo)), Track(cfg, s, h, Persist(id, upTo)), id);
    } else {
      FollowerPersists(cfg, h, id, n, upTo);
      PersistNode(h, id, n, upTo);
      PutSafe(cfg, s, h, id, OnPersist(cfg, id, n, upTo));
    }
  }

  lemma FollowerPersists(cfg: Settings, h: History, id: nat, n: Node, upTo: nat)
    requires NodeSafe(cfg, h, id, n) && n.persisted < upTo <= |n.log| && n.role != Leader
    ensures var n' := n.(persisted := upTo, saved := HardState(n.term, n.vote));
            NodeSafe(cfg, h, id, n') && OnPersist(cfg, id, n, upTo) == n'
  {
    hide NodeSafe, LeaderCommit;
    LongerSafe(cfg, h, id, n, upTo);
    SavedSafe(cfg, h, id, n.(persisted := upTo), HardState(n.term, n.vote));
  }

  lemma OwnAckSafe(cfg: Settings, h: History, id: nat, n: Node, upTo: nat)
    requires HistorySafe(cfg, h) && NodeOK(h, id, n) && NodeSafe(cfg, h, id, n) && n.role == Leader
    requires upTo == n.persisted
    ensures NodeSafe(cfg, Ack(h, id, n.term, upTo), id, n)
  {
    hide HistoryOK, CommittedLog, CommittedAt, LogOK, Dropped, CurrentAck;
    var h' := Ack(h, id, n.term, upTo);
    AckLater(h, id, n.term, upTo);
    forall t: nat
      ensures Remembers(h', n.log[..n.persisted], id, t, |h'.reigns|)
    {
      OwnAckRemembers(cfg, h, id, n, t);
    }
    LeaderStaysSafe(cfg, h, h', n);
    CommittedLogStays(cfg, h, h', n.log[..n.committed]);
    OwnAckCurrent(cfg, h, id, n);
  }

  lemma OwnAckCurrent(cfg: Settings, h: History, id: nat, n: Node)
    requires NodeOK(h, id, n) && CurrentAck(cfg, h, id, n) && n.role == Leader
    ensures CurrentAck(cfg, Ack(h, id, n.term, n.persisted), id, n)
  {
    hide LogOK, TermsBelow, VotesOK, AckKept, Ack, Grows;
    var c, h' := AckOf(h, id, n.term), Ack(h, id, n.term, n.persisted);
    AckLater(h, id, n.term, n.persisted);
    AckGrows(h, id, n.term, n.persisted);
    if n.persisted >= c {
      AllKept(cfg, h', n.log, n.persisted, n.term, n.persisted);
    } else {
      var d: nat :| AckKept(cfg, h, n.log, n.persisted, n.term, c, d);
      AckKeptStays(cfg, h, h', n.log, n.persisted, n.term, c, d);
    }
  }

  lemma OwnAckRemembers(cfg: Settings, h: History, id: nat, n: Node, t: nat)
    requires HistoryOK(cfg, h) && NodeOK(h, id, n) && AcksOK(h, id, n) && n.role == Leader
    ensures Remembers(Ack(h, id, n.term, n.persisted), n.log[..n.persisted], id, t, |h.reigns|)
  {
    hide HistoryOK, LogOK;
    var h', log := Ack(h, id, n.term, n.persisted), n.log[..n.persisted];
    assert Remembers(h, log, id, t, |h.reigns|);
    if t in h.reigns {
      forall k: nat | h.reigns[t].base < k <= AckOf(h', id, t)
        ensures Held(log, t, k) || Dropped(h', t, k, |h.reigns|)
      {
        if k <= AckOf(h, id, t) {
          assert Held(log, t, k) || Dropped(h, t, k, |h.reigns|);
        } else {
          OwnTerm(cfg, h, t, k);
        }
      }
    }
  }

  lemma LeaderPersists(cfg: Settings, h: History, id: nat, n: Node, upTo: nat)
    requires HistorySafe(cfg, h) && NodeOK(h, id, n) && NodeSafe(cfg, h, id, n) && n.role == Leader
    requires n.persisted < upTo <= |n.log|
    ensures SafeStep(cfg, h, id, OnPersist(cfg, id, n, upTo), Ack(h, id, n.term, upTo))
  {
    hide HistoryOK, NodeSafe, NodeOK, LeaderCommit, Ack, BallotsRemember, AcksKnown, Grows;
    var h', n1 := Ack(h, id, n.term, upTo), n.(persisted := upTo, saved := HardState(n.term, n.vote));
    AckLater(h, id, n.term, upTo);
    AckOK(cfg, h, id, n.term, upTo);
    AckGrows(h, id, n.term, upTo);
    PersistNode(h, id, n, upTo) by {
      PersistedBound(h, id, n);
    }
    LongerSafe(cfg, h, id, n, upTo);
    SavedSafe(cfg, h, id, n.(persisted := upTo), HardState(n.term, n.vote));
    OwnAckSafe(cfg, h, id, n1, upTo);
    NodeGrows(h, h', id, n1);
    if Matched(n, id) < upTo {
      OwnReign(h, id, n);
      MatchSafe(cfg, h', id, n1, id, upTo);
      MatchedOK(h', id, n1, n.matched[id := upTo]);
      LeaderCommits(cfg, h', id, n1.(matched := n.matched[id := upTo]));
    }
    SameTerm(cfg, id, n, upTo);
  }

  lemma OwnReign(h: History, id: nat, n: Node)
    requires NodeOK(h, id, n) && n.role == Leader
    ensures n.term in h.reigns
  {
  }

  lemma SameTerm(cfg: Settings, id: nat, n: Node, upTo: nat)
    ensures OnPersist(cfg, id, n, upTo).term == n.term
  {
  }

  lemma RebootSafe(cfg: Settings, h: History, id: nat, n: Node, keep: nat, commit: nat)
    requires HistorySafe(cfg, h) && NodeOK(h, id, n) && NodeSafe(cfg, h, id, n)
    requires n.persisted <= keep <= |n.log| && commit <= Min(n.committed, keep)
    ensures NodeSafe(cfg, h, id, Reboot(id, n, keep, commit))
  {
    hide HistoryOK, LogOK, CommittedLog, CommittedAt, Remembers, CurrentAck;
    LongerSafe(cfg, h, id, n, keep);
    var n' := Reboot(id, n, keep, commit);
    assert n'.log[..keep] == n.log[..keep];
    CommittedPrefix(cfg, h, n.log[..n.committed], commit);
    assert n.log[..n.committed][..commit] == n'.log[..commit];
    LongerCurrent(cfg, h, id, n.(persisted := keep), n');
  }

  lemma AppendMessageSafe(cfg: Settings, h: History, id: nat, n: Node, to: nat, index: nat, count: nat)
    requires HistoryOK(cfg, h) && NodeOK(h, id, n) && NodeSafe(cfg, h, id, n) && n.role == Leader
    requires index <= |n.log| || index <= Matched(n, to)
    requires index + count <= |n.log| || count == 0
    ensures MessageSafe(cfg, h, AppendMessage(id, n, to, index, count))
  {
    hide HistoryOK, LogOK, CommittedLog, CommittedAt, Remembers;
    AllPositive(cfg, h, n.log);
  }

  lemma HeartbeatMessageSafe(cfg: Settings, h: History, id: nat, n: Node, to: nat)
    requires NodeOK(h, id, n) && NodeSafe(cfg, h, id, n) && n.role == Leader
    ensures MessageSafe(cfg, h, Heartbeat(id, to, n.term, Min(Matched(n, to), n.committed)))
  {
    hide LogOK, CommittedLog, CommittedAt, Remembers;
    var c := Min(Matched(n, to), n.committed);
    CommittedPrefix(cfg, h, n.log[..n.committed], c);
    assert n.log[..n.committed][..c] == n.log[..c];
  }

  lemma ReadIndexMessageSafe(cfg: Settings, h: History, id: nat, n: Node, to: nat, index: nat)
    requires NodeOK(h, id, n) && NodeSafe(cfg, h, id, n) && n.role == Leader
    requires 0 < index <= n.committed && TermAt(n.log, index) == n.term
    ensures MessageSafe(cfg, h, ReadIndexResp(id, to, n.term, index))
  {
    hide LogOK, CommittedLog, CommittedAt, Remembers;
    CommittedPrefix(cfg, h, n.log[..n.committed], index);
    assert n.log[..n.committed][..index] == n.log[..index];
  }

  /** Every such event keeps the safety invariant. */
  lemma EventSafe(cfg: Settings, s: State, h: History, e: Event)
    requires cfg.voters.incoming != {} && cfg.documented && SafeInv(cfg, s, h) && Ordinary(cfg, s, e)
    ensures SafeKept(cfg, s, h, Apply(cfg, s, e), Track(cfg, s, h, e), Actor(e))
  {
    hide HistorySafe, HistoryOK, NodeOK, NodeSafe, MessageOK, MessageSafe, Serve, Campaign, OnPersist, Reboot, AppendMessage, TrackReply, SafeKept, HasQuorum, Revealed;
    if !Enabled(s, e) {
      SameSafe(cfg, s, h, s, Actor(e));
    } else {
      match e
      case Deliver(m) => DeliverSafe(cfg, s, h, m);
      case Hup(id, pre) => HupSafe(cfg, s, h, id, pre);
      case Propose(id, es) => ProposeSafe(cfg, s, h, id, es);
      case Persist(id, upTo) => PersistSafe(cfg, s, h, id, upTo);
      case SendAppend(id, to, index, count) =>
        LeaderTerm(cfg, h, id, s.nodes[id]);
        AppendMessageOK(h, id, s.nodes[id], to, index, count);
        AppendMessageSafe(cfg, h, id, s.nodes[id], to, index, count);
        PostSafe(cfg, s, h, id, {AppendMessage(id, s.nodes[id], to, index, count)});
      case SendHeartbeat(id, to) =>
        LeaderTerm(cfg, h, id, s.nodes[id]);
        var m := Heartbeat(id, to, s.nodes[id].term, Min(Matched(s.nodes[id], to), s.nodes[id].committed));
        PlainOK(h, m);
        HeartbeatMessageSafe(cfg, h, id, s.nodes[id], to);
        PostSafe(cfg, s, h, id, {m});
      case SendReadIndex(id, to, index) =>
        LeaderTerm(cfg, h, id, s.nodes[id]);
        var m := ReadIndexResp(id, to, s.nodes[id].term, index);
        PlainOK(h, m);
        ReadIndexMessageSafe(cfg, h, id, s.nodes[id], to, index);
        PostSafe(cfg, s, h, id, {m});
      case Save(id) =>
        SaveOK(h, id, s.nodes[id]);
        SaveSafe(cfg, h, id, s.nodes[id]);
        PutSafe(cfg, s, h, id, Revealed(s.nodes[id]));
      case StepDown(id) =>
        FollowerOK(h, id, s.nodes[id], s.nodes[id].term, INVALID_ID);
        FollowerSafe(cfg, h, id, s.nodes[id], s.nodes[id].term, INVALID_ID);
        PutSafe(cfg, s, h, id, BecomeFollower(id, s.nodes[id], s.nodes[id].term, INVALID_ID));
      case Restart(id, keep, commit) =>
        RebootOK(h, id, s.nodes[id], keep, commit);
        RebootSafe(cfg, h, id, s.nodes[id], keep, commit);
        PutSafe(cfg, s, h, id, Reboot(id, s.nodes[id], keep, commit));
    }
  }

  lemma SaveSafe(cfg: Settings, h: History, id: nat, n: Node)
    requires NodeSafe(cfg, h, id, n)
    ensures NodeSafe(cfg, h, id, Revealed(n))
  {
    hide NodeSafe;
    SavedSafe(cfg, h, id, n, HardState(n.term, n.vote));
  }

}
