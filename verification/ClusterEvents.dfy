/** Each event of a node whose term is stored keeps the base invariant. */
module ClusterEvents {
  import opened Common
  import opened Quorum
  import opened Raft
  import opened Cluster
  import opened ClusterBase
  import opened ClusterSteps
  import opened ClusterStored

  /** What an event of node `id` keeps. */
  ghost predicate Kept(cfg: Settings, s: State, h: History, s': State, h': History, id: nat) {
    BaseInv(cfg, s', h') && Grows(h, h') && s'.nodes.Keys == s.nodes.Keys && forall q :: q != id ==> Untouched(h, h', q)
  }

  lemma KeptOne(cfg: Settings, s: State, h: History, s': State, h': History, id: nat)
    requires BaseInv(cfg, s, h) && Grows(h, h') && HistoryOK(cfg, h')
    requires s'.nodes.Keys == s.nodes.Keys && forall q :: q in s.nodes && q != id ==> s'.nodes[q] == s.nodes[q]
    requires forall q :: q != id ==> Untouched(h, h', q)
    requires id in s'.nodes ==> NodeOK(h', id, s'.nodes[id])
    requires forall m :: m in s'.msgs && m !in s.msgs ==> MessageOK(h', m)
    ensures Kept(cfg, s, h, s', h', id)
  {
    hide BaseInv, Grows, HistoryOK, Untouched, NodeOK, MessageOK;
    OneNode(cfg, s, h, s', h', id);
  }

  lemma DeliverKeeps(cfg: Settings, s: State, h: History, m: Message)
    requires cfg.voters.incoming != {} && BaseInv(cfg, s, h) && Enabled(s, Deliver(m))
    ensures Kept(cfg, s, h, Apply(cfg, s, Deliver(m)), Track(cfg, s, h, Deliver(m)), m.to)
  {
    hide Serve, TrackReply, HistoryOK, NodeOK, MessageOK, Grows, Untouched;
    var id, n := m.to, s.nodes[m.to];
    StepOK(cfg, h, id, n, m);
    var s', h' := Apply(cfg, s, Deliver(m)), Track(cfg, s, h, Deliver(m));
    if Serve(cfg, id, n, m).Next? {
      KeptOne(cfg, s, h, s', h', id);
    } else {
      SameKept(cfg, s, h, id);
    }
  }

  lemma SameKept(cfg: Settings, s: State, h: History, id: nat)
    requires BaseInv(cfg, s, h)
    ensures Kept(cfg, s, h, s, h, id)
  {
    hide BaseInv;
  }

  /** New messages of a leader, with nothing else changed. */
  lemma PostKept(cfg: Settings, s: State, h: History, id: nat, ms: set<Message>)
    requires BaseInv(cfg, s, h) && forall m :: m in ms ==> MessageOK(h, m)
    ensures Kept(cfg, s, h, Post(s, ms), h, id)
  {
    hide HistoryOK, NodeOK, MessageOK;
  }

  /** One node changed without anything the history records. */
  lemma PutKept(cfg: Settings, s: State, h: History, id: nat, n: Node)
    requires BaseInv(cfg, s, h) && id in s.nodes && NodeOK(h, id, n)
    ensures Kept(cfg, s, h, Put(s, id, n), h, id)
  {
    hide HistoryOK, NodeOK, MessageOK;
  }

  /** A node that asks for votes has voted for itself and stored that. */
  function Running(id: nat, n: Node): Node {
    Saving(BecomeCandidate(id, n).(votes := map[id := true]))
  }

  lemma HupKeeps(cfg: Settings, s: State, h: History, id: nat, pre: bool)
    requires cfg.voters.incoming != {} && BaseInv(cfg, s, h) && Enabled(s, Hup(id, pre))
    requires s.nodes[id].role != Leader ==> !HasQuorum(cfg.voters, {id})
    ensures Kept(cfg, s, h, Apply(cfg, s, Hup(id, pre)), Track(cfg, s, h, Hup(id, pre)), id)
  {
    hide HistoryOK, NodeOK, MessageOK, Grows, Untouched, Cast, Campaign, VoteRequests, HasQuorum;
    var n := s.nodes[id];
    var s', h' := Apply(cfg, s, Hup(id, pre)), Track(cfg, s, h, Hup(id, pre));
    CampaignOutcome(cfg, id, n);
    if n.role == Leader {
      SameKept(cfg, s, h, id);
    } else {
      var h1 := Cast(h, id, n.term + 1, id, n.log);
      SelfVote(cfg, h, id, n);
      RequestsOK(cfg, h1, id, n, pre);
      KeptOne(cfg, s, h, s', h', id);
    }
  }

  lemma CampaignOutcome(cfg: Settings, id: nat, n: Node)
    ensures var o := Campaign(cfg, id, n);
            var c := BecomeCandidate(id, n);
            if n.role == Leader then o == Next(n, Silent)
            else if !HasQuorum(cfg.voters, {id}) then o == Next(c.(votes := map[id := true]), Silent)
            else if n.persisted != |n.log| then o == Panic
            else o == BecomeLeader(id, c) && o.Next?
  {
    hide JointVote, HasQuorum;
    AloneWins(cfg, id);
  }

  /** A campaigning node casts its own ballot first. */
  lemma SelfVote(cfg: Settings, h: History, id: nat, n: Node)
    requires HistoryOK(cfg, h) && NodeOK(h, id, n)
    ensures var h1 := Cast(h, id, n.term + 1, id, n.log);
            var c := Running(id, n);
            && Grows(h, h1) && HistoryOK(cfg, h1) && (forall q :: q != id ==> Untouched(h, h1, q))
            && NodeOK(h1, id, c) && Voted(h1, id, c.term, id)
  {
    hide HistoryOK;
    CastOK(cfg, h, id, n.term + 1, id, n.log);
    CastGrows(h, id, n.term + 1, id, n.log);
    var h1 := Cast(h, id, n.term + 1, id, n.log);
    LogGrows(h, h1, n.log);
    NotYetLeader(cfg, h, id, n);
  }

  /** A node that has not voted in a term has not won it. */
  lemma NotYetLeader(cfg: Settings, h: History, id: nat, n: Node)
    requires HistoryOK(cfg, h) && VotesOK(h, id, n)
    ensures n.term + 1 in h.reigns ==> h.reigns[n.term + 1].leader != id
  {
    if n.term + 1 in h.reigns {
      assert ReignOK(cfg, h, n.term + 1);
    }
  }

  lemma WonStep(cfg: Settings, h: History, h1: History, id: nat, c: Node)
    requires Grows(h, h1) && (forall q :: q != id ==> Untouched(h, h1, q)) && c.role == Candidate && c.persisted == |c.log|
    requires var o := BecomeLeader(id, c);
             GoodStep(cfg, h1, id, o.node, Silent, Ack(Elect(h1, c.term, id, {id}, |c.log|, o.node.log), id, c.term, |c.log|))
    ensures var o := BecomeLeader(id, c);
            GoodStep(cfg, h, id, o.node, Silent, Ack(Elect(h1, c.term, id, {id}, |c.log|, o.node.log), id, c.term, |c.log|))
  {
    hide Grows, Untouched, NodeOK, HistoryOK, Elect, Ack;
    var o := BecomeLeader(id, c);
    var h2 := Ack(Elect(h1, c.term, id, {id}, |c.log|, o.node.log), id, c.term, |c.log|);
    GrowsTrans(h, h1, h2);
    forall q | q != id
      ensures Untouched(h, h2, q)
    {
      UntouchedTrans(h, h1, h2, q);
    }
  }

  lemma RequestsOK(cfg: Settings, h: History, id: nat, n: Node, pre: bool)
    requires NodeOK(h, id, Running(id, n))
    ensures forall m :: m in VoteRequests(cfg, id, BecomeCandidate(id, n).(votes := map[id := true]), pre) ==> MessageOK(h, m)
  {
  }

  lemma StampTerms(term: nat, es: Log)
    ensures forall i :: 0 <= i < |es| ==> Stamp(term, es)[i].term == term
  {
  }

  lemma ProposeKeeps(cfg: Settings, s: State, h: History, id: nat, es: Log)
    requires BaseInv(cfg, s, h) && Enabled(s, Propose(id, es))
    ensures Kept(cfg, s, h, Apply(cfg, s, Propose(id, es)), Track(cfg, s, h, Propose(id, es)), id)
  {
    hide HistoryOK, MessageOK, Grows, Untouched, Stamp;
    var n := s.nodes[id];
    var stamped := Stamp(n.term, es);
    StampTerms(n.term, es);
    assert NodeOK(h, id, n);
    ExtendOK(cfg, h, n.term, stamped);
    var h' := Extend(h, n.term, n.log + stamped);
    LeaderGrowsOK(cfg, h, id, n, stamped);
    KeptOne(cfg, s, h, Put(s, id, n.(log := n.log + stamped)), h', id);
  }

  lemma LeaderGrowsOK(cfg: Settings, h: History, id: nat, n: Node, es: Log)
    requires NodeOK(h, id, n) && n.role == Leader && forall i :: 0 <= i < |es| ==> es[i].term == n.term
    ensures NodeOK(Extend(h, n.term, n.log + es), id, n.(log := n.log + es))
  {
    ExtendedLogOK(h, n.term, es);
  }

  lemma AppendMessageOK(h: History, id: nat, n: Node, to: nat, index: nat, count: nat)
    requires NodeOK(h, id, n) && n.role == Leader && n.term > 0
    requires index + count <= |n.log| || count == 0
    ensures MessageOK(h, AppendMessage(id, n, to, index, count))
  {
  }

  lemma LeaderTerm(cfg: Settings, h: History, id: nat, n: Node)
    requires HistoryOK(cfg, h) && NodeOK(h, id, n) && n.role == Leader
    ensures n.term > 0 && id != INVALID_ID
  {
    assert ReignOK(cfg, h, n.term);
  }

  lemma PersistKeeps(cfg: Settings, s: State, h: History, id: nat, upTo: nat)
    requires BaseInv(cfg, s, h) && Enabled(s, Persist(id, upTo))
    ensures Kept(cfg, s, h, Apply(cfg, s, Persist(id, upTo)), Track(cfg, s, h, Persist(id, upTo)), id)
  {
    hide HistoryOK, NodeOK, MessageOK, Ack, LeaderCommit, Grows, Untouched;
    var n := s.nodes[id];
    var n' := n.(persisted := upTo, saved := HardState(n.term, n.vote));
    PersistNode(h, id, n, upTo);
    if n.role == Leader {
      LeaderTerm(cfg, h, id, n);
      MatchedOK(h, id, n', n.matched[id := upTo]);
      LeaderCommitOK(cfg, h, id, n'.(matched := n.matched[id := upTo]));
      AckStep(cfg, h, id, OnPersist(cfg, id, n, upTo), Silent, n.term, upTo);
      KeptOne(cfg, s, h, Apply(cfg, s, Persist(id, upTo)), Track(cfg, s, h, Persist(id, upTo)), id);
    } else {
      PutKept(cfg, s, h, id, n');
    }
  }

  lemma PersistNode(h: History, id: nat, n: Node, upTo: nat)
    requires NodeOK(h, id, n) && n.persisted < upTo <= |n.log|
    ensures NodeOK(h, id, n.(persisted := upTo, saved := HardState(n.term, n.vote)))
  {
  }

  lemma SaveOK(h: History, id: nat, n: Node)
    requires NodeOK(h, id, n)
    ensures NodeOK(h, id, Revealed(n))
  {
  }

  lemma RebootOK(h: History, id: nat, n: Node, keep: nat, commit: nat)
    requires NodeOK(h, id, n) && keep <= |n.log| && commit <= keep
    ensures NodeOK(h, id, Reboot(id, n, keep, commit))
  {
    PrefixOK(h, n.log, keep);
  }

  /** Every event but a loss of what was not stored and an election by one's own vote. */
  predicate Ordinary(cfg: Settings, s: State, e: Event) {
    && !e.Lose?
    && (e.Hup? && Enabled(s, e) && s.nodes[e.id].role != Leader ==> !HasQuorum(cfg.voters, {e.id}))
  }

  /** Every such event keeps the base invariant. */
  lemma EventKeeps(cfg: Settings, s: State, h: History, e: Event)
    requires cfg.voters.incoming != {} && BaseInv(cfg, s, h) && Ordinary(cfg, s, e)
    ensures Kept(cfg, s, h, Apply(cfg, s, e), Track(cfg, s, h, e), Actor(e))
  {
    hide HistoryOK, NodeOK, MessageOK, Serve, Campaign, OnPersist, Reboot, AppendMessage, TrackReply, Kept, HasQuorum, Revealed;
    SameKept(cfg, s, h, Actor(e));
    if Enabled(s, e) {
      match e
      case Deliver(m) => DeliverKeeps(cfg, s, h, m);
      case Hup(id, pre) => HupKeeps(cfg, s, h, id, pre);
      case Propose(id, es) => ProposeKeeps(cfg, s, h, id, es);
      case Persist(id, upTo) => PersistKeeps(cfg, s, h, id, upTo);
      case SendAppend(id, to, index, count) =>
        LeaderTerm(cfg, h, id, s.nodes[id]);
        AppendMessageOK(h, id, s.nodes[id], to, index, count);
        PostKept(cfg, s, h, id, {AppendMessage(id, s.nodes[id], to, index, count)});
      case SendHeartbeat(id, to) =>
        LeaderTerm(cfg, h, id, s.nodes[id]);
        var m := Heartbeat(id, to, s.nodes[id].term, Min(Matched(s.nodes[id], to), s.nodes[id].committed));
        PlainOK(h, m);
        PostKept(cfg, s, h, id, {m});
      case SendReadIndex(id, to, index) =>
        LeaderTerm(cfg, h, id, s.nodes[id]);
        var m := ReadIndexResp(id, to, s.nodes[id].term, index);
        PlainOK(h, m);
        PostKept(cfg, s, h, id, {m});
      case Save(id) =>
        SaveOK(h, id, s.nodes[id]);
        PutKept(cfg, s, h, id, Revealed(s.nodes[id]));
      case StepDown(id) =>
        FollowerOK(h, id, s.nodes[id], s.nodes[id].term, INVALID_ID);
        PutKept(cfg, s, h, id, BecomeFollower(id, s.nodes[id], s.nodes[id].term, INVALID_ID));
      case Restart(id, keep, commit) =>
        RebootOK(h, id, s.nodes[id], keep, commit);
        PutKept(cfg, s, h, id, Reboot(id, s.nodes[id], keep, commit));
    }
  }

  lemma PlainOK(h: History, m: Message)
    requires m.term > 0 && m.from != INVALID_ID && (m.Heartbeat? || m.ReadIndexResp?)
    ensures MessageOK(h, m)
  {
  }
}
