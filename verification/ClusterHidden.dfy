/**
  Leaders nobody knows of. A node that is a quorum by itself leads in the very step in which it campaigns.
  Until its new term is stored a crash may undo that election, so it is not part of the history yet: the
  cluster is as if that node were still what it has stored. Whatever it stores next makes the election known.
 */
module ClusterHidden {
  import opened Common
  import opened Quorum
  import opened Raft
  import opened Cluster
  import opened ClusterBase
  import opened ClusterSteps
  import opened ClusterStored
  import opened ClusterEvents

  // ------------------------------------------------------------ invariants

  /** The nodes as the history knows them. */
  function Official(id: nat, n: Node): Node {
    if Hidden(n) then Image(id, n) else n
  }

  function Public(s: State): State {
    s.(nodes := map p | p in s.nodes :: Official(p, s.nodes[p]))
  }

  /** An unknown leader, or what it became: past what is stored its log is its own term's, from the empty entry on. */
  ghost predicate HiddenShape(cfg: Settings, p: nat, n: Node) {
    var t := LastTerm(n.log);
    && HasQuorum(cfg.voters, {p})
    && n.saved.term < t <= n.term && n.persisted < |n.log| && n.committed <= |n.log|
    && n.log[n.persisted] == Entry(t, false, NOOP)
    && (forall i :: n.persisted <= i < |n.log| ==> n.log[i].term == t)
    && n.role != Candidate && (n.role == Leader ==> n.term == t)
    && n.vote == if n.term == t then p else INVALID_ID
  }

  ghost predicate Backed(cfg: Settings, h: History, p: nat, n: Node) {
    && NodeOK(h, p, Image(p, n)) && n.saved.term <= n.term
    && if Hidden(n) then HiddenShape(cfg, p, n) else (n.role != Follower ==> Fresh(n))
  }

  /** The base invariant holds of what is known, and what is stored would do as well. */
  ghost predicate Full(cfg: Settings, s: State, h: History) {
    BaseInv(cfg, Public(s), h) && forall p :: p in s.nodes ==> Backed(cfg, h, p, s.nodes[p])
  }

  lemma OfficialOK(cfg: Settings, s: State, h: History, p: nat)
    requires Full(cfg, s, h) && p in s.nodes
    ensures NodeOK(h, p, Official(p, s.nodes[p])) && HistoryOK(cfg, h)
  {
    hide NodeOK, HistoryOK, MessageOK, Backed, Official;
    assert Public(s).nodes[p] == Official(p, s.nodes[p]);
  }

  /** What a node has just stored is in order if the node is. */
  lemma FreshImage(h: History, p: nat, n: Node)
    requires NodeOK(h, p, n) && Fresh(n)
    ensures NodeOK(h, p, Image(p, n)) && !Hidden(n)
  {
    PrefixOK(h, n.log, n.persisted);
  }

  lemma BackedGrows(cfg: Settings, h: History, h': History, q: nat, n: Node)
    requires Grows(h, h') && Untouched(h, h', q) && Backed(cfg, h, q, n)
    ensures Backed(cfg, h', q, n)
  {
    hide NodeOK, Grows, Untouched, HiddenShape, Image;
    NodeGrows(h, h', q, Image(q, n));
  }

  // --------------------------------------------------------------- reveal

  /** What is left of the log past the entry with which its last leader began. */
  function Rest(n: Node): Log
    requires n.persisted < |n.log|
  {
    n.log[n.persisted + 1..]
  }

  /** The node as it was when it was about to campaign, as far as is stored. */
  function Before(id: nat, n: Node): Node
    requires Hidden(n)
  {
    BecomeFollower(id, Image(id, n), LastTerm(n.log) - 1, INVALID_ID)
  }

  lemma WholeLog(n: Node)
    requires n.persisted < |n.log| && n.log[n.persisted] == Entry(LastTerm(n.log), false, NOOP)
    ensures StoredLog(n) + [Entry(LastTerm(n.log), false, NOOP)] + Rest(n) == n.log
  {
  }

  /** The leader that the history learns of, before it moved on. */
  function Unveiled(id: nat, n: Node): Node
    requires Hidden(n)
  {
    var c := Running(id, Before(id, n));
    Reset(id, c, c.term).(leaderId := id, role := Leader, log := n.log)
  }

  lemma RevealElects(cfg: Settings, h: History, id: nat, n: Node)
    requires cfg.voters.incoming != {} && HistoryOK(cfg, h) && NodeOK(h, id, Image(id, n)) && HiddenShape(cfg, id, n)
    ensures var b := Before(id, n);
            var c := Running(id, b);
            var h1 := Cast(h, id, c.term, id, c.log);
            var o := BecomeLeader(id, c);
            && o.Next? && c.term == LastTerm(n.log) && c.log == StoredLog(n) && o.node.log == c.log + [Entry(c.term, false, NOOP)]
            && GoodStep(cfg, h, id, o.node, Silent, Ack(Elect(h1, c.term, id, {id}, |c.log|, o.node.log), id, c.term, |c.log|))
  {
    hide HistoryOK, NodeOK, HasQuorum, GoodStep, Cast, Elect, Ack, Grows, Untouched;
    var b := Before(id, n);
    var c := Running(id, b);
    var h1 := Cast(h, id, c.term, id, c.log);
    FollowerOK(h, id, Image(id, n), LastTerm(n.log) - 1, INVALID_ID);
    SelfVote(cfg, h, id, b);
    WinOK(cfg, h1, id, c, {id});
    WonStep(cfg, h, h1, id, c);
  }

  /** The history with the revealed election is in order, and so is the leader in it. */
  lemma RevealOK(cfg: Settings, h: History, id: nat, n: Node)
    requires cfg.voters.incoming != {} && HistoryOK(cfg, h) && NodeOK(h, id, Image(id, n)) && HiddenShape(cfg, id, n)
    ensures GoodStep(cfg, h, id, Unveiled(id, n), Silent, Reveal(h, id, n))
  {
    hide HistoryOK, NodeOK, HasQuorum, Cast, Elect, Ack, Grows, Untouched, MessageOK, StoredLog;
    RevealElects(cfg, h, id, n);
    WholeLog(n);
    var c := Running(id, Before(id, n));
    var t, l := c.term, BecomeLeader(id, c).node;
    var h2 := Ack(Elect(Cast(h, id, t, id, c.log), t, id, {id}, |c.log|, l.log), id, t, |c.log|);
    var rest := Rest(n);
    Leads(h2, id, l);
    ExtendOK(cfg, h2, t, rest);
    LeaderGrowsOK(cfg, h2, id, l, rest);
    GrowsTrans(h, h2, Extend(h2, t, l.log + rest));
    forall q | q != id
      ensures Untouched(h, Extend(h2, t, l.log + rest), q)
    {
      UntouchedTrans(h, h2, Extend(h2, t, l.log + rest), q);
    }
    assert l.(log := l.log + rest) == Unveiled(id, n);
  }

  lemma Leads(h: History, id: nat, n: Node)
    requires NodeOK(h, id, n) && n.role == Leader
    ensures n.term in h.reigns && h.reigns[n.term].leader == id && h.reigns[n.term].log == n.log
  {
  }

  /** Wherever the revealed leader has got to since, it is in order too. */
  lemma RevealedOK(cfg: Settings, h: History, id: nat, n: Node)
    requires HiddenShape(cfg, id, n) && NodeOK(h, id, Unveiled(id, n))
    ensures NodeOK(h, id, Revealed(n)) && !Hidden(Revealed(n))
  {
    hide HasQuorum, LogOK;
  }

  // ---------------------------------------------------------- one event

  /** What is left to show of an event is about the node that acted. */
  lemma FullOne(cfg: Settings, s: State, h: History, s': State, h': History, id: nat)
    requires Full(cfg, s, h) && Kept(cfg, Public(s), h, Public(s'), h', id)
    requires s'.nodes.Keys == s.nodes.Keys && forall q :: q in s.nodes && q != id ==> s'.nodes[q] == s.nodes[q]
    requires id in s'.nodes ==> Backed(cfg, h', id, s'.nodes[id])
    ensures Full(cfg, s', h')
  {
    hide BaseInv, Backed, Grows, Untouched;
    forall q | q in s'.nodes
      ensures Backed(cfg, h', q, s'.nodes[q])
    {
      if q != id {
        BackedGrows(cfg, h, h', q, s.nodes[q]);
      }
    }
  }

  lemma RevealKeeps(cfg: Settings, s: State, h: History, id: nat)
    requires cfg.voters.incoming != {} && Full(cfg, s, h) && id in s.nodes && Hidden(s.nodes[id])
    ensures var h' := Reveal(h, id, s.nodes[id]);
            Full(cfg, Put(s, id, Revealed(s.nodes[id])), h') && Grows(h, h')
  {
    hide HistoryOK, NodeOK, MessageOK, Grows, Untouched, HasQuorum, Reveal, Hidden, Revealed, HiddenShape, Unveiled;
    var n := s.nodes[id];
    var s', h' := Put(s, id, Revealed(n)), Reveal(h, id, n);
    assert Backed(cfg, h, id, n);
    RevealOK(cfg, h, id, n);
    RevealedOK(cfg, h', id, n);
    assert Fresh(Revealed(n)) by {
      RevealedFresh(n);
    }
    FreshImage(h', id, Revealed(n));
    KeptOne(cfg, Public(s), h, Public(s'), h', id);
    FullOne(cfg, s, h, s', h', id);
  }

  lemma RevealedFresh(n: Node)
    ensures Fresh(Revealed(n)) && Revealed(n).role == n.role
  {
  }

  /** An event sees of the nodes only the one it is about. */
  lemma ActsAlike(cfg: Settings, s: State, u: State, h: History, e: Event)
    requires s.nodes.Keys == u.nodes.Keys && s.msgs == u.msgs && (Actor(e) in s.nodes ==> s.nodes[Actor(e)] == u.nodes[Actor(e)])
    ensures Enabled(s, e) <==> Enabled(u, e)
    ensures Actor(e) in s.nodes ==> Apply(cfg, s, e).nodes[Actor(e)] == Apply(cfg, u, e).nodes[Actor(e)]
    ensures Apply(cfg, s, e).msgs == Apply(cfg, u, e).msgs && Track(cfg, s, h, e) == Track(cfg, u, h, e)
  {
    hide Serve, Campaign, OnPersist, Reboot, Image, Revealed, AppendMessage, VoteRequests, Stamp, TrackReply, Cast, Extend, Ack;
  }

  /** An ordinary event of a node whose term is stored, or was not needed, leaves it so. */
  predicate Calm(n: Node, n': Node) {
    Fresh(n') || (n'.role == Follower && n'.log == n.log && n'.persisted == n.persisted && n'.saved == n.saved && n'.term >= n.term)
  }

  lemma ServeCalm(cfg: Settings, h: History, id: nat, n: Node, m: Message)
    requires Sound(cfg, id, n) && id != INVALID_ID && m.term > 0 && (n.role != Follower ==> Fresh(n))
    ensures var o := Serve(cfg, id, n, m);
            o.Next? ==> Fresh(o.node) || (Calm(n, o.node) && TrackReply(h, id, n, o.node, m, o.reply) == h)
  {
    hide Step, HasQuorum, Cast, Ack, Elect;
    TermRises(cfg, id, n, m);
    VoteStays(cfg, id, n, m);
    if n.role == Candidate {
      CandidateStep(cfg, id, n, m);
    } else {
      UnheardStep(cfg, id, n, m);
    }
  }

  lemma EventCalm(cfg: Settings, s: State, h: History, e: Event)
    requires SoundState(cfg, s) && Enabled(s, e) && Ordinary(cfg, s, e)
    requires var n := s.nodes[Actor(e)]; n.role != Follower ==> Fresh(n)
    ensures Actor(e) in Apply(cfg, s, e).nodes
    ensures var n, n' := s.nodes[Actor(e)], Apply(cfg, s, e).nodes[Actor(e)];
            Fresh(n') || (Calm(n, n') && Track(cfg, s, h, e) == h)
  {
    hide Serve, OnPersist, HasQuorum, TrackReply, JointVote, Extend, Cast, Ack, Stamp;
    var id := Actor(e);
    assert Sound(cfg, id, s.nodes[id]);
    match e
    case Deliver(m) => ServeCalm(cfg, h, id, s.nodes[id], m);
    case Hup(_, _) => AloneWins(cfg, id);
    case Persist(_, upTo) => PersistIs(cfg, id, s.nodes[id], upTo);
    case _ =>
  }

  /** The image of a node that stored nothing is what it was. */
  lemma CalmImage(cfg: Settings, h: History, id: nat, n: Node, n': Node)
    requires Backed(cfg, h, id, n) && !Hidden(n) && Calm(n, n') && !Fresh(n')
    ensures Backed(cfg, h, id, n') && !Hidden(n')
  {
    hide NodeOK;
    assert Image(id, n') == Image(id, n);
  }

  /** If what the history knows of the actor is replaced by an official node, that is the public state after the event. */
  lemma PublicAfter(s: State, s': State, id: nat)
    requires id in s.nodes && s'.nodes.Keys == s.nodes.Keys && forall q :: q in s.nodes && q != id ==> s'.nodes[q] == s.nodes[q]
    ensures Public(s') == Put(Public(s), id, Official(id, s'.nodes[id])).(msgs := s'.msgs)
  {
    hide Official;
  }

  lemma OpenKeeps(cfg: Settings, s: State, h: History, e: Event)
    requires cfg.voters.incoming != {} && SoundState(cfg, s) && Full(cfg, s, h)
    requires Enabled(s, e) && Ordinary(cfg, s, e) && !Hidden(s.nodes[Actor(e)])
    ensures Full(cfg, Apply(cfg, s, e), Track(cfg, s, h, e)) && Grows(h, Track(cfg, s, h, e))
    ensures Actor(e) in Apply(cfg, s, e).nodes && !Hidden(Apply(cfg, s, e).nodes[Actor(e)])
    ensures Public(Apply(cfg, s, e)) == Apply(cfg, Public(s), e)
    ensures Track(cfg, Public(s), h, e) == Track(cfg, s, h, e)
  {
    hide Apply, Track, HistoryOK, NodeOK, MessageOK, Grows, Untouched, HasQuorum, Hidden, Calm, Image, Sound;
    var id, u := Actor(e), Public(s);
    var n, s', h' := s.nodes[id], Apply(cfg, s, e), Track(cfg, s, h, e);
    ActsAlone(cfg, s, e);
    ActsAlone(cfg, u, e);
    ActsAlike(cfg, s, u, h, e);
    EventKeeps(cfg, u, h, e);
    assert Backed(cfg, h, id, n);
    EventCalm(cfg, s, h, e);
    if Fresh(s'.nodes[id]) {
      FreshBacked(cfg, h', id, s'.nodes[id]);
    } else {
      CalmImage(cfg, h, id, n, s'.nodes[id]);
    }
    PublicAfter(s, s', id);
    assert Public(s') == Apply(cfg, u, e);
    FullOne(cfg, s, h, s', h', id);
  }

  lemma FreshBacked(cfg: Settings, h: History, id: nat, n: Node)
    requires NodeOK(h, id, n) && Fresh(n)
    ensures Backed(cfg, h, id, n) && !Hidden(n)
  {
    hide NodeOK;
    FreshImage(h, id, n);
  }

  // ------------------------------------------- an election by one's own vote

  lemma AloneHides(cfg: Settings, h: History, id: nat, n: Node)
    requires Backed(cfg, h, id, n) && NodeOK(h, id, n) && HasQuorum(cfg.voters, {id}) && n.persisted == |n.log|
    ensures var n' := BecomeLeader(id, BecomeCandidate(id, n)).node;
            Hidden(n') && Backed(cfg, h, id, n') && Image(id, n') == Image(id, n)
  {
    hide HasQuorum, HiddenShape, LogOK, TermsBelow, VotesOK, CandidateOK, LeaderOK;
    var n' := BecomeLeader(id, BecomeCandidate(id, n)).node;
    assert StoredLog(n') == StoredLog(n);
    AloneShape(cfg, id, n);
  }

  lemma AloneShape(cfg: Settings, id: nat, n: Node)
    requires HasQuorum(cfg.voters, {id}) && n.persisted == |n.log| && n.committed <= |n.log| && n.saved.term <= n.term
    ensures HiddenShape(cfg, id, BecomeLeader(id, BecomeCandidate(id, n)).node)
  {
    hide HasQuorum;
  }

  /** An event the history does not learn of. */
  lemma MovedKeeps(cfg: Settings, s: State, h: History, s': State, id: nat)
    requires Full(cfg, s, h) && id in s.nodes && s'.nodes.Keys == s.nodes.Keys
    requires forall q :: q in s.nodes && q != id ==> s'.nodes[q] == s.nodes[q]
    requires Backed(cfg, h, id, s'.nodes[id]) && NodeOK(h, id, Official(id, s'.nodes[id]))
    requires forall m :: m in s'.msgs && m !in s.msgs ==> MessageOK(h, m)
    ensures Full(cfg, s', h)
  {
    hide HistoryOK, NodeOK, MessageOK, Backed, Official, Grows, Untouched;
    assert Grows(h, h) && Untouched(h, h, 0) by {
      Unchanged(h, 0);
    }
    forall q | q != id
      ensures Untouched(h, h, q)
    {
      Unchanged(h, q);
    }
    KeptOne(cfg, Public(s), h, Public(s'), h, id);
    FullOne(cfg, s, h, s', h, id);
  }

  lemma AloneApply(cfg: Settings, s: State, h: History, id: nat, pre: bool)
    requires id in s.nodes && s.nodes[id].role != Leader && HasQuorum(cfg.voters, {id})
    ensures Track(cfg, s, h, Hup(id, pre)) == h
    ensures Apply(cfg, s, Hup(id, pre)) ==
            if s.nodes[id].persisted != |s.nodes[id].log| then s
            else Put(s, id, BecomeLeader(id, BecomeCandidate(id, s.nodes[id])).node)
  {
    hide HasQuorum, Campaign, Cast;
    CampaignOutcome(cfg, id, s.nodes[id]);
  }

  /** The history does not learn of it. */
  lemma AloneKeeps(cfg: Settings, s: State, h: History, id: nat, pre: bool)
    requires Full(cfg, s, h) && id in s.nodes && !Hidden(s.nodes[id])
    requires s.nodes[id].role != Leader && HasQuorum(cfg.voters, {id})
    ensures Full(cfg, Apply(cfg, s, Hup(id, pre)), h)
  {
    hide Apply, HistoryOK, NodeOK, MessageOK, HasQuorum, Hidden, Image, HiddenShape, BecomeLeader, Backed, BaseInv;
    var n, s' := s.nodes[id], Apply(cfg, s, Hup(id, pre));
    AloneApply(cfg, s, h, id, pre);
    if n.persisted == |n.log| {
      OfficialOK(cfg, s, h, id);
      AloneHides(cfg, h, id, n);
      ImageOK(cfg, h, id, n);
      MovedKeeps(cfg, s, h, s', id);
    }
  }

  lemma ImageOK(cfg: Settings, h: History, id: nat, n: Node)
    requires Backed(cfg, h, id, n)
    ensures NodeOK(h, id, Image(id, n))
  {
    hide NodeOK;
  }

  // ------------------------------------------------------------- a loss

  /** A crash leaves what was stored, whether or not that is all the history knows. */
  lemma LoseKeeps(cfg: Settings, s: State, h: History, id: nat, commit: nat)
    requires Full(cfg, s, h) && Enabled(s, Lose(id, commit))
    ensures Full(cfg, Apply(cfg, s, Lose(id, commit)), h) && Track(cfg, s, h, Lose(id, commit)) == h
  {
    hide HistoryOK, NodeOK, MessageOK, HasQuorum, Hidden, Image, HiddenShape, Backed;
    var n := s.nodes[id];
    assert Backed(cfg, h, id, n);
    OfficialOK(cfg, s, h, id);
    LostOK(cfg, h, id, n, commit);
    MovedKeeps(cfg, s, h, Apply(cfg, s, Lose(id, commit)), id);
  }

  lemma LostOK(cfg: Settings, h: History, id: nat, n: Node, commit: nat)
    requires Backed(cfg, h, id, n) && NodeOK(h, id, Official(id, n)) && commit <= Min(n.committed, n.persisted)
    ensures var n' := Image(id, n).(committed := commit);
            Backed(cfg, h, id, n') && Official(id, n') == n' && NodeOK(h, id, n')
  {
    hide LogOK, HasQuorum;
    var n' := Image(id, n).(committed := commit);
    assert NodeOK(h, id, n');
    FreshBacked(cfg, h, id, n');
  }

  // ------------------------------------------- an unknown leader goes on

  /** It may propose, lose the lead and see later terms. */
  predicate Moves(n: Node, n': Node) {
    && |n.log| <= |n'.log| && n'.log[..|n.log|] == n.log && (forall i :: |n.log| <= i < |n'.log| ==> n'.log[i].term == LastTerm(n.log))
    && n'.persisted == n.persisted && n'.saved == n.saved && n'.committed <= |n'.log|
    && if n'.term == n.term then n'.vote == n.vote && (n'.role == n.role || n'.role == Follower)
       else n'.term > n.term && n'.vote == INVALID_ID && n'.role == Follower
  }

  lemma HiddenStays(cfg: Settings, h: History, id: nat, n: Node, n': Node)
    requires Backed(cfg, h, id, n) && Hidden(n) && Moves(n, n')
    ensures Backed(cfg, h, id, n') && Hidden(n') && Image(id, n') == Image(id, n) && LastTerm(n'.log) == LastTerm(n.log)
  {
    hide NodeOK, HasQuorum;
    assert n'.log[..n.persisted] == n'.log[..|n.log|][..n.persisted];
    assert n'.log[n.persisted] == n'.log[..|n.log|][n.persisted];
    forall i | n.persisted <= i < |n'.log|
      ensures n'.log[i].term == LastTerm(n.log)
    {
      if i < |n.log| {
        assert n'.log[i] == n'.log[..|n.log|][i];
      }
    }
  }

  /** Nobody has voted in the term of an unknown leader. */
  lemma NoBallot(cfg: Settings, h: History, id: nat, n: Node)
    requires Backed(cfg, h, id, n) && Hidden(n)
    ensures forall t :: t >= LastTerm(n.log) ==> (id, t) !in h.ballots
  {
    hide LogOK, HasQuorum;
    assert VotesOK(h, id, Image(id, n));
  }

  lemma LeaderReplies(cfg: Settings, h: History, id: nat, n: Node, m: Message)
    requires id != INVALID_ID && n.role == Leader && n.vote == id && n.term > 0
    requires MessageOK(h, m) && (id, n.term) !in h.ballots
    ensures var o := Step(cfg, id, n, m);
            o.Next? && o.reply.Send? && o.node.role == Leader ==> MessageOK(h, o.reply.m)
  {
    hide HandleAppend, HandleHeartbeat, HandleVote, TermAt, LeaderCommit, HasQuorum;
    if m.Vote? && m.term >= n.term {
      if m.term == n.term || m.pre {
        LeaderVotes(cfg, h, id, n, m);
      } else {
        FollowerVotes(cfg, id, CatchUp(id, n, m), m);
      }
    } else if m.term > n.term {
      var f := CatchUp(id, n, m);
      if m.App? {
        AppendReplies(cfg, id, f.(leaderId := m.from), m);
      } else if m.Heartbeat? {
        HeartbeatReplies(id, f.(leaderId := m.from), m);
      }
    }
  }

  lemma FollowerVotes(cfg: Settings, id: nat, n: Node, m: Message)
    requires m.Vote? && n.role == Follower
    ensures var o := HandleVote(cfg, id, n, m); o.Next? ==> o.node.role == Follower
  {
    hide UpToDate, TermAt, HasConf;
  }

  lemma LeaderVotes(cfg: Settings, h: History, id: nat, n: Node, m: Message)
    requires id != INVALID_ID && n.role == Leader && n.vote == id && n.term > 0
    requires m.Vote? && MessageOK(h, m) && (id, n.term) !in h.ballots && (m.term == n.term || m.pre)
    ensures var o := HandleVote(cfg, id, n, m);
            o.Next? ==> o.reply.Send? && MessageOK(h, o.reply.m)
  {
    hide UpToDate, CommitByVote, TermAt;
  }

  /** What a hidden node does without storing anything. */
  lemma HiddenDeliver(cfg: Settings, s: State, h: History, m: Message)
    requires Full(cfg, s, h) && SoundState(cfg, s) && Enabled(s, Deliver(m)) && Hidden(s.nodes[m.to]) && !Saves(cfg, s, Deliver(m))
    ensures Full(cfg, Apply(cfg, s, Deliver(m)), h)
    ensures Step(cfg, m.to, s.nodes[m.to], m).Next? ==> Moves(s.nodes[m.to], Apply(cfg, s, Deliver(m)).nodes[m.to])
  {
    hide HistoryOK, NodeOK, HasQuorum, Step, Image, Hidden, LastTerm, MessageOK, Official, Sound;
    var id, n, s' := m.to, s.nodes[m.to], Apply(cfg, s, Deliver(m));
    var o := Step(cfg, id, n, m);
    ShapeOf(cfg, h, id, n);
    if o.Next? {
      UnheardStep(cfg, id, n, m);
      assert n.log[..|n.log|] == n.log;
      HiddenStays(cfg, h, id, n, o.node);
      ImageOK(cfg, h, id, o.node);
      OfficialImage(id, o.node);
      if n.role == Leader {
        NoBallot(cfg, h, id, n);
        LeaderReplies(cfg, h, id, n, m);
      }
      MovedKeeps(cfg, s, h, s', id);
    }
  }

  lemma OfficialImage(id: nat, n: Node)
    requires Hidden(n)
    ensures Official(id, n) == Image(id, n)
  {
  }

  lemma ShapeOf(cfg: Settings, h: History, id: nat, n: Node)
    requires Backed(cfg, h, id, n) && Hidden(n)
    ensures n.role != Candidate && Bounded(n) && n.term >= LastTerm(n.log) > 0
    ensures n.role == Leader ==> n.term == LastTerm(n.log) && n.vote == id
    ensures n.persisted < |n.log| && HasQuorum(cfg.voters, {id})
  {
    hide NodeOK, HasQuorum;
  }

  lemma HiddenPropose(cfg: Settings, s: State, h: History, id: nat, es: Log)
    requires Full(cfg, s, h) && Enabled(s, Propose(id, es)) && Hidden(s.nodes[id])
    ensures Full(cfg, Apply(cfg, s, Propose(id, es)), h) && Moves(s.nodes[id], Apply(cfg, s, Propose(id, es)).nodes[id])
  {
    hide HistoryOK, NodeOK, HasQuorum, Image, Hidden, LastTerm, MessageOK, Official, Stamp;
    var n, s' := s.nodes[id], Apply(cfg, s, Propose(id, es));
    ShapeOf(cfg, h, id, n);
    StampTerms(n.term, es);
    HiddenStays(cfg, h, id, n, s'.nodes[id]);
    ImageOK(cfg, h, id, s'.nodes[id]);
    OfficialImage(id, s'.nodes[id]);
    MovedKeeps(cfg, s, h, s', id);
  }

  lemma HiddenStepDown(cfg: Settings, s: State, h: History, id: nat)
    requires Full(cfg, s, h) && Enabled(s, StepDown(id)) && Hidden(s.nodes[id])
    ensures Full(cfg, Apply(cfg, s, StepDown(id)), h) && Moves(s.nodes[id], Apply(cfg, s, StepDown(id)).nodes[id])
  {
    hide HistoryOK, NodeOK, HasQuorum, Image, Hidden, LastTerm, MessageOK, Official;
    var n, s' := s.nodes[id], Apply(cfg, s, StepDown(id));
    ShapeOf(cfg, h, id, n);
    assert n.log[..|n.log|] == n.log;
    HiddenStays(cfg, h, id, n, s'.nodes[id]);
    ImageOK(cfg, h, id, s'.nodes[id]);
    OfficialImage(id, s'.nodes[id]);
    MovedKeeps(cfg, s, h, s', id);
  }

  // ------------------------------------------------ it stores its state at last

  function WithSaved(o: Outcome, x: HardState): Outcome {
    match o case Panic => Panic case Next(n, reply) => Next(n.(saved := x), reply)
  }

  lemma AcksIgnoreSaved(cfg: Settings, n: Node, x: HardState)
    ensures AckMap(cfg, n.(saved := x)) == AckMap(cfg, n)
  {
    hide Group;
  }

  lemma CommitIgnoresSaved(cfg: Settings, n: Node, x: HardState)
    ensures LeaderCommit(cfg, n.(saved := x)) == LeaderCommit(cfg, n).(saved := x)
  {
    hide JointIndex, AckMap;
    AcksIgnoreSaved(cfg, n, x);
  }

  lemma CommitByVoteIgnoresSaved(id: nat, n: Node, commit: nat, commitTerm: nat, x: HardState)
    ensures CommitByVote(id, n.(saved := x), commit, commitTerm) == CommitByVote(id, n, commit, commitTerm).(saved := x)
  {
    hide HasConf;
  }

  lemma VoteIgnoresSaved(cfg: Settings, id: nat, n: Node, m: Message, x: HardState)
    requires m.Vote?
    ensures HandleVote(cfg, id, n.(saved := x), m) == WithSaved(HandleVote(cfg, id, n, m), x)
  {
    hide CommitByVote, UpToDate, TermAt;
    CommitByVoteIgnoresSaved(id, n, m.commit, m.commitTerm, x);
  }

  lemma AppendIgnoresSaved(cfg: Settings, id: nat, n: Node, m: Message, x: HardState)
    requires m.App?
    ensures HandleAppend(cfg, id, n.(saved := x), m) == WithSaved(HandleAppend(cfg, id, n, m), x)
  {
    hide MaybeAppend, FindConflict, FindConflictByTerm, ResetPersisted;
  }

  lemma PollIgnoresSaved(cfg: Settings, id: nat, n: Node, m: Message, x: HardState)
    requires m.VoteResp?
    ensures HandleVoteResponse(cfg, id, n.(saved := x), m) == WithSaved(HandleVoteResponse(cfg, id, n, m), x)
  {
    hide CommitByVote, JointVote;
    CommitByVoteIgnoresSaved(id, BecomeFollower(id, n, n.term, INVALID_ID), m.commit, m.commitTerm, x);
    CommitByVoteIgnoresSaved(id, n.(votes := RecordVote(n.votes, m.from, !m.reject)), m.commit, m.commitTerm, x);
  }

  lemma ResponseIgnoresSaved(cfg: Settings, n: Node, m: Message, x: HardState)
    requires m.AppResp?
    ensures HandleAppendResponse(cfg, n.(saved := x), m) == HandleAppendResponse(cfg, n, m).(saved := x)
  {
    hide LeaderCommit;
    CommitIgnoresSaved(cfg, n.(matched := n.matched[m.from := m.index]), x);
  }

  lemma ByRoleIgnoresSaved(cfg: Settings, id: nat, n: Node, m: Message, x: HardState)
    ensures StepByRole(cfg, id, n.(saved := x), m) == WithSaved(StepByRole(cfg, id, n, m), x)
  {
    hide HandleVote, HandleAppend, HandleVoteResponse, HandleAppendResponse, TermAt;
    if m.Vote? {
      VoteIgnoresSaved(cfg, id, n, m, x);
    } else if m.AppResp? {
      ResponseIgnoresSaved(cfg, n, m, x);
    } else if m.App? {
      AppendIgnoresSaved(cfg, id, BecomeFollower(id, n, m.term, m.from), m, x);
      AppendIgnoresSaved(cfg, id, n.(leaderId := m.from), m, x);
    } else if m.VoteResp? {
      PollIgnoresSaved(cfg, id, n, m, x);
    }
  }

  /** No handler looks at what is stored. */
  lemma StepIgnoresSaved(cfg: Settings, id: nat, n: Node, m: Message, x: HardState)
    ensures Step(cfg, id, n.(saved := x), m) == WithSaved(Step(cfg, id, n, m), x)
  {
    hide StepByRole, CatchUp;
    var f := if m.term == 0 then n else CatchUp(id, n, m);
    assert CatchUp(id, n.(saved := x), m) == CatchUp(id, n, m).(saved := x) by {
      CatchUpIgnoresSaved(id, n, m, x);
    }
    ByRoleIgnoresSaved(cfg, id, f, m, x);
  }

  lemma CatchUpIgnoresSaved(id: nat, n: Node, m: Message, x: HardState)
    ensures CatchUp(id, n.(saved := x), m) == CatchUp(id, n, m).(saved := x)
  {
  }

  lemma SavesAnyway(cfg: Settings, id: nat, n: Node, m: Message, x: HardState)
    requires var o := Step(cfg, id, n, m); o.Next? && o.reply.Send? && o.node.role != Leader
    ensures Serve(cfg, id, n.(saved := x), m) == Serve(cfg, id, n, m) && Serve(cfg, id, n, m).Next?
  {
    hide Step;
    StepIgnoresSaved(cfg, id, n, m, x);
  }

  lemma PersistsAnyway(cfg: Settings, id: nat, n: Node, upTo: nat, x: HardState)
    ensures OnPersist(cfg, id, n.(saved := x), upTo) == OnPersist(cfg, id, n, upTo)
  {
    hide LeaderCommit;
  }

  lemma PutTwice(s: State, id: nat, n: Node)
    ensures forall n' :: Put(Put(s, id, n), id, n') == Put(s, id, n')
  {
    forall n'
      ensures Put(Put(s, id, n), id, n') == Put(s, id, n')
    {
      assert s.nodes[id := n][id := n'] == s.nodes[id := n'];
    }
  }

  lemma DeliversAnyway(cfg: Settings, s: State, m: Message, n: Node)
    requires Enabled(s, Deliver(m)) && Serve(cfg, m.to, n, m) == Serve(cfg, m.to, s.nodes[m.to], m) && Serve(cfg, m.to, n, m).Next?
    ensures Apply(cfg, Put(s, m.to, n), Deliver(m)) == Apply(cfg, s, Deliver(m))
  {
    hide Serve;
    PutTwice(s, m.to, n);
  }

  /** An event that stores the hard state does so whether or not it was stored before. */
  lemma ApplySaves(cfg: Settings, s: State, e: Event, x: HardState)
    requires Enabled(s, e) && !e.Hup? && Saves(cfg, s, e)
    ensures var id := Actor(e);
            var u := Put(s, id, s.nodes[id].(saved := x));
            Enabled(u, e) && Apply(cfg, u, e) == Apply(cfg, s, e)
  {
    hide Step, OnPersist, Serve;
    var id := Actor(e);
    var n := s.nodes[id];
    PutTwice(s, id, n.(saved := x));
    match e
    case Deliver(m) =>
      SavesAnyway(cfg, id, n, m, x);
      DeliversAnyway(cfg, s, m, n.(saved := x));
    case Persist(_, upTo) => PersistsAnyway(cfg, id, n, upTo, x);
    case _ =>
  }

  lemma RevealedSound(cfg: Settings, s: State, id: nat)
    requires SoundState(cfg, s) && id in s.nodes
    ensures SoundState(cfg, Put(s, id, Revealed(s.nodes[id])))
  {
    hide HasQuorum;
    assert Sound(cfg, id, s.nodes[id]);
  }

  /** A hidden node that campaigns gets nowhere: it leads already, or its log is not stored. */
  lemma HiddenHup(cfg: Settings, s: State, h: History, id: nat, pre: bool)
    requires Full(cfg, s, h) && id in s.nodes && Hidden(s.nodes[id])
    ensures Apply(cfg, s, Hup(id, pre)) == s && !Saves(cfg, s, Hup(id, pre))
  {
    hide HasQuorum, Backed, Hidden, BaseInv, Campaign;
    assert Backed(cfg, h, id, s.nodes[id]);
    ShapeOf(cfg, h, id, s.nodes[id]);
    CampaignOutcome(cfg, id, s.nodes[id]);
  }

  lemma HiddenSaves(cfg: Settings, s: State, h: History, e: Event)
    requires cfg.voters.incoming != {} && Full(cfg, s, h) && SoundState(cfg, s)
    requires Enabled(s, e) && Hidden(s.nodes[Actor(e)]) && Saves(cfg, s, e)
    ensures Full(cfg, Apply(cfg, s, e), Chronicle(cfg, s, h, e)) && Grows(h, Chronicle(cfg, s, h, e))
  {
    hide Apply, Track, Full, Grows, Saves, Sound, SoundState, Hidden, Revealed, Reveal;
    var id := Actor(e);
    var n := s.nodes[id];
    var s1, h1 := Put(s, id, Revealed(n)), Reveal(h, id, n);
    if e.Hup? {
      HiddenHup(cfg, s, h, id, e.pre);
    } else {
      RevealKeeps(cfg, s, h, id);
      RevealedSound(cfg, s, id);
      RevealedIs(cfg, s, h, id);
      ApplySaves(cfg, s, e, HardState(n.term, n.vote));
      NoLoss(cfg, s, e);
      OpenKeeps(cfg, s1, h1, e);
      GrowsTrans(h, h1, Track(cfg, s1, h1, e));
    }
  }

  lemma NoLoss(cfg: Settings, s: State, e: Event)
    requires Actor(e) in s.nodes && Saves(cfg, s, e) && !e.Hup?
    ensures forall u :: Ordinary(cfg, u, e)
  {
    hide Step, HasQuorum;
  }

  lemma RevealedIs(cfg: Settings, s: State, h: History, id: nat)
    requires Full(cfg, s, h) && id in s.nodes && Hidden(s.nodes[id])
    ensures var n := s.nodes[id]; Revealed(n) == n.(saved := HardState(n.term, n.vote)) && !Hidden(Revealed(n))
  {
    hide NodeOK, HasQuorum, BaseInv;
    assert Backed(cfg, h, id, s.nodes[id]);
  }

  lemma HiddenGoes(cfg: Settings, s: State, h: History, e: Event)
    requires Full(cfg, s, h) && SoundState(cfg, s)
    requires Enabled(s, e) && Hidden(s.nodes[Actor(e)]) && !Saves(cfg, s, e) && !Leaks(s, e)
    ensures Full(cfg, Apply(cfg, s, e), h)
  {
    hide Apply, BaseInv, Hidden, SoundState, Backed;
    assert Backed(cfg, h, Actor(e), s.nodes[Actor(e)]);
    match e
    case Deliver(m) => HiddenDeliver(cfg, s, h, m);
    case Hup(id, pre) => HiddenHup(cfg, s, h, id, pre);
    case Propose(id, es) => HiddenPropose(cfg, s, h, id, es);
    case StepDown(id) => HiddenStepDown(cfg, s, h, id);
    case Lose(id, commit) => LoseKeeps(cfg, s, h, id, commit);
    case _ => SendsLeak(cfg, s, h, e);
  }

  lemma SendsLeak(cfg: Settings, s: State, h: History, e: Event)
    requires Full(cfg, s, h) && Enabled(s, e) && Hidden(s.nodes[Actor(e)])
    ensures e.SendAppend? || e.SendHeartbeat? || e.SendReadIndex? ==> Leaks(s, e)
  {
    hide NodeOK, HasQuorum, BaseInv;
    assert Backed(cfg, h, Actor(e), s.nodes[Actor(e)]);
  }

  /** Every event that does not leak keeps the invariant. */
  lemma EventFull(cfg: Settings, s: State, h: History, e: Event)
    requires cfg.voters.incoming != {} && Full(cfg, s, h) && SoundState(cfg, s) && !Leaks(s, e)
    ensures Full(cfg, Apply(cfg, s, e), Chronicle(cfg, s, h, e)) && Grows(h, Chronicle(cfg, s, h, e))
  {
    hide Apply, Track, Full, Grows, Saves, SoundState, Hidden, Revealed, Reveal, HasQuorum;
    Unchanged(h, 0);
    if !Enabled(s, e) {
      Idle(cfg, s, e);
    } else if Hidden(s.nodes[Actor(e)]) {
      if Saves(cfg, s, e) {
        HiddenSaves(cfg, s, h, e);
      } else {
        HiddenGoes(cfg, s, h, e);
      }
    } else if Ordinary(cfg, s, e) {
      OpenKeeps(cfg, s, h, e);
    } else if e.Lose? {
      LoseKeeps(cfg, s, h, e.id, e.commit);
    } else {
      AloneApply(cfg, s, h, e.id, e.pre);
      AloneKeeps(cfg, s, h, e.id, e.pre);
    }
  }
}
