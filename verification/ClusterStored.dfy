/** What a node has stored when its messages leave, over every run: only a node that is a quorum by itself leads on trust. */
module ClusterStored {
  import opened Common
  import opened Quorum
  import opened Raft
  import opened Cluster

  /** Term and vote are stored. */
  predicate Fresh(n: Node) {
    n.saved == HardState(n.term, n.vote)
  }

  // ------------------------------------------------- one node, nothing stored

  /** No message of the node waits for its state to be stored. */
  predicate Unheard(o: Outcome)
    requires o.Next?
  {
    o.reply.Silent? || o.node.role == Leader
  }

  /** The log is untouched, and a later term comes without a vote. */
  predicate Quiet(n: Node, n': Node) {
    && n'.log == n.log && n'.persisted == n.persisted && n'.saved == n.saved
    && if n'.term == n.term then n'.vote == n.vote && n'.role == n.role
       else n'.term > n.term && n'.vote == INVALID_ID && n'.role == Follower
  }

  lemma QuietTrans(a: Node, b: Node, c: Node)
    requires Quiet(a, b) && Quiet(b, c)
    ensures Quiet(a, c)
  {
  }

  lemma CatchUpQuiet(id: nat, n: Node, m: Message)
    ensures Quiet(n, CatchUp(id, n, m)) && CatchUp(id, n, m).committed == n.committed
  {
  }

  lemma LeaderCommitIs(cfg: Settings, n: Node)
    ensures var n' := LeaderCommit(cfg, n); n' == n.(committed := n'.committed)
    ensures var n' := LeaderCommit(cfg, n); n.term > 0 && n.committed <= |n.log| ==> n'.committed <= |n.log|
  {
    hide JointIndex, AckMap;
  }

  /** The committed index stays within the log; a leader has a term. */
  predicate Bounded(n: Node) {
    n.committed <= |n.log| && (n.role == Leader ==> n.term > 0)
  }

  lemma ByRoleQuiet(cfg: Settings, id: nat, n: Node, m: Message)
    requires n.role != Candidate && m.term > 0 && (n.role == Leader ==> n.vote != INVALID_ID)
    ensures var o := StepByRole(cfg, id, n, m);
            o.Next? && Unheard(o) ==> Quiet(n, o.node) && (Bounded(n) ==> Bounded(o.node))
  {
    hide LeaderCommit, HandleAppend, HandleHeartbeat, UpToDate, HasConf;
    LeaderCommitIs(cfg, n.(matched := n.matched[m.from := if m.AppResp? then m.index else 0]));
    if n.role == Follower && m.App? {
      AppendReplies(cfg, id, n.(leaderId := m.from), m);
    } else if n.role == Follower && m.Heartbeat? {
      HeartbeatReplies(id, n.(leaderId := m.from), m);
    }
  }

  lemma AppendReplies(cfg: Settings, id: nat, n: Node, m: Message)
    requires m.App?
    ensures var o := HandleAppend(cfg, id, n, m); o.Next? ==> o.reply.Send? && o.node.role == n.role
  {
    hide MaybeAppend, FindConflict, FindConflictByTerm;
  }

  lemma HeartbeatReplies(id: nat, n: Node, m: Message)
    requires m.Heartbeat?
    ensures var o := HandleHeartbeat(id, n, m); o.Next? ==> o.reply.Send? && o.node.role == n.role
  {
  }

  /** A step after which nothing need be stored leaves log and vote alone. */
  lemma UnheardStep(cfg: Settings, id: nat, n: Node, m: Message)
    requires n.role != Candidate && m.term > 0 && (n.role == Leader ==> n.vote != INVALID_ID)
    ensures var o := Step(cfg, id, n, m);
            o.Next? && Unheard(o) ==> Quiet(n, o.node) && (Bounded(n) ==> Bounded(o.node))
  {
    hide StepByRole, CatchUp;
    if m.term >= n.term {
      CatchUpQuiet(id, n, m);
      ByRoleQuiet(cfg, id, CatchUp(id, n, m), m);
    }
  }

  /** Winning or losing an election, a candidate keeps its term and vote. */
  lemma CandidateStep(cfg: Settings, id: nat, n: Node, m: Message)
    requires n.role == Candidate && m.term > 0
    ensures var o := Step(cfg, id, n, m);
            o.Next? && Unheard(o) ==>
              Quiet(n, o.node) || (o.node.term == n.term && o.node.vote == n.vote && o.node.saved == n.saved && o.node.persisted == n.persisted
                                   && |n.log| <= |o.node.log|)
  {
    hide StepByRole, CatchUp;
    if m.term >= n.term {
      CatchUpQuiet(id, n, m);
      var f := CatchUp(id, n, m);
      if f.role == Candidate {
        PollStep(cfg, id, f, m);
      } else {
        ByRoleQuiet(cfg, id, f, m);
      }
    }
  }

  lemma PollStep(cfg: Settings, id: nat, n: Node, m: Message)
    requires n.role == Candidate
    ensures var o := StepByRole(cfg, id, n, m);
            o.Next? && Unheard(o) ==> o.node.term == n.term && o.node.vote == n.vote && o.node.saved == n.saved && o.node.persisted == n.persisted
                                      && |n.log| <= |o.node.log|
  {
    hide HandleAppend, HandleHeartbeat, UpToDate, HasConf, JointVote, TermAt;
    if m.App? {
      AppendReplies(cfg, id, BecomeFollower(id, n, m.term, m.from), m);
    } else if m.Heartbeat? {
      HeartbeatReplies(id, BecomeFollower(id, n, m.term, m.from), m);
    }
  }

  /** Whatever it answers, a candidate that stays one keeps its vote. */
  lemma VoteStays(cfg: Settings, id: nat, n: Node, m: Message)
    requires n.role != Follower ==> n.vote != INVALID_ID
    ensures var o := Step(cfg, id, n, m);
            o.Next? && o.node.role != Follower ==> n.role != Follower && o.node.vote == n.vote && o.node.term == n.term
  {
    hide HandleAppend, HandleHeartbeat, UpToDate, HasConf, JointVote, TermAt, LeaderCommit;
    LeaderCommitIs(cfg, n.(matched := n.matched[m.from := if m.AppResp? then m.index else 0]));
    var f := CatchUp(id, n, m);
    if m.App? {
      AppendReplies(cfg, id, BecomeFollower(id, f, m.term, m.from), m);
      AppendReplies(cfg, id, f.(leaderId := m.from), m);
    } else if m.Heartbeat? {
      HeartbeatReplies(id, BecomeFollower(id, f, m.term, m.from), m);
      HeartbeatReplies(id, f.(leaderId := m.from), m);
    }
  }

  lemma ReplyTerm(cfg: Settings, id: nat, n: Node, m: Message)
    requires m.term > 0
    ensures var o := Step(cfg, id, n, m); o.Next? && o.reply.Send? ==> o.reply.m.term > 0
  {
    hide MaybeAppend, FindConflict, FindConflictByTerm, UpToDate, HasConf, JointVote, TermAt, LeaderCommit;
  }

  /** Terms only rise. */
  lemma TermRises(cfg: Settings, id: nat, n: Node, m: Message)
    requires m.term > 0
    ensures var o := Step(cfg, id, n, m); o.Next? ==> o.node.saved == n.saved && o.node.term >= n.term
  {
    hide StepByRole, CatchUp;
    if m.term >= n.term {
      CatchUpQuiet(id, n, m);
      if m.App? || m.Heartbeat? {
        CatchUpTo(id, n, m);
      }
      ByRoleRises(cfg, id, CatchUp(id, n, m), m);
    }
  }

  lemma ByRoleRises(cfg: Settings, id: nat, n: Node, m: Message)
    requires n.role == Candidate && (m.App? || m.Heartbeat?) ==> m.term >= n.term
    ensures var o := StepByRole(cfg, id, n, m); o.Next? ==> o.node.saved == n.saved && o.node.term >= n.term
  {
    hide MaybeAppend, FindConflict, FindConflictByTerm, UpToDate, HasConf, JointVote, TermAt, LeaderCommit;
    LeaderCommitIs(cfg, n.(matched := n.matched[m.from := if m.AppResp? then m.index else 0]));
  }

  lemma CatchUpTo(id: nat, n: Node, m: Message)
    requires m.term >= n.term && (m.App? || m.Heartbeat?)
    ensures CatchUp(id, n, m).term == m.term
  {
  }

  // ---------------------------------------------------------------- every run

  ghost predicate Sound(cfg: Settings, p: nat, n: Node) {
    && n.persisted <= |n.log| && n.saved.term <= n.term
    && (n.role != Follower ==> n.vote == p && n.term > 0)
    && (n.role != Follower && !HasQuorum(cfg.voters, {p}) ==> Fresh(n))
  }

  ghost predicate SoundState(cfg: Settings, s: State) {
    && (forall p :: p in s.nodes ==> p != INVALID_ID && Sound(cfg, p, s.nodes[p]))
    && forall m :: m in s.msgs ==> m.term > 0
  }

  lemma ServeSound(cfg: Settings, id: nat, n: Node, m: Message)
    requires id != INVALID_ID && Sound(cfg, id, n) && m.term > 0
    ensures var o := Serve(cfg, id, n, m); o.Next? ==> Sound(cfg, id, o.node) && (o.reply.Send? ==> o.reply.m.term > 0)
  {
    hide Step, HasQuorum;
    ReplyTerm(cfg, id, n, m);
    TermRises(cfg, id, n, m);
    VoteStays(cfg, id, n, m);
    if n.role == Candidate {
      CandidateStep(cfg, id, n, m);
    } else {
      UnheardStep(cfg, id, n, m);
    }
  }

  /** An event changes at most the node it is about. */
  lemma ActsAlone(cfg: Settings, s: State, e: Event)
    ensures var t := Apply(cfg, s, e);
            && t.nodes.Keys == s.nodes.Keys && s.msgs <= t.msgs
            && forall q :: q in s.nodes && q != Actor(e) ==> t.nodes[q] == s.nodes[q]
  {
    hide Serve, Campaign, OnPersist, Reboot, Image, Revealed, AppendMessage, VoteRequests, Stamp;
  }

  lemma PersistIs(cfg: Settings, id: nat, n: Node, upTo: nat)
    ensures var n' := OnPersist(cfg, id, n, upTo);
            && n'.log == n.log && n'.persisted == upTo && n'.term == n.term && n'.vote == n.vote && n'.role == n.role && Fresh(n')
  {
    LeaderCommitIs(cfg, n.(persisted := upTo, saved := HardState(n.term, n.vote), matched := n.matched[id := upTo]));
    hide LeaderCommit;
  }

  lemma ActorSound(cfg: Settings, s: State, e: Event)
    requires SoundState(cfg, s) && Enabled(s, e)
    ensures Actor(e) in s.nodes && Sound(cfg, Actor(e), Apply(cfg, s, e).nodes[Actor(e)])
    ensures forall m :: m in Apply(cfg, s, e).msgs ==> m.term > 0
  {
    hide Serve, OnPersist, HasQuorum, Stamp, JointVote;
    var id := Actor(e);
    assert Sound(cfg, id, s.nodes[id]);
    match e
    case Deliver(m) => ServeSound(cfg, id, s.nodes[id], m);
    case Hup(_, _) => AloneWins(cfg, id);
    case Persist(_, upTo) => PersistIs(cfg, id, s.nodes[id], upTo);
    case _ =>
  }

  /** A node's own vote decides exactly if it is a quorum by itself. */
  lemma AloneWins(cfg: Settings, id: nat)
    ensures JointVote(cfg.voters, map[id := true]) == Won <==> HasQuorum(cfg.voters, {id})
  {
    WonIsMajority(cfg.voters, map[id := true]);
    HasQuorumIsMajority(cfg.voters, {id});
    assert YesIds(map[id := true]) == {id};
    hide JointVote, HasQuorum;
  }

  lemma EventSound(cfg: Settings, s: State, e: Event)
    requires SoundState(cfg, s)
    ensures SoundState(cfg, Apply(cfg, s, e))
  {
    hide Apply, Sound;
    ActsAlone(cfg, s, e);
    if Enabled(s, e) {
      ActorSound(cfg, s, e);
    } else {
      assert Apply(cfg, s, e) == s by {
        Idle(cfg, s, e);
      }
    }
  }

  lemma Idle(cfg: Settings, s: State, e: Event)
    requires !Enabled(s, e)
    ensures Apply(cfg, s, e) == s
  {
  }

  lemma {:induction false} SoundAlways(cfg: Settings, ids: set<nat>, es: seq<Event>, k: nat)
    requires INVALID_ID !in ids && k <= |es|
    ensures SoundState(cfg, After(cfg, ids, es, k)) && After(cfg, ids, es, k).nodes.Keys == ids
  {
    hide Apply;
    if k > 0 {
      SoundAlways(cfg, ids, es, k - 1);
      EventSound(cfg, After(cfg, ids, es, k - 1), es[k - 1]);
      ActsAlone(cfg, After(cfg, ids, es, k - 1), es[k - 1]);
    }
  }
}
