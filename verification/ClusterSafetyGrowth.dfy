/** What has been promised stays promised while the history grows. */
module ClusterSafetyGrowth {
  import opened Quorum
  import opened Raft
  import opened Cluster
  import opened ClusterBase
  import opened ClusterSteps
  import opened ClusterSafety

  /** `h'` comes after `h`: it grew, and elections it adds are later than all before. */
  ghost predicate Later(h: History, h': History) {
    && Grows(h, h') && |h.reigns| <= |h'.reigns|
    && forall w :: w in h'.reigns && w !in h.reigns ==> h'.reigns[w].at >= |h.reigns|
  }

  /** The acknowledgements of `q` are the same. */
  ghost predicate SameAcks(h: History, h': History, q: nat) {
    forall t: nat :: AckOf(h', q, t) == AckOf(h, q, t) && ((q, t) in h'.acks <==> (q, t) in h.acks)
  }

  lemma NotHeldStays(cfg: Settings, h: History, h': History, w: nat, t: nat, k: nat)
    requires Grows(h, h') && HistoryOK(cfg, h) && HistoryOK(cfg, h') && w in h.reigns && t != w
    requires !Held(h.reigns[w].log, t, k)
    ensures !Held(h'.reigns[w].log, t, k)
  {
    assert ReignOK(cfg, h, w) && ReignOK(cfg, h', w);
    var r, r' := h.reigns[w], h'.reigns[w];
    assert ReignGrows(r, r');
    if 0 < k <= |r.log| {
      assert r'.log[..|r.log|][k - 1] == r'.log[k - 1];
    }
  }

  lemma DroppedStays(cfg: Settings, h: History, h': History, t: nat, k: nat, limit: nat, limit': nat)
    requires Grows(h, h') && HistoryOK(cfg, h) && HistoryOK(cfg, h') && limit <= limit'
    requires Dropped(h, t, k, limit)
    ensures Dropped(h', t, k, limit')
  {
    hide HistoryOK, Held;
    var w :| w in h.reigns && w > t && h.reigns[w].at < limit && !Held(h.reigns[w].log, t, k);
    NotHeldStays(cfg, h, h', w, t, k);
    assert ReignGrows(h.reigns[w], h'.reigns[w]);
  }

  lemma RemembersStays(cfg: Settings, h: History, h': History, log: Log, p: nat, t: nat, limit: nat, limit': nat)
    requires Grows(h, h') && HistoryOK(cfg, h) && HistoryOK(cfg, h') && limit <= limit' && AcksKnown(h)
    requires AckOf(h', p, t) == AckOf(h, p, t) && Remembers(h, log, p, t, limit)
    ensures Remembers(h', log, p, t, limit')
  {
    hide HistoryOK, Held, Dropped;
    if t in h.reigns {
      assert ReignGrows(h.reigns[t], h'.reigns[t]);
      forall k: nat | h.reigns[t].base < k <= AckOf(h, p, t)
        ensures Held(log, t, k) || Dropped(h', t, k, limit')
      {
        if Dropped(h, t, k, limit) {
          DroppedStays(cfg, h, h', t, k, limit, limit');
        }
      }
    }
  }

  lemma LimitStays(cfg: Settings, h: History, h': History, p: nat, u: nat)
    requires Later(h, h') && HistoryOK(cfg, h)
    ensures Limit(h, p, u) <= Limit(h', p, u)
  {
    if u in h.reigns {
      assert ReignOK(cfg, h, u);
      assert ReignGrows(h.reigns[u], h'.reigns[u]);
    }
  }

  lemma BallotStaysSafe(cfg: Settings, h: History, h': History, p: nat, u: nat)
    requires Later(h, h') && HistoryOK(cfg, h) && HistoryOK(cfg, h') && AcksKnown(h)
    requires (p, u) in h.ballots && BallotRemembers(h, p, u)
    requires forall t: nat :: t < u ==> AckOf(h', p, t) == AckOf(h, p, t)
    ensures BallotRemembers(h', p, u)
  {
    hide HistoryOK, Remembers;
    LimitStays(cfg, h, h', p, u);
    forall t: nat | t < u
      ensures Remembers(h', h'.ballots[(p, u)].log, p, t, Limit(h', p, u))
    {
      RemembersStays(cfg, h, h', h.ballots[(p, u)].log, p, t, Limit(h, p, u), Limit(h', p, u));
    }
  }

  lemma CommittedAtStays(cfg: Settings, h: History, h': History, t: nat, k: nat)
    requires Grows(h, h') && CommittedAt(cfg, h, t, k)
    ensures CommittedAt(cfg, h', t, k)
  {
    hide HasQuorum;
    assert ReignGrows(h.reigns[t], h'.reigns[t]);
    assert Ackers(cfg, h, t, k) <= Ackers(cfg, h', t, k);
    HasQuorumMonotone(cfg.voters, Ackers(cfg, h, t, k), Ackers(cfg, h', t, k));
  }

  lemma CommittedLogStays(cfg: Settings, h: History, h': History, log: Log)
    requires Grows(h, h') && CommittedLog(cfg, h, log)
    ensures CommittedLog(cfg, h', log)
  {
    hide HasQuorum;
    if log != [] {
      var t, k :| CommittedBy(cfg, h, log, t, k);
      CommittedAtStays(cfg, h, h', t, k);
      assert ReignGrows(h.reigns[t], h'.reigns[t]);
      assert h'.reigns[t].log[..|h.reigns[t].log|][..|log|] == h'.reigns[t].log[..|log|];
      assert CommittedBy(cfg, h', log, t, k);
    }
  }

  lemma ReignPrefix(h: History, h': History, t: nat, c: nat)
    requires Grows(h, h') && t in h.reigns && c <= |h.reigns[t].log|
    ensures AgreesUpTo(h.reigns[t].log, h'.reigns[t].log, c)
  {
    assert ReignGrows(h.reigns[t], h'.reigns[t]);
    assert h'.reigns[t].log[..|h.reigns[t].log|][..c] == h'.reigns[t].log[..c];
  }

  lemma CommittedTermStays(cfg: Settings, h: History, h': History, c: nat, t: nat)
    requires Grows(h, h') && CommittedTerm(cfg, h, c, t)
    ensures CommittedTerm(cfg, h', c, t)
  {
    hide CommittedLog;
    ReignPrefix(h, h', t, c);
    CommittedLogStays(cfg, h, h', h.reigns[t].log[..c]);
    assert h'.reigns[t].log[c - 1] == h'.reigns[t].log[..c][c - 1] == h.reigns[t].log[..c][c - 1];
  }

  lemma LeaderCommitStays(cfg: Settings, h: History, h': History, t: nat, c: nat)
    requires Grows(h, h') && LeaderCommitKnown(cfg, h, t, c)
    ensures LeaderCommitKnown(cfg, h', t, c)
  {
    hide CommittedLog;
    ReignPrefix(h, h', t, c);
    CommittedLogStays(cfg, h, h', h.reigns[t].log[..c]);
  }

  lemma AckOfStays(h: History, h': History, p: nat, t: nat)
    requires Grows(h, h')
    ensures AckOf(h, p, t) <= AckOf(h', p, t)
  {
  }

  lemma MessageStaysSafe(cfg: Settings, h: History, h': History, m: Message)
    requires Grows(h, h') && MessageSafe(cfg, h, m)
    ensures MessageSafe(cfg, h', m)
  {
    hide CommittedTerm, LeaderCommitKnown, Grows;
    match m
    case App(_, to, term, _, _, _, commit) =>
      LeaderCommitStays(cfg, h, h', term, commit);
      AckOfStays(h, h', to, term);
    case AppResp(from, _, term, _, _, _, _, _) => AckOfStays(h, h', from, term);
    case Heartbeat(_, to, term, commit) =>
      LeaderCommitStays(cfg, h, h', term, commit);
      AckOfStays(h, h', to, term);
    case Vote(_, _, _, _, _, _, commit, commitTerm, _) =>
      if commit != 0 && commitTerm != 0 { CommittedTermStays(cfg, h, h', commit, commitTerm); }
    case VoteResp(_, _, _, _, _, commit, commitTerm) =>
      if commit != 0 && commitTerm != 0 { CommittedTermStays(cfg, h, h', commit, commitTerm); }
    case ReadIndexResp(_, _, term, index) => CommittedTermStays(cfg, h, h', index, term);
    case HeartbeatResp(_, _, _, _) =>
  }

  lemma AcksStay(cfg: Settings, h: History, h': History, q: nat, n: Node)
    requires Later(h, h') && HistoryOK(cfg, h) && HistoryOK(cfg, h') && AcksKnown(h) && SameAcks(h, h', q)
    requires AcksOK(h, q, n)
    ensures AcksOK(h', q, n)
  {
    hide HistoryOK, Remembers;
    if n.persisted <= |n.log| {
      forall t: nat
        ensures Remembers(h', n.log[..n.persisted], q, t, |h'.reigns|)
      {
        RemembersStays(cfg, h, h', n.log[..n.persisted], q, t, |h.reigns|, |h'.reigns|);
      }
    }
  }

  lemma BrokenStays(cfg: Settings, h: History, h': History, t: nat, d: nat)
    requires Grows(h, h') && Broken(cfg, h, t, d)
    ensures Broken(cfg, h', t, d)
  {
    hide CommittedLog;
    var r, r' := h.reigns[t].log, h'.reigns[t].log;
    ReignPrefix(h, h', t, |r|);
    assert r[..|r|][d] == r'[..|r|][d];
    var l :| DepartsAt(cfg, h, l, r, d);
    CommittedLogStays(cfg, h, h', l);
    assert DepartsAt(cfg, h', l, r', d);
  }

  lemma AckKeptStays(cfg: Settings, h: History, h': History, log: Log, persisted: nat, t: nat, c: nat, d: nat)
    requires Grows(h, h') && AckKept(cfg, h, log, persisted, t, c, d)
    ensures AckKept(cfg, h', log, persisted, t, c, d)
  {
    hide Broken, Grows;
    ReignPrefix(h, h', t, d);
    SameReigned(h, h', t);
    if d != c {
      BrokenStays(cfg, h, h', t, d);
    }
  }

  lemma SameReigned(h: History, h': History, t: nat)
    requires Grows(h, h') && t in h.reigns
    ensures t in h'.reigns
  {
  }

  lemma CurrentAckStays(cfg: Settings, h: History, h': History, q: nat, n: Node)
    requires Grows(h, h') && SameAcks(h, h', q) && CurrentAck(cfg, h, q, n)
    ensures CurrentAck(cfg, h', q, n)
  {
    hide AckKept, Grows;
    var c := AckOf(h, q, n.term);
    if c > 0 {
      var d: nat :| AckKept(cfg, h, n.log, n.persisted, n.term, c, d);
      AckKeptStays(cfg, h, h', n.log, n.persisted, n.term, c, d);
    }
  }

  lemma LeaderStaysSafe(cfg: Settings, h: History, h': History, n: Node)
    requires Grows(h, h') && LeaderSafe(cfg, h, n)
    ensures LeaderSafe(cfg, h', n)
  {
    hide CommittedAt;
    if n.role == Leader {
      assert ReignGrows(h.reigns[n.term], h'.reigns[n.term]);
      forall q
        ensures Matched(n, q) <= AckOf(h', q, n.term)
      {
        AckOfStays(h, h', q, n.term);
      }
      if n.committed > h.reigns[n.term].base {
        CommittedAtStays(cfg, h, h', n.term, n.committed);
      }
    }
  }

  lemma NodeStaysSafe(cfg: Settings, h: History, h': History, q: nat, n: Node)
    requires Later(h, h') && HistoryOK(cfg, h) && HistoryOK(cfg, h') && AcksKnown(h) && SameAcks(h, h', q)
    requires NodeSafe(cfg, h, q, n)
    ensures NodeSafe(cfg, h', q, n)
  {
    hide HistoryOK, AcksOK, CurrentAck, LeaderSafe, CommittedLog, AcksKnown, SameAcks, Grows;
    AcksStay(cfg, h, h', q, n);
    CurrentAckStays(cfg, h, h', q, n);
    LeaderStaysSafe(cfg, h, h', n);
    CommittedLogStays(cfg, h, h', n.log[..n.committed]);
  }

  // -------------------------------------------------------- one acting node

  /** What an event has to keep about acknowledgements and commits at the node it concerns. */
  ghost predicate SafeStep(cfg: Settings, h: History, id: nat, n': Node, h': History) {
    && NodeSafe(cfg, h', id, n') && Later(h, h') && AcksKnown(h')
    && (forall q :: q != id ==> SameAcks(h, h', q))
    && (forall t: nat :: t < n'.term ==> AckOf(h', id, t) == AckOf(h, id, t))
    && (forall p, u :: (p, u) in h'.ballots && (p, u) !in h.ballots ==> p == id && BallotRemembers(h', p, u))
  }

  lemma BallotsStay(cfg: Settings, h: History, id: nat, n': Node, h': History)
    requires HistorySafe(cfg, h) && HistoryOK(cfg, h') && NodeOK(h', id, n') && SafeStep(cfg, h, id, n', h')
    ensures BallotsRemember(h')
  {
    hide HistoryOK, BallotRemembers, Grows, NodeSafe;
    forall p, u | (p, u) in h'.ballots
      ensures BallotRemembers(h', p, u)
    {
      if (p, u) in h.ballots {
        if p == id {
          assert VotesOK(h', id, n') && u <= n'.term;
        } else {
          assert SameAcks(h, h', p);
        }
        BallotStaysSafe(cfg, h, h', p, u);
      }
    }
  }

  lemma OneNodeSafe(cfg: Settings, s: State, h: History, s': State, h': History, id: nat)
    requires SafeInv(cfg, s, h) && BaseInv(cfg, s', h')
    requires s'.nodes.Keys == s.nodes.Keys && id in s'.nodes
    requires forall q :: q in s.nodes && q != id ==> s'.nodes[q] == s.nodes[q]
    requires SafeStep(cfg, h, id, s'.nodes[id], h')
    requires forall m :: m in s'.msgs && m !in s.msgs ==> MessageSafe(cfg, h', m)
    ensures SafeInv(cfg, s', h')
  {
    hide HistoryOK, NodeOK, MessageOK, NodeSafe, MessageSafe, BallotsRemember, Grows, SameAcks, BallotRemembers;
    BallotsStay(cfg, h, id, s'.nodes[id], h');
    forall q | q in s'.nodes
      ensures NodeSafe(cfg, h', q, s'.nodes[q])
    {
      if q != id {
        NodeStaysSafe(cfg, h, h', q, s.nodes[q]);
      }
    }
    forall m | m in s'.msgs
      ensures MessageSafe(cfg, h', m)
    {
      if m in s.msgs {
        MessageStaysSafe(cfg, h, h', m);
      }
    }
  }
}
