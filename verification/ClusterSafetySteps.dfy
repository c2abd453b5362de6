/** Each event keeps the safety invariant when `find_conflict` behaves as documented. */
module ClusterSafetySteps {
  import opened Common
  import opened Quorum
  import opened Raft
  import opened Cluster
  import opened ClusterBase
  import opened ClusterSteps
  import opened ClusterSafety
  import opened ClusterSafetyGrowth

  ghost predicate GoodReply(cfg: Settings, h: History, r: Reply) {
    r.Send? ==> MessageSafe(cfg, h, r.m)
  }

  lemma QuietSafe(cfg: Settings, h: History, id: nat, n': Node)
    requires HistorySafe(cfg, h) && NodeSafe(cfg, h, id, n')
    ensures SafeStep(cfg, h, id, n', h)
  {
    hide HistoryOK, NodeSafe, BallotsRemember, AcksKnown;
  }

  // ------------------------------------------------------------ followers

  lemma FollowerSafe(cfg: Settings, h: History, id: nat, n: Node, term: nat, leader: nat)
    requires NodeSafe(cfg, h, id, n) && term >= n.term
    ensures NodeSafe(cfg, h, id, BecomeFollower(id, n, term, leader))
  {
    hide Remembers, CommittedLog, AgreesUpTo;
  }

  lemma CatchUpSafe(cfg: Settings, h: History, id: nat, n: Node, m: Message)
    requires NodeSafe(cfg, h, id, n)
    ensures NodeSafe(cfg, h, id, CatchUp(id, n, m))
  {
    hide NodeSafe;
    if m.term > n.term {
      FollowerSafe(cfg, h, id, n, m.term, if m.App? || m.Heartbeat? then m.from else INVALID_ID);
    }
  }

  lemma CommitTermSafe(cfg: Settings, h: History, log: Log, c: nat, t: nat)
    requires LogOK(h, log) && HistoryOK(cfg, h) && CommittedTerm(cfg, h, c, t) && TermAt(log, c) == t && t > 0
    ensures 0 < c <= |log| && CommittedLog(cfg, h, log[..c])
  {
    hide CommittedLog;
    ReignLogOK(cfg, h, t);
    SamePrefix(h, log, h.reigns[t].log, c);
  }

  lemma MoreCommitted(cfg: Settings, h: History, id: nat, n: Node, c: nat)
    requires NodeSafe(cfg, h, id, n) && n.committed <= c <= |n.log| && n.role != Leader && CommittedLog(cfg, h, n.log[..c])
    ensures NodeSafe(cfg, h, id, n.(committed := c))
  {
    hide Remembers, CommittedLog, AgreesUpTo;
  }

  lemma MaybeCommitSafe(cfg: Settings, h: History, id: nat, n: Node, c: nat, t: nat)
    requires HistorySafe(cfg, h) && NodeOK(h, id, n) && NodeSafe(cfg, h, id, n) && n.role != Leader
    requires CommittedTerm(cfg, h, c, t) && t > 0
    ensures NodeSafe(cfg, h, id, MaybeCommit(n, c, t))
  {
    hide HistoryOK, NodeSafe, CommittedTerm, BallotsRemember, AcksKnown;
    if c > n.committed && TermAt(n.log, c) == t {
      CommitTermSafe(cfg, h, n.log, c, t);
      MoreCommitted(cfg, h, id, n, c);
    }
  }

  lemma CommitByVoteSafe(cfg: Settings, h: History, id: nat, n: Node, c: nat, t: nat)
    requires HistorySafe(cfg, h) && NodeOK(h, id, n) && NodeSafe(cfg, h, id, n)
    requires c != 0 && t != 0 ==> CommittedTerm(cfg, h, c, t)
    ensures NodeSafe(cfg, h, id, CommitByVote(id, n, c, t))
  {
    hide HistorySafe, NodeOK, NodeSafe, CommittedTerm, HasConf;
    if !(c == 0 || t == 0 || c <= n.committed || n.role == Leader) {
      MaybeCommitSafe(cfg, h, id, n, c, t);
      var n' := MaybeCommit(n, c, t);
      FollowerSafe(cfg, h, id, n', n'.term, INVALID_ID);
    }
  }

  /** The commit index a node reports names a committed prefix. */
  lemma ReportedCommit(cfg: Settings, h: History, n: Node)
    requires HistoryOK(cfg, h) && LogOK(h, n.log) && CommitSafe(cfg, h, n)
    ensures var t := TermAt(n.log, n.committed);
            n.committed != 0 && t != 0 ==> CommittedTerm(cfg, h, n.committed, t)
  {
    hide HistoryOK, CommittedLog;
    if n.committed != 0 {
      assert EntryOK(h, n.log, n.committed - 1);
      var r := h.reigns[TermAt(n.log, n.committed)].log;
      assert n.log[..n.committed][n.committed - 1] == r[..n.committed][n.committed - 1];
    }
  }

  // ----------------------------------------------------------------- votes

  lemma PersistAllSafe(cfg: Settings, h: History, id: nat, n: Node)
    requires NodeSafe(cfg, h, id, n) && n.persisted <= |n.log|
    ensures NodeSafe(cfg, h, id, Saving(n))
  {
    LongerSafe(cfg, h, id, n, |n.log|);
    SavedSafe(cfg, h, id, n.(persisted := |n.log|), HardState(n.term, n.vote));
  }

  lemma SavedSafe(cfg: Settings, h: History, id: nat, n: Node, x: HardState)
    requires NodeSafe(cfg, h, id, n)
    ensures NodeSafe(cfg, h, id, n.(saved := x))
  {
    hide Remembers, CommittedLog, CommittedAt, AgreesUpTo;
  }

  /** Persisting more only strengthens what a node remembers. */
  lemma LongerSafe(cfg: Settings, h: History, id: nat, n: Node, k: nat)
    requires NodeSafe(cfg, h, id, n) && n.persisted <= k <= |n.log|
    ensures NodeSafe(cfg, h, id, n.(persisted := k))
  {
    hide CommittedLog, Dropped, CurrentAck;
    LongerCurrent(cfg, h, id, n, n.(persisted := k));
    forall t: nat
      ensures Remembers(h, n.log[..k], id, t, |h.reigns|)
    {
      assert Remembers(h, n.log[..n.persisted], id, t, |h.reigns|);
      assert n.log[..k][..n.persisted] == n.log[..n.persisted];
      RemembersLonger(h, n.log[..n.persisted], n.log[..k], id, t, |h.reigns|);
    }
  }

  /** As long as nothing durable is lost, what is kept of the current acknowledgement stays. */
  lemma LongerCurrent(cfg: Settings, h: History, id: nat, n: Node, n': Node)
    requires CurrentAck(cfg, h, id, n) && n'.term == n.term && n.persisted <= n'.persisted <= |n'.log|
    requires AgreesUpTo(n.log, n'.log, n.persisted)
    ensures CurrentAck(cfg, h, id, n')
  {
    hide AckKept;
    var c := AckOf(h, id, n.term);
    if c > 0 {
      var d: nat :| AckKept(cfg, h, n.log, n.persisted, n.term, c, d);
      KeptLonger(cfg, h, n.log, n.persisted, n'.log, n'.persisted, n.term, c, d);
    }
  }

  /** Neither saving more of the log nor losing what was not saved touches what is kept. */
  lemma KeptLonger(cfg: Settings, h: History, log: Log, persisted: nat, log': Log, persisted': nat, t: nat, c: nat, d: nat)
    requires AckKept(cfg, h, log, persisted, t, c, d) && persisted <= persisted' <= |log'|
    requires AgreesUpTo(log, log', persisted)
    ensures AckKept(cfg, h, log', persisted', t, c, d)
  {
    hide Broken;
    assert log[..persisted][..d] == log[..d];
    assert log'[..persisted][..d] == log'[..d];
  }

  lemma RemembersLonger(h: History, a: Log, b: Log, p: nat, t: nat, limit: nat)
    requires Remembers(h, a, p, t, limit) && AgreesUpTo(a, b, |a|)
    ensures Remembers(h, b, p, t, limit)
  {
    hide Dropped;
    if t in h.reigns {
      forall k: nat | h.reigns[t].base < k <= AckOf(h, p, t)
        ensures Held(b, t, k) || Dropped(h, t, k, limit)
      {
        if Held(a, t, k) {
          assert a[..|a|][k - 1] == b[..|a|][k - 1];
        }
      }
    }
  }

  /** A new ballot remembers what its caster had acknowledged. */
  lemma CastSafe(cfg: Settings, h: History, id: nat, n: Node, u: nat, c: nat, n': Node)
    requires HistorySafe(cfg, h) && NodeSafe(cfg, h, id, n) && n.persisted <= |n.log|
    requires n'.term == u >= n.term
    requires var h' := Cast(h, id, u, c, n.log); HistoryOK(cfg, h') && NodeSafe(cfg, h, id, n')
    ensures SafeStep(cfg, h, id, n', Cast(h, id, u, c, n.log))
  {
    hide HistoryOK, NodeSafe, BallotsRemember, Remembers, Grows;
    var h' := Cast(h, id, u, c, n.log);
    CastGrows(h, id, u, c, n.log);
    assert Later(h, h');
    assert forall q :: SameAcks(h, h', q);
    NodeStaysSafe(cfg, h, h', id, n');
    if (id, u) !in h.ballots {
      NewBallotRemembers(cfg, h, id, n, u, c);
    }
  }

  lemma NewBallotRemembers(cfg: Settings, h: History, id: nat, n: Node, u: nat, c: nat)
    requires HistoryOK(cfg, h) && AcksKnown(h) && NodeSafe(cfg, h, id, n) && n.persisted <= |n.log| && (id, u) !in h.ballots
    requires HistoryOK(cfg, Cast(h, id, u, c, n.log))
    ensures BallotRemembers(Cast(h, id, u, c, n.log), id, u)
  {
    hide Remembers, CommittedLog, Grows, BallotOK;
    var h' := Cast(h, id, u, c, n.log);
    CastGrows(h, id, u, c, n.log);
    assert Limit(h', id, u) == |h'.reigns| by {
      if u in h.reigns {
        assert ReignOK(cfg, h, u);
      }
    }
    hide HistoryOK;
    PersistAllSafe(cfg, h, id, n);
    assert n.log[..|n.log|] == n.log;
    forall t: nat | t < u
      ensures Remembers(h', n.log, id, t, |h'.reigns|)
    {
      RemembersStays(cfg, h, h', n.log, id, t, |h.reigns|, |h'.reigns|);
    }
  }

  lemma VoteSafe(cfg: Settings, h: History, id: nat, n: Node, m: Message)
    requires HistorySafe(cfg, h) && NodeOK(h, id, n) && NodeSafe(cfg, h, id, n)
    requires m.Vote? && MessageOK(h, m) && MessageSafe(cfg, h, m) && (!m.pre ==> m.term == n.term)
    ensures var o := HandleVote(cfg, id, n, m);
            o.Next? ==>
              var h' := TrackReply(h, id, n, o.node, m, o.reply);
              SafeStep(cfg, h, id, o.node, h') && GoodReply(cfg, h', o.reply)
  {
    hide HistoryOK, NodeSafe, UpToDate, CommitByVote, SafeStep, BallotsRemember, AcksKnown, CommittedTerm, GoodStep, Cast;
    var o := HandleVote(cfg, id, n, m);
    if o.Next? {
      VoteOK(cfg, h, id, n, m);
      assert GoodStep(cfg, h, id, o.node, o.reply, TrackReply(h, id, n, o.node, m, o.reply));
      if o.reply.m.reject {
        CommitOfSafe(cfg, h, id, n);
        ReportedCommit(cfg, h, n);
        CommitByVoteSafe(cfg, h, id, n, m.commit, m.commitTerm);
        QuietSafe(cfg, h, id, o.node);
      } else if m.pre {
        QuietSafe(cfg, h, id, o.node);
      } else {
        VotedSafe(cfg, h, id, n, m.from);
        GoodHistory(cfg, h, id, o.node, o.reply, Cast(h, id, n.term, m.from, n.log));
        CastSafe(cfg, h, id, n, n.term, m.from, o.node);
      }
    }
  }

  lemma GoodHistory(cfg: Settings, h: History, id: nat, n': Node, reply: Reply, h': History)
    requires GoodStep(cfg, h, id, n', reply, h')
    ensures HistoryOK(cfg, h') && Grows(h, h') && NodeOK(h', id, n')
  {
    hide HistoryOK, NodeOK, MessageOK, Grows, Untouched;
  }

  lemma CommitOfSafe(cfg: Settings, h: History, id: nat, n: Node)
    requires NodeSafe(cfg, h, id, n)
    ensures CommitSafe(cfg, h, n)
  {
  }

  lemma VotedSafe(cfg: Settings, h: History, id: nat, n: Node, vote: nat)
    requires NodeSafe(cfg, h, id, n)
    ensures NodeSafe(cfg, h, id, n.(vote := vote))
  {
    hide Remembers, CommittedLog, AgreesUpTo;
  }

  // --------------------------------------------------------------- appends

  /** `ents` is the stretch of `r` after `index`, and `log` has the entry before it. */
  ghost predicate Matches(log: Log, r: Log, index: nat, ents: Log) {
    index + |ents| <= |r| && ents == r[index..index + |ents|] && TermAt(log, index) == TermAt(r, index)
  }

  lemma MatchedNone(h: History, log: Log, r: Log, index: nat, ents: Log)
    requires LogOK(h, log) && LogOK(h, r) && Matches(log, r, index, ents) && FirstConflict(log, index, ents) == 0
    requires forall i :: 0 <= i < |r| ==> r[i].term > 0
    ensures AgreesUpTo(log, r, index + |ents|)
  {
    var last := index + |ents|;
    if |ents| > 0 {
      BeforeConflict(log, index, ents, last);
    }
    if last > 0 {
      assert TermAt(log, last) == r[last - 1].term;
      SamePrefix(h, log, r, last);
    }
  }

  lemma MatchedSome(h: History, log: Log, r: Log, index: nat, ents: Log)
    requires LogOK(h, log) && LogOK(h, r) && Matches(log, r, index, ents) && FirstConflict(log, index, ents) != 0
    requires forall i :: 0 <= i < |r| ==> r[i].term > 0
    ensures var c := FirstConflict(log, index, ents);
            AgreesUpTo(log, r, c - 1) && TermAt(log, c) != TermAt(r, c)
  {
    var c := FirstConflict(log, index, ents);
    ConflictDiffers(log, index, ents);
    assert ents[c - index - 1] == r[c - 1];
    if c - 1 > index {
      BeforeConflict(log, index, ents, c - 1);
      assert ents[c - 1 - index - 1] == r[c - 2];
    }
    if c - 1 > 0 {
      SamePrefix(h, log, r, c - 1);
    }
  }

  lemma MatchedSplice(h: History, log: Log, r: Log, index: nat, ents: Log)
    requires LogOK(h, log) && LogOK(h, r) && Matches(log, r, index, ents) && FirstConflict(log, index, ents) != 0
    requires forall i :: 0 <= i < |r| ==> r[i].term > 0
    requires FirstConflict(log, index, ents) - 1 <= |log| && index <= |log|
    ensures var c := FirstConflict(log, index, ents);
            log[..c - 1] + ents[c - (index + 1)..] == r[..index + |ents|]
  {
    hide LogOK, FirstConflict;
    assert FindConflict(true, log, index, ents) == FirstConflict(log, index, ents);
    SplicedIsPrefix(h, true, log, r, index, ents);
  }

  /** The log a documented append leaves behind. */
  function Spliced(log: Log, index: nat, ents: Log): Log {
    var c := FirstConflict(log, index, ents);
    if c == 0 || c - 1 > |log| then log else log[..c - 1] + ents[c - (index + 1)..]
  }

  /** What the documented append does at a matching point: the log agrees with the leader's up to the last new index. */
  lemma MatchedAppend(cfg: Settings, h: History, log: Log, index: nat, ents: Log, t: nat)
    requires HistoryOK(cfg, h) && LogOK(h, log) && t in h.reigns && Matches(log, h.reigns[t].log, index, ents)
    ensures var r, c, last := h.reigns[t].log, FirstConflict(log, index, ents), index + |ents|;
            && index <= |log|
            && (c == 0 ==> AgreesUpTo(log, r, last))
            && (c != 0 ==> AgreesUpTo(log, r, c - 1) && TermAt(log, c) != TermAt(r, c) && Spliced(log, index, ents) == r[..last])
  {
    hide HistoryOK, LogOK, FirstConflict;
    var r := h.reigns[t].log;
    ReignLogOK(cfg, h, t);
    AllPositive(cfg, h, r);
    assert index <= |log|;
    if FirstConflict(log, index, ents) == 0 {
      MatchedNone(h, log, r, index, ents);
    } else {
      MatchedSome(h, log, r, index, ents);
      MatchedSplice(h, log, r, index, ents);
    }
  }

  lemma AllPositive(cfg: Settings, h: History, log: Log)
    requires HistoryOK(cfg, h) && LogOK(h, log)
    ensures forall i :: 0 <= i < |log| ==> log[i].term > 0
  {
    hide HistoryOK, LogOK;
    forall i | 0 <= i < |log|
      ensures log[i].term > 0
    {
      Sorted(cfg, h, log, i, i);
    }
  }

  lemma {:induction false} ConflictDiffers(log: Log, index: nat, ents: Log)
    ensures var c := FirstConflict(log, index, ents);
            c != 0 ==> TermAt(log, c) != ents[c - index - 1].term
    decreases |ents|
  {
    if ents != [] && TermAt(log, index + 1) == ents[0].term {
      ConflictDiffers(log, index + 1, ents[1..]);
    }
  }

  /** Truncating at a conflict with the leader of `u` only forgets entries that this leader lacks. */
  lemma TruncatedRemembers(cfg: Settings, h: History, log: Log, log': Log, p: nat, t: nat, u: nat, c: nat)
    requires HistoryOK(cfg, h) && LogOK(h, log) && u in h.reigns && t < u
    requires Remembers(h, log, p, t, |h.reigns|)
    requires var r := h.reigns[u].log;
             0 < c <= |r| && TermAt(log, c) != TermAt(r, c) && c - 1 <= |log| && c - 1 <= |log'| && log'[..c - 1] == log[..c - 1]
    ensures Remembers(h, log', p, t, |h.reigns|)
  {
    hide HistoryOK, LogOK, Dropped;
    if t in h.reigns {
      forall k: nat | h.reigns[t].base < k <= AckOf(h, p, t)
        ensures Held(log', t, k) || Dropped(h, t, k, |h.reigns|)
      {
        if Held(log, t, k) {
          if k < c {
            assert log'[..c - 1][k - 1] == log[..c - 1][k - 1];
          } else {
            ConflictDrops(cfg, h, log, t, u, c, k);
          }
        }
      }
    }
  }

  lemma ConflictDrops(cfg: Settings, h: History, log: Log, t: nat, u: nat, c: nat, k: nat)
    requires HistoryOK(cfg, h) && LogOK(h, log) && u in h.reigns && t < u && Held(log, t, k)
    requires var r := h.reigns[u].log; 0 < c <= |r| && TermAt(log, c) != TermAt(r, c) && c <= k
    ensures Dropped(h, t, k, |h.reigns|)
  {
    hide HistoryOK, LogOK;
    var r := h.reigns[u].log;
    ReignLogOK(cfg, h, u);
    SameTermBefore(h, log, r, k, c);
    ElectedInTime(cfg, h, u);
  }

  lemma ElectedInTime(cfg: Settings, h: History, u: nat)
    requires HistoryOK(cfg, h) && u in h.reigns
    ensures h.reigns[u].at < |h.reigns|
  {
    assert ReignOK(cfg, h, u);
  }

  lemma SameTermBefore(h: History, a: Log, b: Log, k: nat, c: nat)
    requires LogOK(h, a) && LogOK(h, b) && 0 < c <= k <= |a|
    ensures k <= |b| && a[k - 1].term == b[k - 1].term ==> TermAt(a, c) == TermAt(b, c)
  {
    if k <= |b| && a[k - 1].term == b[k - 1].term {
      SamePrefix(h, a, b, k);
      SameTerms(a, b, k, c);
    }
  }

  lemma SameTerms(a: Log, b: Log, k: nat, c: nat)
    requires c <= k
    ensures AgreesUpTo(a, b, k) ==> TermAt(a, c) == TermAt(b, c)
  {
    if AgreesUpTo(a, b, k) && c > 0 {
      assert a[..k][c - 1] == b[..k][c - 1];
    }
  }

  /** Within the current term no entry of the term itself is truncated. */
  lemma CurrentRemembers(h: History, p: nat, n: Node, log': Log, c: nat)
    requires n.term in h.reigns && LogOK(h, n.log) && Remembers(h, n.log, p, n.term, |h.reigns|)
    requires 0 < c && TermAt(n.log, c) != TermAt(h.reigns[n.term].log, c)
    requires c - 1 <= |n.log| && c - 1 <= |log'| && log'[..c - 1] == n.log[..c - 1]
    ensures Remembers(h, log', p, n.term, |h.reigns|)
  {
    hide Dropped;
    var r := h.reigns[n.term].log;
    forall k: nat | h.reigns[n.term].base < k <= AckOf(h, p, n.term)
      ensures Held(log', n.term, k) || Dropped(h, n.term, k, |h.reigns|)
    {
      if Held(n.log, n.term, k) {
        assert EntryOK(h, n.log, k - 1);
        SameTerms(n.log, r, k, if c <= k then c else 0);
        assert log'[..c - 1][k - 1] == n.log[..c - 1][k - 1];
      }
    }
  }

  /** A follower after an accepted append: its log, its commit index, all stored. */
  function AppendedNode(n: Node, log: Log, committed: nat): Node {
    Saving(n.(log := log, committed := committed))
  }

  /** The new acknowledgement of an accepted append is sound. */
  lemma AcceptedAcks(cfg: Settings, h: History, id: nat, n: Node, log': Log, last: nat, t: nat)
    requires HistoryOK(cfg, h) && n.term in h.reigns && AgreesUpTo(log', h.reigns[n.term].log, last)
    requires Remembers(h, log', id, t, |h.reigns|)
    ensures Remembers(Ack(h, id, n.term, last), log', id, t, |h.reigns|)
  {
    var h' := Ack(h, id, n.term, last);
    if t in h.reigns {
      forall k: nat | h.reigns[t].base < k <= AckOf(h', id, t)
        ensures Held(log', t, k) || Dropped(h', t, k, |h.reigns|)
      {
        if k <= AckOf(h, id, t) {
          assert Held(log', t, k) || Dropped(h, t, k, |h.reigns|);
        } else {
          AcceptedHeld(cfg, h, log', last, t, k);
        }
      }
    }
  }

  /** An entry of a reign's own term that the log shares is held. */
  lemma AcceptedHeld(cfg: Settings, h: History, log': Log, last: nat, t: nat, k: nat)
    requires HistoryOK(cfg, h) && t in h.reigns && AgreesUpTo(log', h.reigns[t].log, last)
    requires h.reigns[t].base < k <= last
    ensures Held(log', t, k)
  {
    OwnTerm(cfg, h, t, k);
    assert log'[..last][k - 1] == h.reigns[t].log[..last][k - 1];
  }

  lemma AckLater(h: History, id: nat, t: nat, k: nat)
    ensures var h' := Ack(h, id, t, k);
            && Later(h, h') && h'.reigns == h.reigns && h'.ballots == h.ballots
            && (forall q :: q != id ==> SameAcks(h, h', q))
            && (forall u :: u != t ==> AckOf(h', id, u) == AckOf(h, id, u))
            && (t in h.reigns ==> AckOf(h', id, t) == if k <= AckOf(h, id, t) then AckOf(h, id, t) else k)
            && (AcksKnown(h) ==> AcksKnown(h'))
  {
    AckGrows(h, id, t, k);
  }

  /** The spliced log agrees with the leader's, and keeps everything below the conflict. */
  lemma SplicedFacts(cfg: Settings, h: History, log: Log, index: nat, ents: Log, t: nat)
    requires HistoryOK(cfg, h) && LogOK(h, log) && t in h.reigns && Matches(log, h.reigns[t].log, index, ents)
    ensures var r, c, last, log' := h.reigns[t].log, FirstConflict(log, index, ents), index + |ents|, Spliced(log, index, ents);
            && index <= |log| && AgreesUpTo(log', r, last)
            && (c == 0 ==> log' == log)
            && (c != 0 ==> c - 1 <= |log| && c - 1 <= |log'| && log'[..c - 1] == log[..c - 1] && TermAt(log, c) != TermAt(r, c))
  {
    hide HistoryOK, LogOK, FirstConflict, Spliced;
    MatchedAppend(cfg, h, log, index, ents, t);
    var r, c, last, log' := h.reigns[t].log, FirstConflict(log, index, ents), index + |ents|, Spliced(log, index, ents);
    if c == 0 {
      SplicedSame(log, index, ents);
    } else {
      assert log'[..last] == log';
      assert log'[..c - 1] == r[..c - 1];
    }
  }

  lemma SplicedSame(log: Log, index: nat, ents: Log)
    requires FirstConflict(log, index, ents) == 0
    ensures Spliced(log, index, ents) == log
  {
  }

  lemma FullRemembers(h: History, p: nat, n: Node, t: nat)
    requires AcksOK(h, p, n) && n.persisted <= |n.log|
    ensures Remembers(h, n.log, p, t, |h.reigns|)
  {
    assert n.log[..n.persisted][..n.persisted] == n.log[..n.persisted];
    RemembersLonger(h, n.log[..n.persisted], n.log, p, t, |h.reigns|);
  }

  lemma SplicedRemembers(cfg: Settings, h: History, id: nat, n: Node, index: nat, ents: Log, t: nat)
    requires HistoryOK(cfg, h) && LogOK(h, n.log) && n.persisted <= |n.log| && AcksOK(h, id, n)
    requires n.term in h.reigns && Matches(n.log, h.reigns[n.term].log, index, ents) && n.committed <= index
    ensures Remembers(h, Spliced(n.log, index, ents), id, t, |h.reigns|)
  {
    hide HistoryOK, LogOK, FirstConflict, Spliced, Remembers;
    var c, log', r := FirstConflict(n.log, index, ents), Spliced(n.log, index, ents), h.reigns[n.term].log;
    SplicedFacts(cfg, h, n.log, index, ents, n.term);
    FullRemembers(h, id, n, t);
    if t > n.term {
      NoAckRemembers(h, log', id, t);
    } else if c != 0 && t < n.term {
      TruncatedRemembers(cfg, h, n.log, log', id, t, n.term, c);
    } else if c != 0 {
      CurrentRemembers(h, id, n, log', c);
    }
  }

  lemma NoAckRemembers(h: History, log: Log, p: nat, t: nat)
    requires (p, t) !in h.acks
    ensures Remembers(h, log, p, t, |h.reigns|)
  {
  }

  /** What an accepted documented append does. */
  lemma AcceptedAppend(cfg: Settings, h: History, n: Node, m: Message)
    requires HistoryOK(cfg, h) && LogOK(h, n.log) && m.App? && m.term in h.reigns
    requires Matches(n.log, h.reigns[m.term].log, m.index, m.entries) && m.logTerm == TermAt(n.log, m.index)
    requires n.committed <= m.index
    ensures var last, to := m.index + |m.entries|, Min(m.commit, m.index + |m.entries|);
            MaybeAppend(true, n.log, n.committed, m.index, m.logTerm, m.entries, m.commit)
              == Appended(Spliced(n.log, m.index, m.entries), if n.committed >= to then n.committed else to, last)
  {
    hide HistoryOK, LogOK, FirstConflict, MaybeAppend, TermAt, Spliced, MergedLog, Matches;
    var c := FirstConflict(n.log, m.index, m.entries);
    AcceptedMerge(cfg, h, n.log, n.committed, m.index, m.entries, m.term);
    AppendSteps(true, n.log, n.committed, m.index, m.logTerm, m.entries, m.commit, c);
  }

  lemma AcceptedMerge(cfg: Settings, h: History, log: Log, committed: nat, index: nat, ents: Log, t: nat)
    requires HistoryOK(cfg, h) && LogOK(h, log) && t in h.reigns && Matches(log, h.reigns[t].log, index, ents) && committed <= index
    ensures MergedLog(log, committed, index, ents, FirstConflict(log, index, ents)) == Some(Spliced(log, index, ents))
    ensures index + |ents| <= |Spliced(log, index, ents)|
  {
    hide HistoryOK, LogOK, FirstConflict, Matches, TermAt;
    SplicedFacts(cfg, h, log, index, ents, t);
  }

  /** Its commit index names a committed prefix. */
  lemma AcceptedCommit(cfg: Settings, h: History, n: Node, m: Message)
    requires HistoryOK(cfg, h) && LogOK(h, n.log) && m.App? && LeaderCommitKnown(cfg, h, m.term, m.commit)
    requires Matches(n.log, h.reigns[m.term].log, m.index, m.entries)
    requires n.committed <= m.index && CommitSafe(cfg, h, n)
    ensures var log', to := Spliced(n.log, m.index, m.entries), Min(m.commit, m.index + |m.entries|);
            var committed := if n.committed >= to then n.committed else to;
            committed <= |log'| && CommittedLog(cfg, h, log'[..committed])
  {
    hide HistoryOK, LogOK, FirstConflict, Spliced, CommittedLog;
    SplicedFacts(cfg, h, n.log, m.index, m.entries, m.term);
    var log', to, r := Spliced(n.log, m.index, m.entries), Min(m.commit, m.index + |m.entries|), h.reigns[m.term].log;
    var c := FirstConflict(n.log, m.index, m.entries);
    if n.committed >= to {
      if c != 0 {
        assert log'[..c - 1][..n.committed] == log'[..n.committed];
        assert n.log[..c - 1][..n.committed] == n.log[..n.committed];
      }
    } else {
      CommittedPrefix(cfg, h, r[..m.commit], to);
      assert r[..m.commit][..to] == r[..to];
      assert log'[..m.index + |m.entries|][..to] == log'[..to];
      assert r[..m.index + |m.entries|][..to] == r[..to];
    }
  }

  /** What was kept of an earlier acknowledgement is not truncated, and a longer one is of the leader's own log. */
  lemma AcceptedKept(cfg: Settings, h: History, log: Log, persisted: nat, t: nat, c: nat, d: nat, index: nat, ents: Log)
    requires HistoryOK(cfg, h) && LogOK(h, log) && AckKept(cfg, h, log, persisted, t, c, d)
    requires Matches(log, h.reigns[t].log, index, ents)
    ensures var log' := Spliced(log, index, ents);
            index + |ents| < c ==> AckKept(cfg, h, log', |log'|, t, c, d)
  {
    hide HistoryOK, LogOK, FirstConflict, Spliced, Broken;
    var x, r, log' := FirstConflict(log, index, ents), h.reigns[t].log, Spliced(log, index, ents);
    SplicedFacts(cfg, h, log, index, ents, t);
    if x != 0 {
      SameTerms(log, r, d, if x <= d then x else 0);
      assert log'[..x - 1][..d] == log'[..d];
      assert log[..x - 1][..d] == log[..d];
    }
  }

  /** Its acknowledgement is sound. */
  lemma AcceptedCurrent(cfg: Settings, h: History, id: nat, n: Node, m: Message, committed: nat)
    requires HistoryOK(cfg, h) && LogOK(h, n.log) && CurrentAck(cfg, h, id, n)
    requires m.App? && m.term == n.term && n.term in h.reigns && Matches(n.log, h.reigns[m.term].log, m.index, m.entries)
    ensures var n' := AppendedNode(n, Spliced(n.log, m.index, m.entries), committed);
            CurrentAck(cfg, Ack(h, id, n.term, m.index + |m.entries|), id, n')
  {
    hide HistoryOK, LogOK, FirstConflict, Spliced, AckKept, Matches, Ack, Grows;
    var last, c, log' := m.index + |m.entries|, AckOf(h, id, n.term), Spliced(n.log, m.index, m.entries);
    var h' := Ack(h, id, n.term, last);
    AckLater(h, id, n.term, last);
    AckGrows(h, id, n.term, last);
    if last < c {
      var d: nat :| AckKept(cfg, h, n.log, n.persisted, n.term, c, d);
      AcceptedKept(cfg, h, n.log, n.persisted, n.term, c, d, m.index, m.entries);
      AckKeptStays(cfg, h, h', log', |log'|, n.term, c, d);
    } else {
      SplicedFacts(cfg, h, n.log, m.index, m.entries, n.term);
      AllKept(cfg, h', log', |log'|, n.term, last);
    }
  }

  lemma AllKept(cfg: Settings, h: History, log: Log, persisted: nat, t: nat, c: nat)
    requires t in h.reigns && c <= persisted <= |log| && AgreesUpTo(log, h.reigns[t].log, c)
    ensures AckKept(cfg, h, log, persisted, t, c, c)
  {
    hide Broken;
  }

  lemma AckedSafe(cfg: Settings, h: History, id: nat, n: Node, n': Node, k: nat)
    requires HistorySafe(cfg, h) && n.term == n'.term && n'.role != Leader && n'.term in h.reigns
    requires AcksOK(h, id, n)
    requires var h' := Ack(h, id, n.term, k);
             && (n'.persisted <= |n'.log| ==> forall t: nat :: Remembers(h', n'.log[..n'.persisted], id, t, |h'.reigns|))
             && CurrentAck(cfg, h', id, n') && n'.committed <= |n'.log| && CommittedLog(cfg, h, n'.log[..n'.committed])
    ensures SafeStep(cfg, h, id, n', Ack(h, id, n.term, k))
  {
    hide HistoryOK, Remembers, CommittedLog, CurrentAck, BallotsRemember, SameAcks, Grows;
    var h' := Ack(h, id, n.term, k);
    AckLater(h, id, n.term, k);
    AckGrows(h, id, n.term, k);
    CommittedLogStays(cfg, h, h', n'.log[..n'.committed]);
  }

  lemma AcceptedSafe(cfg: Settings, h: History, id: nat, n: Node, m: Message)
    requires HistorySafe(cfg, h) && NodeOK(h, id, n) && NodeSafe(cfg, h, id, n) && n.role == Follower
    requires m.App? && m.term == n.term && n.term in h.reigns && LeaderCommitKnown(cfg, h, m.term, m.commit)
    requires Matches(n.log, h.reigns[m.term].log, m.index, m.entries) && m.logTerm == TermAt(n.log, m.index)
    requires n.committed <= m.index
    ensures var a := MaybeAppend(true, n.log, n.committed, m.index, m.logTerm, m.entries, m.commit);
            a.Appended? && SafeStep(cfg, h, id, AppendedNode(n, a.log, a.committed), Ack(h, id, n.term, a.last))
  {
    hide HistoryOK, LogOK, FirstConflict, Spliced, CurrentAck, CommittedLog, Matches, MaybeAppend, Remembers, SafeStep, Ack;
    AcceptedAppend(cfg, h, n, m);
    AcceptedCommit(cfg, h, n, m);
    var a := MaybeAppend(true, n.log, n.committed, m.index, m.logTerm, m.entries, m.commit);
    AcceptedCurrent(cfg, h, id, n, m, a.committed);
    var n' := AppendedNode(n, a.log, a.committed);
    var h' := Ack(h, id, n.term, a.last);
    SplicedFacts(cfg, h, n.log, m.index, m.entries, n.term);
    AckLater(h, id, n.term, a.last);
    forall t: nat
      ensures Remembers(h', a.log[..|a.log|], id, t, |h'.reigns|)
    {
      SplicedRemembers(cfg, h, id, n, m.index, m.entries, t);
      AcceptedAcks(cfg, h, id, n, a.log, a.last, t);
      assert a.log[..|a.log|] == a.log;
    }
    AckedSafe(cfg, h, id, n, n', a.last);
  }

  /**
    A follower that is already committed past the probe acknowledges its commit
    index. Where its log then differs from that of the current leader, a later
    leader has been elected that lacks the entry, so the leader cannot count on it.
   */
  lemma CommitAck(cfg: Settings, h: History, log: Log, t: nat, k: nat)
    requires cfg.voters.incoming != {} && HistorySafe(cfg, h) && LogOK(h, log) && t in h.reigns
    requires CommittedLog(cfg, h, log) && h.reigns[t].base < k <= |log|
    ensures Held(log, t, k) || Dropped(h, t, k, |h.reigns|)
  {
    hide HistoryOK, LogOK, BallotsRemember, AcksKnown, CommittedBy;
    var u: nat, l: nat :| CommittedBy(cfg, h, log, u, l);
    CommittedTerms(cfg, h, log, u, l);
    ElectedInTime(cfg, h, u);
    if u <= t {
      CompletePrefix(cfg, h, log, u, l, t);
      OwnTerm(cfg, h, t, k) by {
        ReignBound(h, log, t, k);
      }
      assert log[..|log|][k - 1] == h.reigns[t].log[..|log|][k - 1];
    } else {
      CompletePrefix(cfg, h, log, u, l, u);
      assert log[..|log|][k - 1] == h.reigns[u].log[..|log|][k - 1];
    }
  }

  lemma ReignBound(h: History, log: Log, t: nat, k: nat)
    requires t in h.reigns && AgreesUpTo(log, h.reigns[t].log, |log|) && k <= |log|
    ensures k <= |h.reigns[t].log|
  {
  }

  lemma CommitAckRemembers(cfg: Settings, h: History, id: nat, n: Node, t: nat)
    requires cfg.voters.incoming != {} && HistorySafe(cfg, h) && LogOK(h, n.log) && CommitSafe(cfg, h, n)
    requires n.term in h.reigns && Remembers(h, n.log, id, t, |h.reigns|)
    ensures Remembers(Ack(h, id, n.term, n.committed), n.log, id, t, |h.reigns|)
  {
    hide HistorySafe, LogOK, CommittedLog;
    var h' := Ack(h, id, n.term, n.committed);
    PrefixOK(h, n.log, n.committed);
    if t in h.reigns {
      forall k: nat | h.reigns[t].base < k <= AckOf(h', id, t)
        ensures Held(n.log, t, k) || Dropped(h', t, k, |h.reigns|)
      {
        if k <= AckOf(h, id, t) {
          assert Held(n.log, t, k) || Dropped(h, t, k, |h.reigns|);
        } else {
          CommitAck(cfg, h, n.log[..n.committed], t, k);
        }
      }
    }
  }

  /** The length of the common beginning of two logs, as far as `k`. */
  lemma {:induction false} Parting(a: Log, b: Log, k: nat) returns (d: nat)
    requires k <= |a|
    ensures d <= k && AgreesUpTo(a, b, d) && (d == k || d == |b| || a[d] != b[d])
  {
    if k == 0 {
      d := 0;
    } else {
      d := Parting(a, b, k - 1);
      if d == k - 1 && d < |b| && a[d] == b[d] {
        d := k;
        assert a[..k] == a[..k - 1] + [a[k - 1]] && b[..k] == b[..k - 1] + [b[k - 1]];
      }
    }
  }

  /** A log of no later term cannot go on where the whole log of a leader ends. */
  lemma NotPastReign(cfg: Settings, h: History, log: Log, t: nat)
    requires HistoryOK(cfg, h) && LogOK(h, log) && TermsBelow(log, |log|, t + 1) && t in h.reigns
    requires AgreesUpTo(log, h.reigns[t].log, |h.reigns[t].log|)
    ensures |log| == |h.reigns[t].log|
  {
    hide HistoryOK, LogOK;
    var r := h.reigns[t].log;
    var d := |r|;
    if d < |log| {
      LeadersLast(cfg, h, t);
      assert log[..d][d - 1] == r[..d][d - 1];
      Sorted(cfg, h, log, d - 1, d);
      OfReignBound(h, log, d);
    }
  }

  lemma OfReignBound(h: History, log: Log, d: nat)
    requires LogOK(h, log) && d < |log|
    ensures log[d].term in h.reigns && d < |h.reigns[log[d].term].log|
  {
    assert EntryOK(h, log, d);
  }

  lemma LeadersLast(cfg: Settings, h: History, t: nat)
    requires HistoryOK(cfg, h) && t in h.reigns
    ensures var r := h.reigns[t].log; |r| > 0 && r[|r| - 1].term == t
  {
    assert ReignOK(cfg, h, t);
  }

  /** A committed prefix either is of the leader's log or shows where that log can no longer be committed. */
  lemma CommittedKept(cfg: Settings, h: History, log: Log, t: nat, k: nat) returns (d: nat)
    requires HistoryOK(cfg, h) && LogOK(h, log) && TermsBelow(log, |log|, t + 1) && t in h.reigns
    requires k <= |log| && CommittedLog(cfg, h, log[..k])
    ensures AckKept(cfg, h, log, |log|, t, k, d)
  {
    hide HistoryOK, LogOK, CommittedLog, TermsBelow;
    var r := h.reigns[t].log;
    d := Parting(log, r, k);
    if d < k {
      if d == |r| {
        NotPastReign(cfg, h, log, t);
      }
      assert log[..k][d] == log[d];
      assert DepartsAt(cfg, h, log[..k], r, d);
    }
  }

  lemma CommitAckCurrent(cfg: Settings, h: History, id: nat, n: Node)
    requires HistoryOK(cfg, h) && NodeOK(h, id, n) && CurrentAck(cfg, h, id, n) && CommitSafe(cfg, h, n) && n.term in h.reigns
    ensures CurrentAck(cfg, Ack(h, id, n.term, n.committed), id, Saving(n))
  {
    hide HistoryOK, AckKept, LogOK, CommittedLog, Ack, Grows, TermsBelow;
    var c, h' := AckOf(h, id, n.term), Ack(h, id, n.term, n.committed);
    AckLater(h, id, n.term, n.committed);
    AckGrows(h, id, n.term, n.committed);
    if n.committed > c {
      var d := CommittedKept(cfg, h, n.log, n.term, n.committed);
      AckKeptStays(cfg, h, h', n.log, |n.log|, n.term, n.committed, d);
    } else if c > 0 {
      var d: nat :| AckKept(cfg, h, n.log, n.persisted, n.term, c, d);
      KeptLonger(cfg, h, n.log, n.persisted, n.log, |n.log|, n.term, c, d);
      AckKeptStays(cfg, h, h', n.log, |n.log|, n.term, c, d);
    }
  }

  /** What is committed of the leader's log lies within what is kept of an acknowledgement that covers it. */
  lemma KeptCommit(cfg: Settings, h: History, log: Log, persisted: nat, t: nat, c: nat, d: nat, k: nat)
    requires cfg.voters.incoming != {} && HistorySafe(cfg, h)
    requires AckKept(cfg, h, log, persisted, t, c, d) && k <= c && LeaderCommitKnown(cfg, h, t, k)
    ensures k <= d && log[..k] == h.reigns[t].log[..k] && CommittedLog(cfg, h, log[..k])
  {
    hide HistoryOK, BallotsRemember, AcksKnown, CommittedLog;
    var r := h.reigns[t].log;
    if k > d {
      var l :| DepartsAt(cfg, h, l, r, d);
      CommittedAgree(cfg, h, l, r[..k], d);
    }
    assert log[..d][..k] == log[..k];
    assert r[..d][..k] == r[..k];
  }

  /** A commit index of the leader that the follower has acknowledged is one its log can take. */
  lemma AcknowledgedCommit(cfg: Settings, h: History, id: nat, n: Node, k: nat)
    requires cfg.voters.incoming != {} && HistorySafe(cfg, h) && CurrentAck(cfg, h, id, n)
    requires 0 < k <= AckOf(h, id, n.term) && LeaderCommitKnown(cfg, h, n.term, k)
    ensures k <= |n.log| && CommittedLog(cfg, h, n.log[..k])
  {
    hide HistorySafe, AckKept, LeaderCommitKnown, CommittedLog;
    var c := AckOf(h, id, n.term);
    var d: nat :| AckKept(cfg, h, n.log, n.persisted, n.term, c, d);
    KeptBound(cfg, h, n.log, n.persisted, n.term, c, d);
    KeptCommit(cfg, h, n.log, n.persisted, n.term, c, d, k);
  }

  lemma KeptBound(cfg: Settings, h: History, log: Log, persisted: nat, t: nat, c: nat, d: nat)
    requires AckKept(cfg, h, log, persisted, t, c, d)
    ensures d <= persisted <= |log| && t in h.reigns
  {
    hide Broken;
  }

  lemma CommitAckSafe(cfg: Settings, h: History, id: nat, n: Node)
    requires cfg.voters.incoming != {} && HistorySafe(cfg, h) && NodeOK(h, id, n) && NodeSafe(cfg, h, id, n) && n.role == Follower
    requires n.term in h.reigns
    ensures SafeStep(cfg, h, id, Saving(n), Ack(h, id, n.term, n.committed))
  {
    hide HistoryOK, LogOK, CurrentAck, CommittedLog, Remembers, SafeStep, Ack, BallotsRemember, AcksKnown;
    var h', n' := Ack(h, id, n.term, n.committed), Saving(n);
    AckLater(h, id, n.term, n.committed);
    CommitAckCurrent(cfg, h, id, n);
    forall t: nat
      ensures Remembers(h', n.log[..|n.log|], id, t, |h'.reigns|)
    {
      FullRemembers(h, id, n, t);
      CommitAckRemembers(cfg, h, id, n, t);
      assert n.log[..|n.log|] == n.log;
    }
    AckedSafe(cfg, h, id, n, n', n.committed);
  }

  /** An anchor beyond the leader's log names no term and carries no entries. */
  lemma BeyondIsEmpty(cfg: Settings, h: History, m: Message)
    requires HistoryOK(cfg, h) && m.App? && MessageOK(h, m) && m.index > 0 && m.logTerm == 0
    ensures m.entries == []
  {
    hide HistoryOK, LogOK;
    ReignLogOK(cfg, h, m.term);
    AllPositive(cfg, h, h.reigns[m.term].log);
  }

  /** Such an append leaves the log alone. */
  lemma BeyondAppend(n: Node, m: Message)
    requires m.App? && m.entries == [] && TermAt(n.log, m.index) == m.logTerm
    ensures var to := Min(m.commit, m.index);
            MaybeAppend(true, n.log, n.committed, m.index, m.logTerm, m.entries, m.commit) ==
            if n.committed >= to then Appended(n.log, n.committed, m.index)
            else if to > |n.log| then Fatal
            else Appended(n.log, to, m.index)
  {
  }

  lemma ShorterCommitKnown(cfg: Settings, h: History, t: nat, k: nat, c: nat)
    requires LeaderCommitKnown(cfg, h, t, c) && k <= c
    ensures LeaderCommitKnown(cfg, h, t, k)
  {
    hide CommittedLog;
    var r := h.reigns[t].log;
    CommittedPrefix(cfg, h, r[..c], k);
    assert r[..c][..k] == r[..k];
  }

  /**
    A message anchored beyond the leader's log goes to a follower that acknowledged that many entries. If a
    crash has lost them again the follower takes the message; it changes nothing but the commit index.
   */
  lemma BeyondSafe(cfg: Settings, h: History, id: nat, was: Node, n: Node, m: Message)
    requires cfg.voters.incoming != {} && cfg.documented && HistorySafe(cfg, h)
    requires NodeOK(h, id, n) && NodeSafe(cfg, h, id, n) && n.role == Follower
    requires m.App? && MessageOK(h, m) && MessageSafe(cfg, h, m) && m.term == n.term && m.to == id
    requires n.committed <= m.index && TermAt(n.log, m.index) == m.logTerm && m.index > 0 && m.logTerm == 0
    ensures Handled(cfg, h, id, was, m, Stored(HandleAppend(cfg, id, n, m)))
  {
    hide HistoryOK, NodeOK, NodeSafe, MaybeAppend, SafeStep, BallotsRemember, AcksKnown, LeaderCommitKnown, Handled, CommittedLog;
    BeyondIsEmpty(cfg, h, m);
    BeyondAppend(n, m);
    var to := Min(m.commit, m.index);
    var n' := Saving(n);
    PersistedBound(h, id, n);
    PersistAllSafe(cfg, h, id, n);
    if n.committed < to {
      ShorterCommitKnown(cfg, h, n.term, to, m.commit);
      CurrentOfSafe(cfg, h, id, n);
      AcknowledgedCommit(cfg, h, id, n, to);
      MoreCommitted(cfg, h, id, n', to);
      n' := n'.(committed := to);
    }
    QuietSafe(cfg, h, id, n');
    assert Ack(h, id, n.term, m.index) == h;
    OfReign(h, m);
    AckReply(cfg, h, id, was, n', m, n.term, m.index, n'.committed);
    var a := MaybeAppend(true, n.log, n.committed, m.index, m.logTerm, m.entries, m.commit);
    assert a == Appended(n.log, n'.committed, m.index);
  }

  lemma OfReign(h: History, m: Message)
    requires m.App? && MessageOK(h, m)
    ensures m.term in h.reigns
  {
  }

  lemma CurrentOfSafe(cfg: Settings, h: History, id: nat, n: Node)
    requires NodeSafe(cfg, h, id, n)
    ensures CurrentAck(cfg, h, id, n)
  {
    hide AcksOK, CurrentAck, CommitSafe, LeaderSafe;
  }

  lemma SegmentMatches(h: History, n: Node, m: Message)
    requires m.App? && SegmentOK(h, m) && TermAt(n.log, m.index) == m.logTerm && !(m.index > 0 && m.logTerm == 0)
    ensures Matches(n.log, h.reigns[m.term].log, m.index, m.entries)
  {
  }

  /** A handled message leaves the node safe and sends a safe reply. */
  ghost predicate Handled(cfg: Settings, h: History, id: nat, was: Node, m: Message, o: Outcome) {
    && o.Next?
    && SafeStep(cfg, h, id, o.node, TrackReply(h, id, was, o.node, m, o.reply))
    && GoodReply(cfg, TrackReply(h, id, was, o.node, m, o.reply), o.reply)
  }

  lemma AckReply(cfg: Settings, h: History, id: nat, was: Node, n': Node, m: Message, term: nat, k: nat, commit: nat)
    requires term in h.reigns && SafeStep(cfg, h, id, n', Ack(h, id, term, k))
    ensures Handled(cfg, h, id, was, m, Next(n', Send(AppResp(id, m.from, term, false, k, 0, 0, commit))))
  {
    hide SafeStep, Ack;
    AckLater(h, id, term, k);
  }

  lemma QuietReply(cfg: Settings, h: History, id: nat, was: Node, n': Node, m: Message, r: Message)
    requires HistorySafe(cfg, h) && NodeSafe(cfg, h, id, n') && MessageSafe(cfg, h, r)
    requires r.HeartbeatResp? || (r.AppResp? && r.reject)
    ensures Handled(cfg, h, id, was, m, Next(n', Send(r)))
  {
    hide HistorySafe, NodeSafe, SafeStep;
    QuietSafe(cfg, h, id, n');
  }

  lemma AppendTaken(cfg: Settings, h: History, id: nat, was: Node, n: Node, m: Message)
    requires cfg.voters.incoming != {} && cfg.documented && HistorySafe(cfg, h)
    requires NodeOK(h, id, n) && NodeSafe(cfg, h, id, n) && n.role == Follower
    requires m.App? && MessageOK(h, m) && MessageSafe(cfg, h, m) && m.term == n.term && m.to == id
    requires n.committed <= m.index && TermAt(n.log, m.index) == m.logTerm
    ensures Handled(cfg, h, id, was, m, Stored(HandleAppend(cfg, id, n, m)))
  {
    hide HistoryOK, NodeOK, NodeSafe, MaybeAppend, SafeStep, BallotsRemember, AcksKnown, LeaderCommitKnown, Ack, Matches, Handled;
    if m.index > 0 && m.logTerm == 0 {
      BeyondSafe(cfg, h, id, was, n, m);
    } else {
      SegmentMatches(h, n, m);
      AcceptedSafe(cfg, h, id, n, m);
      var a := MaybeAppend(true, n.log, n.committed, m.index, m.logTerm, m.entries, m.commit);
      AckReply(cfg, h, id, was, AppendedNode(n, a.log, a.committed), m, n.term, a.last, a.committed);
    }
  }

  lemma AppendSafe(cfg: Settings, h: History, id: nat, was: Node, n: Node, m: Message)
    requires cfg.voters.incoming != {} && cfg.documented && HistorySafe(cfg, h)
    requires NodeOK(h, id, n) && NodeSafe(cfg, h, id, n) && n.role == Follower
    requires m.App? && MessageOK(h, m) && MessageSafe(cfg, h, m) && m.term == n.term && m.to == id
    ensures Handled(cfg, h, id, was, m, Stored(HandleAppend(cfg, id, n, m)))
  {
    hide HistoryOK, NodeOK, NodeSafe, MaybeAppend, FindConflictByTerm, SafeStep, BallotsRemember, AcksKnown, LeaderCommitKnown, Ack, Handled;
    var n1 := Saving(n);
    if m.index < n.committed {
      CommitAckSafe(cfg, h, id, n);
      AckReply(cfg, h, id, was, n1, m, n.term, n.committed, n.committed);
    } else if TermAt(n.log, m.index) != m.logTerm {
      PersistedBound(h, id, n);
      PersistAllSafe(cfg, h, id, n);
      RejectedAppend(cfg, n, m);
      QuietReply(cfg, h, id, was, n1, m, HandleAppend(cfg, id, n, m).reply.m);
    } else {
      AppendTaken(cfg, h, id, was, n, m);
    }
  }

  /** A safe outcome is as safe when it is stored before the reply leaves. */
  lemma StoredSafe(cfg: Settings, h: History, id: nat, was: Node, m: Message, o: Outcome)
    requires Handled(cfg, h, id, was, m, o) && o.node.persisted <= |o.node.log|
    ensures Handled(cfg, h, id, was, m, Stored(o))
  {
    hide NodeSafe, Later, SameAcks, BallotRemembers, AcksKnown, Cast, Elect, Ack;
    PersistAllSafe(cfg, TrackReply(h, id, was, o.node, m, o.reply), id, o.node);
  }

  lemma RejectedAppend(cfg: Settings, n: Node, m: Message)
    requires m.App? && TermAt(n.log, m.index) != m.logTerm
    ensures MaybeAppend(cfg.documented, n.log, n.committed, m.index, m.logTerm, m.entries, m.commit).Rejected?
  {
  }

  lemma PersistedBound(h: History, id: nat, n: Node)
    requires NodeOK(h, id, n)
    ensures n.persisted <= |n.log| && n.committed <= |n.log| && LogOK(h, n.log)
  {
  }

  // ------------------------------------------------------------- heartbeats

  /** A heartbeat never names an index the follower does not have, and only committed ones. */
  lemma HeartbeatCommit(cfg: Settings, h: History, id: nat, n: Node, m: Message)
    requires cfg.voters.incoming != {} && HistorySafe(cfg, h)
    requires NodeSafe(cfg, h, id, n) && m.Heartbeat? && m.term == n.term && m.to == id && MessageSafe(cfg, h, m)
    ensures m.commit > n.committed ==> m.commit <= |n.log| && CommittedLog(cfg, h, n.log[..m.commit])
  {
    hide HistorySafe, NodeSafe, CommittedLog, LeaderCommitKnown;
    if m.commit > n.committed {
      CurrentOfSafe(cfg, h, id, n);
      AcknowledgedCommit(cfg, h, id, n, m.commit);
    }
  }

  lemma HeartbeatSafe(cfg: Settings, h: History, id: nat, was: Node, n: Node, m: Message)
    requires cfg.voters.incoming != {} && HistorySafe(cfg, h) && NodeSafe(cfg, h, id, n) && n.role == Follower
    requires m.Heartbeat? && m.term == n.term && m.to == id && MessageSafe(cfg, h, m)
    ensures Handled(cfg, h, id, was, m, HandleHeartbeat(id, n, m))
  {
    hide HistorySafe, NodeSafe, Handled;
    HeartbeatCommit(cfg, h, id, n, m);
    var o := HandleHeartbeat(id, n, m);
    if m.commit > n.committed {
      MoreCommitted(cfg, h, id, n, m.commit);
    }
    QuietReply(cfg, h, id, was, o.node, m, o.reply.m);
  }

  // -------------------------------------------------------------- elections

  lemma WonRemembers(cfg: Settings, h: History, id: nat, n: Node, voters: set<nat>, t: nat)
    requires HistoryOK(cfg, h) && AcksKnown(h) && AcksOK(h, id, n) && n.persisted == |n.log| && n.term !in h.reigns
    requires var e := Elect(h, n.term, id, voters, |n.log|, n.log + [Entry(n.term, false, NOOP)]);
             HistoryOK(cfg, e) && Grows(h, e)
    ensures var e := Elect(h, n.term, id, voters, |n.log|, n.log + [Entry(n.term, false, NOOP)]);
            Remembers(Ack(e, id, n.term, |n.log|), n.log, id, t, |e.reigns|)
  {
    hide HistoryOK, Dropped, Grows;
    var e := Elect(h, n.term, id, voters, |n.log|, n.log + [Entry(n.term, false, NOOP)]);
    var h' := Ack(e, id, n.term, |n.log|);
    ElectGrows(h, n.term, id, voters, |n.log|, n.log + [Entry(n.term, false, NOOP)]);
    FullRemembers(h, id, n, t);
    if t != n.term {
      RemembersStays(cfg, h, e, n.log, id, t, |h.reigns|, |e.reigns|);
      AckLater(e, id, n.term, |n.log|);
      RemembersSame(e, h', n.log, id, t, |e.reigns|);
    }
  }

  lemma RemembersSame(h: History, h': History, log: Log, p: nat, t: nat, limit: nat)
    requires h'.reigns == h.reigns && AckOf(h', p, t) == AckOf(h, p, t) && Remembers(h, log, p, t, limit)
    ensures Remembers(h', log, p, t, limit)
  {
    hide Held;
    if t in h.reigns {
      forall k: nat | h.reigns[t].base < k <= AckOf(h, p, t)
        ensures Held(log, t, k) || Dropped(h', t, k, limit)
      {
        assert Held(log, t, k) || Dropped(h, t, k, limit);
      }
    }
  }

  lemma WonLater(cfg: Settings, h: History, id: nat, n: Node, voters: set<nat>)
    requires AcksKnown(h) && n.term !in h.reigns
    ensures var e := Elect(h, n.term, id, voters, |n.log|, n.log + [Entry(n.term, false, NOOP)]);
            var h' := Ack(e, id, n.term, |n.log|);
            && Later(h, h') && AcksKnown(h') && h'.ballots == h.ballots && h'.reigns == e.reigns
            && (forall q :: q != id ==> SameAcks(h, h', q))
            && (forall t: nat :: t < n.term ==> AckOf(h', id, t) == AckOf(h, id, t))
            && AckOf(h', id, n.term) == |n.log|
            && (forall t :: (id, t) in h'.acks ==> (id, t) in h.acks || t == n.term)
  {
    var e := Elect(h, n.term, id, voters, |n.log|, n.log + [Entry(n.term, false, NOOP)]);
    ElectGrows(h, n.term, id, voters, |n.log|, n.log + [Entry(n.term, false, NOOP)]);
    AckLater(e, id, n.term, |n.log|);
    GrowsTrans(h, e, Ack(e, id, n.term, |n.log|));
  }

  lemma WinSafe(cfg: Settings, h: History, id: nat, n: Node, voters: set<nat>)
    requires HistorySafe(cfg, h) && NodeSafe(cfg, h, id, n) && n.role == Candidate && n.persisted == |n.log| && n.term !in h.reigns
    requires var e := Elect(h, n.term, id, voters, |n.log|, n.log + [Entry(n.term, false, NOOP)]);
             HistoryOK(cfg, e) && Grows(h, e)
    ensures var o := BecomeLeader(id, n);
            var h' := Ack(Elect(h, n.term, id, voters, |n.log|, o.node.log), id, n.term, |n.log|);
            o.Next? && SafeStep(cfg, h, id, o.node, h')
  {
    hide HistoryOK, Remembers, CommittedLog, BallotsRemember, SameAcks, Grows, CommittedAt, BallotRemembers, Ack, Elect;
    var log' := n.log + [Entry(n.term, false, NOOP)];
    var e := Elect(h, n.term, id, voters, |n.log|, log');
    var h', n' := Ack(e, id, n.term, |n.log|), BecomeLeader(id, n).node;
    WonLater(cfg, h, id, n, voters);
    ElectIs(h, n.term, id, voters, |n.log|, log');
    assert log'[..|n.log|] == n.log && log'[..n.committed] == n.log[..n.committed];
    forall t: nat
      ensures Remembers(h', n'.log[..n'.persisted], id, t, |h'.reigns|)
    {
      WonRemembers(cfg, h, id, n, voters, t);
    }
    CommittedLogStays(cfg, h, h', n.log[..n.committed]);
    AllKept(cfg, h', log', |n.log|, n.term, |n.log|);
    assert LeaderSafe(cfg, h', n');
  }

  lemma ElectIs(h: History, term: nat, leader: nat, voters: set<nat>, base: nat, log: Log)
    ensures var e := Elect(h, term, leader, voters, base, log);
            term in e.reigns && e.reigns[term] == Reign(leader, voters, base, log, |h.reigns|)
  {
  }

  lemma VoteResponseSafe(cfg: Settings, h: History, id: nat, n: Node, m: Message)
    requires cfg.voters.incoming != {}
    requires HistorySafe(cfg, h) && NodeOK(h, id, n) && NodeSafe(cfg, h, id, n) && n.role == Candidate
    requires m.VoteResp? && !m.pre && MessageOK(h, m) && MessageSafe(cfg, h, m) && m.term == n.term && m.to == id
    ensures Handled(cfg, h, id, n, m, HandleVoteResponse(cfg, id, n, m))
  {
    hide HistoryOK, NodeSafe, JointVote, BallotsRemember, AcksKnown, CommitByVote, SafeStep, CommittedTerm, LogOK, TermsBelow, VotesOK, LeaderOK, Elect, Ack;
    var o := HandleVoteResponse(cfg, id, n, m);
    var votes := RecordVote(n.votes, m.from, !m.reject);
    match JointVote(cfg.voters, votes) {
      case Won => WonByVotes(cfg, h, id, n, m);
      case Lost =>
        var f := BecomeFollower(id, n, n.term, INVALID_ID);
        FollowerOK(h, id, n, n.term, INVALID_ID);
        FollowerSafe(cfg, h, id, n, n.term, INVALID_ID);
        CommitByVoteSafe(cfg, h, id, f, m.commit, m.commitTerm);
        CommitByVoteRole(id, f, m.commit, m.commitTerm);
        QuietSafe(cfg, h, id, o.node);
      case Pending =>
        PollOK(h, id, n, m);
        VotesSafe(cfg, h, id, n, votes);
        CommitByVoteSafe(cfg, h, id, n.(votes := votes), m.commit, m.commitTerm);
        CommitByVoteRole(id, n.(votes := votes), m.commit, m.commitTerm);
        QuietSafe(cfg, h, id, o.node);
    }
  }

  lemma VotesSafe(cfg: Settings, h: History, id: nat, n: Node, votes: Votes)
    requires NodeSafe(cfg, h, id, n)
    ensures NodeSafe(cfg, h, id, n.(votes := votes))
  {
    hide Remembers, CommittedLog, AgreesUpTo, CommittedAt;
  }

  lemma WonByVotes(cfg: Settings, h: History, id: nat, n: Node, m: Message)
    requires cfg.voters.incoming != {}
    requires HistorySafe(cfg, h) && NodeOK(h, id, n) && NodeSafe(cfg, h, id, n) && n.role == Candidate
    requires m.VoteResp? && !m.pre && MessageOK(h, m) && m.term == n.term && m.to == id
    requires JointVote(cfg.voters, RecordVote(n.votes, m.from, !m.reject)) == Won
    ensures Handled(cfg, h, id, n, m, HandleVoteResponse(cfg, id, n, m))
  {
    hide HistoryOK, NodeSafe, BallotsRemember, AcksKnown, SafeStep, HasQuorum, JointVote, Elect, Ack, Grows, Untouched;
    var votes := RecordVote(n.votes, m.from, !m.reject);
    PollOK(h, id, n, m);
    WonQuorum(cfg, votes);
    ElectHistory(cfg, h, id, n, YesIds(votes));
    WinSafe(cfg, h, id, n, YesIds(votes));
  }

  /** A win makes a new reign that is in order. */
  lemma ElectHistory(cfg: Settings, h: History, id: nat, n: Node, voters: set<nat>)
    requires cfg.voters.incoming != {}
    requires HistoryOK(cfg, h) && NodeOK(h, id, n) && n.role == Candidate
    requires HasQuorum(cfg.voters, voters) && forall p :: p in voters ==> Voted(h, p, n.term, id)
    ensures var e := Elect(h, n.term, id, voters, |n.log|, n.log + [Entry(n.term, false, NOOP)]);
            n.term !in h.reigns && HistoryOK(cfg, e) && Grows(h, e)
  {
    hide HasQuorum, HistoryOK;
    if n.term in h.reigns {
      OneWinner(cfg, h, n.term, id, voters);
    }
    BallotTerms(cfg, h, id, n.term);
    ElectOK(cfg, h, n.term, id, voters, n.log);
  }

  // ---------------------------------------------------------------- leaders

  lemma QuorumAcked(cfg: Settings, h: History, n: Node, r: nat)
    requires HasQuorum(cfg.voters, AckedAtLeast(Voters(cfg), AckMap(cfg, n), r))
    requires forall q :: Matched(n, q) <= AckOf(h, q, n.term)
    ensures HasQuorum(cfg.voters, Ackers(cfg, h, n.term, r))
  {
    hide HasQuorum;
    assert AckedAtLeast(Voters(cfg), AckMap(cfg, n), r) <= Ackers(cfg, h, n.term, r);
    HasQuorumMonotone(cfg.voters, AckedAtLeast(Voters(cfg), AckMap(cfg, n), r), Ackers(cfg, h, n.term, r));
  }

  /** Counting a quorum's matches commits an entry of the current term. */
  lemma LeaderCommits(cfg: Settings, h: History, id: nat, n: Node)
    requires HistoryOK(cfg, h) && NodeOK(h, id, n) && NodeSafe(cfg, h, id, n) && n.role == Leader
    ensures NodeSafe(cfg, h, id, LeaderCommit(cfg, n))
  {
    hide HistoryOK, NodeOK, NodeSafe, CommittedAt, CommittedBy;
    var r := JointIndex(cfg.voters, cfg.groupCommit, AckMap(cfg, n));
    if r > n.committed && TermAt(n.log, r) == n.term {
      LeaderCounts(cfg, h, id, n, r);
      LeaderMoreCommitted(cfg, h, id, n, r);
    }
  }

  /** What a quorum has matched of a leader's own term was acknowledged by that quorum. */
  lemma LeaderCounts(cfg: Settings, h: History, id: nat, n: Node, r: nat)
    requires HistoryOK(cfg, h) && NodeOK(h, id, n) && NodeSafe(cfg, h, id, n) && n.role == Leader
    requires r == JointIndex(cfg.voters, cfg.groupCommit, AckMap(cfg, n)) && r > n.committed && TermAt(n.log, r) == n.term
    ensures r <= |n.log| && CommittedAt(cfg, h, n.term, r) && CommittedBy(cfg, h, n.log[..r], n.term, r)
  {
    LeadsOwn(cfg, h, id, n, r);
    hide HasQuorum, NodeOK, HistoryOK, Remembers, CommittedLog, CurrentAck;
    QuorumAcked(cfg, h, n, r);
  }

  /** A leader's log is that of its reign, and entries of its own term lie past the part it was elected with. */
  lemma LeadsOwn(cfg: Settings, h: History, id: nat, n: Node, r: nat)
    requires HistoryOK(cfg, h) && NodeOK(h, id, n) && n.role == Leader && r > 0 && TermAt(n.log, r) == n.term
    ensures n.term in h.reigns && h.reigns[n.term].log == n.log && h.reigns[n.term].base < r <= |n.log|
  {
    hide LogOK;
    assert ReignOK(cfg, h, n.term);
  }

  lemma LeaderMoreCommitted(cfg: Settings, h: History, id: nat, n: Node, r: nat)
    requires NodeSafe(cfg, h, id, n) && n.committed < r <= |n.log| && CommittedAt(cfg, h, n.term, r)
    requires CommittedBy(cfg, h, n.log[..r], n.term, r)
    ensures NodeSafe(cfg, h, id, n.(committed := r))
  {
    hide HasQuorum, Remembers, CommittedBy, CommittedAt;
    assert CommittedLog(cfg, h, n.log[..r]);
  }

  lemma MatchSafe(cfg: Settings, h: History, id: nat, n: Node, q: nat, k: nat)
    requires NodeSafe(cfg, h, id, n) && k <= AckOf(h, q, n.term)
    ensures NodeSafe(cfg, h, id, n.(matched := n.matched[q := k]))
  {
    hide Remembers, CommittedLog, CommittedAt, AgreesUpTo;
  }

  lemma AppendResponseSafe(cfg: Settings, h: History, id: nat, n: Node, m: Message)
    requires HistorySafe(cfg, h) && NodeOK(h, id, n) && NodeSafe(cfg, h, id, n) && n.role == Leader
    requires m.AppResp? && MessageSafe(cfg, h, m) && m.term == n.term
    ensures SafeStep(cfg, h, id, HandleAppendResponse(cfg, n, m), h)
  {
    hide HistoryOK, NodeOK, NodeSafe, LeaderCommit, SafeStep, BallotsRemember, AcksKnown;
    if !(m.reject || m.index <= Matched(n, m.from)) {
      var n1 := n.(matched := n.matched[m.from := m.index]);
      MatchSafe(cfg, h, id, n, m.from, m.index);
      MatchedOK(h, id, n, n1.matched);
      LeaderCommits(cfg, h, id, n1);
    }
    QuietSafe(cfg, h, id, HandleAppendResponse(cfg, n, m));
  }

  lemma LeaderIdSafe(cfg: Settings, h: History, id: nat, n: Node, leader: nat)
    requires NodeSafe(cfg, h, id, n)
    ensures NodeSafe(cfg, h, id, n.(leaderId := leader))
  {
    hide Remembers, CommittedLog, CommittedAt, AgreesUpTo;
  }
}
