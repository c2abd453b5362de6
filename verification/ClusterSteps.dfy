/** Each event keeps the base invariant; election safety and log matching follow for every run. */
module ClusterSteps {
  import opened Quorum
  import opened Raft
  import opened Cluster
  import opened ClusterBase

  // -------------------------------------------------------------- logs

  /** Two logs that agree on one term agree on everything before it. */
  lemma SamePrefix(h: History, a: Log, b: Log, k: nat)
    requires LogOK(h, a) && LogOK(h, b) && 0 < k <= |a| && k <= |b| && a[k - 1].term == b[k - 1].term
    ensures a[..k] == b[..k]
  {
    assert EntryOK(h, a, k - 1) && EntryOK(h, b, k - 1);
  }

  lemma PrefixOK(h: History, log: Log, k: nat)
    requires LogOK(h, log) && k <= |log|
    ensures LogOK(h, log[..k])
  {
    forall i | 0 <= i < k
      ensures EntryOK(h, log[..k], i)
    {
      assert EntryOK(h, log, i) && log[..k][..i + 1] == log[..i + 1];
    }
  }

  lemma ReignTerms(cfg: Settings, h: History, t: nat, i: nat)
    requires HistoryOK(cfg, h) && t in h.reigns && i < |h.reigns[t].log|
    ensures h.reigns[t].log[i].term <= t
  {
    assert ReignOK(cfg, h, t);
    if i < h.reigns[t].base {
      assert OlderReign(h, h.reigns[t].log[i].term, t);
    }
  }

  /** Terms never decrease along a log. */
  lemma Sorted(cfg: Settings, h: History, log: Log, i: nat, j: nat)
    requires HistoryOK(cfg, h) && LogOK(h, log) && i <= j < |log|
    ensures 0 < log[i].term <= log[j].term
  {
    hide ReignOK, BallotOK;
    var t := log[j].term;
    assert EntryOK(h, log, j);
    assert log[i] == log[..j + 1][i] == h.reigns[t].log[i];
    ReignTerms(cfg, h, t, i);
    assert EntryOK(h, log, i);
    ReignPositive(cfg, h, log[i].term);
  }

  lemma ReignPositive(cfg: Settings, h: History, t: nat)
    requires HistoryOK(cfg, h) && t in h.reigns
    ensures t > 0
  {
    assert ReignOK(cfg, h, t);
  }

  /** Up to the first conflict the entries are already in the log. */
  lemma {:induction false} BeforeConflict(log: Log, index: nat, ents: Log, j: nat)
    requires index < j <= index + |ents|
    requires var c := FirstConflict(log, index, ents); c == 0 || j < c
    ensures TermAt(log, j) == ents[j - index - 1].term
    decreases |ents|
  {
    if index + 1 < j {
      BeforeConflict(log, index + 1, ents[1..], j);
    }
  }

  lemma BeforeAnyConflict(documented: bool, log: Log, index: nat, ents: Log, j: nat)
    requires index < j <= index + |ents|
    requires var c := FindConflict(documented, log, index, ents); (c != 0 && j < c) || (c == 0 && documented)
    ensures TermAt(log, j) == ents[j - index - 1].term
  {
    if documented {
      BeforeConflict(log, index, ents, j);
    }
  }

  /** Appending a stretch of a leader's log at a matching point turns the log into a prefix of the leader's. */
  lemma SplicedIsPrefix(h: History, documented: bool, log: Log, leader: Log, index: nat, ents: Log)
    requires LogOK(h, log) && LogOK(h, leader)
    requires StretchOf(leader, index, ents) && TermAt(log, index) == TermAt(leader, index)
    requires index <= |log|
    requires index == 0 || leader[index - 1].term > 0
    requires var c := FindConflict(documented, log, index, ents); c != 0 && c - 1 <= |log|
    ensures var c := FindConflict(documented, log, index, ents);
            log[..c - 1] + ents[c - (index + 1)..] == leader[..index + |ents|]
  {
    var c := FindConflict(documented, log, index, ents);
    if c - 1 > 0 {
      assert log[c - 2].term == leader[c - 2].term by {
        if c - 1 > index {
          BeforeAnyConflict(documented, log, index, ents, c - 1);
        }
      }
      SamePrefix(h, log, leader, c - 1);
    }
    hide LogOK, FindConflict, TermAt;
    JoinStretch(log, leader, index, ents, c - 1);
  }

  lemma JoinStretch(log: Log, leader: Log, index: nat, ents: Log, k: nat)
    requires StretchOf(leader, index, ents) && index <= k <= index + |ents| && k <= |log| && log[..k] == leader[..k]
    ensures log[..k] + ents[k - index..] == leader[..index + |ents|]
  {
    assert ents[k - index..] == leader[k..index + |ents|];
  }

  /** The entries are those of the leader's log after `index`. */
  predicate StretchOf(leader: Log, index: nat, ents: Log) {
    index + |ents| <= |leader| && ents == leader[index..index + |ents|]
  }

  // ------------------------------------------------------------- one node

  lemma FollowerOK(h: History, id: nat, n: Node, term: nat, leader: nat)
    requires NodeOK(h, id, n) && term >= n.term
    ensures NodeOK(h, id, BecomeFollower(id, n, term, leader))
  {
  }

  lemma CatchUpOK(h: History, id: nat, n: Node, m: Message)
    requires NodeOK(h, id, n)
    ensures NodeOK(h, id, CatchUp(id, n, m))
  {
    hide NodeOK;
    if m.term > n.term {
      FollowerOK(h, id, n, m.term, if m.App? || m.Heartbeat? then m.from else INVALID_ID);
    }
  }

  lemma MaybeCommitOK(h: History, id: nat, n: Node, index: nat, term: nat)
    requires NodeOK(h, id, n) && term > 0
    ensures NodeOK(h, id, MaybeCommit(n, index, term))
  {
  }

  lemma CommitByVoteOK(h: History, id: nat, n: Node, commit: nat, commitTerm: nat)
    requires NodeOK(h, id, n)
    ensures NodeOK(h, id, CommitByVote(id, n, commit, commitTerm))
  {
    hide NodeOK, HasConf;
    if commitTerm != 0 {
      MaybeCommitOK(h, id, n, commit, commitTerm);
      var n' := MaybeCommit(n, commit, commitTerm);
      FollowerOK(h, id, n', n'.term, INVALID_ID);
    }
  }

  /** What an outcome has to keep for the node that handled the message. */
  ghost predicate GoodStep(cfg: Settings, h: History, id: nat, n': Node, reply: Reply, h': History) {
    && Grows(h, h') && HistoryOK(cfg, h') && (forall q :: q != id ==> Untouched(h, h', q))
    && NodeOK(h', id, n')
    && (reply.Send? ==> MessageOK(h', reply.m))
  }

  lemma QuietStep(cfg: Settings, h: History, id: nat, n': Node, reply: Reply)
    requires HistoryOK(cfg, h) && NodeOK(h, id, n') && (reply.Send? ==> MessageOK(h, reply.m))
    ensures GoodStep(cfg, h, id, n', reply, h)
  {
    hide NodeOK, HistoryOK, MessageOK;
  }

  /** A vote can only go to a candidate whose log ends in an older term than the vote. */
  lemma VoterLogIsOlder(cfg: Settings, h: History, n: Node, m: Message)
    requires HistoryOK(cfg, h) && m.Vote? && !m.pre && MessageOK(h, m) && m.term == n.term && LogOK(h, n.log)
    requires UpToDate(n.log, m.index, m.logTerm)
    ensures TermsBelow(n.log, |n.log|, n.term)
  {
    var b := h.ballots[(m.from, m.term)];
    assert BallotOK(h, m.from, m.term);
    assert m.logTerm < m.term;
    forall i | 0 <= i < |n.log|
      ensures n.log[i].term < n.term
    {
      hide ReignOK, BallotOK;
      Sorted(cfg, h, n.log, i, |n.log| - 1);
    }
  }

  lemma GrantOK(cfg: Settings, h: History, id: nat, n: Node, m: Message)
    requires HistoryOK(cfg, h) && NodeOK(h, id, n) && m.Vote? && !m.pre && MessageOK(h, m) && m.term == n.term
    requires n.vote == m.from || n.vote == INVALID_ID
    requires UpToDate(n.log, m.index, m.logTerm)
    ensures var n' := n.(vote := m.from);
            GoodStep(cfg, h, id, n', Send(VoteResp(false, id, m.from, m.term, false, 0, 0)), Cast(h, id, m.term, m.from, n.log))
  {
    hide HistoryOK;
    VoterLogIsOlder(cfg, h, n, m);
    CastOK(cfg, h, id, m.term, m.from, n.log);
    CastGrows(h, id, m.term, m.from, n.log);
    var h' := Cast(h, id, m.term, m.from, n.log);
    LogGrows(h, h', n.log);
    assert (id, n.term) in h.ballots ==> n.vote == m.from by {
      BallotNamesOne(cfg, h, id, n.term);
    }
  }

  lemma BallotNamesOne(cfg: Settings, h: History, p: nat, t: nat)
    requires HistoryOK(cfg, h)
    ensures (p, t) in h.ballots ==> h.ballots[(p, t)].candidate != INVALID_ID
  {
    if (p, t) in h.ballots {
      assert BallotOK(h, p, t);
    }
  }

  lemma VoteOK(cfg: Settings, h: History, id: nat, n: Node, m: Message)
    requires HistoryOK(cfg, h) && NodeOK(h, id, n) && m.Vote? && MessageOK(h, m)
    requires !m.pre ==> m.term == n.term
    ensures var o := HandleVote(cfg, id, n, m);
            o.Next? ==> GoodStep(cfg, h, id, o.node, o.reply, TrackReply(h, id, n, o.node, m, o.reply))
  {
    hide HistoryOK, NodeOK, GoodStep, UpToDate;
    var o := HandleVote(cfg, id, n, m);
    NamedNode(h, id, n);
    if o.Next? {
      if o.reply.m.reject {
        CommitByVoteOK(h, id, n, m.commit, m.commitTerm);
        QuietStep(cfg, h, id, o.node, o.reply);
      } else if m.pre {
        QuietStep(cfg, h, id, o.node, o.reply);
      } else {
        GrantOK(cfg, h, id, n, m);
      }
    }
  }

  /** Storing the state is no change the protocol sees. */
  lemma SavingOK(h: History, id: nat, n: Node)
    requires NodeOK(h, id, n)
    ensures NodeOK(h, id, Saving(n))
  {
  }

  lemma StoredOK(cfg: Settings, h: History, id: nat, was: Node, m: Message, o: Outcome)
    requires o.Next? ==> GoodStep(cfg, h, id, o.node, o.reply, TrackReply(h, id, was, o.node, m, o.reply))
    ensures var o' := Stored(o);
            o'.Next? ==> GoodStep(cfg, h, id, o'.node, o'.reply, TrackReply(h, id, was, o'.node, m, o'.reply))
  {
    hide NodeOK, HistoryOK, MessageOK, Grows, Untouched, Cast, Elect, Ack;
    if o.Next? && o.reply.Send? {
      SavingOK(TrackReply(h, id, was, o.node, m, o.reply), id, o.node);
    }
  }

  /** `handle_append_entries` leaves a log that is still in order, in either reading of `find_conflict`. */
  lemma AppendedOK(cfg: Settings, h: History, documented: bool, n: Node, m: Message)
    requires HistoryOK(cfg, h) && LogOK(h, n.log) && TermsBelow(n.log, |n.log|, n.term + 1) && n.committed <= |n.log|
    requires m.App? && MessageOK(h, m) && m.term == n.term
    requires n.committed <= m.index
    ensures var a := MaybeAppend(documented, n.log, n.committed, m.index, m.logTerm, m.entries, m.commit);
            a.Appended? ==> LogOK(h, a.log) && TermsBelow(a.log, |a.log|, n.term + 1) && a.committed <= |a.log|
  {
    hide HistoryOK, LogOK, TermsBelow, FindConflict, TermAt, MessageOK;
    var a := MaybeAppend(documented, n.log, n.committed, m.index, m.logTerm, m.entries, m.commit);
    var c := FindConflict(documented, n.log, m.index, m.entries);
    if a.Appended? && c != 0 {
      SplicedOK(cfg, h, documented, n.log, m);
    }
  }

  /** Entries that conflict are a stretch of the leader's log, anchored in this one. */
  lemma EntriesOfLeader(h: History, documented: bool, log: Log, m: Message)
    requires m.App? && MessageOK(h, m) && TermAt(log, m.index) == m.logTerm
    requires var c := FindConflict(documented, log, m.index, m.entries); c != 0 && c - 1 <= |log|
    ensures m.term in h.reigns
    ensures var leader := h.reigns[m.term].log;
            && StretchOf(leader, m.index, m.entries) && m.index + |m.entries| <= |leader|
            && TermAt(log, m.index) == TermAt(leader, m.index) && m.index <= |log|
  {
  }

  lemma SplicedOK(cfg: Settings, h: History, documented: bool, log: Log, m: Message)
    requires HistoryOK(cfg, h) && LogOK(h, log) && m.App? && MessageOK(h, m) && TermAt(log, m.index) == m.logTerm
    requires var c := FindConflict(documented, log, m.index, m.entries); c != 0 && c - 1 <= |log|
    ensures var c := FindConflict(documented, log, m.index, m.entries);
            var log' := log[..c - 1] + m.entries[c - (m.index + 1)..];
            LogOK(h, log') && TermsBelow(log', |log'|, m.term + 1)
  {
    hide HistoryOK, LogOK, MessageOK, TermAt, FindConflict, TermsBelow, StretchOf;
    EntriesOfLeader(h, documented, log, m);
    var leader := h.reigns[m.term].log;
    ReignLogOK(cfg, h, m.term);
    AnchorTerm(cfg, h, leader, m.index);
    SplicedIsPrefix(h, documented, log, leader, m.index, m.entries);
    LeaderPrefixOK(cfg, h, m.term, m.index + |m.entries|);
  }

  lemma AnchorTerm(cfg: Settings, h: History, log: Log, index: nat)
    requires HistoryOK(cfg, h) && LogOK(h, log) && index <= |log|
    ensures index == 0 || log[index - 1].term > 0
  {
    hide HistoryOK, LogOK;
    if index > 0 {
      Sorted(cfg, h, log, index - 1, index - 1);
    }
  }

  lemma LeaderPrefixOK(cfg: Settings, h: History, t: nat, k: nat)
    requires HistoryOK(cfg, h) && t in h.reigns && k <= |h.reigns[t].log|
    ensures var log := h.reigns[t].log[..k]; LogOK(h, log) && TermsBelow(log, k, t + 1)
  {
    hide HistoryOK, LogOK, TermsBelow;
    ReignLogOK(cfg, h, t);
    PrefixOK(h, h.reigns[t].log, k);
    PrefixTerms(cfg, h, t, h.reigns[t].log[..k]);
  }

  lemma PrefixTerms(cfg: Settings, h: History, t: nat, log: Log)
    requires HistoryOK(cfg, h) && t in h.reigns && |log| <= |h.reigns[t].log| && log == h.reigns[t].log[..|log|]
    ensures TermsBelow(log, |log|, t + 1)
  {
    hide ReignOK, BallotOK;
    forall i | 0 <= i < |log|
      ensures log[i].term < t + 1
    {
      ReignTerms(cfg, h, t, i);
    }
  }

  lemma ReignLogOK(cfg: Settings, h: History, t: nat)
    requires HistoryOK(cfg, h) && t in h.reigns
    ensures LogOK(h, h.reigns[t].log)
  {
    assert ReignOK(cfg, h, t);
  }

  /** A follower may replace its log by any other that is in order. */
  lemma NewLogOK(h: History, id: nat, n: Node, log: Log, committed: nat)
    requires NodeOK(h, id, n) && n.role == Follower && LogOK(h, log) && TermsBelow(log, |log|, n.term + 1) && committed <= |log|
    ensures NodeOK(h, id, Saving(n.(log := log, committed := committed)))
  {
  }

  lemma AckStep(cfg: Settings, h: History, id: nat, n': Node, reply: Reply, term: nat, k: nat)
    requires HistoryOK(cfg, h) && NodeOK(h, id, n') && (reply.Send? ==> MessageOK(h, reply.m))
    ensures GoodStep(cfg, h, id, n', reply, Ack(h, id, term, k))
  {
    hide NodeOK, HistoryOK, MessageOK, Grows, Untouched;
    AckOK(cfg, h, id, term, k);
    AckGrows(h, id, term, k);
    NodeGrows(h, Ack(h, id, term, k), id, n');
    if reply.Send? {
      MessageGrows(h, Ack(h, id, term, k), reply.m);
    }
  }

  lemma AppendOK(cfg: Settings, h: History, id: nat, was: Node, n: Node, m: Message)
    requires HistoryOK(cfg, h) && NodeOK(h, id, n) && m.App? && MessageOK(h, m) && m.term == n.term && n.role == Follower
    ensures var o := Stored(HandleAppend(cfg, id, n, m));
            o.Next? ==> GoodStep(cfg, h, id, o.node, o.reply, TrackReply(h, id, was, o.node, m, o.reply))
  {
    hide HistoryOK, GoodStep, MaybeAppend, FindConflict, FindConflictByTerm, ResetPersisted, Ack;
    var o := Stored(HandleAppend(cfg, id, n, m));
    SavingOK(h, id, n);
    if m.index < n.committed {
      AckStep(cfg, h, id, o.node, o.reply, n.term, n.committed);
    } else {
      AppendedOK(cfg, h, cfg.documented, n, m);
      var a := MaybeAppend(cfg.documented, n.log, n.committed, m.index, m.logTerm, m.entries, m.commit);
      if a.Appended? {
        NewLogOK(h, id, n, a.log, a.committed);
        AckStep(cfg, h, id, o.node, o.reply, n.term, a.last);
      } else if a.Rejected? {
        QuietStep(cfg, h, id, o.node, o.reply);
      }
    }
  }

  lemma HeartbeatOK(cfg: Settings, h: History, id: nat, was: Node, n: Node, m: Message)
    requires HistoryOK(cfg, h) && NodeOK(h, id, n) && m.Heartbeat? && MessageOK(h, m) && m.term == n.term
    ensures var o := HandleHeartbeat(id, n, m);
            o.Next? ==> GoodStep(cfg, h, id, o.node, o.reply, TrackReply(h, id, was, o.node, m, o.reply))
  {
    hide HistoryOK, GoodStep;
    var o := HandleHeartbeat(id, n, m);
    if o.Next? {
      QuietStep(cfg, h, id, o.node, o.reply);
    }
  }

  /** Winning candidates take over a term nobody has won yet. */
  lemma WinOK(cfg: Settings, h: History, id: nat, n: Node, voters: set<nat>)
    requires cfg.voters.incoming != {}
    requires HistoryOK(cfg, h) && NodeOK(h, id, n) && n.role == Candidate && n.persisted == |n.log|
    requires HasQuorum(cfg.voters, voters) && forall p :: p in voters ==> Voted(h, p, n.term, id)
    ensures var o := BecomeLeader(id, n);
            var h' := Ack(Elect(h, n.term, id, voters, |n.log|, o.node.log), id, n.term, |n.log|);
            o.Next? && n.term !in h.reigns && GoodStep(cfg, h, id, o.node, Silent, h')
  {
    hide HasQuorum, HistoryOK, Ack;
    if n.term in h.reigns {
      OneWinner(cfg, h, n.term, id, voters);
    }
    BallotTerms(cfg, h, id, n.term);
    var log' := n.log + [Entry(n.term, false, NOOP)];
    ElectOK(cfg, h, n.term, id, voters, n.log);
    var e := Elect(h, n.term, id, voters, |n.log|, log');
    ElectGrows(h, n.term, id, voters, |n.log|, log');
    ElectedLogOK(h, n.term, id, voters, n.log);
    var n' := BecomeLeader(id, n).node;
    assert NodeOK(e, id, n');
    AckAfter(cfg, h, e, id, n', n.term, |n.log|);
  }

  lemma AckAfter(cfg: Settings, h: History, e: History, id: nat, n': Node, term: nat, k: nat)
    requires Grows(h, e) && HistoryOK(cfg, e) && (forall q :: q != id ==> Untouched(h, e, q)) && NodeOK(e, id, n')
    ensures GoodStep(cfg, h, id, n', Silent, Ack(e, id, term, k))
  {
    hide HistoryOK, NodeOK;
    AckOK(cfg, e, id, term, k);
    AckGrows(e, id, term, k);
    NodeGrows(e, Ack(e, id, term, k), id, n');
    hide Ack, Untouched;
    GrowsTrans(h, e, Ack(e, id, term, k));
    forall q | q != id
      ensures Untouched(h, Ack(e, id, term, k), q)
    {
      UntouchedTrans(h, e, Ack(e, id, term, k), q);
    }
  }

  lemma UntouchedTrans(a: History, b: History, c: History, q: nat)
    requires Untouched(a, b, q) && Untouched(b, c, q)
    ensures Untouched(a, c, q)
  {
  }

  lemma NamedNode(h: History, id: nat, n: Node)
    requires NodeOK(h, id, n)
    ensures id != INVALID_ID
  {
  }

  lemma GrowsTrans(a: History, b: History, c: History)
    requires Grows(a, b) && Grows(b, c)
    ensures Grows(a, c)
  {
    forall t | t in a.reigns
      ensures t in c.reigns && ReignGrows(a.reigns[t], c.reigns[t])
    {
      assert ReignGrows(a.reigns[t], b.reigns[t]) && ReignGrows(b.reigns[t], c.reigns[t]);
      var n := |a.reigns[t].log|;
      assert c.reigns[t].log[..n] == c.reigns[t].log[..|b.reigns[t].log|][..n];
    }
    forall p, t
      ensures AckOf(a, p, t) <= AckOf(c, p, t)
    {
      assert AckOf(a, p, t) <= AckOf(b, p, t) <= AckOf(c, p, t);
    }
  }

  lemma BallotTerms(cfg: Settings, h: History, p: nat, t: nat)
    requires HistoryOK(cfg, h)
    ensures (p, t) in h.ballots ==>
              var b := h.ballots[(p, t)]; t > 0 && TermsBelow(b.log, |b.log|, t) && LogOK(h, b.log) && b.candidate != INVALID_ID
  {
    if (p, t) in h.ballots {
      assert BallotOK(h, p, t);
    }
  }

  lemma PollOK(h: History, id: nat, n: Node, m: Message)
    requires NodeOK(h, id, n) && n.role == Candidate && m.VoteResp? && !m.pre && MessageOK(h, m) && m.term == n.term && m.to == id
    ensures var n' := n.(votes := RecordVote(n.votes, m.from, !m.reject));
            NodeOK(h, id, n') && forall p :: p in YesIds(n'.votes) ==> Voted(h, p, n.term, id)
  {
  }

  lemma VoteResponseOK(cfg: Settings, h: History, id: nat, n: Node, m: Message)
    requires cfg.voters.incoming != {}
    requires HistoryOK(cfg, h) && NodeOK(h, id, n) && n.role == Candidate
    requires m.VoteResp? && !m.pre && MessageOK(h, m) && m.term == n.term && m.to == id
    ensures var o := HandleVoteResponse(cfg, id, n, m);
            o.Next? ==> GoodStep(cfg, h, id, o.node, o.reply, TrackReply(h, id, n, o.node, m, o.reply))
  {
    hide HistoryOK, GoodStep, JointVote, Elect, Ack;
    var o := HandleVoteResponse(cfg, id, n, m);
    PollOK(h, id, n, m);
    var votes := RecordVote(n.votes, m.from, !m.reject);
    var n1 := n.(votes := votes);
    assert n.persisted == |n.log|;
    match JointVote(cfg.voters, votes) {
      case Won =>
        WonQuorum(cfg, votes);
        WinOK(cfg, h, id, n, YesIds(votes));
      case Lost =>
        FollowerOK(h, id, n, n.term, INVALID_ID);
        var f := BecomeFollower(id, n, n.term, INVALID_ID);
        CommitByVoteOK(h, id, f, m.commit, m.commitTerm);
        CommitByVoteRole(id, f, m.commit, m.commitTerm);
        QuietStep(cfg, h, id, o.node, o.reply);
      case Pending =>
        CommitByVoteOK(h, id, n1, m.commit, m.commitTerm);
        CommitByVoteRole(id, n1, m.commit, m.commitTerm);
        QuietStep(cfg, h, id, o.node, o.reply);
    }
  }

  lemma CommitByVoteRole(id: nat, n: Node, commit: nat, commitTerm: nat)
    ensures CommitByVote(id, n, commit, commitTerm).role == Leader ==> n.role == Leader
  {
    hide HasConf;
  }

  lemma WonQuorum(cfg: Settings, votes: Votes)
    requires JointVote(cfg.voters, votes) == Won
    ensures HasQuorum(cfg.voters, YesIds(votes))
  {
    WonIsMajority(cfg.voters, votes);
    HasQuorumIsMajority(cfg.voters, YesIds(votes));
  }

  lemma LeaderCommitOK(cfg: Settings, h: History, id: nat, n: Node)
    requires NodeOK(h, id, n) && n.term > 0
    ensures NodeOK(h, id, LeaderCommit(cfg, n))
  {
    hide NodeOK;
    MaybeCommitOK(h, id, n, JointIndex(cfg.voters, cfg.groupCommit, AckMap(cfg, n)), n.term);
  }

  lemma MatchedOK(h: History, id: nat, n: Node, matched: map<nat, nat>)
    requires NodeOK(h, id, n)
    ensures NodeOK(h, id, n.(matched := matched)) && NodeOK(h, id, n.(leaderId := INVALID_ID))
  {
  }

  lemma LeaderIdOK(h: History, id: nat, n: Node, leader: nat)
    requires NodeOK(h, id, n)
    ensures NodeOK(h, id, n.(leaderId := leader))
  {
  }

  lemma AppendResponseOK(cfg: Settings, h: History, id: nat, n: Node, m: Message)
    requires HistoryOK(cfg, h) && NodeOK(h, id, n) && m.AppResp? && n.term > 0
    ensures GoodStep(cfg, h, id, HandleAppendResponse(cfg, n, m), Silent, h)
  {
    hide HistoryOK, NodeOK, GoodStep, LeaderCommit;
    var n1 := n.(matched := n.matched[m.from := m.index]);
    MatchedOK(h, id, n, n1.matched);
    LeaderCommitOK(cfg, h, id, n1);
    QuietStep(cfg, h, id, HandleAppendResponse(cfg, n, m), Silent);
  }

  /** The message has the node's term, or is a pre-vote or a granted pre-vote of a later one. */
  lemma ByRoleOK(cfg: Settings, h: History, id: nat, was: Node, n: Node, m: Message)
    requires cfg.voters.incoming != {}
    requires HistoryOK(cfg, h) && NodeOK(h, id, n) && MessageOK(h, m) && m.to == id
    requires m.term == n.term || (m.Vote? && m.pre) || (m.VoteResp? && m.pre)
    requires n == was || n.role == Follower
    ensures var o := Stored(StepByRole(cfg, id, n, m));
            o.Next? ==> GoodStep(cfg, h, id, o.node, o.reply, TrackReply(h, id, was, o.node, m, o.reply))
  {
    hide HistoryOK, NodeOK, GoodStep, HandleVote, HandleAppend, HandleHeartbeat, HandleVoteResponse, HandleAppendResponse, Stored, TrackReply;
    if m.App? && n.role != Leader {
      FollowerOK(h, id, n, m.term, m.from);
      LeaderIdOK(h, id, n, m.from);
      AppendOK(cfg, h, id, was, if n.role == Candidate then BecomeFollower(id, n, m.term, m.from) else n.(leaderId := m.from), m);
    } else {
      OtherByRoleOK(cfg, h, id, was, n, m);
      StoredOK(cfg, h, id, was, m, StepByRole(cfg, id, n, m));
    }
  }

  lemma OtherByRoleOK(cfg: Settings, h: History, id: nat, was: Node, n: Node, m: Message)
    requires cfg.voters.incoming != {}
    requires HistoryOK(cfg, h) && NodeOK(h, id, n) && MessageOK(h, m) && m.to == id
    requires m.term == n.term || (m.Vote? && m.pre) || (m.VoteResp? && m.pre)
    requires (n == was || n.role == Follower) && (m.App? ==> n.role == Leader)
    ensures var o := StepByRole(cfg, id, n, m);
            o.Next? ==> GoodStep(cfg, h, id, o.node, o.reply, TrackReply(h, id, was, o.node, m, o.reply))
  {
    hide HistoryOK, NodeOK, GoodStep, HandleVote, HandleAppend, HandleHeartbeat, HandleVoteResponse, HandleAppendResponse;
    var o := StepByRole(cfg, id, n, m);
    QuietStep(cfg, h, id, n, Silent);
    if m.Vote? {
      VoteOK(cfg, h, id, n, m);
      VoteIsNoWin(cfg, id, n, m);
    } else if n.role == Leader {
      if m.AppResp? {
        AppendResponseOK(cfg, h, id, n, m);
      }
    } else if m.Heartbeat? {
      FollowerOK(h, id, n, m.term, m.from);
      LeaderIdOK(h, id, n, m.from);
      var f := if n.role == Candidate then BecomeFollower(id, n, m.term, m.from) else n.(leaderId := m.from);
      HeartbeatOK(cfg, h, id, was, f, m);
    } else if n.role == Candidate {
      if m.VoteResp? && !m.pre {
        VoteResponseOK(cfg, h, id, n, m);
      }
    } else if m.ReadIndexResp? {
      MaybeCommitOK(h, id, n, m.index, m.term);
      QuietStep(cfg, h, id, o.node, Silent);
    }
  }

  lemma VoteIsNoWin(cfg: Settings, id: nat, n: Node, m: Message)
    requires m.Vote?
    ensures var o := HandleVote(cfg, id, n, m); o.Next? ==> o.reply.Send?
  {
    hide UpToDate, CommitByVote;
  }

  lemma StepOK(cfg: Settings, h: History, id: nat, n: Node, m: Message)
    requires cfg.voters.incoming != {}
    requires HistoryOK(cfg, h) && NodeOK(h, id, n) && MessageOK(h, m) && m.to == id
    ensures var o := Serve(cfg, id, n, m);
            o.Next? ==> GoodStep(cfg, h, id, o.node, o.reply, TrackReply(h, id, n, o.node, m, o.reply))
  {
    hide HistoryOK, NodeOK, GoodStep, StepByRole, CatchUp, Stored, TrackReply;
    if m.term < n.term {
      LowerTermOK(cfg, h, id, n, m);
      StoredOK(cfg, h, id, n, m, Step(cfg, id, n, m));
    } else {
      CatchUpOK(h, id, n, m);
      CatchUpTerm(id, n, m);
      ByRoleOK(cfg, h, id, n, CatchUp(id, n, m), m);
    }
  }

  lemma LowerTermOK(cfg: Settings, h: History, id: nat, n: Node, m: Message)
    requires HistoryOK(cfg, h) && NodeOK(h, id, n) && 0 < m.term < n.term
    ensures var o := Step(cfg, id, n, m);
            o.Next? ==> GoodStep(cfg, h, id, o.node, o.reply, TrackReply(h, id, n, o.node, m, o.reply))
  {
    hide HistoryOK, NodeOK, GoodStep, StepByRole;
    NamedNode(h, id, n);
    QuietStep(cfg, h, id, n, Step(cfg, id, n, m).reply);
  }

  lemma CatchUpTerm(id: nat, n: Node, m: Message)
    requires m.term >= n.term
    ensures var n' := CatchUp(id, n, m);
            && (m.term == n'.term || (m.Vote? && m.pre) || (m.VoteResp? && m.pre))
            && (n' == n || n'.role == Follower)
  {
  }
}
