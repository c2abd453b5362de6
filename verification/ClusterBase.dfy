/**
  What every run keeps whichever reading of `find_conflict` is in force:
  election safety and log matching.
 */
module ClusterBase {
  import opened Quorum
  import opened Raft
  import opened Cluster

  // ------------------------------------------------------------ invariants

  /** Every prefix of `log` that ends in term t is a prefix of what the leader of t had. */
  ghost predicate LogOK(h: History, log: Log) {
    forall i :: 0 <= i < |log| ==> EntryOK(h, log, i)
  }

  ghost predicate EntryOK(h: History, log: Log, i: nat)
    requires i < |log|
  {
    var t := log[i].term;
    t in h.reigns && i < |h.reigns[t].log| && log[..i + 1] == h.reigns[t].log[..i + 1]
  }

  predicate TermsBelow(log: Log, n: nat, term: nat)
    requires n <= |log|
  {
    forall i :: 0 <= i < n ==> log[i].term < term
  }

  ghost predicate Voted(h: History, p: nat, term: nat, c: nat) {
    (p, term) in h.ballots && h.ballots[(p, term)].candidate == c
  }

  ghost predicate ReignOK(cfg: Settings, h: History, term: nat)
    requires term in h.reigns
  {
    var r := h.reigns[term];
    && term > 0 && r.base < |r.log| && r.at < |h.reigns|
    && HasQuorum(cfg.voters, r.voters)
    && (forall p :: p in r.voters ==> Voted(h, p, term, r.leader))
    && Voted(h, r.leader, term, r.leader)
    && h.ballots[(r.leader, term)].log == r.log[..r.base]
    && (forall i :: 0 <= i < r.base ==> OlderReign(h, r.log[i].term, term))
    && (forall i :: r.base <= i < |r.log| ==> r.log[i].term == term)
    && LogOK(h, r.log)
  }

  /** `t` is an earlier term, and its leader was elected before the one of `term`. */
  ghost predicate OlderReign(h: History, t: nat, term: nat)
    requires term in h.reigns
  {
    t < term && t in h.reigns && h.reigns[t].at < h.reigns[term].at
  }

  ghost predicate BallotOK(h: History, p: nat, term: nat)
    requires (p, term) in h.ballots
  {
    var b := h.ballots[(p, term)];
    && term > 0 && b.candidate != INVALID_ID
    && LogOK(h, b.log) && TermsBelow(b.log, |b.log|, term)
    && Voted(h, b.candidate, term, b.candidate)
    && UpToDate(b.log, |h.ballots[(b.candidate, term)].log|, LastTerm(h.ballots[(b.candidate, term)].log))
  }

  ghost predicate HistoryOK(cfg: Settings, h: History) {
    && (forall term :: term in h.reigns ==> ReignOK(cfg, h, term))
    && (forall p, term :: (p, term) in h.ballots ==> BallotOK(h, p, term))
  }

  ghost predicate VotesOK(h: History, p: nat, n: Node) {
    && (forall term :: (p, term) in h.ballots ==>
          term <= n.term && (term == n.term ==> n.vote == h.ballots[(p, term)].candidate))
    && (n.vote != INVALID_ID ==> (p, n.term) in h.ballots)
  }

  ghost predicate CandidateOK(h: History, p: nat, n: Node) {
    n.role == Candidate ==>
      && Voted(h, p, n.term, p)
      && n.log == h.ballots[(p, n.term)].log && n.persisted == |n.log|
      && (forall q :: q in n.votes && n.votes[q] ==> Voted(h, q, n.term, p))
      && (n.term in h.reigns ==> h.reigns[n.term].leader != p)
  }

  ghost predicate LeaderOK(h: History, p: nat, n: Node) {
    n.role == Leader ==>
      n.term in h.reigns && h.reigns[n.term].leader == p && h.reigns[n.term].log == n.log
  }

  ghost predicate NodeOK(h: History, p: nat, n: Node) {
    && p != INVALID_ID
    && LogOK(h, n.log) && TermsBelow(n.log, |n.log|, n.term + 1)
    && n.persisted <= |n.log| && n.committed <= |n.log|
    && VotesOK(h, p, n) && CandidateOK(h, p, n) && LeaderOK(h, p, n)
  }

  /** The entries of an append message are a stretch of its leader's log. */
  ghost predicate SegmentOK(h: History, m: Message)
    requires m.App?
  {
    && m.term in h.reigns
    && var log := h.reigns[m.term].log;
       if m.index + |m.entries| <= |log| && m.entries == log[m.index..m.index + |m.entries|] && m.logTerm == TermAt(log, m.index) then true
       else m.entries == [] && m.logTerm == 0 && m.index > 0
  }

  ghost predicate MessageOK(h: History, m: Message) {
    && m.term > 0 && m.from != INVALID_ID
    && match m
       case Vote(pre, from, _, term, index, logTerm, _, _, _) =>
         !pre ==> Voted(h, from, term, from) && index == |h.ballots[(from, term)].log| && logTerm == LastTerm(h.ballots[(from, term)].log)
       case VoteResp(pre, from, to, term, reject, _, _) => !pre && !reject ==> Voted(h, from, term, to)
       case App(_, _, _, _, _, _, _) => SegmentOK(h, m)
       case _ => true
  }

  ghost predicate BaseInv(cfg: Settings, s: State, h: History) {
    && HistoryOK(cfg, h)
    && (forall p :: p in s.nodes ==> NodeOK(h, p, s.nodes[p]))
    && (forall m :: m in s.msgs ==> MessageOK(h, m))
  }

  // ------------------------------------------------------------- growth

  /** History only grows: reigns keep their election and extend their log. */
  ghost predicate Grows(h: History, h': History) {
    && (forall t :: t in h.reigns ==> t in h'.reigns && ReignGrows(h.reigns[t], h'.reigns[t]))
    && (forall b :: b in h.ballots ==> b in h'.ballots && h'.ballots[b] == h.ballots[b])
    && (forall p, t :: AckOf(h, p, t) <= AckOf(h', p, t))
  }

  ghost predicate ReignGrows(r: Reign, r': Reign) {
    && r'.leader == r.leader && r'.voters == r.voters && r'.base == r.base && r'.at == r.at
    && |r.log| <= |r'.log| && r'.log[..|r.log|] == r.log
  }

  lemma LogGrows(h: History, h': History, log: Log)
    requires Grows(h, h') && LogOK(h, log)
    ensures LogOK(h', log)
  {
    forall i | 0 <= i < |log|
      ensures EntryOK(h', log, i)
    {
      assert EntryOK(h, log, i);
      var r, r' := h.reigns[log[i].term], h'.reigns[log[i].term];
      assert ReignGrows(r, r');
      assert r'.log[..i + 1] == r'.log[..|r.log|][..i + 1];
    }
  }

  lemma MessageGrows(h: History, h': History, m: Message)
    requires Grows(h, h') && MessageOK(h, m)
    ensures MessageOK(h', m)
  {
    if m.App? {
      var r, r' := h.reigns[m.term], h'.reigns[m.term];
      assert ReignGrows(r, r');
      if m.index + |m.entries| <= |r.log| && m.entries == r.log[m.index..m.index + |m.entries|] && m.logTerm == TermAt(r.log, m.index) {
        assert r'.log[..|r.log|][m.index..m.index + |m.entries|] == r'.log[m.index..m.index + |m.entries|];
        assert TermAt(r'.log, m.index) == TermAt(r'.log[..|r.log|], m.index);
      }
    }
  }

  /** The event was not about `q`: its ballots and its reign are untouched. */
  ghost predicate Untouched(h: History, h': History, q: nat) {
    && (forall t :: (q, t) in h'.ballots ==> (q, t) in h.ballots)
    && (forall t :: t in h'.reigns && h'.reigns[t].leader == q ==> t in h.reigns && h'.reigns[t] == h.reigns[t])
  }

  lemma NodeGrows(h: History, h': History, q: nat, n: Node)
    requires Grows(h, h') && NodeOK(h, q, n) && Untouched(h, h', q)
    ensures NodeOK(h', q, n)
  {
    LogGrows(h, h', n.log);
    if n.term in h.reigns {
      assert ReignGrows(h.reigns[n.term], h'.reigns[n.term]);
    }
  }

  /** One node moved: what is left to show is about that node, its messages and the history. */
  lemma OneNode(cfg: Settings, s: State, h: History, s': State, h': History, id: nat)
    requires BaseInv(cfg, s, h) && Grows(h, h') && HistoryOK(cfg, h')
    requires s'.nodes.Keys == s.nodes.Keys && forall q :: q in s.nodes && q != id ==> s'.nodes[q] == s.nodes[q]
    requires forall q :: q in s.nodes && q != id ==> Untouched(h, h', q)
    requires id in s'.nodes ==> NodeOK(h', id, s'.nodes[id])
    requires forall m :: m in s'.msgs && m !in s.msgs ==> MessageOK(h', m)
    ensures BaseInv(cfg, s', h')
  {
    hide MessageOK, NodeOK, HistoryOK, Grows, Untouched;
    forall q | q in s'.nodes
      ensures NodeOK(h', q, s'.nodes[q])
    {
      if q != id {
        NodeGrows(h, h', q, s.nodes[q]);
      }
    }
    forall m | m in s'.msgs
      ensures MessageOK(h', m)
    {
      if m in s.msgs {
        MessageGrows(h, h', m);
      }
    }
  }

  lemma Unchanged(h: History, q: nat)
    ensures Grows(h, h) && Untouched(h, h, q)
  {
  }

  // ------------------------------------------------------ history events

  lemma ReignStays(cfg: Settings, h: History, h': History, term: nat)
    requires Grows(h, h') && term in h.reigns && ReignOK(cfg, h, term)
    requires h'.reigns[term] == h.reigns[term] && |h.reigns| <= |h'.reigns|
    ensures ReignOK(cfg, h', term)
  {
    LogGrows(h, h', h.reigns[term].log);
    var r := h.reigns[term];
    forall i | 0 <= i < r.base
      ensures OlderReign(h', r.log[i].term, term)
    {
      assert OlderReign(h, r.log[i].term, term);
      assert ReignGrows(h.reigns[r.log[i].term], h'.reigns[r.log[i].term]);
    }
  }

  lemma BallotStays(h: History, h': History, p: nat, term: nat)
    requires Grows(h, h') && (p, term) in h.ballots && BallotOK(h, p, term)
    ensures BallotOK(h', p, term)
  {
    LogGrows(h, h', h.ballots[(p, term)].log);
  }

  lemma CastGrows(h: History, p: nat, term: nat, c: nat, log: Log)
    ensures var h' := Cast(h, p, term, c, log);
            Grows(h, h') && forall q :: q != p ==> Untouched(h, h', q)
  {
  }

  /** If no reign changed, the reigns and the old ballots stay in order. */
  lemma SameReigns(cfg: Settings, h: History, h': History)
    requires Grows(h, h') && HistoryOK(cfg, h) && h'.reigns == h.reigns
    ensures forall t :: t in h'.reigns ==> ReignOK(cfg, h', t)
    ensures forall q, t :: (q, t) in h.ballots ==> BallotOK(h', q, t)
  {
    hide ReignOK, BallotOK;
    forall t | t in h'.reigns
      ensures ReignOK(cfg, h', t)
    {
      ReignStays(cfg, h, h', t);
    }
    forall q, t | (q, t) in h.ballots
      ensures BallotOK(h', q, t)
    {
      BallotStays(h, h', q, t);
    }
  }

  /** A new ballot for a candidate that voted for itself and is at least as up to date. */
  lemma CastOK(cfg: Settings, h: History, p: nat, term: nat, c: nat, log: Log)
    requires HistoryOK(cfg, h)
    requires term > 0 && c != INVALID_ID && LogOK(h, log) && TermsBelow(log, |log|, term)
    requires p == c || (Voted(h, c, term, c)
                        && UpToDate(log, |h.ballots[(c, term)].log|, LastTerm(h.ballots[(c, term)].log)))
    ensures HistoryOK(cfg, Cast(h, p, term, c, log))
  {
    hide ReignOK;
    var h' := Cast(h, p, term, c, log);
    CastGrows(h, p, term, c, log);
    SameReigns(cfg, h, h');
    LogGrows(h, h', log);
    if (p, term) !in h.ballots {
      assert BallotOK(h', p, term);
    }
  }

  lemma AckGrows(h: History, p: nat, term: nat, k: nat)
    ensures var h' := Ack(h, p, term, k);
            Grows(h, h') && forall q :: Untouched(h, h', q)
  {
  }

  lemma AckOK(cfg: Settings, h: History, p: nat, term: nat, k: nat)
    requires HistoryOK(cfg, h)
    ensures HistoryOK(cfg, Ack(h, p, term, k))
  {
    hide ReignOK, BallotOK, Grows;
    AckGrows(h, p, term, k);
    SameReigns(cfg, h, Ack(h, p, term, k));
  }

  /** Two election quorums share a voter, who voted once: a term has one winner. */
  lemma OneWinner(cfg: Settings, h: History, term: nat, c: nat, voters: set<nat>)
    requires cfg.voters.incoming != {} && HistoryOK(cfg, h) && term in h.reigns
    requires HasQuorum(cfg.voters, voters) && forall p :: p in voters ==> Voted(h, p, term, c)
    ensures h.reigns[term].leader == c
  {
    hide HasQuorum;
    assert ReignOK(cfg, h, term);
    var p := QuorumsMeet(cfg.voters, voters, h.reigns[term].voters);
  }

  lemma ElectGrows(h: History, term: nat, leader: nat, voters: set<nat>, base: nat, log: Log)
    requires term !in h.reigns
    ensures var h' := Elect(h, term, leader, voters, base, log);
            && Grows(h, h') && |h'.reigns| == |h.reigns| + 1
            && forall q :: q != leader ==> Untouched(h, h', q)
  {
  }

  lemma ElectKeepsReign(h: History, term: nat, leader: nat, voters: set<nat>, base: nat, log: Log, t: nat)
    requires term !in h.reigns && t in Elect(h, term, leader, voters, base, log).reigns
    ensures var h' := Elect(h, term, leader, voters, base, log);
            && h'.ballots == h.ballots && |h.reigns| <= |h'.reigns|
            && (t != term ==> t in h.reigns && h'.reigns[t] == h.reigns[t])
  {
  }

  lemma ElectedLogOK(h: History, term: nat, leader: nat, voters: set<nat>, log: Log)
    requires term !in h.reigns && LogOK(h, log)
    ensures var log' := log + [Entry(term, false, NOOP)];
            LogOK(Elect(h, term, leader, voters, |log|, log'), log')
  {
    var log' := log + [Entry(term, false, NOOP)];
    var h' := Elect(h, term, leader, voters, |log|, log');
    ElectGrows(h, term, leader, voters, |log|, log');
    LogGrows(h, h', log);
    forall i | 0 <= i < |log'|
      ensures EntryOK(h', log', i)
    {
      if i < |log| {
        assert EntryOK(h', log, i);
        assert log'[..i + 1] == log[..i + 1];
      }
    }
  }

  /** Every term of a log in order belongs to an earlier election. */
  lemma EntryElected(cfg: Settings, h: History, log: Log, i: nat)
    requires HistoryOK(cfg, h) && LogOK(h, log) && i < |log|
    ensures log[i].term in h.reigns && h.reigns[log[i].term].at < |h.reigns|
  {
    assert EntryOK(h, log, i);
    assert ReignOK(cfg, h, log[i].term);
  }

  /** The reign of a fresh election is in order. */
  lemma ElectedReignOK(cfg: Settings, h: History, term: nat, c: nat, voters: set<nat>, log: Log)
    requires term !in h.reigns && term > 0
    requires LogOK(h, log) && TermsBelow(log, |log|, term)
    requires forall i :: 0 <= i < |log| ==> log[i].term in h.reigns && h.reigns[log[i].term].at < |h.reigns|
    requires HasQuorum(cfg.voters, voters) && forall p :: p in voters ==> Voted(h, p, term, c)
    requires Voted(h, c, term, c) && h.ballots[(c, term)].log == log
    ensures ReignOK(cfg, Elect(h, term, c, voters, |log|, log + [Entry(term, false, NOOP)]), term)
  {
    var log' := log + [Entry(term, false, NOOP)];
    var h' := Elect(h, term, c, voters, |log|, log');
    ElectedLogOK(h, term, c, voters, log);
    hide HasQuorum, LogOK;
    assert log'[..|log|] == log;
    forall i | 0 <= i < |log|
      ensures OlderReign(h', log'[i].term, term)
    {
      assert log'[i] == log[i];
    }
  }

  /** And so is every reign before it. */
  lemma ElectOK(cfg: Settings, h: History, term: nat, c: nat, voters: set<nat>, log: Log)
    requires HistoryOK(cfg, h) && term !in h.reigns && term > 0
    requires LogOK(h, log) && TermsBelow(log, |log|, term)
    requires HasQuorum(cfg.voters, voters) && forall p :: p in voters ==> Voted(h, p, term, c)
    requires Voted(h, c, term, c) && h.ballots[(c, term)].log == log
    ensures var h' := Elect(h, term, c, voters, |log|, log + [Entry(term, false, NOOP)]);
            Grows(h, h') && HistoryOK(cfg, h') && forall q :: q != c ==> Untouched(h, h', q)
  {
    hide ReignOK, BallotOK, Grows, Untouched, LogOK, HasQuorum;
    var log' := log + [Entry(term, false, NOOP)];
    var h' := Elect(h, term, c, voters, |log|, log');
    ElectGrows(h, term, c, voters, |log|, log');
    forall i | 0 <= i < |log| ensures log[i].term in h.reigns && h.reigns[log[i].term].at < |h.reigns| {
      EntryElected(cfg, h, log, i);
    }
    ElectedReignOK(cfg, h, term, c, voters, log);
    forall t | t in h'.reigns
      ensures ReignOK(cfg, h', t)
    {
      ElectKeepsReign(h, term, c, voters, |log|, log', t);
      if t != term {
        ReignStays(cfg, h, h', t);
      }
    }
    forall q, t | (q, t) in h'.ballots
      ensures BallotOK(h', q, t)
    {
      BallotStays(h, h', q, t);
    }
  }

  lemma ExtendGrows(h: History, term: nat, es: Log)
    requires term in h.reigns
    ensures var r := h.reigns[term];
            var h' := Extend(h, term, r.log + es);
            && Grows(h, h') && h'.reigns.Keys == h.reigns.Keys && |h'.reigns| == |h.reigns|
            && forall q :: q != r.leader ==> Untouched(h, h', q)
  {
    var r := h.reigns[term];
    var h' := Extend(h, term, r.log + es);
    assert h'.reigns.Keys == h.reigns.Keys;
    assert (r.log + es)[..|r.log|] == r.log;
  }

  lemma ExtendedLogOK(h: History, term: nat, es: Log)
    requires term in h.reigns && LogOK(h, h.reigns[term].log) && forall i :: 0 <= i < |es| ==> es[i].term == term
    ensures var log := h.reigns[term].log + es; LogOK(Extend(h, term, log), log)
  {
    var was := h.reigns[term].log;
    var log := was + es;
    var h' := Extend(h, term, log);
    ExtendGrows(h, term, es);
    LogGrows(h, h', was);
    forall i | 0 <= i < |log|
      ensures EntryOK(h', log, i)
    {
      if i < |was| {
        assert EntryOK(h', was, i);
        assert log[..i + 1] == was[..i + 1];
      }
    }
  }

  lemma ExtendedReignOK(cfg: Settings, h: History, term: nat, es: Log)
    requires term in h.reigns && ReignOK(cfg, h, term) && LogOK(h, h.reigns[term].log)
    requires forall i :: 0 <= i < |es| ==> es[i].term == term
    ensures ReignOK(cfg, Extend(h, term, h.reigns[term].log + es), term)
  {
    var r := h.reigns[term];
    var h' := Extend(h, term, r.log + es);
    ExtendGrows(h, term, es);
    ExtendedLogOK(h, term, es);
    assert (r.log + es)[..r.base] == r.log[..r.base];
    forall i | 0 <= i < r.base
      ensures OlderReign(h', (r.log + es)[i].term, term)
    {
      assert OlderReign(h, r.log[i].term, term);
    }
  }

  lemma ExtendOK(cfg: Settings, h: History, term: nat, es: Log)
    requires HistoryOK(cfg, h) && term in h.reigns && forall i :: 0 <= i < |es| ==> es[i].term == term
    ensures var r := h.reigns[term];
            var h' := Extend(h, term, r.log + es);
            && Grows(h, h') && HistoryOK(cfg, h')
            && forall q :: q != r.leader ==> Untouched(h, h', q)
  {
    hide ReignOK, BallotOK, Grows, Untouched, LogOK;
    var r := h.reigns[term];
    var h' := Extend(h, term, r.log + es);
    ExtendGrows(h, term, es);
    forall t | t in h'.reigns
      ensures ReignOK(cfg, h', t)
    {
      assert ReignOK(cfg, h, t);
      if t == term {
        ReignLog(cfg, h, t);
        ExtendedReignOK(cfg, h, term, es);
      } else {
        ReignStays(cfg, h, h', t);
      }
    }
    forall q, t | (q, t) in h'.ballots
      ensures BallotOK(h', q, t)
    {
      BallotStays(h, h', q, t);
    }
  }

  lemma ReignLog(cfg: Settings, h: History, t: nat)
    requires t in h.reigns && ReignOK(cfg, h, t)
    ensures LogOK(h, h.reigns[t].log)
  {
  }
}
