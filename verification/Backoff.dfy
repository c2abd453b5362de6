/** Finding where two logs part: how a leader's probes move after a rejection. */
module Backoff {
  import opened Common
  import opened Raft
  import P = Progress

  /** Terms never decrease along a log, and every entry has one. */
  ghost predicate Sorted(log: Log) {
    && (forall i :: 0 <= i < |log| ==> log[i].term >= 1)
    && forall i, j :: 0 <= i <= j < |log| ==> log[i].term <= log[j].term
  }

  /** The two logs have the same term at an index both reach. */
  predicate AgreeAt(a: Log, b: Log, i: nat) {
    i <= |a| && i <= |b| && TermAt(a, i) == TermAt(b, i)
  }

  /** Whether the follower takes an append anchored at `p` of the leader's log. */
  predicate Accepts(leader: Log, follower: Log, p: nat) {
    TermAt(follower, p) == TermAt(leader, p)
  }

  /** The follower's hint: the last index up to the probe whose term is no later than the probe's. */
  function Hint(leader: Log, follower: Log, p: nat): (nat, nat) {
    FindConflictByTerm(follower, if p <= |follower| then p else |follower|, TermAt(leader, p))
  }

  /** Where the leader would probe next: the same search in its own log, from the hint. */
  function MatchHint(leader: Log, follower: Log, p: nat): nat {
    var (hint, hintTerm) := Hint(leader, follower, p);
    if hintTerm > 0 then FindConflictByTerm(leader, hint, hintTerm).0 else hint
  }

  /** What the rejection makes of the leader's view of a follower it probes. */
  function Rejected(leader: Log, follower: Log, p: P.Peer): P.Peer
    requires p.nextIdx >= 1
  {
    P.Decreased(p, p.nextIdx - 1, MatchHint(leader, follower, p.nextIdx - 1), P.INVALID_INDEX)
  }

  /** The next probe after a rejection at `p`. */
  function NextProbe(leader: Log, follower: Log, p: nat): nat {
    var next := Max(1, Min(p, MatchHint(leader, follower, p) + 1));
    next - 1
  }

  /** The progress record moves to just that probe, and is free to send it. */
  lemma RejectionMovesProgress(leader: Log, follower: Log, p: P.Peer)
    requires p.state == P.Probe && p.nextIdx >= 1
    ensures var q := Rejected(leader, follower, p);
            q.nextIdx - 1 == NextProbe(leader, follower, p.nextIdx - 1) && !P.IsPaused(q) && q.matched == p.matched
  {
  }

  // ------------------------------------------------------------- the search

  /** What `find_conflict_by_term` finds: the last index up to `index` whose term is at most `term`. */
  lemma {:induction false} SearchIs(log: Log, index: nat, term: nat)
    ensures var (i, t) := FindConflictByTerm(log, index, term);
            && i <= index && t == TermAt(log, i) <= term
            && forall j :: i < j <= index ==> TermAt(log, j) > term
    decreases index
  {
    if TermAt(log, index) > term {
      SearchIs(log, index - 1, term);
    }
  }

  lemma TermsSorted(log: Log, i: nat, j: nat)
    requires Sorted(log) && i <= j <= |log|
    ensures TermAt(log, i) <= TermAt(log, j) && (TermAt(log, i) == 0 <==> i == 0)
  {
  }

  // ---------------------------------------------------------- one rejection

  /** What both searches settle, as plain facts about one rejected probe. */
  lemma RejectionFacts(leader: Log, follower: Log, p: nat)
    returns (h: nat, ht: nat, np: nat)
    requires Sorted(leader) && Sorted(follower) && p <= |leader| && !Accepts(leader, follower, p)
    ensures p >= 1 && (h, ht) == Hint(leader, follower, p) && np == MatchHint(leader, follower, p)
    ensures h <= p && h <= |follower| && ht == TermAt(follower, h) <= TermAt(leader, p)
    ensures np <= h && (if ht > 0 then TermAt(leader, np) <= ht else np == h == 0)
    ensures forall j :: h < j <= p && j <= |follower| ==> TermAt(follower, j) > TermAt(leader, p)
    ensures ht > 0 ==> forall j :: np < j <= h ==> TermAt(leader, j) > ht
  {
    h, ht := FindConflictByTerm(follower, if p <= |follower| then p else |follower|, TermAt(leader, p)).0, Hint(leader, follower, p).1;
    SearchIs(follower, if p <= |follower| then p else |follower|, TermAt(leader, p));
    SearchIs(leader, h, ht);
    TermsSorted(follower, h, |follower|);
    np := MatchHint(leader, follower, p);
  }

  /** Each probe is strictly below the rejected one. */
  lemma ProbeMovesDown(leader: Log, follower: Log, p: nat)
    requires Sorted(leader) && Sorted(follower) && p <= |leader| && !Accepts(leader, follower, p)
    ensures 1 <= p && NextProbe(leader, follower, p) < p
  {
    var h, ht, np := RejectionFacts(leader, follower, p);
  }

  /**
    Successive rejected probes land on strictly smaller leader terms: if the next
    probe is rejected too, its term in the leader's log is earlier.
   */
  lemma RejectedTermsDecrease(leader: Log, follower: Log, p: nat)
    requires Sorted(leader) && Sorted(follower) && p <= |leader| && !Accepts(leader, follower, p)
    requires !Accepts(leader, follower, NextProbe(leader, follower, p))
    ensures TermAt(leader, NextProbe(leader, follower, p)) < TermAt(leader, p)
  {
    var h, ht, np := RejectionFacts(leader, follower, p);
    var q := NextProbe(leader, follower, p);
    TermsSorted(leader, q, p);
    TermsSorted(leader, np, p);
    if h < p && ht == TermAt(leader, p) && ht > 0 {
      // the leader's search stops at the hint itself, where the terms agree
      TermsSorted(leader, h, p);
      assert np == h;
    }
  }

  /** No probe skips an index below the rejected one where the logs agree. */
  lemma NoProbeSkipsAgreement(leader: Log, follower: Log, p: nat, a: nat)
    requires Sorted(leader) && Sorted(follower) && p <= |leader| && !Accepts(leader, follower, p)
    requires a <= p && AgreeAt(leader, follower, a)
    ensures a <= NextProbe(leader, follower, p)
  {
    var h, ht, np := RejectionFacts(leader, follower, p);
    TermsSorted(leader, a, p);
    assert TermAt(follower, a) <= TermAt(leader, p);
    assert a <= h;
    TermsSorted(follower, a, h);
    assert TermAt(leader, a) <= ht;
    assert ht > 0 ==> a <= np;
  }

  // ------------------------------------------------------------ whole search

  /** The probe that is finally accepted. */
  function Landing(leader: Log, follower: Log, p: nat): nat
    requires Sorted(leader) && Sorted(follower) && p <= |leader|
    decreases p
  {
    if Accepts(leader, follower, p) then p
    else ProbeMovesDown(leader, follower, p); Landing(leader, follower, NextProbe(leader, follower, p))
  }

  /** How many probes are rejected before it. */
  function Rejections(leader: Log, follower: Log, p: nat): nat
    requires Sorted(leader) && Sorted(follower) && p <= |leader|
    decreases p
  {
    if Accepts(leader, follower, p) then 0
    else ProbeMovesDown(leader, follower, p); 1 + Rejections(leader, follower, NextProbe(leader, follower, p))
  }

  /** Probing ends exactly at the last index, from the first probe down, where the logs agree. */
  lemma {:induction false} LandsOnLastAgreement(leader: Log, follower: Log, p: nat)
    requires Sorted(leader) && Sorted(follower) && p <= |leader|
    ensures var l := Landing(leader, follower, p);
            && l <= p && AgreeAt(leader, follower, l)
            && forall a :: l < a <= p ==> !AgreeAt(leader, follower, a)
    decreases p
  {
    if Accepts(leader, follower, p) {
      TermsSorted(leader, p, |leader|);
    } else {
      ProbeMovesDown(leader, follower, p);
      var q := NextProbe(leader, follower, p);
      LandsOnLastAgreement(leader, follower, q);
      forall a | Landing(leader, follower, p) < a <= p ensures !AgreeAt(leader, follower, a) {
        if AgreeAt(leader, follower, a) {
          NoProbeSkipsAgreement(leader, follower, p, a);
        }
      }
    }
  }

  /** The terms of the leader's log up to an index. */
  function TermsUpTo(log: Log, p: nat): set<nat>
    requires p <= |log|
  {
    set i | 1 <= i <= p :: TermAt(log, i)
  }

  /** At most one rejection per distinct term of the leader's log. */
  lemma {:induction false} OneRejectionPerTerm(leader: Log, follower: Log, p: nat)
    requires Sorted(leader) && Sorted(follower) && p <= |leader|
    ensures Rejections(leader, follower, p) <= |TermsUpTo(leader, p)|
    decreases p
  {
    if !Accepts(leader, follower, p) {
      ProbeMovesDown(leader, follower, p);
      var q := NextProbe(leader, follower, p);
      var t := TermAt(leader, p);
      assert t in TermsUpTo(leader, p);
      if Accepts(leader, follower, q) {
        assert TermsUpTo(leader, p) != {};
      } else {
        OneRejectionPerTerm(leader, follower, q);
        RejectedTermsDecrease(leader, follower, p);
        TermsBelow(leader, q, t);
        TermsSubset(leader, q, p, t);
      }
    }
  }

  lemma TermsBelow(log: Log, q: nat, t: nat)
    requires Sorted(log) && q <= |log| && TermAt(log, q) < t
    ensures t !in TermsUpTo(log, q)
  {
    forall i | 1 <= i <= q ensures TermAt(log, i) < t {
      TermsSorted(log, i, q);
    }
  }

  lemma TermsSubset(log: Log, q: nat, p: nat, t: nat)
    requires q <= p <= |log| && t in TermsUpTo(log, p) && t !in TermsUpTo(log, q)
    ensures |TermsUpTo(log, q)| + 1 <= |TermsUpTo(log, p)|
  {
    var a, b := TermsUpTo(log, q) + {t}, TermsUpTo(log, p);
    assert a <= b;
    assert b == a + (b - a);
    assert |b| == |a| + |b - a|;
  }

  /** The follower's refusal of an append anchored at `p` carries just this hint. */
  lemma RefusalCarriesHint(cfg: Settings, id: nat, n: Node, leader: Log, m: Message)
    requires m.App? && n.committed <= m.index && m.logTerm == TermAt(leader, m.index)
    ensures !Accepts(leader, n.log, m.index) <==>
            HandleAppend(cfg, id, n, m).Next? && HandleAppend(cfg, id, n, m).reply.Send?
            && HandleAppend(cfg, id, n, m).reply.m.AppResp? && HandleAppend(cfg, id, n, m).reply.m.reject
    ensures !Accepts(leader, n.log, m.index) ==>
              var a := HandleAppend(cfg, id, n, m).reply.m;
              a.index == m.index && (a.rejectHint, a.logTerm) == Hint(leader, n.log, m.index)
  {
    hide FindConflict;
  }

  /** A genuine rejection never sends the leader below what it knows to match. */
  lemma RejectionKeepsMatch(leader: Log, follower: Log, p: P.Peer)
    requires Sorted(leader) && Sorted(follower) && p.state == P.Probe && P.NextAbove(p) && p.nextIdx - 1 <= |leader|
    requires AgreeAt(leader, follower, p.matched) && !Accepts(leader, follower, p.nextIdx - 1)
    ensures P.NextAbove(Rejected(leader, follower, p)) && Rejected(leader, follower, p).nextIdx < p.nextIdx
  {
    NoProbeSkipsAgreement(leader, follower, p.nextIdx - 1, p.matched);
    ProbeMovesDown(leader, follower, p.nextIdx - 1);
    RejectionMovesProgress(leader, follower, p);
    hide Sorted, MatchHint, Accepts;
  }
}
