/** State-machine safety, leader completeness and panic freedom over every schedule in which no leader speaks before its term is stored. */
module ClusterSafetyRuns {
  import opened Common
  import opened Quorum
  import opened Raft
  import opened Cluster
  import opened ClusterBase
  import opened ClusterStored
  import opened ClusterSteps
  import opened ClusterEvents
  import opened ClusterHidden
  import opened ClusterRuns
  import opened ClusterSafety
  import opened ClusterSafetyGrowth
  import opened ClusterSafetySteps
  import opened ClusterSafetyEvents
  import opened ClusterSafetyHidden

  lemma FreshSafe(cfg: Settings, ids: set<nat>)
    requires INVALID_ID !in ids
    ensures FullSafe(cfg, Start(ids), EMPTY)
  {
    hide HasQuorum, Backed;
    StartFull(cfg, ids);
    forall p | p in ids
      ensures NodeSafe(cfg, EMPTY, p, FRESH) && NodeOK(EMPTY, p, FRESH) && SafelyBacked(cfg, EMPTY, p, FRESH)
    {
      assert FRESH.log[..0] == [];
      assert NodeOK(EMPTY, p, FRESH);
      FreshImageSafe(cfg, EMPTY, p, FRESH);
    }
  }

  lemma {:induction false} SafeAlways(cfg: Settings, ids: set<nat>, es: seq<Event>, k: nat)
    requires GoodCluster(cfg, ids) && cfg.documented && k <= |es| && Discreet(cfg, ids, es, k)
    ensures FullSafe(cfg, After(cfg, ids, es, k), HistoryAfter(cfg, ids, es, k))
  {
    hide FullSafe, Apply, Chronicle, Leaks;
    if k == 0 {
      FreshSafe(cfg, ids);
    } else {
      Sooner(cfg, ids, es, k - 1, k);
      SafeAlways(cfg, ids, es, k - 1);
      SoundAlways(cfg, ids, es, k - 1);
      EventFullSafe(cfg, After(cfg, ids, es, k - 1), HistoryAfter(cfg, ids, es, k - 1), es[k - 1]);
    }
  }

  /** What the invariant says of one node. */
  lemma NodeFullSafe(cfg: Settings, ids: set<nat>, es: seq<Event>, k: nat, p: nat)
    requires GoodCluster(cfg, ids) && cfg.documented && k <= |es| && p in ids && Discreet(cfg, ids, es, k)
    ensures var n, h := NodeAfter(cfg, ids, es, k, p), HistoryAfter(cfg, ids, es, k);
            && HistorySafe(cfg, h) && NodeOK(h, p, Official(p, n)) && Backed(cfg, h, p, n)
            && NodeSafe(cfg, h, p, Official(p, n)) && SafelyBacked(cfg, h, p, n)
  {
    hide Apply, SafeInv, Full, SafelyBacked, NodeSafe, HistorySafe, Official, NodeOK, Backed;
    SafeAlways(cfg, ids, es, k);
    NodeIs(cfg, ids, es, k, p);
    FullNode(cfg, After(cfg, ids, es, k), HistoryAfter(cfg, ids, es, k), p);
    OfficialSafe(cfg, After(cfg, ids, es, k), HistoryAfter(cfg, ids, es, k), p);
  }

  lemma CommittedThen(cfg: Settings, ids: set<nat>, es: seq<Event>, j: nat, k: nat, a: nat)
    requires GoodCluster(cfg, ids) && cfg.documented && j <= k <= |es| && a in ids && Discreet(cfg, ids, es, k)
    ensures var n := NodeAfter(cfg, ids, es, j, a);
            n.committed <= |n.log| && CommittedLog(cfg, HistoryAfter(cfg, ids, es, k), n.log[..n.committed])
  {
    hide CommittedLog, Grows, HistorySafe, NodeSafe, SafelyBacked, NodeOK, Backed, NodeAfter, HistoryAfter, Official, After;
    Sooner(cfg, ids, es, j, k);
    NodeFullSafe(cfg, ids, es, j, a);
    HistoryGrows(cfg, ids, es, j, k);
    var n, h := NodeAfter(cfg, ids, es, j, a), HistoryAfter(cfg, ids, es, j);
    CommittedOf(cfg, h, a, n);
    CommittedLogStays(cfg, h, HistoryAfter(cfg, ids, es, k), n.log[..n.committed]);
  }

  /**
    State-machine safety: over any schedule, what one node has committed at one
    moment and what another has committed at another never differ at an index.
   */
  lemma StateMachineSafety(cfg: Settings, ids: set<nat>, es: seq<Event>, j: nat, k: nat, a: nat, b: nat, i: nat)
    requires GoodCluster(cfg, ids) && cfg.documented && j <= k <= |es| && a in ids && b in ids && Discreet(cfg, ids, es, k)
    requires i < NodeAfter(cfg, ids, es, j, a).committed && i < NodeAfter(cfg, ids, es, k, b).committed
    ensures var x, y := NodeAfter(cfg, ids, es, j, a).log, NodeAfter(cfg, ids, es, k, b).log;
            i < |x| && i < |y| && x[i] == y[i]
  {
    hide CommittedLog, NodeAfter, HistoryAfter, HistoryOK, BallotsRemember, AcksKnown, NodeOK, NodeSafe, Backed, SafelyBacked, After;
    CommittedThen(cfg, ids, es, j, k, a);
    CommittedThen(cfg, ids, es, k, k, b);
    NodeFullSafe(cfg, ids, es, k, b);
    var x, y := NodeAfter(cfg, ids, es, j, a), NodeAfter(cfg, ids, es, k, b);
    CommittedAgree(cfg, HistoryAfter(cfg, ids, es, k), x.log[..x.committed], y.log[..y.committed], i);
  }

  // -------------------------------------------------- leader completeness

  /** A leader that has committed an entry of its own term is known. */
  lemma CommitterKnown(cfg: Settings, h: History, a: nat, x: Node)
    requires cfg.voters.incoming != {} && HistoryOK(cfg, h) && NodeOK(h, a, Official(a, x)) && Backed(cfg, h, a, x) && SafelyBacked(cfg, h, a, x)
    requires x.role == Leader && x.term > 0 && TermAt(x.log, x.committed) == x.term
    ensures !Hidden(x)
  {
    hide HistoryOK, NodeOK, Backed, CommittedLog, NodeSafe, LastTerm;
    if Hidden(x) {
      ShapeOf(cfg, h, a, x);
      NoReign(cfg, h, a, x);
      EntryKnown(cfg, h, a, x, x.committed - 1);
    }
  }

  lemma CountedNow(cfg: Settings, h: History, a: nat, x: Node)
    requires HistoryOK(cfg, h) && NodeOK(h, a, x) && NodeSafe(cfg, h, a, x)
    requires x.role == Leader && x.committed > 0 && TermAt(x.log, x.committed) == x.term
    ensures CommittedAt(cfg, h, x.term, x.committed)
  {
    hide CommittedAt, CommittedLog, Remembers;
    assert ReignOK(cfg, h, x.term);
  }

  lemma LeaderHasTerm(cfg: Settings, ids: set<nat>, es: seq<Event>, k: nat, p: nat)
    requires GoodCluster(cfg, ids) && k <= |es| && p in ids && NodeAfter(cfg, ids, es, k, p).role == Leader
    ensures NodeAfter(cfg, ids, es, k, p).term > 0
  {
    hide Apply, HasQuorum;
    SoundAlways(cfg, ids, es, k);
  }

  /** What a leader committed in its own term was acknowledged by a quorum, and still is later. */
  lemma CountedThen(cfg: Settings, ids: set<nat>, es: seq<Event>, j: nat, k: nat, a: nat)
    requires GoodCluster(cfg, ids) && cfg.documented && j <= k <= |es| && a in ids && Discreet(cfg, ids, es, k)
    requires var x := NodeAfter(cfg, ids, es, j, a); x.role == Leader && x.committed > 0 && TermAt(x.log, x.committed) == x.term
    ensures var x, h := NodeAfter(cfg, ids, es, j, a), HistoryAfter(cfg, ids, es, k);
            CommittedAt(cfg, h, x.term, x.committed) && LogOK(h, x.log) && x.committed <= |x.log|
  {
    hide CommittedAt, Grows, HistoryOK, BallotsRemember, AcksKnown, NodeSafe, SafelyBacked, NodeOK, Backed, NodeAfter, HistoryAfter, Hidden, After, LogOK;
    Sooner(cfg, ids, es, j, k);
    NodeFullSafe(cfg, ids, es, j, a);
    LeaderHasTerm(cfg, ids, es, j, a);
    var x, h := NodeAfter(cfg, ids, es, j, a), HistoryAfter(cfg, ids, es, j);
    CommitterKnown(cfg, h, a, x);
    CountedNow(cfg, h, a, x);
    HistoryGrows(cfg, ids, es, j, k);
    CommittedAtStays(cfg, h, HistoryAfter(cfg, ids, es, k), x.term, x.committed);
    LogAt(cfg, ids, es, j, k, a);
  }

  /** `log` is an initial part of what the leader of `t` had, past the part it was elected with. */
  ghost predicate LedWith(h: History, t: nat, log: Log) {
    t in h.reigns && h.reigns[t].base < |log| && AgreesUpTo(log, h.reigns[t].log, |log|)
  }

  lemma LeadsWith(cfg: Settings, h: History, id: nat, n: Node)
    requires HistoryOK(cfg, h) && NodeOK(h, id, n) && n.role == Leader
    ensures LedWith(h, n.term, n.log)
  {
    hide LogOK;
    assert ReignOK(cfg, h, n.term);
  }

  lemma LedWithStays(h: History, h': History, t: nat, log: Log)
    requires Grows(h, h') && LedWith(h, t, log)
    ensures LedWith(h', t, log)
  {
    ReignPrefix(h, h', t, |log|);
    assert ReignGrows(h.reigns[t], h'.reigns[t]);
  }

  /** The history in which the leader at moment `k` is known: that of moment `l`, or one that stores its term at once. */
  lemma LedThen(cfg: Settings, ids: set<nat>, es: seq<Event>, k: nat, l: nat, b: nat) returns (h: History)
    requires GoodCluster(cfg, ids) && cfg.documented && k <= l <= |es| && b in ids && Discreet(cfg, ids, es, l)
    requires NodeAfter(cfg, ids, es, k, b).role == Leader
    requires k == l || !Hidden(NodeAfter(cfg, ids, es, k, b))
    ensures HistorySafe(cfg, h) && Grows(HistoryAfter(cfg, ids, es, l), h)
    ensures LedWith(h, NodeAfter(cfg, ids, es, k, b).term, NodeAfter(cfg, ids, es, k, b).log)
  {
    hide HistoryOK, BallotsRemember, AcksKnown, NodeSafe, SafelyBacked, NodeOK, Backed, NodeAfter, HistoryAfter, Hidden, After, Grows, LedWith;
    Sooner(cfg, ids, es, k, l);
    var y := NodeAfter(cfg, ids, es, k, b);
    NodeFullSafe(cfg, ids, es, k, b);
    if Hidden(y) {
      h := RevealedThen(cfg, ids, es, k, b);
    } else {
      h := HistoryAfter(cfg, ids, es, l);
      NodeFullSafe(cfg, ids, es, l, b);
      HistoryGrows(cfg, ids, es, k, l);
      LeadsWith(cfg, HistoryAfter(cfg, ids, es, k), b, y);
      LedWithStays(HistoryAfter(cfg, ids, es, k), h, y.term, y.log);
      Unchanged(h, b);
    }
  }

  lemma RevealedThen(cfg: Settings, ids: set<nat>, es: seq<Event>, k: nat, b: nat) returns (h: History)
    requires GoodCluster(cfg, ids) && cfg.documented && k <= |es| && b in ids && Discreet(cfg, ids, es, k)
    requires Hidden(NodeAfter(cfg, ids, es, k, b))
    ensures var r := Revealed(NodeAfter(cfg, ids, es, k, b));
            && HistorySafe(cfg, h) && Grows(HistoryAfter(cfg, ids, es, k), h)
            && NodeOK(h, b, r) && NodeSafe(cfg, h, b, r)
            && (r.role == Leader ==> LedWith(h, r.term, r.log))
            && forall m :: m in After(cfg, ids, es, k).msgs ==> MessageOK(h, m) && MessageSafe(cfg, h, m)
  {
    hide HistoryOK, BallotsRemember, AcksKnown, NodeSafe, SafelyBacked, NodeOK, Apply, Grows, LedWith, SafeInv, Full, Hidden, Reveal, MessageOK, MessageSafe;
    var s, g := After(cfg, ids, es, k), HistoryAfter(cfg, ids, es, k);
    NodeIs(cfg, ids, es, k, b);
    SafeAlways(cfg, ids, es, k);
    h := Reveal(g, b, s.nodes[b]);
    var s' := Put(s, b, Revealed(s.nodes[b]));
    RevealSafe(cfg, s, g, b);
    RevealKeeps(cfg, s, g, b);
    RevealedIs(cfg, s, g, b);
    FullNode(cfg, s', h, b);
    OfficialSafe(cfg, s', h, b);
    SafeMessages(cfg, s', h);
    if s.nodes[b].role == Leader {
      LeadsWith(cfg, h, b, Revealed(s.nodes[b]));
    }
  }

  lemma SafeMessages(cfg: Settings, s: State, h: History)
    requires FullSafe(cfg, s, h)
    ensures forall m :: m in s.msgs ==> MessageOK(h, m) && MessageSafe(cfg, h, m)
  {
    hide HistorySafe, HistoryOK, NodeOK, NodeSafe, MessageOK, MessageSafe, Full, SafelyBacked;
  }

  lemma HeldInBase(cfg: Settings, h: History, t: nat, c: nat, u: nat)
    requires HistoryOK(cfg, h) && u in h.reigns && t < u && Held(h.reigns[u].log, t, c)
    ensures c <= h.reigns[u].base
  {
    assert ReignOK(cfg, h, u);
  }

  /** A leader of a later term holds what was committed, whatever it has appended since. */
  lemma LedHolds(cfg: Settings, h: History, x: Log, t: nat, c: nat, y: Log, u: nat)
    requires cfg.voters.incoming != {} && HistorySafe(cfg, h) && LogOK(h, x) && LedWith(h, u, y) && t < u
    requires CommittedAt(cfg, h, t, c) && 0 < c <= |x| && x[c - 1].term == t
    ensures AgreesUpTo(x, y, c)
  {
    hide HistoryOK, BallotsRemember, AcksKnown, LogOK, CommittedAt;
    Complete(cfg, h, t, c, u);
    HeldInBase(cfg, h, t, c, u);
    var r := h.reigns[u].log;
    assert y[..|y|][c - 1] == r[..|y|][c - 1];
    ReignLogOK(cfg, h, u);
    PrefixOK(h, r, |y|);
    assert y == r[..|y|];
    SamePrefix(h, x, y, c);
  }

  /**
    Leader completeness: an entry that a leader of one term has committed by
    counting is, with everything before it, in the log of every leader of a later
    term. It does not matter when that leader leads, unless its term is not stored:
    then only what was committed by that time counts, since a crash may undo its election.
   */
  lemma LeaderCompleteness(cfg: Settings, ids: set<nat>, es: seq<Event>, j: nat, k: nat, a: nat, b: nat)
    requires GoodCluster(cfg, ids) && cfg.documented && j <= |es| && k <= |es| && a in ids && b in ids
    requires Discreet(cfg, ids, es, if j <= k then k else j)
    requires var x, y := NodeAfter(cfg, ids, es, j, a), NodeAfter(cfg, ids, es, k, b);
             && x.role == Leader && y.role == Leader && x.term < y.term
             && x.committed > 0 && TermAt(x.log, x.committed) == x.term
             && (j <= k || y.saved.term == y.term)
    ensures var x, y := NodeAfter(cfg, ids, es, j, a), NodeAfter(cfg, ids, es, k, b);
            AgreesUpTo(x.log, y.log, x.committed)
  {
    hide NodeAfter, CommittedAt, HistorySafe, LogOK, LedWith, Hidden, Grows, HistoryAfter, After;
    var x, y := NodeAfter(cfg, ids, es, j, a), NodeAfter(cfg, ids, es, k, b);
    var l := if j <= k then k else j;
    Sooner(cfg, ids, es, k, l);
    if Hidden(y) {
      UnknownAt(cfg, ids, es, k, b);
    }
    LeaderHasTerm(cfg, ids, es, j, a);
    CountedThen(cfg, ids, es, j, l, a);
    var h := LedThen(cfg, ids, es, k, l, b);
    CommittedAtStays(cfg, HistoryAfter(cfg, ids, es, l), h, x.term, x.committed);
    LogGrows(HistoryAfter(cfg, ids, es, l), h, x.log);
    LedHolds(cfg, h, x.log, x.term, x.committed, y.log, y.term);
  }

  // -------------------------------------------------------- panic freedom

  /** A history in which the node that handles a message is known. */
  lemma HandlerThen(cfg: Settings, ids: set<nat>, es: seq<Event>, k: nat, p: nat) returns (h: History, n: Node)
    requires GoodCluster(cfg, ids) && cfg.documented && k <= |es| && p in ids && Discreet(cfg, ids, es, k)
    ensures n == NodeAfter(cfg, ids, es, k, p).(saved := n.saved)
    ensures HistorySafe(cfg, h) && NodeOK(h, p, n) && NodeSafe(cfg, h, p, n)
    ensures forall m :: m in After(cfg, ids, es, k).msgs ==> MessageOK(h, m) && MessageSafe(cfg, h, m)
  {
    hide HistorySafe, NodeSafe, SafelyBacked, NodeOK, Backed, NodeAfter, HistoryAfter, Hidden, After, Grows, LedWith, MessageOK, MessageSafe, FullSafe;
    var x := NodeAfter(cfg, ids, es, k, p);
    if Hidden(x) {
      h := RevealedThen(cfg, ids, es, k, p);
      n := Revealed(x);
    } else {
      h, n := HistoryAfter(cfg, ids, es, k), x;
      NodeFullSafe(cfg, ids, es, k, p);
      SafeAlways(cfg, ids, es, k);
      SafeMessages(cfg, After(cfg, ids, es, k), h);
    }
  }

  /**
    No assertion or `fatal!` of the protocol is reachable, except in a node that
    has no term yet and refuses a pre-vote: it would send a response of term zero.
   */
  lemma NeverPanics(cfg: Settings, ids: set<nat>, es: seq<Event>, k: nat, m: Message)
    requires GoodCluster(cfg, ids) && cfg.documented && k <= |es| && Discreet(cfg, ids, es, k)
    requires Enabled(After(cfg, ids, es, k), Deliver(m))
    ensures var n := After(cfg, ids, es, k).nodes[m.to];
            Step(cfg, m.to, n, m).Panic? <==> m.Vote? && m.pre && n.term == 0 && !Grants(cfg, m.to, n, m)
  {
    hide Step, HandleVote, Grants, HistorySafe, NodeOK, NodeSafe, MessageOK, MessageSafe, Handled, After, HistoryAfter, NodeAfter;
    SoundAlways(cfg, ids, es, k);
    NodeIs(cfg, ids, es, k, m.to);
    var n := After(cfg, ids, es, k).nodes[m.to];
    var h, r := HandlerThen(cfg, ids, es, k, m.to);
    StepSafe(cfg, h, m.to, r, m);
    StepIgnoresSaved(cfg, m.to, n, m, r.saved);
    if m.Vote? && m.pre && n.term == 0 {
      PreVoteStep(cfg, m.to, n, m) by {
        PositiveTerm(h, m);
      }
    }
  }

  lemma PreVoteStep(cfg: Settings, id: nat, n: Node, m: Message)
    requires m.Vote? && m.pre && n.term == 0 && m.term > 0
    ensures Step(cfg, id, n, m) == HandleVote(cfg, id, n, m)
    ensures HandleVote(cfg, id, n, m).Panic? <==> !Grants(cfg, id, n, m)
  {
    hide Grants;
  }
}
