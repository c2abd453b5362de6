/** Election safety and log matching over every schedule in which no leader speaks before its term is stored. */
module ClusterRuns {
  import opened Common
  import opened Quorum
  import opened Raft
  import opened Cluster
  import opened ClusterBase
  import opened ClusterStored
  import opened ClusterSteps
  import opened ClusterEvents
  import opened ClusterHidden

  predicate GoodCluster(cfg: Settings, ids: set<nat>) {
    cfg.voters.incoming != {} && INVALID_ID !in ids
  }

  /** Node `p` after the first `k` events. */
  ghost function NodeAfter(cfg: Settings, ids: set<nat>, es: seq<Event>, k: nat, p: nat): Node
    requires GoodCluster(cfg, ids) && k <= |es| && p in ids
  {
    SoundAlways(cfg, ids, es, k);
    After(cfg, ids, es, k).nodes[p]
  }

  // ------------------------------------------------- who can speak too early

  /** In every run whatsoever, a node that campaigns or leads has stored its term and vote, unless it is a quorum by itself. */
  lemma LeadersStored(cfg: Settings, ids: set<nat>, es: seq<Event>, k: nat, p: nat)
    requires GoodCluster(cfg, ids) && k <= |es| && p in ids && !HasQuorum(cfg.voters, {p})
    ensures var n := NodeAfter(cfg, ids, es, k, p);
            n.role != Follower ==> n.saved == HardState(n.term, n.vote)
  {
    hide HasQuorum, Apply;
    SoundAlways(cfg, ids, es, k);
  }

  lemma LeakerAlone(cfg: Settings, ids: set<nat>, es: seq<Event>, j: nat)
    requires GoodCluster(cfg, ids) && j < |es| && Leaks(After(cfg, ids, es, j), es[j])
    ensures Actor(es[j]) in ids && HasQuorum(cfg.voters, {Actor(es[j])})
  {
    hide HasQuorum, Apply;
    SoundAlways(cfg, ids, es, j);
    assert Sound(cfg, Actor(es[j]), After(cfg, ids, es, j).nodes[Actor(es[j])]);
  }

  /** So in a cluster without such a node every run is discreet. */
  lemma AlwaysDiscreet(cfg: Settings, ids: set<nat>, es: seq<Event>, k: nat)
    requires GoodCluster(cfg, ids) && k <= |es| && forall p :: p in ids ==> !HasQuorum(cfg.voters, {p})
    ensures Discreet(cfg, ids, es, k)
  {
    hide HasQuorum, After, Leaks;
    forall j | 0 <= j < k
      ensures !Leaks(After(cfg, ids, es, j), es[j])
    {
      if Leaks(After(cfg, ids, es, j), es[j]) {
        LeakerAlone(cfg, ids, es, j);
        assert false;
      }
    }
  }

  lemma NodeIs(cfg: Settings, ids: set<nat>, es: seq<Event>, k: nat, p: nat)
    requires GoodCluster(cfg, ids) && k <= |es| && p in ids
    ensures p in After(cfg, ids, es, k).nodes && NodeAfter(cfg, ids, es, k, p) == After(cfg, ids, es, k).nodes[p]
  {
    SoundAlways(cfg, ids, es, k);
  }

  // ---------------------------------------------------------------- runs

  lemma StartFull(cfg: Settings, ids: set<nat>)
    requires INVALID_ID !in ids
    ensures Full(cfg, Start(ids), EMPTY)
  {
    hide HasQuorum;
    assert forall p :: p in ids ==> NodeOK(EMPTY, p, FRESH) && !Hidden(FRESH);
    forall p | p in ids
      ensures Backed(cfg, EMPTY, p, FRESH)
    {
      FreshBacked(cfg, EMPTY, p, FRESH);
    }
  }

  lemma Sooner(cfg: Settings, ids: set<nat>, es: seq<Event>, j: nat, k: nat)
    requires j <= k <= |es| && Discreet(cfg, ids, es, k)
    ensures Discreet(cfg, ids, es, j)
  {
    hide After, Leaks;
  }

  lemma {:induction false} FullAlways(cfg: Settings, ids: set<nat>, es: seq<Event>, k: nat)
    requires GoodCluster(cfg, ids) && k <= |es| && Discreet(cfg, ids, es, k)
    ensures Full(cfg, After(cfg, ids, es, k), HistoryAfter(cfg, ids, es, k))
  {
    hide Full, Apply, Chronicle, Leaks;
    if k == 0 {
      StartFull(cfg, ids);
    } else {
      Sooner(cfg, ids, es, k - 1, k);
      FullAlways(cfg, ids, es, k - 1);
      SoundAlways(cfg, ids, es, k - 1);
      EventFull(cfg, After(cfg, ids, es, k - 1), HistoryAfter(cfg, ids, es, k - 1), es[k - 1]);
    }
  }

  lemma {:induction false} HistoryGrows(cfg: Settings, ids: set<nat>, es: seq<Event>, j: nat, k: nat)
    requires GoodCluster(cfg, ids) && j <= k <= |es| && Discreet(cfg, ids, es, k)
    ensures Grows(HistoryAfter(cfg, ids, es, j), HistoryAfter(cfg, ids, es, k))
    decreases k
  {
    hide Full, Apply, Chronicle, Leaks, Grows;
    if j == k {
      Unchanged(HistoryAfter(cfg, ids, es, j), 0);
    } else {
      Sooner(cfg, ids, es, k - 1, k);
      HistoryGrows(cfg, ids, es, j, k - 1);
      FullAlways(cfg, ids, es, k - 1);
      SoundAlways(cfg, ids, es, k - 1);
      EventFull(cfg, After(cfg, ids, es, k - 1), HistoryAfter(cfg, ids, es, k - 1), es[k - 1]);
      GrowsTrans(HistoryAfter(cfg, ids, es, j), HistoryAfter(cfg, ids, es, k - 1), HistoryAfter(cfg, ids, es, k));
    }
  }

  /** What the invariant says of one node. */
  lemma NodeFull(cfg: Settings, ids: set<nat>, es: seq<Event>, k: nat, p: nat)
    requires GoodCluster(cfg, ids) && k <= |es| && p in ids && Discreet(cfg, ids, es, k)
    ensures var n, h := NodeAfter(cfg, ids, es, k, p), HistoryAfter(cfg, ids, es, k);
            HistoryOK(cfg, h) && NodeOK(h, p, Official(p, n)) && Backed(cfg, h, p, n)
  {
    hide HistoryOK, NodeOK, Backed, Official, Apply, BaseInv;
    FullAlways(cfg, ids, es, k);
    NodeIs(cfg, ids, es, k, p);
    OfficialOK(cfg, After(cfg, ids, es, k), HistoryAfter(cfg, ids, es, k), p);
  }

  // -------------------------------------------------------- unknown terms

  /** How much of a log the rest of the cluster may know. */
  function Known(n: Node): nat {
    if Hidden(n) then Min(n.persisted, |n.log|) else |n.log|
  }

  /** Nobody has won the term of an unknown leader. */
  lemma NoReign(cfg: Settings, h: History, id: nat, n: Node)
    requires cfg.voters.incoming != {} && HistoryOK(cfg, h) && Backed(cfg, h, id, n) && Hidden(n)
    ensures forall t :: t >= LastTerm(n.log) ==> t !in h.reigns
  {
    hide HasQuorum, NodeOK, Hidden, LastTerm;
    NoBallot(cfg, h, id, n);
    ShapeOf(cfg, h, id, n);
    forall t | t >= LastTerm(n.log)
      ensures t !in h.reigns
    {
      if t in h.reigns {
        assert ReignOK(cfg, h, t);
        var p := QuorumsMeet(cfg.voters, {id}, h.reigns[t].voters);
      }
    }
  }

  /** An entry is known exactly if the history has its term. */
  lemma EntryKnown(cfg: Settings, h: History, p: nat, n: Node, i: nat)
    requires cfg.voters.incoming != {} && HistoryOK(cfg, h) && NodeOK(h, p, Official(p, n)) && Backed(cfg, h, p, n) && i < |n.log|
    ensures n.log[i].term in h.reigns <==> i < Known(n)
    ensures i >= Known(n) ==> Hidden(n) && n.log[i].term == LastTerm(n.log)
  {
    hide HasQuorum, HistoryOK;
    if Hidden(n) {
      NoReign(cfg, h, p, n);
    }
    if i < Known(n) {
      var log := Official(p, n).log;
      assert log[i] == n.log[i];
      assert EntryOK(h, log, i);
    }
  }

  /** Two nodes that are each a quorum are one. */
  lemma OneAlone(cfg: Settings, a: nat, b: nat)
    requires cfg.voters.incoming != {} && HasQuorum(cfg.voters, {a}) && HasQuorum(cfg.voters, {b})
    ensures a == b
  {
    hide HasQuorum;
    var p := QuorumsMeet(cfg.voters, {a}, {b});
  }

  /** Where no node is a quorum by itself, every condition of the theorems below holds of every run. */
  lemma AllKnown(cfg: Settings, ids: set<nat>, es: seq<Event>, k: nat, p: nat)
    requires GoodCluster(cfg, ids) && k <= |es| && p in ids && forall q :: q in ids ==> !HasQuorum(cfg.voters, {q})
    ensures Discreet(cfg, ids, es, k)
    ensures var n := NodeAfter(cfg, ids, es, k, p);
            Known(n) == |n.log| && (n.role == Leader ==> n.saved.term == n.term)
  {
    hide HasQuorum, NodeAfter, Apply, Backed, NodeOK, HistoryOK, Leaks;
    AlwaysDiscreet(cfg, ids, es, k);
    LeadersStored(cfg, ids, es, k, p);
    NodeFull(cfg, ids, es, k, p);
    if Hidden(NodeAfter(cfg, ids, es, k, p)) {
      ShapeOf(cfg, HistoryAfter(cfg, ids, es, k), p, NodeAfter(cfg, ids, es, k, p));
    }
  }

  // ------------------------------------------------------- election safety

  lemma LeaderAt(cfg: Settings, ids: set<nat>, es: seq<Event>, j: nat, k: nat, a: nat)
    requires GoodCluster(cfg, ids) && j <= k <= |es| && a in ids && Discreet(cfg, ids, es, k)
    requires NodeAfter(cfg, ids, es, j, a).role == Leader && !Hidden(NodeAfter(cfg, ids, es, j, a))
    ensures var t := NodeAfter(cfg, ids, es, j, a).term;
            var h := HistoryAfter(cfg, ids, es, k);
            t in h.reigns && h.reigns[t].leader == a
  {
    hide Hidden, HistoryOK, Apply, NodeAfter;
    Sooner(cfg, ids, es, j, k);
    NodeFull(cfg, ids, es, j, a);
    HistoryGrows(cfg, ids, es, j, k);
    var t := NodeAfter(cfg, ids, es, j, a).term;
    assert ReignGrows(HistoryAfter(cfg, ids, es, j).reigns[t], HistoryAfter(cfg, ids, es, k).reigns[t]);
  }

  lemma UnknownAt(cfg: Settings, ids: set<nat>, es: seq<Event>, k: nat, b: nat)
    requires GoodCluster(cfg, ids) && k <= |es| && b in ids && Discreet(cfg, ids, es, k)
    requires NodeAfter(cfg, ids, es, k, b).role == Leader && Hidden(NodeAfter(cfg, ids, es, k, b))
    ensures NodeAfter(cfg, ids, es, k, b).term !in HistoryAfter(cfg, ids, es, k).reigns && HasQuorum(cfg.voters, {b})
    ensures NodeAfter(cfg, ids, es, k, b).saved.term != NodeAfter(cfg, ids, es, k, b).term
  {
    hide HasQuorum, HistoryOK, NodeOK, Apply, NodeAfter;
    NodeFull(cfg, ids, es, k, b);
    NoReign(cfg, HistoryAfter(cfg, ids, es, k), b, NodeAfter(cfg, ids, es, k, b));
  }

  /**
    Election safety: two leaders of one term are the same node, at whatever moments they lead, if the first
    of them has stored its term by then. Leaders of the same moment are the same node in any case.
   */
  lemma ElectionSafety(cfg: Settings, ids: set<nat>, es: seq<Event>, j: nat, k: nat, a: nat, b: nat)
    requires GoodCluster(cfg, ids) && j <= k <= |es| && a in ids && b in ids && Discreet(cfg, ids, es, k)
    requires NodeAfter(cfg, ids, es, j, a).role == Leader && NodeAfter(cfg, ids, es, k, b).role == Leader
    requires NodeAfter(cfg, ids, es, j, a).term == NodeAfter(cfg, ids, es, k, b).term
    requires j == k || NodeAfter(cfg, ids, es, j, a).saved.term == NodeAfter(cfg, ids, es, j, a).term
    ensures a == b
  {
    hide NodeAfter, HasQuorum, Hidden, Apply;
    Sooner(cfg, ids, es, j, k);
    if Hidden(NodeAfter(cfg, ids, es, j, a)) {
      UnknownAt(cfg, ids, es, j, a);
      if Hidden(NodeAfter(cfg, ids, es, k, b)) {
        UnknownAt(cfg, ids, es, k, b);
        OneAlone(cfg, a, b);
      } else {
        LeaderAt(cfg, ids, es, k, k, b);
      }
    } else {
      LeaderAt(cfg, ids, es, j, k, a);
      if Hidden(NodeAfter(cfg, ids, es, k, b)) {
        UnknownAt(cfg, ids, es, k, b);
      } else {
        LeaderAt(cfg, ids, es, k, k, b);
      }
    }
  }

  // --------------------------------------------------------- log matching

  lemma LogAt(cfg: Settings, ids: set<nat>, es: seq<Event>, j: nat, k: nat, a: nat)
    requires GoodCluster(cfg, ids) && j <= k <= |es| && a in ids && Discreet(cfg, ids, es, k)
    ensures LogOK(HistoryAfter(cfg, ids, es, k), Official(a, NodeAfter(cfg, ids, es, j, a)).log)
    ensures HistoryOK(cfg, HistoryAfter(cfg, ids, es, k))
  {
    hide LogOK, HistoryOK, Apply, NodeAfter, Official, Grows;
    Sooner(cfg, ids, es, j, k);
    NodeFull(cfg, ids, es, j, a);
    NodeFull(cfg, ids, es, k, a);
    HistoryGrows(cfg, ids, es, j, k);
    LogGrows(HistoryAfter(cfg, ids, es, j), HistoryAfter(cfg, ids, es, k), Official(a, NodeAfter(cfg, ids, es, j, a)).log);
  }

  lemma OfficialLog(id: nat, n: Node)
    ensures Known(n) <= |n.log| && Official(id, n).log == n.log[..Known(n)]
  {
  }

  /** Where the term of an entry is that of a known one, the entry itself is known. */
  lemma KnownAt(cfg: Settings, ids: set<nat>, es: seq<Event>, j: nat, k: nat, a: nat, b: nat, i: nat)
    requires GoodCluster(cfg, ids) && j <= k <= |es| && a in ids && b in ids && Discreet(cfg, ids, es, k)
    requires var x, y := NodeAfter(cfg, ids, es, j, a), NodeAfter(cfg, ids, es, k, b);
             0 < i <= |x.log| && i <= |y.log| && x.log[i - 1].term == y.log[i - 1].term && i <= Known(x)
    ensures i <= Known(NodeAfter(cfg, ids, es, k, b))
  {
    hide HistoryOK, NodeOK, Backed, Apply, NodeAfter, Known, Official;
    Sooner(cfg, ids, es, j, k);
    NodeFull(cfg, ids, es, j, a);
    NodeFull(cfg, ids, es, k, b);
    HistoryGrows(cfg, ids, es, j, k);
    EntryKnown(cfg, HistoryAfter(cfg, ids, es, j), a, NodeAfter(cfg, ids, es, j, a), i - 1);
    EntryKnown(cfg, HistoryAfter(cfg, ids, es, k), b, NodeAfter(cfg, ids, es, k, b), i - 1);
  }

  lemma KnownAlike(cfg: Settings, ids: set<nat>, es: seq<Event>, j: nat, k: nat, a: nat, b: nat, i: nat)
    requires GoodCluster(cfg, ids) && j <= k <= |es| && a in ids && b in ids && Discreet(cfg, ids, es, k)
    requires var x, y := NodeAfter(cfg, ids, es, j, a), NodeAfter(cfg, ids, es, k, b);
             0 < i <= |x.log| && i <= |y.log| && x.log[i - 1].term == y.log[i - 1].term && i <= Known(x)
    ensures NodeAfter(cfg, ids, es, j, a).log[..i] == NodeAfter(cfg, ids, es, k, b).log[..i]
  {
    hide LogOK, HistoryOK, Apply, NodeAfter, Known, Official;
    var x, y := NodeAfter(cfg, ids, es, j, a), NodeAfter(cfg, ids, es, k, b);
    KnownAt(cfg, ids, es, j, k, a, b, i);
    LogAt(cfg, ids, es, j, k, a);
    LogAt(cfg, ids, es, k, k, b);
    OfficialLog(a, x);
    OfficialLog(b, y);
    SamePrefix(HistoryAfter(cfg, ids, es, k), x.log[..Known(x)], y.log[..Known(y)], i);
    assert x.log[..Known(x)][..i] == x.log[..i] && y.log[..Known(y)][..i] == y.log[..i];
  }

  lemma UnknownEntry(cfg: Settings, ids: set<nat>, es: seq<Event>, k: nat, a: nat, i: nat)
    requires GoodCluster(cfg, ids) && k <= |es| && a in ids && Discreet(cfg, ids, es, k)
    requires Known(NodeAfter(cfg, ids, es, k, a)) <= i < |NodeAfter(cfg, ids, es, k, a).log|
    ensures NodeAfter(cfg, ids, es, k, a).log[i].term !in HistoryAfter(cfg, ids, es, k).reigns && HasQuorum(cfg.voters, {a})
  {
    hide HistoryOK, NodeOK, Apply, NodeAfter, HasQuorum, Official;
    NodeFull(cfg, ids, es, k, a);
    EntryKnown(cfg, HistoryAfter(cfg, ids, es, k), a, NodeAfter(cfg, ids, es, k, a), i);
  }

  /**
    Log matching: two logs that hold the same term at one index are identical up to that index, even at
    different moments, as far as the earlier one is known; at the same moment they are in any case.
   */
  lemma LogMatching(cfg: Settings, ids: set<nat>, es: seq<Event>, j: nat, k: nat, a: nat, b: nat, i: nat)
    requires GoodCluster(cfg, ids) && j <= k <= |es| && a in ids && b in ids && Discreet(cfg, ids, es, k)
    requires var x, y := NodeAfter(cfg, ids, es, j, a).log, NodeAfter(cfg, ids, es, k, b).log;
             0 < i <= |x| && i <= |y| && x[i - 1].term == y[i - 1].term
    requires j == k || i <= Known(NodeAfter(cfg, ids, es, j, a))
    ensures NodeAfter(cfg, ids, es, j, a).log[..i] == NodeAfter(cfg, ids, es, k, b).log[..i]
  {
    hide Apply, NodeAfter, Known, HasQuorum, After;
    if i <= Known(NodeAfter(cfg, ids, es, j, a)) {
      KnownAlike(cfg, ids, es, j, k, a, b, i);
    } else if i <= Known(NodeAfter(cfg, ids, es, k, b)) {
      KnownAlike(cfg, ids, es, k, k, b, a, i);
    } else {
      UnknownEntry(cfg, ids, es, k, a, i - 1);
      UnknownEntry(cfg, ids, es, k, b, i - 1);
      OneAlone(cfg, a, b);
    }
  }

  /** Terms never decrease along any node's log. */
  lemma LogTermsSorted(cfg: Settings, ids: set<nat>, es: seq<Event>, k: nat, a: nat, i: nat, j: nat)
    requires GoodCluster(cfg, ids) && k <= |es| && a in ids && Discreet(cfg, ids, es, k)
    requires i <= j < |NodeAfter(cfg, ids, es, k, a).log|
    ensures NodeAfter(cfg, ids, es, k, a).log[i].term <= NodeAfter(cfg, ids, es, k, a).log[j].term
  {
    hide LogOK, HistoryOK, Apply, NodeAfter, HasQuorum;
    var n, h := NodeAfter(cfg, ids, es, k, a), HistoryAfter(cfg, ids, es, k);
    NodeFull(cfg, ids, es, k, a);
    OfficialLog(a, n);
    EntryKnown(cfg, h, a, n, i);
    EntryKnown(cfg, h, a, n, j);
    if j < Known(n) {
      Sorted(cfg, h, Official(a, n).log, i, j);
    } else if i < Known(n) {
      assert n.log[i] == Image(a, n).log[i];
    }
  }

  /**
    Campaigning stops a node exactly if it is a quorum by itself and has not persisted its whole log: the
    assertion of `become_leader`. Any other candidate has saved its log before it can be elected.
   */
  lemma CampaignPanicsExactly(cfg: Settings, ids: set<nat>, es: seq<Event>, k: nat, id: nat)
    requires GoodCluster(cfg, ids) && k <= |es| && id in ids
    ensures var n := NodeAfter(cfg, ids, es, k, id);
            Campaign(cfg, id, n).Panic? <==> n.role != Leader && HasQuorum(cfg.voters, {id}) && n.persisted < |n.log|
  {
    hide HasQuorum, Campaign, Apply;
    SoundAlways(cfg, ids, es, k);
    CampaignOutcome(cfg, id, NodeAfter(cfg, ids, es, k, id));
  }
}
