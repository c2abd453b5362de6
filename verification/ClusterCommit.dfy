/** What an acknowledgement and a report of persistence make a leader commit, over every schedule. */
module ClusterCommit {
  import opened Common
  import opened Quorum
  import opened Raft
  import opened Commit
  import opened Cluster
  import opened ClusterBase
  import opened ClusterStored
  import opened ClusterHidden
  import opened ClusterRuns

  /** The terms of any node's log are in order and not above its own. */
  lemma AscendingAt(cfg: Settings, ids: set<nat>, es: seq<Event>, k: nat, p: nat)
    requires GoodCluster(cfg, ids) && k <= |es| && p in ids && Discreet(cfg, ids, es, k)
    ensures var n := NodeAfter(cfg, ids, es, k, p); Ascending(n.log, n.term)
  {
    hide NodeAfter, Apply, HasQuorum, HistoryOK;
    var n := NodeAfter(cfg, ids, es, k, p);
    forall i, j | 0 <= i <= j < |n.log|
      ensures n.log[i].term <= n.log[j].term <= n.term
    {
      LogTermsSorted(cfg, ids, es, k, p, i, j);
      LogTermsSorted(cfg, ids, es, k, p, j, |n.log| - 1);
      NodeFull(cfg, ids, es, k, p);
      LastTermBound(cfg, HistoryAfter(cfg, ids, es, k), p, n);
    }
  }

  lemma LastTermBound(cfg: Settings, h: History, p: nat, n: Node)
    requires NodeOK(h, p, Official(p, n)) && Backed(cfg, h, p, n)
    ensures LastTerm(n.log) <= n.term
  {
    hide LogOK, HasQuorum, VotesOK, CandidateOK, LeaderOK;
  }

  /**
    An acknowledgement that reaches the leader of its term raises the match of its sender, and the leader
    then commits the greatest entry of its own term that a quorum holds; an old one changes nothing.
   */
  lemma AckCommits(cfg: Settings, ids: set<nat>, es: seq<Event>, k: nat, m: Message)
    requires GoodCluster(cfg, ids) && k <= |es| && Discreet(cfg, ids, es, k)
    requires Enabled(After(cfg, ids, es, k), Deliver(m)) && m.AppResp? && !m.reject && m.to in ids
    requires var n := NodeAfter(cfg, ids, es, k, m.to); n.role == Leader && m.term == n.term && |n.log| < U64_MAX
    ensures m.to in Apply(cfg, After(cfg, ids, es, k), Deliver(m)).nodes
    ensures var n, n' := NodeAfter(cfg, ids, es, k, m.to), Apply(cfg, After(cfg, ids, es, k), Deliver(m)).nodes[m.to];
            if m.index <= Matched(n, m.from) then n' == n
            else n' == n.(matched := n.matched[m.from := m.index], committed := n'.committed) && CommitsAsHeld(cfg, n.committed, n')
  {
    hide After, Ascending, CommitsAsHeld, LeaderCommit, HasQuorum, Discreet;
    SoundAlways(cfg, ids, es, k);
    NodeIs(cfg, ids, es, k, m.to);
    AscendingAt(cfg, ids, es, k, m.to);
    var n := NodeAfter(cfg, ids, es, k, m.to);
    assert Sound(cfg, m.to, n);
    CountsAt(cfg, n.(matched := n.matched[m.from := m.index]));
  }

  /** So does a report that more of its own log is persisted. */
  lemma PersistCommits(cfg: Settings, ids: set<nat>, es: seq<Event>, k: nat, id: nat, upTo: nat)
    requires GoodCluster(cfg, ids) && k <= |es| && Discreet(cfg, ids, es, k) && id in ids
    requires Enabled(After(cfg, ids, es, k), Persist(id, upTo))
    requires var n := NodeAfter(cfg, ids, es, k, id); n.role == Leader && |n.log| < U64_MAX
    ensures id in Apply(cfg, After(cfg, ids, es, k), Persist(id, upTo)).nodes
    ensures var n, n' := NodeAfter(cfg, ids, es, k, id), Apply(cfg, After(cfg, ids, es, k), Persist(id, upTo)).nodes[id];
            && n'.persisted == upTo && n'.log == n.log && n'.term == n.term && Matched(n', id) == Max(Matched(n, id), upTo)
            && (if upTo <= Matched(n, id) then n'.committed == n.committed else CommitsAsHeld(cfg, n.committed, n'))
  {
    hide After, Ascending, CommitsAsHeld, LeaderCommit, HasQuorum, Discreet;
    SoundAlways(cfg, ids, es, k);
    NodeIs(cfg, ids, es, k, id);
    AscendingAt(cfg, ids, es, k, id);
    var n := NodeAfter(cfg, ids, es, k, id);
    assert Sound(cfg, id, n);
    CountsAt(cfg, n.(persisted := upTo, saved := HardState(n.term, n.vote), matched := n.matched[id := upTo]));
  }
}
