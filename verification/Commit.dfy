/** What is committed, said by who holds what instead of by how it is computed. */
module Commit {
  import opened Common
  import opened Quorum
  import opened Raft

  /** Terms never fall along the log, and none is above `term`. */
  predicate Ascending(log: Log, term: nat) {
    forall i, j :: 0 <= i <= j < |log| ==> log[i].term <= log[j].term <= term
  }

  /** The voters known to hold the log as far as `r`. */
  function Holders(cfg: Settings, n: Node, r: nat): set<nat> {
    set v | v in Voters(cfg) && Matched(n, v) >= r
  }

  /** An entry of the leader's own term that a quorum holds. */
  predicate Countable(cfg: Settings, n: Node, r: nat) {
    0 < r <= |n.log| && n.log[r - 1].term == n.term && HasQuorum(cfg.voters, Holders(cfg, n, r))
  }

  /** The commit index is the greatest countable one, or the old one if that is greater. */
  ghost predicate CommitsGreatest(cfg: Settings, was: nat, n: Node) {
    && n.committed >= was && (n.committed == was || Countable(cfg, n, n.committed))
    && forall r: nat :: Countable(cfg, n, r) ==> r <= n.committed
  }

  /**
    What a leader commits. Acknowledgements of a follower's commit index may lie past the leader's log; if
    those of a quorum do, nothing is counted.
   */
  ghost predicate CommitsHeld(cfg: Settings, was: nat, n: Node) {
    if HasQuorum(cfg.voters, Holders(cfg, n, |n.log| + 1)) then n.committed == was else CommitsGreatest(cfg, was, n)
  }

  /** With commit groups: what the group index allows, if it is of the leader's own term. */
  ghost predicate CommitsByGroup(cfg: Settings, was: nat, n: Node) {
    forall j: nat, g :: IsJointCommittedIndex(cfg.voters, cfg.groupCommit, AckMap(cfg, n), j, g) ==>
      n.committed == if was < j <= |n.log| && n.log[j - 1].term == n.term then j else was
  }

  lemma HoldersAcked(cfg: Settings, n: Node, r: nat)
    ensures AckedAtLeast(Voters(cfg), AckMap(cfg, n), r) == Holders(cfg, n, r)
  {
  }

  /** Without groups the index a leader computes is the greatest that a quorum holds. */
  lemma HeldIsIndex(cfg: Settings, n: Node, r: nat)
    requires !cfg.groupCommit && r <= U64_MAX
    ensures r <= JointIndex(cfg.voters, cfg.groupCommit, AckMap(cfg, n)) <==> HasQuorum(cfg.voters, Holders(cfg, n, r))
  {
    var l := AckMap(cfg, n);
    JointIndexExists(cfg.voters, false, l);
    var c: nat, g :| IsJointCommittedIndex(cfg.voters, false, l, c, g);
    JointIndexIs(cfg.voters, false, l, c, g);
    CommittedIndexIsVote(cfg.voters, l, c, g, r);
    var votes := AckVotes(Voters(cfg), l, r);
    WonIsMajority(cfg.voters, votes);
    HasQuorumIsMajority(cfg.voters, Holders(cfg, n, r));
    assert YesIds(votes) == Holders(cfg, n, r);
  }

  /** Nobody is held to more than the largest index. */
  predicate Indexed(n: Node) {
    n.term > 0 && |n.log| < U64_MAX
  }

  /** A leader commits the greatest entry of its own term that a quorum holds. */
  lemma LeaderCommitsHeld(cfg: Settings, n: Node)
    requires cfg.voters.incoming != {} && !cfg.groupCommit && Ascending(n.log, n.term) && Indexed(n)
    ensures CommitsHeld(cfg, n.committed, LeaderCommit(cfg, n))
  {
    hide HasQuorum, JointIndex, AckMap;
    var j := JointIndex(cfg.voters, cfg.groupCommit, AckMap(cfg, n));
    var m := LeaderCommit(cfg, n);
    assert m == n.(committed := m.committed);
    assert forall r: nat :: Holders(cfg, m, r) == Holders(cfg, n, r) by {
      assert forall v :: Matched(m, v) == Matched(n, v);
    }
    HeldIsIndex(cfg, n, |n.log| + 1);
    if j <= |n.log| {
      HeldIsIndex(cfg, n, j);
      forall r: nat | Countable(cfg, m, r)
        ensures r <= m.committed
      {
        HeldIsIndex(cfg, n, r);
        assert n.log[r - 1].term <= n.log[j - 1].term <= n.term;
      }
    }
  }

  lemma LeaderCommitsByGroup(cfg: Settings, n: Node)
    requires n.term > 0
    ensures CommitsByGroup(cfg, n.committed, LeaderCommit(cfg, n))
  {
    hide IsJointCommittedIndex, AckMap;
    var m := LeaderCommit(cfg, n);
    SameMatches(cfg, n, m);
    forall j: nat, g | IsJointCommittedIndex(cfg.voters, cfg.groupCommit, AckMap(cfg, n), j, g)
      ensures m.committed == if n.committed < j <= |n.log| && n.log[j - 1].term == n.term then j else n.committed
    {
      JointIndexIs(cfg.voters, cfg.groupCommit, AckMap(cfg, n), j, g);
    }
  }

  /** What a leader commits once it counts what `n` has matched. */
  ghost predicate CommitsAsHeld(cfg: Settings, was: nat, n: Node) {
    (!cfg.groupCommit ==> CommitsHeld(cfg, was, n)) && CommitsByGroup(cfg, was, n)
  }

  lemma CountsAt(cfg: Settings, n: Node)
    requires cfg.voters.incoming != {} && Ascending(n.log, n.term) && Indexed(n)
    ensures var m := LeaderCommit(cfg, n); CommitsAsHeld(cfg, n.committed, m) && m == n.(committed := m.committed)
  {
    hide CommitsHeld, CommitsByGroup, Ascending;
    assert LeaderCommit(cfg, n) == n.(committed := LeaderCommit(cfg, n).committed);
    LeaderCommitsByGroup(cfg, n);
    if !cfg.groupCommit {
      LeaderCommitsHeld(cfg, n);
    }
  }

  lemma SameMatches(cfg: Settings, n: Node, m: Node)
    requires m.matched == n.matched
    ensures AckMap(cfg, m) == AckMap(cfg, n)
  {
    hide Group;
  }

  // -------------------------------------------------- everybody holds it

  lemma AllAckedIndex(voters: set<nat>, groups: bool, l: AckIndexer, k: nat, r: nat, g: bool)
    requires voters != {} && (forall v :: v in voters ==> Acked(l, v).index == k) && IsCommittedIndex(voters, groups, l, r, g)
    ensures r == k
  {
    assert AckedAtLeast(voters, l, k) == voters;
    forall j: nat | j > k
      ensures AckedAtLeast(voters, l, j) == {}
    {
    }
    assert IsQuorumIndex(voters, l, k);
    if groups && TwoGroupsAcked(voters, l, 0) {
      var q :| IsQuorumIndex(voters, l, q) && IsGroupIndex(voters, l, q, r);
      var a, b :| GroupAcked(voters, l, 0, a) && GroupAcked(voters, l, 0, b) && Acked(l, a).groupId != Acked(l, b).groupId;
      assert GroupAcked(voters, l, k, a) && GroupAcked(voters, l, k, b);
      assert TwoGroupsAcked(voters, l, k);
    }
  }

  /** In every mode, what all voters hold to the same index is the index. */
  lemma AllHeldIndex(cfg: Settings, n: Node, k: nat)
    requires cfg.voters.incoming != {} && k <= U64_MAX && forall v :: v in Voters(cfg) ==> Matched(n, v) == k
    ensures JointIndex(cfg.voters, cfg.groupCommit, AckMap(cfg, n)) == k
  {
    hide IsCommittedIndex;
    var l := AckMap(cfg, n);
    JointIndexExists(cfg.voters, cfg.groupCommit, l);
    var c: nat, g :| IsJointCommittedIndex(cfg.voters, cfg.groupCommit, l, c, g);
    var i, ig, o, og :| JointParts(cfg.voters, cfg.groupCommit, l, i, ig, o, og) && c == Min(i, o) && g == (ig && og);
    AllAckedIndex(cfg.voters.incoming, cfg.groupCommit, l, k, i, ig);
    if cfg.voters.outgoing != {} {
      AllAckedIndex(cfg.voters.outgoing, cfg.groupCommit, l, k, o, og);
    } else {
      EmptyIndex(cfg.groupCommit, l, o, og);
    }
    JointIndexIs(cfg.voters, cfg.groupCommit, l, c, g);
  }

  lemma EmptyIndex(groups: bool, l: AckIndexer, o: nat, og: bool)
    requires IsCommittedIndex({}, groups, l, o, og)
    ensures o == U64_MAX
  {
  }

  /** A leader commits what all voters hold of its own term. */
  lemma AllHeldCommits(cfg: Settings, n: Node)
    requires cfg.voters.incoming != {} && |n.log| <= U64_MAX && n.log != [] && n.log[|n.log| - 1].term == n.term && n.committed <= |n.log|
    requires forall v :: v in Voters(cfg) ==> Matched(n, v) == |n.log|
    ensures LeaderCommit(cfg, n) == n.(committed := |n.log|)
  {
    hide JointIndex;
    AllHeldIndex(cfg, n, |n.log|);
  }
}
