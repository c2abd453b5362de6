/** Majority and joint quorums: vote results and committed indexes. */
module Quorum {
  import opened Common

  /** u64::MAX, the committed index of an empty majority. */
  const U64_MAX: nat := 0xFFFF_FFFF_FFFF_FFFF

  datatype VoteResult = Pending | Lost | Won

  /** An acknowledged log position together with its commit group (0 means no group). */
  datatype Index = Index(index: nat, groupId: nat)

  type AckIndexer = map<nat, Index>

  type Votes = map<nat, bool>

  datatype JointConfig = JointConfig(incoming: set<nat>, outgoing: set<nat>)

  function Majority(total: nat): nat {
    total / 2 + 1
  }

  // ---------------------------------------------------------------- votes

  function Yes(voters: set<nat>, votes: Votes): set<nat> {
    set v | v in voters && v in votes && votes[v]
  }

  function Missing(voters: set<nat>, votes: Votes): set<nat> {
    set v | v in voters && v !in votes
  }

  function MajorityVote(voters: set<nat>, votes: Votes): VoteResult {
    if voters == {} then Won
    else if |Yes(voters, votes)| >= Majority(|voters|) then Won
    else if |Yes(voters, votes)| + |Missing(voters, votes)| >= Majority(|voters|) then Pending
    else Lost
  }

  function JointVote(cfg: JointConfig, votes: Votes): VoteResult {
    match (MajorityVote(cfg.incoming, votes), MajorityVote(cfg.outgoing, votes))
    case (Won, Won) => Won
    case (Lost, _) => Lost
    case (_, Lost) => Lost
    case _ => Pending
  }

  lemma CountOneMore(done: set<nat>, votes: Votes, v: nat)
    requires v !in done
    ensures |Yes(done + {v}, votes)| == |Yes(done, votes)| + if v in votes && votes[v] then 1 else 0
    ensures |Missing(done + {v}, votes)| == |Missing(done, votes)| + if v !in votes then 1 else 0
  {
    if v !in votes {
      assert Yes(done + {v}, votes) == Yes(done, votes);
      assert Missing(done + {v}, votes) == Missing(done, votes) + {v};
    } else {
      assert Missing(done + {v}, votes) == Missing(done, votes);
      if votes[v] {
        assert Yes(done + {v}, votes) == Yes(done, votes) + {v};
      } else {
        assert Yes(done + {v}, votes) == Yes(done, votes);
      }
    }
  }

  /** Counts the votes one voter at a time, in any order of the voter set. */
  method CountVotes(voters: set<nat>, votes: Votes) returns (r: VoteResult)
    ensures r == MajorityVote(voters, votes)
  {
    if voters == {} {
      return Won;
    }
    var yes, missing, todo := 0, 0, voters;
    ghost var done := {};
    while todo != {}
      invariant done !! todo && done + todo == voters
      invariant yes == |Yes(done, votes)| && missing == |Missing(done, votes)|
      decreases todo
    {
      var v :| v in todo;
      CountOneMore(done, votes, v);
      if v !in votes {
        missing := missing + 1;
      } else if votes[v] {
        yes := yes + 1;
      }
      todo, done := todo - {v}, done + {v};
    }
    assert done == voters;
    var q := Majority(|voters|);
    r := if yes >= q then Won else if yes + missing >= q then Pending else Lost;
  }

  /** `JointConfig::vote_result`: both halves count, then the table of outcomes. */
  method CountJointVotes(cfg: JointConfig, votes: Votes) returns (r: VoteResult)
    ensures r == JointVote(cfg, votes)
  {
    var i := CountVotes(cfg.incoming, votes);
    var o := CountVotes(cfg.outgoing, votes);
    r := match (i, o)
         case (Won, Won) => Won
         case (Lost, _) => Lost
         case (_, Lost) => Lost
         case _ => Pending;
  }

  /** The votes that `has_quorum` looks at: everyone in `s` says yes, nobody says no. */
  function AllYes(s: set<nat>): Votes {
    map v | v in s :: true
  }

  /** `s` holds a majority of each non-empty half. */
  predicate HasQuorum(cfg: JointConfig, s: set<nat>) {
    JointVote(cfg, AllYes(s)) == Won
  }

  predicate HoldsMajority(voters: set<nat>, s: set<nat>) {
    voters == {} || |voters * s| >= Majority(|voters|)
  }

  /** Winning is exactly holding a majority of yes votes in both halves. */
  lemma WonIsMajority(cfg: JointConfig, votes: Votes)
    ensures JointVote(cfg, votes) == Won <==>
            HoldsMajority(cfg.incoming, YesIds(votes)) && HoldsMajority(cfg.outgoing, YesIds(votes))
  {
    assert Yes(cfg.incoming, votes) == cfg.incoming * YesIds(votes);
    assert Yes(cfg.outgoing, votes) == cfg.outgoing * YesIds(votes);
  }

  /** A vote is lost exactly if it could not be won any more, did all who have not answered say yes. */
  lemma LostIsHopeless(cfg: JointConfig, votes: Votes)
    ensures JointVote(cfg, votes) == Lost <==> !HasQuorum(cfg, YesIds(votes) + Missing(cfg.incoming + cfg.outgoing, votes))
  {
    var hopeful := YesIds(votes) + Missing(cfg.incoming + cfg.outgoing, votes);
    HasQuorumIsMajority(cfg, hopeful);
    HalfHopes(cfg.incoming, cfg.incoming + cfg.outgoing, votes);
    HalfHopes(cfg.outgoing, cfg.incoming + cfg.outgoing, votes);
  }

  lemma HalfHopes(voters: set<nat>, ids: set<nat>, votes: Votes)
    requires voters <= ids
    ensures MajorityVote(voters, votes) == Lost <==> !HoldsMajority(voters, YesIds(votes) + Missing(ids, votes))
  {
    assert voters * (YesIds(votes) + Missing(ids, votes)) == Yes(voters, votes) + Missing(voters, votes);
    assert Yes(voters, votes) !! Missing(voters, votes);
  }

  function YesIds(votes: Votes): set<nat> {
    set v | v in votes && votes[v]
  }

  lemma HasQuorumIsMajority(cfg: JointConfig, s: set<nat>)
    ensures HasQuorum(cfg, s) <==> HoldsMajority(cfg.incoming, s) && HoldsMajority(cfg.outgoing, s)
  {
    WonIsMajority(cfg, AllYes(s));
    assert YesIds(AllYes(s)) == s;
  }

  lemma SizeMonotone(a: set<nat>, b: set<nat>)
    requires a <= b
    ensures |a| <= |b|
  {
    assert b == a + (b - a);
    assert a !! (b - a);
  }

  lemma SizeSplit(a: set<nat>, b: set<nat>)
    ensures |a + b| + |a * b| == |a| + |b|
  {
    assert a + b == a + (b - a) && a !! (b - a);
    assert b == (b - a) + (a * b) && (b - a) !! (a * b);
  }

  /** Two majorities of one non-empty voter set share a voter. */
  lemma MajoritiesMeet(voters: set<nat>, a: set<nat>, b: set<nat>) returns (v: nat)
    requires voters != {} && HoldsMajority(voters, a) && HoldsMajority(voters, b)
    ensures v in voters && v in a && v in b
  {
    var x, y := voters * a, voters * b;
    SizeSplit(x, y);
    SizeMonotone(x + y, voters);
    assert |x * y| > 0;
    v :| v in x * y;
  }

  /** Any two winning vote sets of one joint configuration share a voter. */
  lemma QuorumsMeet(cfg: JointConfig, a: set<nat>, b: set<nat>) returns (v: nat)
    requires cfg.incoming != {} && HasQuorum(cfg, a) && HasQuorum(cfg, b)
    ensures v in cfg.incoming && v in a && v in b
  {
    HasQuorumIsMajority(cfg, a);
    HasQuorumIsMajority(cfg, b);
    v := MajoritiesMeet(cfg.incoming, a, b);
  }

  lemma HasQuorumMonotone(cfg: JointConfig, a: set<nat>, b: set<nat>)
    requires a <= b && HasQuorum(cfg, a)
    ensures HasQuorum(cfg, b)
  {
    HasQuorumIsMajority(cfg, a);
    HasQuorumIsMajority(cfg, b);
    SizeMonotone(cfg.incoming * a, cfg.incoming * b);
    SizeMonotone(cfg.outgoing * a, cfg.outgoing * b);
  }

  /** `record_vote` keeps the first answer of each voter. */
  function RecordVote(votes: Votes, id: nat, vote: bool): Votes {
    if id in votes then votes else votes[id := vote]
  }

  lemma RecordVoteCounts(voters: set<nat>, votes: Votes, id: nat, vote: bool)
    ensures var later := RecordVote(votes, id, vote);
            && |Yes(voters, votes)| <= |Yes(voters, later)|
            && |Yes(voters, later)| + |Missing(voters, later)| <= |Yes(voters, votes)| + |Missing(voters, votes)|
  {
    var later := RecordVote(votes, id, vote);
    if id in votes || id !in voters {
      assert Yes(voters, later) == Yes(voters, votes) && Missing(voters, later) == Missing(voters, votes);
    } else {
      assert Missing(voters, votes) == Missing(voters, later) + {id};
      assert Yes(voters, later) == if vote then Yes(voters, votes) + {id} else Yes(voters, votes);
    }
  }

  lemma MajorityVoteSticky(voters: set<nat>, votes: Votes, id: nat, vote: bool)
    ensures var r := MajorityVote(voters, votes);
            r != Pending ==> MajorityVote(voters, RecordVote(votes, id, vote)) == r
  {
    hide Yes, Missing, RecordVote;
    RecordVoteCounts(voters, votes, id, vote);
  }

  /** A decided election never changes its mind, whatever votes arrive later. */
  lemma {:induction false} DecisionIsFinal(cfg: JointConfig, votes: Votes, later: seq<(nat, bool)>)
    requires JointVote(cfg, votes) != Pending
    ensures JointVote(cfg, RecordAll(votes, later)) == JointVote(cfg, votes)
    decreases |later|
  {
    if later != [] {
      var (id, vote) := later[0];
      MajorityVoteSticky(cfg.incoming, votes, id, vote);
      MajorityVoteSticky(cfg.outgoing, votes, id, vote);
      DecisionIsFinal(cfg, RecordVote(votes, id, vote), later[1..]);
    }
  }

  function RecordAll(votes: Votes, later: seq<(nat, bool)>): Votes
    decreases |later|
  {
    if later == [] then votes
    else RecordAll(RecordVote(votes, later[0].0, later[0].1), later[1..])
  }

  // ------------------------------------------------------ committed index

  function Acked(l: AckIndexer, v: nat): Index {
    if v in l then l[v] else Index(0, 0)
  }

  /** The voters that acknowledged at least `r`. */
  function AckedAtLeast(voters: set<nat>, l: AckIndexer, r: nat): set<nat> {
    set v | v in voters && Acked(l, v).index >= r
  }

  /** `r` is the greatest index acknowledged by a majority. */
  ghost predicate IsQuorumIndex(voters: set<nat>, l: AckIndexer, r: nat) {
    && |AckedAtLeast(voters, l, r)| >= Majority(|voters|)
    && forall k :: k > r ==> |AckedAtLeast(voters, l, k)| < Majority(|voters|)
  }

  /** Some two voters of distinct non-zero groups acknowledged at least `r`. */
  ghost predicate TwoGroupsAcked(voters: set<nat>, l: AckIndexer, r: nat) {
    exists a, b :: GroupAcked(voters, l, r, a) && GroupAcked(voters, l, r, b)
      && Acked(l, a).groupId != Acked(l, b).groupId
  }

  predicate GroupAcked(voters: set<nat>, l: AckIndexer, r: nat, v: nat) {
    v in voters && Acked(l, v).index >= r && Acked(l, v).groupId != 0
  }

  predicate NoZeroGroup(voters: set<nat>, l: AckIndexer) {
    forall v :: v in voters ==> Acked(l, v).groupId != 0
  }

  ghost predicate IsMinAck(voters: set<nat>, l: AckIndexer, r: nat) {
    && (exists v :: v in voters && Acked(l, v).index == r)
    && forall v :: v in voters ==> Acked(l, v).index >= r
  }

  /** `r` is the greatest index up to `q` acknowledged by two distinct groups. */
  ghost predicate IsGroupIndex(voters: set<nat>, l: AckIndexer, q: nat, r: nat) {
    && r <= q && TwoGroupsAcked(voters, l, r)
    && forall k :: r < k <= q ==> !TwoGroupsAcked(voters, l, k)
  }

  /**
    What the committed index of one majority means. Only the acknowledgements
    of the voters matter, so neither the iteration order of the hash set nor
    the order of equal indexes in the sort can change it.
   */
  ghost predicate IsCommittedIndex(voters: set<nat>, groups: bool, l: AckIndexer, r: nat, byGroup: bool) {
    if voters == {} then r == U64_MAX && byGroup
    else if !groups then IsQuorumIndex(voters, l, r) && !byGroup
    else if TwoGroupsAcked(voters, l, 0) then
      byGroup && exists q :: IsQuorumIndex(voters, l, q) && IsGroupIndex(voters, l, q, r)
    else if NoZeroGroup(voters, l) then IsQuorumIndex(voters, l, r) && !byGroup
    else IsMinAck(voters, l, r) && !byGroup
  }

  lemma {:induction false} AckBound(voters: set<nat>, l: AckIndexer) returns (m: nat)
    ensures forall v :: v in voters ==> Acked(l, v).index <= m
  {
    if voters == {} {
      m := 0;
    } else {
      var v :| v in voters;
      m := AckBound(voters - {v}, l);
      m := if m < Acked(l, v).index then Acked(l, v).index else m;
    }
  }

  lemma QuorumIndexExists(voters: set<nat>, l: AckIndexer) returns (r: nat)
    requires voters != {}
    ensures IsQuorumIndex(voters, l, r)
  {
    r := AckBound(voters, l);
    forall k | k > r
      ensures AckedAtLeast(voters, l, k) == {}
    {
    }
    while r > 0 && |AckedAtLeast(voters, l, r)| < Majority(|voters|)
      invariant forall k :: k > r ==> |AckedAtLeast(voters, l, k)| < Majority(|voters|)
    {
      r := r - 1;
    }
    assert AckedAtLeast(voters, l, 0) == voters;
  }

  lemma {:induction false} MinAckExists(voters: set<nat>, l: AckIndexer) returns (r: nat)
    requires voters != {}
    ensures IsMinAck(voters, l, r)
  {
    var v :| v in voters;
    if voters == {v} {
      r := Acked(l, v).index;
    } else {
      r := MinAckExists(voters - {v}, l);
      if Acked(l, v).index <= r {
        r := Acked(l, v).index;
      } else {
        var w :| w in voters - {v} && Acked(l, w).index == r;
        assert w in voters;
      }
    }
  }

  lemma GroupIndexExists(voters: set<nat>, l: AckIndexer, q: nat) returns (r: nat)
    requires TwoGroupsAcked(voters, l, 0)
    ensures IsGroupIndex(voters, l, q, r)
  {
    r := q;
    while r > 0 && !TwoGroupsAcked(voters, l, r)
      invariant r <= q && forall k :: r < k <= q ==> !TwoGroupsAcked(voters, l, k)
    {
      r := r - 1;
    }
  }

  /** Every voter set and acknowledgement map has a committed index. */
  lemma CommittedIndexExists(voters: set<nat>, groups: bool, l: AckIndexer) returns (r: nat, byGroup: bool)
    ensures IsCommittedIndex(voters, groups, l, r, byGroup)
  {
    if voters == {} {
      return U64_MAX, true;
    }
    var q := QuorumIndexExists(voters, l);
    r, byGroup := q, false;
    if groups && TwoGroupsAcked(voters, l, 0) {
      r := GroupIndexExists(voters, l, q);
      byGroup := true;
    } else if groups && !NoZeroGroup(voters, l) {
      r := MinAckExists(voters, l);
    }
  }

  /** The value `JointConfig::committed_index` returns. */
  ghost function JointIndex(cfg: JointConfig, groups: bool, l: AckIndexer): (r: nat)
    ensures HasQuorum(cfg, AckedAtLeast(cfg.incoming + cfg.outgoing, l, r))
  {
    JointIndexExists(cfg, groups, l);
    var r: nat, g :| IsJointCommittedIndex(cfg, groups, l, r, g);
    CommittedIndexHasQuorum(cfg, groups, l, r, g);
    r
  }

  lemma JointIndexExists(cfg: JointConfig, groups: bool, l: AckIndexer)
    ensures exists r: nat, g :: IsJointCommittedIndex(cfg, groups, l, r, g)
  {
    hide IsCommittedIndex;
    var i, ig := CommittedIndexExists(cfg.incoming, groups, l);
    var o, og := CommittedIndexExists(cfg.outgoing, groups, l);
    assert JointParts(cfg, groups, l, i, ig, o, og);
    assert IsJointCommittedIndex(cfg, groups, l, Min(i, o), ig && og);
  }

  lemma QuorumIndexUnique(voters: set<nat>, l: AckIndexer, r: nat, s: nat)
    requires IsQuorumIndex(voters, l, r) && IsQuorumIndex(voters, l, s)
    ensures r == s
  {
  }

  /** The meaning above fixes the result: it is a function of voters, flag and acknowledgements. */
  lemma CommittedIndexUnique(voters: set<nat>, groups: bool, l: AckIndexer, r: nat, rg: bool, s: nat, sg: bool)
    requires IsCommittedIndex(voters, groups, l, r, rg) && IsCommittedIndex(voters, groups, l, s, sg)
    ensures r == s && rg == sg
  {
    if voters != {} && groups && TwoGroupsAcked(voters, l, 0) {
      var q :| IsQuorumIndex(voters, l, q) && IsGroupIndex(voters, l, q, r);
      var p :| IsQuorumIndex(voters, l, p) && IsGroupIndex(voters, l, p, s);
      QuorumIndexUnique(voters, l, p, q);
    }
  }

  // The buffer of acknowledgements, sorted by descending index.

  ghost predicate Descending(s: seq<Index>) {
    forall i, j :: 0 <= i < j < |s| ==> s[i].index >= s[j].index
  }

  /** The entries of `s` with index at least `r`. */
  function CountAtLeast(s: seq<Index>, r: nat): nat {
    if s == [] then 0 else (if s[|s| - 1].index >= r then 1 else 0) + CountAtLeast(s[..|s| - 1], r)
  }

  lemma {:induction false} CountPrefix(s: seq<Index>, r: nat, n: nat)
    requires n <= |s|
    requires forall i :: 0 <= i < n ==> s[i].index >= r
    requires forall i :: n <= i < |s| ==> s[i].index < r
    ensures CountAtLeast(s, r) == n
  {
    if s != [] {
      CountPrefix(s[..|s| - 1], r, if n == |s| then n - 1 else n);
    }
  }

  lemma {:induction false} CountMultiset(s: seq<Index>, t: seq<Index>, r: nat)
    requires multiset(s) == multiset(t)
    ensures CountAtLeast(s, r) == CountAtLeast(t, r)
  {
    assert |s| == |multiset(s)| == |multiset(t)| == |t|;
    if s != [] {
      var x, s' := s[|s| - 1], s[..|s| - 1];
      assert s == s' + [x];
      assert x in multiset(t);
      var k :| 0 <= k < |t| && t[k] == x;
      var t' := t[..k] + t[k + 1..];
      assert t == t[..k] + [x] + t[k + 1..];
      assert multiset(t') == multiset(t) - multiset{x};
      CountMultiset(s', t', r);
      CountRemove(t, k, r);
    }
  }

  lemma {:induction false} CountRemove(t: seq<Index>, k: nat, r: nat)
    requires k < |t|
    ensures CountAtLeast(t, r) == (if t[k].index >= r then 1 else 0) + CountAtLeast(t[..k] + t[k + 1..], r)
    decreases |t|
  {
    var n := |t| - 1;
    if k == n {
      assert t[..k] + t[k + 1..] == t[..n];
    } else {
      CountRemove(t[..n], k, r);
      var u := t[..k] + t[k + 1..];
      assert u[..|u| - 1] == t[..n][..k] + t[..n][k + 1..];
      assert u[|u| - 1] == t[n];
    }
  }

  /** A stable sort on descending index, standing for the library's `sort_by`. */
  function SortDescending(s: seq<Index>): (t: seq<Index>)
    ensures Descending(t) && multiset(t) == multiset(s)
  {
    if s == [] then []
    else
      assert s == s[..|s| - 1] + [s[|s| - 1]];
      Insert(SortDescending(s[..|s| - 1]), s[|s| - 1])
  }

  function Insert(s: seq<Index>, x: Index): (t: seq<Index>)
    requires Descending(s)
    ensures Descending(t) && multiset(t) == multiset(s) + multiset{x}
  {
    if s == [] || s[|s| - 1].index >= x.index then s + [x]
    else
      var y := s[|s| - 1];
      assert s == s[..|s| - 1] + [y];
      var t := Insert(s[..|s| - 1], x);
      InsertBelow(s[..|s| - 1], x, y, t);
      t + [y]
  }

  lemma InsertBelow(s: seq<Index>, x: Index, y: Index, t: seq<Index>)
    requires Descending(s + [y]) && y.index < x.index
    requires Descending(t) && multiset(t) == multiset(s) + multiset{x}
    ensures Descending(t + [y])
  {
    forall i | 0 <= i < |t|
      ensures t[i].index >= y.index
    {
      assert t[i] in multiset(t);
      if t[i] != x {
        assert t[i] in multiset(s);
        var k :| 0 <= k < |s| && s[k] == t[i];
        assert (s + [y])[k].index >= (s + [y])[|s|].index;
      }
    }
  }

  /** `buf` lists the acknowledgement of every voter once. */
  ghost predicate Collected(voters: set<nat>, l: AckIndexer, s: seq<Index>) {
    && |s| == |voters|
    && (forall r :: CountAtLeast(s, r) == |AckedAtLeast(voters, l, r)|)
    && FromVoters(voters, l, s)
    && (forall v :: v in voters ==> Acked(l, v) in s)
  }

  ghost predicate FromVoters(voters: set<nat>, l: AckIndexer, s: seq<Index>) {
    forall i :: 0 <= i < |s| ==> exists v :: v in voters && Acked(l, v) == s[i]
  }

  method Collect(voters: set<nat>, l: AckIndexer) returns (buf: seq<Index>)
    ensures Collected(voters, l, buf)
  {
    buf := [];
    var todo := voters;
    ghost var done := {};
    while todo != {}
      invariant done !! todo && done + todo == voters
      invariant Collected(done, l, buf)
      decreases todo
    {
      var v :| v in todo;
      CollectedStep(done, l, buf, v);
      buf := buf + [Acked(l, v)];
      todo, done := todo - {v}, done + {v};
    }
    assert done == voters;
  }

  lemma CollectedCount(done: set<nat>, l: AckIndexer, s: seq<Index>, v: nat, r: nat)
    requires CountAtLeast(s, r) == |AckedAtLeast(done, l, r)| && v !in done
    ensures CountAtLeast(s + [Acked(l, v)], r) == |AckedAtLeast(done + {v}, l, r)|
  {
    assert (s + [Acked(l, v)])[..|s|] == s;
    if Acked(l, v).index >= r {
      assert AckedAtLeast(done + {v}, l, r) == AckedAtLeast(done, l, r) + {v};
    } else {
      assert AckedAtLeast(done + {v}, l, r) == AckedAtLeast(done, l, r);
    }
  }

  lemma CollectedStep(done: set<nat>, l: AckIndexer, s: seq<Index>, v: nat)
    requires Collected(done, l, s) && v !in done
    ensures Collected(done + {v}, l, s + [Acked(l, v)])
  {
    var t, voters := s + [Acked(l, v)], done + {v};
    forall r
      ensures CountAtLeast(t, r) == |AckedAtLeast(voters, l, r)|
    {
      CollectedCount(done, l, s, v, r);
    }
    assert FromVoters(voters, l, t) by {
      forall i | 0 <= i < |t|
        ensures exists w :: w in voters && Acked(l, w) == t[i]
      {
        if i < |s| {
          var w :| w in done && Acked(l, w) == s[i];
          assert w in voters;
        } else {
          assert v in voters;
        }
      }
    }
  }

  lemma CollectedPermuted(voters: set<nat>, l: AckIndexer, s: seq<Index>, t: seq<Index>)
    requires Collected(voters, l, s) && multiset(s) == multiset(t)
    ensures Collected(voters, l, t)
  {
    assert |s| == |multiset(s)| == |multiset(t)| == |t|;
    forall r
      ensures CountAtLeast(t, r) == |AckedAtLeast(voters, l, r)|
    {
      CountMultiset(s, t, r);
    }
    forall i | 0 <= i < |t|
      ensures exists v :: v in voters && Acked(l, v) == t[i]
    {
      assert t[i] in multiset(s);
      var k :| 0 <= k < |s| && s[k] == t[i];
    }
    forall v | v in voters
      ensures Acked(l, v) in t
    {
      assert Acked(l, v) in multiset(s);
      assert Acked(l, v) in multiset(t);
    }
  }

  /** The element at the quorum position of a sorted buffer is the quorum index. */
  lemma SortedQuorumIndex(voters: set<nat>, l: AckIndexer, s: seq<Index>)
    requires voters != {} && Collected(voters, l, s) && Descending(s)
    ensures Majority(|s|) <= |s| && IsQuorumIndex(voters, l, s[Majority(|s|) - 1].index)
  {
    var q := Majority(|s|);
    var r := s[q - 1].index;
    CountLow(s, r, q);
    forall k | k > r
      ensures |AckedAtLeast(voters, l, k)| < q
    {
      CountHigh(s, k, q - 1);
    }
  }

  lemma {:induction false} CountLow(s: seq<Index>, r: nat, n: nat)
    requires n <= |s| && forall i :: 0 <= i < n ==> s[i].index >= r
    ensures CountAtLeast(s, r) >= n
  {
    if |s| > 0 {
      CountLow(s[..|s| - 1], r, if n == |s| then n - 1 else n);
    }
  }

  lemma {:induction false} CountHigh(s: seq<Index>, r: nat, n: nat)
    requires n <= |s| && forall i :: n <= i < |s| ==> s[i].index < r
    ensures CountAtLeast(s, r) <= n
  {
    if |s| > 0 {
      CountHigh(s[..|s| - 1], r, if n == |s| then n - 1 else n);
    }
  }

  /** `MajorityConfig::committed_index`, with and without group commit. */
  method CommittedIndex(voters: set<nat>, groups: bool, l: AckIndexer) returns (r: nat, byGroup: bool)
    ensures IsCommittedIndex(voters, groups, l, r, byGroup)
  {
    if voters == {} {
      return U64_MAX, true;
    }
    var buf := Collect(voters, l);
    var matched := SortDescending(buf);
    CollectedPermuted(voters, l, buf, matched);
    SortedQuorumIndex(voters, l, matched);
    if groups {
      r, byGroup := GroupCommittedIndex(voters, l, matched);
    } else {
      r, byGroup := matched[Majority(|matched|) - 1].index, false;
    }
  }

  /** The scan of `committed_index` over the sorted buffer for a second group. */
  method GroupCommittedIndex(ghost voters: set<nat>, ghost l: AckIndexer, matched: seq<Index>) returns (r: nat, byGroup: bool)
    requires voters != {} && Collected(voters, l, matched) && Descending(matched)
    requires Majority(|matched|) <= |matched|
    ensures IsCommittedIndex(voters, true, l, r, byGroup)
  {
    hide IsCommittedIndex, Collected, TwoGroupsAcked;
    var quorumIndex := matched[Majority(|matched|) - 1];
    var checked, single := quorumIndex.groupId, true;
    ghost var seen: nat := Majority(|matched|) - 1;
    for i := 0 to |matched|
      invariant single <==> forall k :: 0 <= k < i ==> matched[k].groupId != 0
      invariant OneGroup(matched[..i], checked)
      invariant checked == 0 ==> quorumIndex.groupId == 0
      invariant seen == Majority(|matched|) - 1 || seen < i
      invariant checked != 0 ==> matched[seen].groupId == checked
    {
      var m := matched[i];
      if m.groupId == 0 {
        single := false;
      } else if checked == 0 {
        checked, seen := m.groupId, i;
      } else if checked != m.groupId {
        GroupCommitFound(voters, l, matched, i, checked, seen);
        return Min(m.index, quorumIndex.index), true;
      }
    }
    r, byGroup := if single then quorumIndex.index else matched[|matched| - 1].index, false;
    assert matched[..|matched|] == matched;
    NoSecondGroup(voters, l, matched, checked);
  }

  lemma NoSecondGroup(voters: set<nat>, l: AckIndexer, s: seq<Index>, g: nat)
    requires voters != {} && Collected(voters, l, s) && Descending(s) && OneGroup(s, g) && Majority(|s|) <= |s|
    ensures (forall k :: 0 <= k < |s| ==> s[k].groupId != 0) ==>
              IsCommittedIndex(voters, true, l, s[Majority(|s|) - 1].index, false)
    ensures (exists k :: 0 <= k < |s| && s[k].groupId == 0) ==>
              IsCommittedIndex(voters, true, l, s[|s| - 1].index, false)
  {
    NoTwoGroups(voters, l, s, g);
    SortedQuorumIndex(voters, l, s);
    LastIsMinimum(voters, l, s);
    SingleGroup(voters, l, s);
  }

  ghost predicate OneGroup(s: seq<Index>, g: nat) {
    forall k :: 0 <= k < |s| ==> s[k].groupId == 0 || s[k].groupId == g
  }

  lemma SingleGroup(voters: set<nat>, l: AckIndexer, s: seq<Index>)
    requires Collected(voters, l, s)
    ensures NoZeroGroup(voters, l) <==> forall k :: 0 <= k < |s| ==> s[k].groupId != 0
  {
    if k :| 0 <= k < |s| && s[k].groupId == 0 {
      var v :| v in voters && Acked(l, v) == s[k];
    } else {
      forall v | v in voters
        ensures Acked(l, v).groupId != 0
      {
        var k :| 0 <= k < |s| && s[k] == Acked(l, v);
      }
    }
  }

  lemma LastIsMinimum(voters: set<nat>, l: AckIndexer, s: seq<Index>)
    requires voters != {} && Collected(voters, l, s) && Descending(s)
    ensures IsMinAck(voters, l, s[|s| - 1].index)
  {
    var w :| w in voters && Acked(l, w) == s[|s| - 1];
    forall v | v in voters
      ensures Acked(l, v).index >= s[|s| - 1].index
    {
      var k :| 0 <= k < |s| && s[k] == Acked(l, v);
    }
  }

  lemma NoTwoGroups(voters: set<nat>, l: AckIndexer, s: seq<Index>, g: nat)
    requires Collected(voters, l, s) && OneGroup(s, g)
    ensures !TwoGroupsAcked(voters, l, 0)
  {
    forall v | v in voters
      ensures Acked(l, v).groupId == 0 || Acked(l, v).groupId == g
    {
      var k :| 0 <= k < |s| && s[k] == Acked(l, v);
    }
  }

  /** The first element of a second group gives the group-commit index. */
  lemma GroupCommitFound(voters: set<nat>, l: AckIndexer, s: seq<Index>, i: nat, g: nat, j: nat)
    requires voters != {} && Collected(voters, l, s) && Descending(s)
    requires i < |s| && j < |s| && s[i].groupId != 0 && s[j].groupId == g != 0 && s[i].groupId != g
    requires OneGroup(s[..i], g)
    requires Majority(|s|) <= |s| && (j == Majority(|s|) - 1 || j < i)
    ensures IsCommittedIndex(voters, true, l, Min(s[i].index, s[Majority(|s|) - 1].index), true)
  {
    var q := s[Majority(|s|) - 1].index;
    var r := Min(s[i].index, q);
    SortedQuorumIndex(voters, l, s);
    assert s[j].index >= r;
    var a :| a in voters && Acked(l, a) == s[j];
    var b :| b in voters && Acked(l, b) == s[i];
    assert GroupAcked(voters, l, r, a) && GroupAcked(voters, l, r, b);
    assert GroupAcked(voters, l, 0, a) && GroupAcked(voters, l, 0, b);
    forall n | r < n <= q
      ensures !TwoGroupsAcked(voters, l, n)
    {
      AboveFoundIsOneGroup(voters, l, s, i, g, n);
    }
    assert IsGroupIndex(voters, l, q, r);
  }

  lemma AboveFoundIsOneGroup(voters: set<nat>, l: AckIndexer, s: seq<Index>, i: nat, g: nat, n: nat)
    requires Collected(voters, l, s) && Descending(s) && i < |s| && OneGroup(s[..i], g) && s[i].index < n
    ensures !TwoGroupsAcked(voters, l, n)
  {
    forall v | GroupAcked(voters, l, n, v)
      ensures Acked(l, v).groupId == g
    {
      var k :| 0 <= k < |s| && s[k] == Acked(l, v);
      assert k < i && s[..i][k] == s[k];
    }
  }

  /** `JointConfig::committed_index`. */
  method JointCommittedIndex(cfg: JointConfig, groups: bool, l: AckIndexer) returns (r: nat, byGroup: bool)
    ensures IsJointCommittedIndex(cfg, groups, l, r, byGroup)
    ensures r == JointIndex(cfg, groups, l)
  {
    hide IsCommittedIndex;
    var i, ig := CommittedIndex(cfg.incoming, groups, l);
    var o, og := CommittedIndex(cfg.outgoing, groups, l);
    assert JointParts(cfg, groups, l, i, ig, o, og);
    r, byGroup := Min(i, o), ig && og;
    JointIndexIs(cfg, groups, l, r, byGroup);
  }

  lemma JointIndexIs(cfg: JointConfig, groups: bool, l: AckIndexer, r: nat, g: bool)
    requires IsJointCommittedIndex(cfg, groups, l, r, g)
    ensures r == JointIndex(cfg, groups, l)
  {
    hide IsJointCommittedIndex;
    var s: nat, sg :| IsJointCommittedIndex(cfg, groups, l, s, sg) && s == JointIndex(cfg, groups, l);
    JointCommittedIndexUnique(cfg, groups, l, r, g, s, sg);
  }

  ghost predicate IsJointCommittedIndex(cfg: JointConfig, groups: bool, l: AckIndexer, r: nat, byGroup: bool) {
    exists i, ig, o, og :: JointParts(cfg, groups, l, i, ig, o, og) && r == Min(i, o) && byGroup == (ig && og)
  }

  ghost predicate JointParts(cfg: JointConfig, groups: bool, l: AckIndexer, i: nat, ig: bool, o: nat, og: bool) {
    IsCommittedIndex(cfg.incoming, groups, l, i, ig) && IsCommittedIndex(cfg.outgoing, groups, l, o, og)
  }

  lemma JointPartsUnique(cfg: JointConfig, groups: bool, l: AckIndexer,
                         i: nat, ig: bool, o: nat, og: bool, j: nat, jg: bool, p: nat, pg: bool)
    requires JointParts(cfg, groups, l, i, ig, o, og) && JointParts(cfg, groups, l, j, jg, p, pg)
    ensures i == j && ig == jg && o == p && og == pg
  {
    CommittedIndexUnique(cfg.incoming, groups, l, i, ig, j, jg);
    CommittedIndexUnique(cfg.outgoing, groups, l, o, og, p, pg);
  }

  lemma JointCommittedIndexUnique(cfg: JointConfig, groups: bool, l: AckIndexer, r: nat, rg: bool, s: nat, sg: bool)
    requires IsJointCommittedIndex(cfg, groups, l, r, rg) && IsJointCommittedIndex(cfg, groups, l, s, sg)
    ensures r == s && rg == sg
  {
    hide JointParts;
    var i, ig, o, og :| JointParts(cfg, groups, l, i, ig, o, og) && r == Min(i, o) && rg == (ig && og);
    var j, jg, p, pg :| JointParts(cfg, groups, l, j, jg, p, pg) && s == Min(j, p) && sg == (jg && pg);
    JointPartsUnique(cfg, groups, l, i, ig, o, og, j, jg, p, pg);
  }

  /** The votes "acknowledged at least r" of the voters in `ids`. */
  function AckVotes(ids: set<nat>, l: AckIndexer, r: nat): Votes {
    map v | v in ids :: Acked(l, v).index >= r
  }

  lemma MajorityIndexIsVote(voters: set<nat>, ids: set<nat>, l: AckIndexer, c: nat, g: bool, r: nat)
    requires voters <= ids && IsCommittedIndex(voters, false, l, c, g) && r <= U64_MAX
    ensures r <= c <==> MajorityVote(voters, AckVotes(ids, l, r)) == Won
  {
    var votes := AckVotes(ids, l, r);
    assert Yes(voters, votes) == AckedAtLeast(voters, l, r);
    assert Missing(voters, votes) == {};
    if voters != {} && r <= c {
      SizeMonotone(AckedAtLeast(voters, l, c), AckedAtLeast(voters, l, r));
    }
  }

  /**
    Order statistic: without group commit, an index is at most the committed
    index exactly when the vote "acknowledged at least r" is won.
   */
  lemma CommittedIndexIsVote(cfg: JointConfig, l: AckIndexer, c: nat, g: bool, r: nat)
    requires IsJointCommittedIndex(cfg, false, l, c, g) && r <= U64_MAX
    ensures r <= c <==> JointVote(cfg, AckVotes(cfg.incoming + cfg.outgoing, l, r)) == Won
  {
    var i, ig, o, og :| JointParts(cfg, false, l, i, ig, o, og) && c == Min(i, o) && g == (ig && og);
    MajorityIndexIsVote(cfg.incoming, cfg.incoming + cfg.outgoing, l, i, ig, r);
    MajorityIndexIsVote(cfg.outgoing, cfg.incoming + cfg.outgoing, l, o, og, r);
  }

  lemma MajorityCommitIsAcked(voters: set<nat>, groups: bool, l: AckIndexer, c: nat, g: bool)
    requires voters != {} && IsCommittedIndex(voters, groups, l, c, g)
    ensures HoldsMajority(voters, AckedAtLeast(voters, l, c))
  {
    var acked := AckedAtLeast(voters, l, c);
    assert voters * acked == acked;
    if groups && TwoGroupsAcked(voters, l, 0) {
      var q :| IsQuorumIndex(voters, l, q) && IsGroupIndex(voters, l, q, c);
      SizeMonotone(AckedAtLeast(voters, l, q), acked);
    } else if groups && !NoZeroGroup(voters, l) {
      assert acked == voters;
    }
  }

  lemma HalfIsAcked(voters: set<nat>, ids: set<nat>, groups: bool, l: AckIndexer, i: nat, g: bool, c: nat)
    requires voters <= ids && c <= i && IsCommittedIndex(voters, groups, l, i, g)
    ensures HoldsMajority(voters, AckedAtLeast(ids, l, c))
  {
    if voters != {} {
      MajorityCommitIsAcked(voters, groups, l, i, g);
      SizeMonotone(voters * AckedAtLeast(voters, l, i), voters * AckedAtLeast(ids, l, c));
    }
  }

  /** Whatever the mode, the committed index was acknowledged by a joint quorum. */
  lemma CommittedIndexHasQuorum(cfg: JointConfig, groups: bool, l: AckIndexer, c: nat, g: bool)
    requires IsJointCommittedIndex(cfg, groups, l, c, g)
    ensures HasQuorum(cfg, AckedAtLeast(cfg.incoming + cfg.outgoing, l, c))
  {
    var i, ig, o, og :| JointParts(cfg, groups, l, i, ig, o, og) && c == Min(i, o) && g == (ig && og);
    var acked := AckedAtLeast(cfg.incoming + cfg.outgoing, l, c);
    HalfIsAcked(cfg.incoming, cfg.incoming + cfg.outgoing, groups, l, i, ig, c);
    HalfIsAcked(cfg.outgoing, cfg.incoming + cfg.outgoing, groups, l, o, og, c);
    HasQuorumIsMajority(cfg, acked);
  }
}
