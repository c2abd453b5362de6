/** Rebuilding a tracker from a saved configuration. */
module Restore {
  import opened Quorum
  import opened Membership
  import opened Changer

  datatype ConfState = ConfState(
    voters: seq<nat>, learners: seq<nat>,
    votersOutgoing: seq<nat>, learnersNext: seq<nat>,
    autoLeave: bool)

  function SetOf(ids: seq<nat>): set<nat> {
    set id | id in ids
  }

  /** The configuration a saved state describes. */
  function Described(cs: ConfState): Configuration {
    Configuration(JointConfig(SetOf(cs.voters), SetOf(cs.votersOutgoing)), SetOf(cs.learners), SetOf(cs.learnersNext), cs.autoLeave)
  }

  function Each(kind: Kind, ids: seq<nat>): (cs: seq<Change>)
    ensures |cs| == |ids| && forall i :: 0 <= i < |ids| ==> cs[i] == Change(kind, ids[i])
  {
    seq(|ids|, i requires 0 <= i < |ids| => Change(kind, ids[i]))
  }

  /** The changes that first build the outgoing voters. */
  function OutgoingChanges(cs: ConfState): seq<Change> {
    Each(AddNode, cs.votersOutgoing)
  }

  /** The changes that then turn them into the described configuration. */
  function IncomingChanges(cs: ConfState): seq<Change> {
    Each(RemoveNode, cs.votersOutgoing) + Each(AddNode, cs.voters)
    + Each(AddLearnerNode, cs.learners) + Each(AddLearnerNode, cs.learnersNext)
  }

  /** Where a sequence of operations ended, and the error that stopped it, if any. */
  datatype Attempt = Done(plan: Plan) | Failed(plan: Plan, error: ChangeError)

  function Settle(p: Plan, r: Result<Plan>): Attempt {
    match r case Ok(q) => Done(q) case Err(e) => Failed(p, e)
  }

  /** Each change in its own simple step, up to the first that is refused. */
  function OneByOne(documented: Dispatch, p: Plan, cs: seq<Change>): Attempt
    decreases |cs|
  {
    if cs == [] then Done(p)
    else
      var a := OneByOne(documented, p, cs[..|cs| - 1]);
      if a.Failed? then a else Settle(a.plan, Simple(documented, a.plan, [cs[|cs| - 1]]))
  }

  function Restored(documented: Dispatch, p: Plan, cs: ConfState): Attempt {
    if cs.votersOutgoing == [] then OneByOne(documented, p, IncomingChanges(cs))
    else
      var a := OneByOne(documented, p, OutgoingChanges(cs));
      if a.Failed? then a else Settle(a.plan, EnterJoint(documented, a.plan, cs.autoLeave, IncomingChanges(cs)))
  }

  /** `to_conf_state`, which as written leaves the flag at its default. */
  function ToConfState(copiesFlag: bool, cfg: Configuration): Configuration {
    if copiesFlag then cfg else cfg.(autoLeave := false)
  }

  /** The saved state comes back from a restored tracker. */
  predicate RoundTrips(documented: Dispatch, copiesFlag: bool, cs: ConfState) {
    var a := Restored(documented, EMPTY, cs);
    a.Done? && ToConfState(copiesFlag, a.plan.cfg) == Described(cs)
  }

  /** A state that some configuration can have. */
  predicate Valid(cs: ConfState) {
    var c := Described(cs);
    && Good(Plan(c, Ids(c)))
    && (c.voters.incoming == {} ==> Ids(c) == {})
  }

  // ------------------------------------------------------ runs of one kind

  lemma {:induction false} Concat(documented: Dispatch, p: Plan, a: seq<Change>, b: seq<Change>)
    ensures WithChanges(documented, p, a + b) == WithChanges(documented, WithChanges(documented, p, a), b)
    decreases |b|
  {
    if b == [] {
      assert a + b == a;
    } else {
      Concat(documented, p, a, b[..|b| - 1]);
      assert (a + b)[..|a + b| - 1] == a + b[..|b| - 1];
    }
  }

  lemma EachPrefix(kind: Kind, ids: seq<nat>, k: nat)
    requires k <= |ids|
    ensures Each(kind, ids)[..k] == Each(kind, ids[..k])
  {
  }

  lemma SetOfLast(ids: seq<nat>)
    requires ids != []
    ensures SetOf(ids) == SetOf(ids[..|ids| - 1]) + {ids[|ids| - 1]}
  {
    assert ids == ids[..|ids| - 1] + [ids[|ids| - 1]];
  }

  function Voting(p: Plan, ids: set<nat>): Plan {
    Plan(Configuration(JointConfig(p.cfg.voters.incoming + ids, p.cfg.voters.outgoing),
                       p.cfg.learners - ids, p.cfg.learnersNext - ids, p.cfg.autoLeave),
         p.tracked + ids)
  }

  lemma AddOne(documented: Dispatch, p: Plan, id: nat)
    requires Good(p) && id != 0
    ensures WithChange(documented, p, Change(AddNode, id)) == Voting(p, {id})
  {
  }

  lemma VotingTwice(p: Plan, a: set<nat>, b: set<nat>)
    ensures Voting(Voting(p, a), b) == Voting(p, a + b)
  {
  }

  lemma {:induction false} AddAll(documented: Dispatch, p: Plan, ids: seq<nat>)
    requires Good(p) && 0 !in ids
    ensures WithChanges(documented, p, Each(AddNode, ids)) == Voting(p, SetOf(ids))
    decreases |ids|
  {
    if ids != [] {
      var init := ids[..|ids| - 1];
      EachPrefix(AddNode, ids, |ids| - 1);
      AddAll(documented, p, init);
      SetOfLast(ids);
      ChangesKeepGood(documented, p, Each(AddNode, init));
      AddOne(documented, Voting(p, SetOf(init)), ids[|ids| - 1]);
      VotingTwice(p, SetOf(init), {ids[|ids| - 1]});
      hide Good, WithChange, Voting;
    }
  }

  lemma {:induction false} RemoveOutgoing(documented: Dispatch, p: Plan, ids: seq<nat>)
    requires Good(p) && 0 !in ids && SetOf(ids) <= p.cfg.voters.outgoing
    ensures WithChanges(documented, p, Each(RemoveNode, ids)) ==
            Plan(Configuration(JointConfig(p.cfg.voters.incoming - SetOf(ids), p.cfg.voters.outgoing),
                               p.cfg.learners,
                               if documented then p.cfg.learnersNext - SetOf(ids) else p.cfg.learnersNext + SetOf(ids),
                               p.cfg.autoLeave),
                 p.tracked)
    decreases |ids|
  {
    if ids != [] {
      EachPrefix(RemoveNode, ids, |ids| - 1);
      RemoveOutgoing(documented, p, ids[..|ids| - 1]);
      SetOfLast(ids);
      ChangesKeepGood(documented, p, Each(RemoveNode, ids[..|ids| - 1]));
    }
  }

  /** What learner changes for nodes that are no incoming voters make: as documented they add, as written they remove. */
  function Learnt(documented: Dispatch, p: Plan, ids: set<nat>): Plan {
    var o := p.cfg.voters.outgoing;
    if documented then
      Plan(Configuration(p.cfg.voters, p.cfg.learners + (ids - o), p.cfg.learnersNext + (ids * o), p.cfg.autoLeave), p.tracked + ids)
    else
      Plan(Configuration(p.cfg.voters, p.cfg.learners - ids, p.cfg.learnersNext - ids, p.cfg.autoLeave), p.tracked - (ids - o))
  }

  lemma LearnOne(documented: Dispatch, p: Plan, id: nat)
    requires Good(p) && id != 0 && id !in p.cfg.voters.incoming
    ensures WithChange(documented, p, Change(AddLearnerNode, id)) == Learnt(documented, p, {id})
  {
  }

  lemma LearntTwice(documented: Dispatch, p: Plan, a: set<nat>, b: set<nat>)
    ensures Learnt(documented, Learnt(documented, p, a), b) == Learnt(documented, p, a + b)
  {
  }

  lemma {:induction false} LearnAll(documented: Dispatch, p: Plan, ids: seq<nat>)
    requires Good(p) && 0 !in ids && SetOf(ids) !! p.cfg.voters.incoming
    ensures WithChanges(documented, p, Each(AddLearnerNode, ids)) == Learnt(documented, p, SetOf(ids))
    decreases |ids|
  {
    if ids != [] {
      var init := ids[..|ids| - 1];
      EachPrefix(AddLearnerNode, ids, |ids| - 1);
      LearnAll(documented, p, init);
      SetOfLast(ids);
      ChangesKeepGood(documented, p, Each(AddLearnerNode, init));
      LearnOne(documented, Learnt(documented, p, SetOf(init)), ids[|ids| - 1]);
      LearntTwice(documented, p, SetOf(init), {ids[|ids| - 1]});
      hide Good, WithChange, Learnt;
    }
  }

  // --------------------------------------------------------- step by step

  lemma OneChangeOneVoter(documented: Dispatch, p: Plan, c: Change)
    ensures |Difference(p.cfg.voters.incoming, WithChange(documented, p, c).cfg.voters.incoming)| <= 1
  {
    SizeMonotone(Difference(p.cfg.voters.incoming, WithChange(documented, p, c).cfg.voters.incoming), {c.id});
  }

  lemma SimpleOne(documented: Dispatch, p: Plan, c: Change)
    requires Good(p) && !Joint(p.cfg) && WithChange(documented, p, c).cfg.voters.incoming != {}
    ensures Simple(documented, p, [c]) == Ok(WithChange(documented, p, c))
    ensures Good(WithChange(documented, p, c)) && !Joint(WithChange(documented, p, c).cfg)
  {
    assert [c][..0] == [];
    hide WithChange;
    assert WithChanges(documented, p, [c]) == WithChange(documented, p, c);
    OneChangeOneVoter(documented, p, c);
    ChangeKeepsGood(documented, p, c);
    GoodIsConsistent(p);
    GoodIsConsistent(WithChange(documented, p, c));
    hide Good, Consistent, Difference;
  }

  /** As long as a voter remains after every step, changing one by one is changing all at once. */
  lemma {:induction false} OneByOneIsAll(documented: Dispatch, p: Plan, cs: seq<Change>)
    requires Good(p) && !Joint(p.cfg)
    requires forall k :: 0 < k <= |cs| ==> WithChanges(documented, p, cs[..k]).cfg.voters.incoming != {}
    ensures OneByOne(documented, p, cs) == Done(WithChanges(documented, p, cs))
    ensures Good(WithChanges(documented, p, cs)) && !Joint(WithChanges(documented, p, cs).cfg)
    decreases |cs|
  {
    hide Good, WithChange, Simple;
    if cs != [] {
      var n := |cs| - 1;
      forall k | 0 < k <= n ensures WithChanges(documented, p, cs[..n][..k]).cfg.voters.incoming != {} {
        assert cs[..n][..k] == cs[..k];
      }
      OneByOneIsAll(documented, p, cs[..n]);
      assert cs[..|cs|] == cs;
      SimpleOne(documented, WithChanges(documented, p, cs[..n]), cs[n]);
    }
  }

  /** Voters added to the empty tracker one by one. */
  lemma VotersFirst(documented: Dispatch, ids: seq<nat>)
    requires 0 !in ids
    ensures OneByOne(documented, EMPTY, Each(AddNode, ids)) == Done(WithChanges(documented, EMPTY, Each(AddNode, ids)))
    ensures WithChanges(documented, EMPTY, Each(AddNode, ids)) ==
            Plan(Configuration(JointConfig(SetOf(ids), {}), {}, {}, false), SetOf(ids))
  {
    forall k | 0 < k <= |ids| ensures WithChanges(documented, EMPTY, Each(AddNode, ids)[..k]).cfg.voters.incoming != {} {
      EachPrefix(AddNode, ids, k);
      AddAll(documented, EMPTY, ids[..k]);
      assert ids[0] in SetOf(ids[..k]) by { assert ids[..k][0] == ids[0]; }
    }
    OneByOneIsAll(documented, EMPTY, Each(AddNode, ids));
    AddAll(documented, EMPTY, ids);
  }

  lemma VotersThenLearners(documented: Dispatch, voters: seq<nat>, learners: seq<nat>)
    requires 0 !in voters && 0 !in learners && SetOf(voters) !! SetOf(learners)
    requires voters == [] ==> learners == []
    ensures var q := Plan(Configuration(JointConfig(SetOf(voters), {}), if documented then SetOf(learners) else {}, {}, false),
                          SetOf(voters) + if documented then SetOf(learners) else {});
            OneByOne(documented, EMPTY, Each(AddNode, voters) + Each(AddLearnerNode, learners)) == Done(q)
  {
    var v, l := Each(AddNode, voters), Each(AddLearnerNode, learners);
    forall k | 0 < k <= |v + l| ensures WithChanges(documented, EMPTY, (v + l)[..k]).cfg.voters.incoming != {} {
      PrefixHasVoter(documented, voters, learners, k);
    }
    OneByOneIsAll(documented, EMPTY, v + l);
    Concat(documented, EMPTY, v, l);
    AddAll(documented, EMPTY, voters);
    ChangesKeepGood(documented, EMPTY, v);
    LearnAll(documented, WithChanges(documented, EMPTY, v), learners);
  }

  lemma PrefixHasVoter(documented: Dispatch, voters: seq<nat>, learners: seq<nat>, k: nat)
    requires 0 !in voters && 0 !in learners && SetOf(voters) !! SetOf(learners) && voters != []
    requires 0 < k <= |voters| + |learners|
    ensures WithChanges(documented, EMPTY, (Each(AddNode, voters) + Each(AddLearnerNode, learners))[..k]).cfg.voters.incoming != {}
  {
    var v, l := Each(AddNode, voters), Each(AddLearnerNode, learners);
    var i := if k <= |v| then k else |v|;
    EachPrefix(AddNode, voters, i);
    AddAll(documented, EMPTY, voters[..i]);
    assert voters[..i][0] == voters[0];
    assert voters[0] in SetOf(voters[..i]);
    if k <= |v| {
      assert (v + l)[..k] == v[..k];
    } else {
      assert (v + l)[..k] == v + l[..k - |v|];
      assert voters[..i] == voters;
      EachPrefix(AddLearnerNode, learners, k - |v|);
      Concat(documented, EMPTY, v, l[..k - |v|]);
      ChangesKeepGood(documented, EMPTY, v);
      assert SetOf(learners[..k - |v|]) <= SetOf(learners);
      LearnAll(documented, WithChanges(documented, EMPTY, v), learners[..k - |v|]);
    }
  }

  // -------------------------------------------------------- what comes back

  /** What a valid state is restored to: itself as documented, less as written. */
  function RestoredConfig(documented: Dispatch, cs: ConfState): Configuration {
    var c := Described(cs);
    if documented then c
    else c.(learners := {}, learnersNext := c.voters.outgoing - c.voters.incoming - c.learnersNext)
  }

  lemma SimpleRestore(documented: Dispatch, cs: ConfState)
    requires Valid(cs) && cs.votersOutgoing == []
    ensures Restored(documented, EMPTY, cs).Done? && Restored(documented, EMPTY, cs).plan.cfg == RestoredConfig(documented, cs)
  {
    NoSuch(cs.learnersNext);
    assert 0 !in cs.voters && 0 !in cs.learners by { assert 0 !in SetOf(cs.voters) && 0 !in SetOf(cs.learners); }
    if cs.voters == [] {
      NoSuch(cs.learners);
    }
    assert IncomingChanges(cs) == Each(AddNode, cs.voters) + Each(AddLearnerNode, cs.learners);
    VotersThenLearners(documented, cs.voters, cs.learners);
  }

  lemma NoSuch(ids: seq<nat>)
    ensures SetOf(ids) == {} ==> ids == []
  {
    if ids != [] {
      assert ids[0] in SetOf(ids);
    }
  }

  /** The plan after the outgoing voters were removed from, and the voters added to, the incoming half. */
  function Rebased(documented: Dispatch, o: set<nat>, v: set<nat>): Plan {
    Plan(Configuration(JointConfig(v, o), {}, if documented then {} else o - v, false), o + v)
  }

  lemma JointVoters(documented: Dispatch, p: Plan, o: seq<nat>, v: seq<nat>)
    requires 0 !in o && 0 !in v && o != []
    requires p == Plan(Configuration(JointConfig(SetOf(o), SetOf(o)), {}, {}, false), SetOf(o))
    ensures WithChanges(documented, p, Each(RemoveNode, o) + Each(AddNode, v)) == Rebased(documented, SetOf(o), SetOf(v))
    ensures Good(Rebased(documented, SetOf(o), SetOf(v)))
  {
    hide WithChanges, WithChange;
    assert Good(p) by { assert o[0] in SetOf(o); }
    Concat(documented, p, Each(RemoveNode, o), Each(AddNode, v));
    RemoveOutgoing(documented, p, o);
    ChangesKeepGood(documented, p, Each(RemoveNode, o));
    AddAll(documented, WithChanges(documented, p, Each(RemoveNode, o)), v);
    ChangesKeepGood(documented, WithChanges(documented, p, Each(RemoveNode, o)), Each(AddNode, v));
  }

  lemma JointLearners(documented: Dispatch, o: set<nat>, v: set<nat>, l: seq<nat>, n: seq<nat>)
    requires Good(Rebased(documented, o, v)) && 0 !in l && 0 !in n
    requires SetOf(l) !! v && SetOf(l) !! o && SetOf(n) <= o && SetOf(n) !! v
    ensures WithChanges(documented, Rebased(documented, o, v), Each(AddLearnerNode, l) + Each(AddLearnerNode, n)).cfg ==
            Configuration(JointConfig(v, o), if documented then SetOf(l) else {},
                          if documented then SetOf(n) else o - v - SetOf(n), false)
  {
    hide WithChanges, WithChange;
    var p := Rebased(documented, o, v);
    Concat(documented, p, Each(AddLearnerNode, l), Each(AddLearnerNode, n));
    LearnAll(documented, p, l);
    ChangesKeepGood(documented, p, Each(AddLearnerNode, l));
    LearnAll(documented, WithChanges(documented, p, Each(AddLearnerNode, l)), n);
  }

  lemma ValidParts(cs: ConfState)
    requires Valid(cs)
    ensures 0 !in cs.voters && 0 !in cs.votersOutgoing && 0 !in cs.learners && 0 !in cs.learnersNext
  {
    assert 0 !in SetOf(cs.voters) && 0 !in SetOf(cs.votersOutgoing) && 0 !in SetOf(cs.learners) && 0 !in SetOf(cs.learnersNext);
  }

  lemma JointIncoming(documented: Dispatch, p: Plan, cs: ConfState)
    requires Valid(cs) && cs.votersOutgoing != []
    requires p == Plan(Configuration(JointConfig(SetOf(cs.votersOutgoing), SetOf(cs.votersOutgoing)), {}, {}, false), SetOf(cs.votersOutgoing))
    ensures WithChanges(documented, p, IncomingChanges(cs)).cfg == RestoredConfig(documented, cs).(autoLeave := false)
    ensures Good(p)
  {
    hide WithChanges, WithChange;
    ValidParts(cs);
    var o, v, l, n := cs.votersOutgoing, cs.voters, cs.learners, cs.learnersNext;
    assert Good(p) by { assert o[0] in SetOf(o); }
    JointVoters(documented, p, o, v);
    JointLearners(documented, SetOf(o), SetOf(v), l, n);
    var ra, mx := Each(RemoveNode, o) + Each(AddNode, v), Each(AddLearnerNode, l) + Each(AddLearnerNode, n);
    assert IncomingChanges(cs) == ra + mx;
    Concat(documented, p, ra, mx);
  }

  lemma JointRestore(documented: Dispatch, cs: ConfState)
    requires Valid(cs) && cs.votersOutgoing != []
    ensures Restored(documented, EMPTY, cs).Done? && Restored(documented, EMPTY, cs).plan.cfg == RestoredConfig(documented, cs)
  {
    hide WithChanges, WithChange, OneByOne, IncomingChanges;
    ValidParts(cs);
    var o := SetOf(cs.votersOutgoing);
    VotersFirst(documented, cs.votersOutgoing);
    assert cs.votersOutgoing[0] in o;
    var p := Plan(Configuration(JointConfig(o, {}), {}, {}, false), o);
    JointIncoming(documented, Doubled(p), cs);
    EnterGives(documented, p, cs.autoLeave, IncomingChanges(cs));
    assert Described(cs).voters.incoming != {} by {
      assert cs.votersOutgoing[0] in Ids(Described(cs));
    }
  }

  lemma EnterGives(documented: Dispatch, p: Plan, autoLeave: bool, cs: seq<Change>)
    requires Good(p) && !Joint(p.cfg) && p.cfg.voters.incoming != {} && Good(Doubled(p))
    ensures var q := WithChanges(documented, Doubled(p), cs);
            q.cfg.voters.incoming != {} ==>
              EnterJoint(documented, p, autoLeave, cs) == Ok(q.(cfg := q.cfg.(autoLeave := autoLeave)))
  {
    hide WithChanges;
    ChangesKeepGood(documented, Doubled(p), cs);
  }

  lemma {:induction false} OneByOneGood(documented: Dispatch, p: Plan, cs: seq<Change>)
    requires Good(p) && !Joint(p.cfg)
    ensures var a := OneByOne(documented, p, cs);
            Good(a.plan) && !Joint(a.plan.cfg) && (a.Done? && cs != [] ==> a.plan.cfg.voters.incoming != {})
    decreases |cs|
  {
    hide Good, WithChange, Simple;
    if cs != [] {
      var n := |cs| - 1;
      var a := OneByOne(documented, p, cs[..n]);
      OneByOneGood(documented, p, cs[..n]);
      RunOnGood(documented, a.plan, SimpleOp([cs[n]]));
      if Simple(documented, a.plan, [cs[n]]).Ok? {
        SimpleSpares(documented, a.plan, [cs[n]]);
      }
    }
  }

  /** Whatever is restored without an error describes a valid state. */
  lemma RestoredGood(documented: Dispatch, cs: ConfState)
    requires Restored(documented, EMPTY, cs).Done?
    ensures var p := Restored(documented, EMPTY, cs).plan; Good(p) && (p.cfg.voters.incoming == {} ==> Ids(p.cfg) == {})
  {
    hide Good, WithChanges, Simple, EnterJoint;
    EmptyIsGood();
    if cs.votersOutgoing == [] {
      OneByOneGood(documented, EMPTY, IncomingChanges(cs));
    } else {
      OneByOneGood(documented, EMPTY, OutgoingChanges(cs));
      RunOnGood(documented, OneByOne(documented, EMPTY, OutgoingChanges(cs)).plan, EnterOp(cs.autoLeave, IncomingChanges(cs)));
    }
  }

  /** Which valid states survive the exchanged dispatch: no learners, and every outgoing voter stays. */
  predicate SparedByExchange(cs: ConfState) {
    cs.learners == [] && SetOf(cs.votersOutgoing) <= SetOf(cs.voters)
  }

  lemma RestoredIs(documented: Dispatch, cs: ConfState)
    requires Valid(cs)
    ensures Restored(documented, EMPTY, cs).Done? && Restored(documented, EMPTY, cs).plan.cfg == RestoredConfig(documented, cs)
  {
    if cs.votersOutgoing == [] {
      SimpleRestore(documented, cs);
    } else {
      JointRestore(documented, cs);
    }
  }

  /**
    Restore round trip, for every saved state: as documented it comes back exactly
    when it is valid. The exchanged dispatch further loses learners and outgoing
    voters that are leaving, and the flag that is not copied loses auto-leave.
   */
  lemma RestoreRoundTrip(documented: Dispatch, copiesFlag: bool, cs: ConfState)
    ensures RoundTrips(documented, copiesFlag, cs) <==>
            Valid(cs) && (documented || SparedByExchange(cs)) && (copiesFlag || !cs.autoLeave)
  {
    hide Restored, Good;
    if RoundTrips(documented, copiesFlag, cs) {
      RestoredGood(documented, cs);
      ReturnedIsValid(cs, Restored(documented, EMPTY, cs).plan, copiesFlag);
    }
    if Valid(cs) {
      RestoredIs(documented, cs);
      RestoredEquals(documented, copiesFlag, cs);
    }
  }

  lemma ReturnedIsValid(cs: ConfState, p: Plan, copiesFlag: bool)
    requires Good(p) && (p.cfg.voters.incoming == {} ==> Ids(p.cfg) == {})
    requires ToConfState(copiesFlag, p.cfg) == Described(cs)
    ensures Valid(cs)
  {
    hide SetOf;
    assert Ids(Described(cs)) == Ids(p.cfg);
  }

  lemma RestoredEquals(documented: Dispatch, copiesFlag: bool, cs: ConfState)
    requires Valid(cs)
    ensures ToConfState(copiesFlag, RestoredConfig(documented, cs)) == Described(cs) <==>
            (documented || SparedByExchange(cs)) && (copiesFlag || !cs.autoLeave)
  {
    NoSuch(cs.learners);
    var c := Described(cs);
    var o, v, n := c.voters.outgoing, c.voters.incoming, c.learnersNext;
    if o - v - n == n {
      forall x | x in o ensures x in v {
        assert x in n <==> x in o - v - n;
      }
    }
    if o <= v {
      assert n == {} && o - v - n == {};
    }
  }

  /** As documented, every valid state is restored without an error to just what it describes. */
  lemma RestoreSucceeds(cs: ConfState)
    requires Valid(cs)
    ensures Restored(true, EMPTY, cs).Done? && RoundTrips(true, true, cs)
  {
    RestoreRoundTrip(true, true, cs);
  }

  /** A learner is not restored as written. */
  lemma WrittenLosesLearner()
    ensures var cs := ConfState([1], [2], [], [], false);
            Valid(cs) && Restored(false, EMPTY, cs).Done? && !RoundTrips(false, true, cs)
  {
    var cs := ConfState([1], [2], [], [], false);
    assert SetOf([1]) == {1} && SetOf([2]) == {2};
    RestoredIs(false, cs);
    RestoreRoundTrip(false, true, cs);
  }

  // ------------------------------------------------------------ the method

  method Push(kind: Kind, ids: seq<nat>) returns (cs: seq<Change>)
    ensures cs == Each(kind, ids)
  {
    cs := [];
    var i := 0;
    while i < |ids|
      invariant 0 <= i <= |ids|
      invariant cs == Each(kind, ids[..i])
    {
      cs := cs + [Change(kind, ids[i])];
      i := i + 1;
    }
    assert ids[..|ids|] == ids;
  }

  /** `restore`: fills a tracker, which must be empty, from a saved state. */
  method RestoreTracker(t: Tracker, documented: Dispatch, nextIdx: nat, cs: ConfState) returns (error: Result<()>)
    requires t.progress == map[] && t.Abs() == EMPTY
    modifies t
    ensures var a := Restored(documented, EMPTY, cs);
            t.Abs() == a.plan && error == if a.Done? then Ok(()) else Err(a.error)
    ensures AllNew(t.progress, nextIdx)
  {
    hide Simple, Membership.EnterJoint;
    var outgoing := Push(AddNode, cs.votersOutgoing);
    var removed := Push(RemoveNode, cs.votersOutgoing);
    var added := Push(AddNode, cs.voters);
    var learners := Push(AddLearnerNode, cs.learners);
    var next := Push(AddLearnerNode, cs.learnersNext);
    var incoming := removed + added + learners + next;
    if outgoing == [] {
      error := SimpleEach(t, documented, nextIdx, incoming);
    } else {
      error := SimpleEach(t, documented, nextIdx, outgoing);
      if error.Ok? {
        var u := t.EnterJoint(documented, cs.autoLeave, incoming);
        match u {
          case Ok(update) =>
            RebuiltFresh(t.progress, update.changes, nextIdx);
            t.ApplyConf(update, nextIdx);
          case Err(e) => error := Err(e);
        }
      }
    }
  }

  ghost predicate AllNew(progress: map<nat, Peer>, nextIdx: nat) {
    forall id :: id in progress ==> progress[id] == NewPeer(nextIdx)
  }

  /** One change through the engine and, if it is accepted, into the tracker. */
  method SimpleStep(t: Tracker, documented: Dispatch, nextIdx: nat, c: Change) returns (error: Result<()>)
    requires AllNew(t.progress, nextIdx)
    modifies t
    ensures match Settle(old(t.Abs()), Simple(documented, old(t.Abs()), [c]))
            case Done(p) => error == Ok(()) && t.Abs() == p
            case Failed(p, e) => error == Err(e) && t.Abs() == p
    ensures AllNew(t.progress, nextIdx)
  {
    hide Simple;
    var u := t.Simple(documented, [c]);
    match u {
      case Ok(update) =>
        RebuiltFresh(t.progress, update.changes, nextIdx);
        t.ApplyConf(update, nextIdx);
        error := Ok(());
      case Err(e) => error := Err(e);
    }
  }

  method SimpleEach(t: Tracker, documented: Dispatch, nextIdx: nat, cs: seq<Change>) returns (error: Result<()>)
    requires AllNew(t.progress, nextIdx)
    modifies t
    ensures var a := OneByOne(documented, old(t.Abs()), cs);
            t.Abs() == a.plan && error == if a.Done? then Ok(()) else Err(a.error)
    ensures AllNew(t.progress, nextIdx)
  {
    hide Simple, AllNew;
    ghost var start := t.Abs();
    var i := 0;
    while i < |cs|
      invariant 0 <= i <= |cs|
      invariant OneByOne(documented, start, cs[..i]) == Done(t.Abs())
      invariant AllNew(t.progress, nextIdx)
    {
      assert cs[..i + 1][..i] == cs[..i];
      error := SimpleStep(t, documented, nextIdx, cs[i]);
      if error.Err? {
        OneByOneStops(documented, start, cs, i + 1);
        return;
      }
      i := i + 1;
    }
    assert cs[..|cs|] == cs;
    error := Ok(());
  }

  lemma {:induction false} OneByOneStops(documented: Dispatch, p: Plan, cs: seq<Change>, k: nat)
    requires k <= |cs| && OneByOne(documented, p, cs[..k]).Failed?
    ensures OneByOne(documented, p, cs) == OneByOne(documented, p, cs[..k])
    decreases |cs|
  {
    if k < |cs| {
      assert cs[..|cs| - 1][..k] == cs[..k];
      OneByOneStops(documented, p, cs[..|cs| - 1], k);
    } else {
      assert cs[..k] == cs;
    }
  }

  lemma RebuiltFresh(base: map<nat, Peer>, changes: MapChange, nextIdx: nat)
    requires AllNew(base, nextIdx)
    ensures AllNew(Rebuilt(base, changes, nextIdx), nextIdx)
  {
    forall id | id in Rebuilt(base, changes, nextIdx) ensures Rebuilt(base, changes, nextIdx)[id] == NewPeer(nextIdx) {
      RebuiltPeers(base, changes, nextIdx, id);
    }
  }
}
