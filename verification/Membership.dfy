/** Membership changes: the change engine, its overlay on the progress map, and the tracker. */
module Membership {
  import opened Quorum

  datatype Result<T> = Ok(value: T) | Err(error: ChangeError)

  datatype ChangeError = AlreadyJoint | NotJoint | ZeroVoters | RemovedAllVoters | TooManyVoters | Inconsistent

  datatype Kind = AddNode | RemoveNode | AddLearnerNode | UpdateNode

  datatype Change = Change(kind: Kind, id: nat)

  datatype Configuration = Configuration(voters: JointConfig, learners: set<nat>, learnersNext: set<nat>, autoLeave: bool)

  /** A configuration and the ids that have a progress under it. */
  datatype Plan = Plan(cfg: Configuration, tracked: set<nat>)

  const EMPTY: Plan := Plan(Configuration(JointConfig({}, {}), {}, {}, false), {})

  /** Whether each kind of change reaches the handler its name promises, or the two are exchanged as written. */
  type Dispatch = bool

  function Ids(cfg: Configuration): set<nat> {
    cfg.voters.incoming + cfg.voters.outgoing + cfg.learners
  }

  predicate Joint(cfg: Configuration) {
    cfg.voters.outgoing != {}
  }

  /** `check_invariants`. */
  predicate Consistent(p: Plan) {
    && p.cfg.voters.incoming + p.cfg.voters.outgoing <= p.tracked
    && p.cfg.learners <= p.tracked - p.cfg.voters.outgoing - p.cfg.voters.incoming
    && p.cfg.learnersNext <= p.tracked * p.cfg.voters.outgoing
    && (Joint(p.cfg) || (p.cfg.learnersNext == {} && !p.cfg.autoLeave))
  }

  // ---------------------------------------------------- what a change means

  function WithIncoming(p: Plan, incoming: set<nat>): Plan {
    p.(cfg := p.cfg.(voters := p.cfg.voters.(incoming := incoming)))
  }

  function WithVoter(p: Plan, id: nat): Plan {
    if id !in p.tracked then WithIncoming(p, p.cfg.voters.incoming + {id}).(tracked := p.tracked + {id})
    else
      WithIncoming(p.(cfg := p.cfg.(learners := p.cfg.learners - {id}, learnersNext := p.cfg.learnersNext - {id})),
                   p.cfg.voters.incoming + {id})
  }

  function Cleared(p: Plan, id: nat): Plan {
    WithIncoming(p.(cfg := p.cfg.(learners := p.cfg.learners - {id}, learnersNext := p.cfg.learnersNext - {id})),
                 p.cfg.voters.incoming - {id})
  }

  function WithLearner(p: Plan, id: nat): Plan {
    if id !in p.tracked then p.(cfg := p.cfg.(learners := p.cfg.learners + {id}), tracked := p.tracked + {id})
    else if id in p.cfg.learners then p
    else
      var c := Cleared(p, id);
      if id in p.cfg.voters.outgoing then c.(cfg := c.cfg.(learnersNext := c.cfg.learnersNext + {id}))
      else c.(cfg := c.cfg.(learners := c.cfg.learners + {id}))
  }

  function Without(p: Plan, id: nat): Plan {
    if id !in p.tracked then p
    else if id in p.cfg.voters.outgoing then Cleared(p, id)
    else Cleared(p, id).(tracked := p.tracked - {id})
  }

  function WithChange(documented: Dispatch, p: Plan, c: Change): Plan {
    if c.id == 0 then p
    else
      match c.kind
      case AddNode => WithVoter(p, c.id)
      case RemoveNode => if documented then Without(p, c.id) else WithLearner(p, c.id)
      case AddLearnerNode => if documented then WithLearner(p, c.id) else Without(p, c.id)
      case UpdateNode => p
  }

  function WithChanges(documented: Dispatch, p: Plan, cs: seq<Change>): Plan
    decreases |cs|
  {
    if cs == [] then p else WithChange(documented, WithChanges(documented, p, cs[..|cs| - 1]), cs[|cs| - 1])
  }

  function Checked(p: Plan): Result<Plan> {
    if Consistent(p) then Ok(p) else Err(Inconsistent)
  }

  /** The outgoing majority becomes a copy of the incoming one. */
  function Doubled(p: Plan): Plan {
    p.(cfg := p.cfg.(voters := p.cfg.voters.(outgoing := p.cfg.voters.incoming)))
  }

  function EnterJoint(documented: Dispatch, p: Plan, autoLeave: bool, cs: seq<Change>): Result<Plan> {
    if Joint(p.cfg) then Err(AlreadyJoint)
    else if !Consistent(p) then Err(Inconsistent)
    else if p.cfg.voters.incoming == {} then Err(ZeroVoters)
    else
      var q := WithChanges(documented, Doubled(p), cs);
      if q.cfg.voters.incoming == {} then Err(RemovedAllVoters)
      else Checked(q.(cfg := q.cfg.(autoLeave := autoLeave)))
  }

  function LeaveJoint(p: Plan): Result<Plan> {
    if !Joint(p.cfg) then Err(NotJoint)
    else if !Consistent(p) then Err(Inconsistent)
    else
      var learners := p.cfg.learners + p.cfg.learnersNext;
      var gone := p.cfg.voters.outgoing - p.cfg.voters.incoming - learners;
      Checked(Plan(Configuration(JointConfig(p.cfg.voters.incoming, {}), learners, {}, false), p.tracked - gone))
  }

  function Simple(documented: Dispatch, p: Plan, cs: seq<Change>): Result<Plan> {
    if Joint(p.cfg) then Err(AlreadyJoint)
    else if !Consistent(p) then Err(Inconsistent)
    else
      var q := WithChanges(documented, p, cs);
      if q.cfg.voters.incoming == {} then Err(RemovedAllVoters)
      else if |Difference(p.cfg.voters.incoming, q.cfg.voters.incoming)| > 1 then Err(TooManyVoters)
      else Checked(q)
  }

  function Difference(a: set<nat>, b: set<nat>): set<nat> {
    (a - b) + (b - a)
  }

  // -------------------------------------------------------------- invariant

  /**
    What every reachable configuration keeps. The last clause is one the code
    relies on and never checks.
   */
  predicate Good(p: Plan) {
    && p.tracked == Ids(p.cfg) && 0 !in p.tracked
    && p.cfg.learners !! p.cfg.voters.incoming && p.cfg.learners !! p.cfg.voters.outgoing
    && (Joint(p.cfg) || !p.cfg.autoLeave)
    && p.cfg.learnersNext <= p.cfg.voters.outgoing && p.cfg.learnersNext !! p.cfg.voters.incoming
  }

  lemma ChangeKeepsGood(documented: Dispatch, p: Plan, c: Change)
    requires Good(p)
    ensures Good(WithChange(documented, p, c))
    ensures WithChange(documented, p, c).cfg.voters.outgoing == p.cfg.voters.outgoing
    ensures WithChange(documented, p, c).cfg.autoLeave == p.cfg.autoLeave
  {
  }

  lemma {:induction false} ChangesKeepGood(documented: Dispatch, p: Plan, cs: seq<Change>)
    requires Good(p)
    ensures Good(WithChanges(documented, p, cs))
    ensures WithChanges(documented, p, cs).cfg.voters.outgoing == p.cfg.voters.outgoing
    ensures WithChanges(documented, p, cs).cfg.autoLeave == p.cfg.autoLeave
    decreases |cs|
  {
    hide Good;
    if cs != [] {
      ChangesKeepGood(documented, p, cs[..|cs| - 1]);
      ChangeKeepsGood(documented, WithChanges(documented, p, cs[..|cs| - 1]), cs[|cs| - 1]);
    }
  }

  /** One accepted or rejected change of membership. */
  datatype Op = SimpleOp(cs: seq<Change>) | EnterOp(autoLeave: bool, cs: seq<Change>) | LeaveOp

  datatype Transition = Auto | JointImplicit | JointExplicit

  /** Which operation a `ConfChangeV2` asks for. */
  function OpOf(transition: Transition, cs: seq<Change>): Op {
    if transition == Auto && cs == [] then LeaveOp
    else if transition != Auto || |cs| > 1 then EnterOp(transition != JointExplicit, cs)
    else SimpleOp(cs)
  }

  function Run(documented: Dispatch, p: Plan, op: Op): Result<Plan> {
    match op
    case SimpleOp(cs) => Simple(documented, p, cs)
    case EnterOp(autoLeave, cs) => EnterJoint(documented, p, autoLeave, cs)
    case LeaveOp => LeaveJoint(p)
  }

  /** A rejected change leaves the tracker as it was. */
  function After(documented: Dispatch, ops: seq<Op>): Plan
    decreases |ops|
  {
    if ops == [] then EMPTY
    else
      var p := After(documented, ops[..|ops| - 1]);
      match Run(documented, p, ops[|ops| - 1]) case Ok(q) => q case Err(_) => p
  }

  /** An operation on a good plan never reports an inconsistency, and leaves a good plan with voters. */
  lemma RunOnGood(documented: Dispatch, p: Plan, op: Op)
    requires Good(p)
    ensures Run(documented, p, op) != Err(Inconsistent)
    ensures Run(documented, p, op).Ok? ==> Good(Run(documented, p, op).value)
    ensures Run(documented, p, op).Ok? && !op.LeaveOp? ==> Run(documented, p, op).value.cfg.voters.incoming != {}
    ensures op.LeaveOp? ==> (Run(documented, p, op).Ok? <==> Joint(p.cfg))
  {
    match op
    case SimpleOp(cs) => SimpleOnGood(documented, p, cs);
    case EnterOp(autoLeave, cs) => EnterOnGood(documented, p, autoLeave, cs);
    case LeaveOp => LeaveOnGood(p);
  }

  lemma SimpleOnGood(documented: Dispatch, p: Plan, cs: seq<Change>)
    requires Good(p)
    ensures var r := Simple(documented, p, cs);
            r != Err(Inconsistent) && (r.Ok? ==> Good(r.value) && r.value.cfg.voters.incoming != {})
  {
    ChangesKeepGood(documented, p, cs);
    GoodIsConsistent(p);
    GoodIsConsistent(WithChanges(documented, p, cs));
    hide Good, Consistent, WithChanges, Difference;
  }

  lemma EnterOnGood(documented: Dispatch, p: Plan, autoLeave: bool, cs: seq<Change>)
    requires Good(p)
    ensures var r := EnterJoint(documented, p, autoLeave, cs);
            r != Err(Inconsistent) && (r.Ok? ==> Good(r.value) && r.value.cfg.voters.incoming != {})
  {
    GoodIsConsistent(p);
    if !Joint(p.cfg) && p.cfg.voters.incoming != {} {
      ChangesKeepGood(documented, Doubled(p), cs);
      var q := WithChanges(documented, Doubled(p), cs);
      AutoLeaveKeeps(q, autoLeave);
      GoodIsConsistent(q.(cfg := q.cfg.(autoLeave := autoLeave)));
    }
    hide Good, Consistent, WithChanges;
  }

  lemma AutoLeaveKeeps(p: Plan, autoLeave: bool)
    requires Good(p) && Joint(p.cfg)
    ensures Good(p.(cfg := p.cfg.(autoLeave := autoLeave)))
  {
  }

  lemma LeaveOnGood(p: Plan)
    requires Good(p)
    ensures var r := LeaveJoint(p); r != Err(Inconsistent) && (r.Ok? ==> Good(r.value)) && (r.Ok? <==> Joint(p.cfg))
  {
  }

  lemma GoodIsConsistent(p: Plan)
    requires Good(p)
    ensures Consistent(p)
  {
  }

  /** The configuration invariant, over every sequence of changes from the empty tracker. */
  lemma {:induction false} ConfigurationInvariant(documented: Dispatch, ops: seq<Op>)
    ensures Good(After(documented, ops))
    ensures Joint(After(documented, ops).cfg) ==> After(documented, ops).cfg.voters.incoming != {}
    decreases |ops|
  {
    hide Good;
    if ops == [] {
      assert Good(EMPTY) by { EmptyIsGood(); }
    } else {
      var p := After(documented, ops[..|ops| - 1]);
      ConfigurationInvariant(documented, ops[..|ops| - 1]);
      RunOnGood(documented, p, ops[|ops| - 1]);
    }
  }

  lemma EmptyIsGood()
    ensures Good(EMPTY)
  {
  }

  /** A reachable joint configuration can always be left, and the checks around each change never fire. */
  lemma ReachableChangesNeverBreak(documented: Dispatch, ops: seq<Op>, op: Op)
    ensures var p := After(documented, ops);
            && Run(documented, p, op) != Err(Inconsistent)
            && (Joint(p.cfg) ==> LeaveJoint(p).Ok?)
  {
    hide Good;
    ConfigurationInvariant(documented, ops);
    RunOnGood(documented, After(documented, ops), op);
    RunOnGood(documented, After(documented, ops), LeaveOp);
  }

  // ------------------------------------------------------- membership safety

  lemma OneVoterApart(v: set<nat>, w: set<nat>)
    requires |Difference(v, w)| <= 1
    ensures (v <= w && |w| <= |v| + 1) || (w <= v && |v| <= |w| + 1)
  {
    assert |Difference(v, w)| == |v - w| + |w - v|;
    assert v - w == {} || w - v == {};
    assert w == (w - v) + (v * w) && v == (v - w) + (v * w);
  }

  /** Majorities of two voter sets that differ in at most one voter share a voter. */
  lemma NeighboursMeet(v: set<nat>, w: set<nat>, a: set<nat>, b: set<nat>) returns (id: nat)
    requires v != {} && w != {} && |Difference(v, w)| <= 1
    requires HoldsMajority(v, a) && HoldsMajority(w, b)
    ensures id in a && id in b && id in v && id in w
  {
    OneVoterApart(v, w);
    var x, y, u := v * a, w * b, v + w;
    assert u == v || u == w;
    SizeMonotone(x + y, u);
    SizeSplit(x, y);
    assert |x * y| > 0;
    assert x * y != {};
    id :| id in x * y;
  }

  lemma SimpleSpares(documented: Dispatch, p: Plan, cs: seq<Change>)
    requires Good(p) && Simple(documented, p, cs).Ok?
    ensures var q := Simple(documented, p, cs).value;
            q.cfg.voters.outgoing == p.cfg.voters.outgoing == {}
            && |Difference(p.cfg.voters.incoming, q.cfg.voters.incoming)| <= 1 && q.cfg.voters.incoming != {}
  {
    hide Good;
    ChangesKeepGood(documented, p, cs);
  }

  lemma EnterKeepsOld(documented: Dispatch, p: Plan, autoLeave: bool, cs: seq<Change>)
    requires Good(p) && EnterJoint(documented, p, autoLeave, cs).Ok?
    ensures EnterJoint(documented, p, autoLeave, cs).value.cfg.voters.outgoing == p.cfg.voters.incoming
  {
    assert Good(Doubled(p));
    hide Good;
    ChangesKeepGood(documented, Doubled(p), cs);
  }

  /**
    Membership safety: whatever reachable configuration with voters a change is
    accepted on, any two sets that win a vote before and after it share a voter.
   */
  lemma MembershipSafety(documented: Dispatch, ops: seq<Op>, op: Op, a: set<nat>, b: set<nat>) returns (id: nat)
    requires var p := After(documented, ops);
             p.cfg.voters.incoming != {} && HasQuorum(p.cfg.voters, a) && Run(documented, p, op).Ok?
             && HasQuorum(Run(documented, p, op).value.cfg.voters, b)
    ensures id in a && id in b
    ensures var v, w := After(documented, ops).cfg.voters, Run(documented, After(documented, ops), op).value.cfg.voters;
            id in v.incoming + v.outgoing && id in w.incoming + w.outgoing
  {
    hide Good, HasQuorum, HoldsMajority;
    var p := After(documented, ops);
    var q := Run(documented, p, op).value;
    ConfigurationInvariant(documented, ops);
    HasQuorumIsMajority(p.cfg.voters, a);
    HasQuorumIsMajority(q.cfg.voters, b);
    match op
    case SimpleOp(cs) =>
      SimpleSpares(documented, p, cs);
      id := NeighboursMeet(p.cfg.voters.incoming, q.cfg.voters.incoming, a, b);
    case EnterOp(autoLeave, cs) =>
      EnterKeepsOld(documented, p, autoLeave, cs);
      id := MajoritiesMeet(p.cfg.voters.incoming, a, b);
    case LeaveOp =>
      id := MajoritiesMeet(p.cfg.voters.incoming, a, b);
  }
}
