/** What a batch of membership changes does to each node, by the last change that names it. */
module Fate {
  import opened Common
  import opened Quorum
  import opened Membership

  /** What a change of this kind does, under either dispatch. */
  function Effect(documented: Dispatch, kind: Kind): Kind {
    if documented then kind
    else
      match kind
      case RemoveNode => AddLearnerNode
      case AddLearnerNode => RemoveNode
      case _ => kind
  }

  /** The last change of the batch that does anything to the node. */
  function LastChange(documented: Dispatch, cs: seq<Change>, id: nat): Option<Kind>
    decreases |cs|
  {
    if cs == [] then None
    else
      var c := cs[|cs| - 1];
      if c.id == id && id != 0 && c.kind != UpdateNode then Some(Effect(documented, c.kind))
      else LastChange(documented, cs[..|cs| - 1], id)
  }

  /** What is to become of the node: voter, gone as far as the outgoing voters let it, learner, or as it was. */
  ghost predicate Meets(p: Plan, q: Plan, id: nat, last: Option<Kind>) {
    && (id in q.cfg.voters.outgoing <==> id in p.cfg.voters.outgoing)
    && match last
       case None =>
         && (id in q.cfg.voters.incoming <==> id in p.cfg.voters.incoming)
         && (id in q.cfg.learners <==> id in p.cfg.learners)
         && (id in q.cfg.learnersNext <==> id in p.cfg.learnersNext)
         && (id in q.tracked <==> id in p.tracked)
       case Some(RemoveNode) =>
         && id !in q.cfg.voters.incoming && id !in q.cfg.learners && id !in q.cfg.learnersNext
         && (id in q.tracked <==> id in p.cfg.voters.outgoing)
       case Some(AddLearnerNode) =>
         && id !in q.cfg.voters.incoming && id in q.tracked
         && (id in q.cfg.learnersNext <==> id in p.cfg.voters.outgoing)
         && (id in q.cfg.learners <==> id !in p.cfg.voters.outgoing)
       case Some(_) =>
         id in q.cfg.voters.incoming && id !in q.cfg.learners && id !in q.cfg.learnersNext && id in q.tracked
  }

  lemma OneChange(documented: Dispatch, p: Plan, c: Change, id: nat)
    requires Good(p)
    ensures Meets(p, WithChange(documented, p, c), id,
                  if c.id == id && id != 0 && c.kind != UpdateNode then Some(Effect(documented, c.kind)) else None)
  {
  }

  lemma MeetsThen(p: Plan, q: Plan, r: Plan, id: nat, last: Option<Kind>, next: Option<Kind>)
    requires Meets(p, q, id, last) && Meets(q, r, id, next)
    ensures Meets(p, r, id, if next == None then last else next)
  {
  }

  /** Every node meets the fate that the last change naming it decides. */
  lemma {:induction false} ChangesDecide(documented: Dispatch, p: Plan, cs: seq<Change>, id: nat)
    requires Good(p)
    ensures Meets(p, WithChanges(documented, p, cs), id, LastChange(documented, cs, id))
    decreases |cs|
  {
    hide Good, Meets, WithChange;
    if cs == [] {
      assert Meets(p, p, id, None) by { Stays(p, id); }
    } else {
      var init, c := cs[..|cs| - 1], cs[|cs| - 1];
      var q := WithChanges(documented, p, init);
      ChangesDecide(documented, p, init, id);
      ChangesKeepGood(documented, p, init);
      OneChange(documented, q, c, id);
      MeetsThen(p, q, WithChange(documented, q, c), id, LastChange(documented, init, id),
                if c.id == id && id != 0 && c.kind != UpdateNode then Some(Effect(documented, c.kind)) else None);
    }
  }

  lemma Stays(p: Plan, id: nat)
    ensures Meets(p, p, id, None)
  {
  }

  /** The incoming voters a batch leaves: those it adds, and those it does not name. */
  ghost predicate Joins(documented: Dispatch, incoming: set<nat>, cs: seq<Change>, id: nat) {
    match LastChange(documented, cs, id)
    case None => id in incoming
    case Some(kind) => kind == AddNode
  }

  ghost predicate VotersAfter(documented: Dispatch, incoming: set<nat>, cs: seq<Change>, voters: set<nat>) {
    forall id :: id in voters <==> Joins(documented, incoming, cs, id)
  }

  lemma {:induction false} NoUpdate(documented: Dispatch, cs: seq<Change>, id: nat)
    ensures LastChange(documented, cs, id) != Some(UpdateNode)
    decreases |cs|
  {
    if cs != [] {
      NoUpdate(documented, cs[..|cs| - 1], id);
    }
  }

  lemma ChangesLeave(documented: Dispatch, p: Plan, cs: seq<Change>)
    requires Good(p)
    ensures VotersAfter(documented, p.cfg.voters.incoming, cs, WithChanges(documented, p, cs).cfg.voters.incoming)
  {
    hide Good;
    forall id
      ensures id in WithChanges(documented, p, cs).cfg.voters.incoming <==> Joins(documented, p.cfg.voters.incoming, cs, id)
    {
      ChangesDecide(documented, p, cs, id);
      NoUpdate(documented, cs, id);
    }
  }

  /**
    A simple change is accepted exactly outside a joint configuration, if it leaves voters and adds or
    removes at most one; then every node has met its fate.
   */
  lemma SimpleDecides(documented: Dispatch, p: Plan, cs: seq<Change>, voters: set<nat>, id: nat)
    requires Good(p) && VotersAfter(documented, p.cfg.voters.incoming, cs, voters)
    ensures var r := Simple(documented, p, cs);
            && (r.Ok? <==> !Joint(p.cfg) && voters != {} && |(p.cfg.voters.incoming - voters) + (voters - p.cfg.voters.incoming)| <= 1)
            && (r.Err? ==> r.error == if Joint(p.cfg) then AlreadyJoint else if voters == {} then RemovedAllVoters else TooManyVoters)
            && (r.Ok? ==> r.value.cfg.voters.incoming == voters && Meets(p, r.value, id, LastChange(documented, cs, id))
                          && !Joint(r.value.cfg) && !r.value.cfg.autoLeave)
  {
    hide Good, Consistent, WithChanges, LastChange, Meets;
    var q := WithChanges(documented, p, cs);
    ChangesLeave(documented, p, cs);
    assert q.cfg.voters.incoming == voters;
    ChangesDecide(documented, p, cs, id);
    ChangesKeepGood(documented, p, cs);
    GoodIsConsistent(p);
    GoodIsConsistent(q);
    NotAutoLeaving(p);
  }

  lemma NotAutoLeaving(p: Plan)
    requires Good(p)
    ensures !Joint(p.cfg) ==> !p.cfg.autoLeave
  {
  }

  lemma DoubledGood(p: Plan)
    requires Good(p) && !Joint(p.cfg)
    ensures Good(Doubled(p))
  {
  }

  lemma WithAutoLeave(p: Plan, q: Plan, id: nat, last: Option<Kind>, autoLeave: bool)
    requires Meets(p, q, id, last)
    ensures Meets(p, q.(cfg := q.cfg.(autoLeave := autoLeave)), id, last)
  {
  }

  /**
    A joint configuration is entered exactly from one that is not joint and has voters, if the batch leaves
    voters; the outgoing voters are the old ones, and every node has met its fate beside them.
   */
  lemma EnterDecides(documented: Dispatch, p: Plan, autoLeave: bool, cs: seq<Change>, voters: set<nat>, id: nat)
    requires Good(p) && VotersAfter(documented, p.cfg.voters.incoming, cs, voters)
    ensures var r := EnterJoint(documented, p, autoLeave, cs);
            && (r.Ok? <==> !Joint(p.cfg) && p.cfg.voters.incoming != {} && voters != {})
            && (r.Err? ==> r.error == if Joint(p.cfg) then AlreadyJoint else if p.cfg.voters.incoming == {} then ZeroVoters else RemovedAllVoters)
            && (r.Ok? ==> r.value.cfg.voters == JointConfig(voters, p.cfg.voters.incoming) && r.value.cfg.autoLeave == autoLeave
                          && Meets(Doubled(p), r.value, id, LastChange(documented, cs, id)))
  {
    hide Good, Consistent, WithChanges, LastChange, Meets, VotersAfter;
    EnterOnGood(documented, p, autoLeave, cs);
    if !Joint(p.cfg) && p.cfg.voters.incoming != {} {
      var d := Doubled(p);
      var q := WithChanges(documented, d, cs);
      DoubledGood(p);
      ChangesLeave(documented, d, cs);
      SameVoters(documented, p.cfg.voters.incoming, cs, q.cfg.voters.incoming, voters);
      ChangesDecide(documented, d, cs, id);
      WithAutoLeave(d, q, id, LastChange(documented, cs, id), autoLeave);
      ChangesKeepGood(documented, d, cs);
      GoodIsConsistent(p);
    }
  }

  lemma SameVoters(documented: Dispatch, incoming: set<nat>, cs: seq<Change>, a: set<nat>, b: set<nat>)
    requires VotersAfter(documented, incoming, cs, a) && VotersAfter(documented, incoming, cs, b)
    ensures a == b
  {
    hide LastChange;
    forall id ensures id in a <==> id in b {
      assert Joins(documented, incoming, cs, id) <==> id in a;
    }
  }

  /** Leaving keeps the incoming voters, makes learners of those who waited for it, and forgets everybody else. */
  lemma LeaveDecides(p: Plan, id: nat)
    requires Good(p)
    ensures var r := LeaveJoint(p);
            && (r.Ok? <==> Joint(p.cfg)) && (r.Err? ==> r.error == NotJoint)
            && (r.Ok? ==> r.value.cfg == Configuration(JointConfig(p.cfg.voters.incoming, {}), p.cfg.learners + p.cfg.learnersNext, {}, false)
                          && (id in r.value.tracked <==> id in p.cfg.voters.incoming || id in p.cfg.learners || id in p.cfg.learnersNext))
  {
  }

  /**
    Which operation a request becomes: nothing, with the transition left to the leader, leaves a joint
    configuration; one change is simple; otherwise one is entered, and it is left automatically unless the
    request says that this will be asked for.
   */
  lemma RequestDecides(documented: Dispatch, p: Plan, transition: Transition, cs: seq<Change>)
    requires Good(p) && Run(documented, p, OpOf(transition, cs)).Ok?
    ensures var q := Run(documented, p, OpOf(transition, cs)).value;
            && (Joint(p.cfg) <==> transition == Auto && cs == [])
            && (Joint(q.cfg) <==> transition != Auto || |cs| > 1)
            && (q.cfg.autoLeave <==> Joint(q.cfg) && transition != JointExplicit)
  {
    hide Good, Consistent, WithChanges, LastChange, Meets, Difference, VotersAfter;
    var op := OpOf(transition, cs);
    var voters := WithChanges(documented, p, cs).cfg.voters.incoming;
    ChangesLeave(documented, p, cs);
    match op
    case LeaveOp => LeaveDecides(p, 0);
    case SimpleOp(_) => SimpleDecides(documented, p, cs, voters, 0);
    case EnterOp(autoLeave, _) => EnterDecides(documented, p, autoLeave, cs, voters, 0);
  }

  /** The check around every change and the clauses nothing checks make up the invariant. */
  lemma GoodExactly(p: Plan)
    ensures Good(p) <==>
            Consistent(p) && p.tracked <= Ids(p.cfg) && 0 !in p.tracked && p.cfg.learnersNext !! p.cfg.voters.incoming
  {
  }
}
