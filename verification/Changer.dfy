/** The change engine in its own form: a draft configuration over a lazily updated progress map. */
module Changer {
  import opened Quorum
  import opened Membership

  datatype MapChangeType = Add | Remove

  type MapChange = seq<(nat, MapChangeType)>

  /** What the leader tracks of a peer, as far as membership changes touch it. */
  datatype Peer = Peer(matched: nat, nextIdx: nat, recentActive: bool)

  function NewPeer(nextIdx: nat): Peer {
    Peer(0, nextIdx, true)
  }

  /** The ids with a progress once the recorded changes have been carried out. */
  function Keys(base: set<nat>, changes: MapChange): set<nat>
    decreases |changes|
  {
    if changes == [] then base
    else
      var keys := Keys(base, changes[..|changes| - 1]);
      match changes[|changes| - 1].1
      case Add => keys + {changes[|changes| - 1].0}
      case Remove => keys - {changes[|changes| - 1].0}
  }

  /** The progress map once the recorded changes have been carried out. */
  function Rebuilt(base: map<nat, Peer>, changes: MapChange, nextIdx: nat): map<nat, Peer>
    decreases |changes|
  {
    if changes == [] then base
    else
      var m := Rebuilt(base, changes[..|changes| - 1], nextIdx);
      match changes[|changes| - 1].1
      case Add => m[changes[|changes| - 1].0 := NewPeer(nextIdx)]
      case Remove => m - {changes[|changes| - 1].0}
  }

  lemma {:induction false} RebuiltKeys(base: map<nat, Peer>, changes: MapChange, nextIdx: nat)
    ensures Rebuilt(base, changes, nextIdx).Keys == Keys(base.Keys, changes)
    decreases |changes|
  {
    if changes != [] {
      RebuiltKeys(base, changes[..|changes| - 1], nextIdx);
    }
  }

  /** A peer the changes do not name keeps its progress; one they leave in place anew starts over. */
  lemma {:induction false} RebuiltPeers(base: map<nat, Peer>, changes: MapChange, nextIdx: nat, id: nat)
    requires id in Rebuilt(base, changes, nextIdx)
    ensures Rebuilt(base, changes, nextIdx)[id] ==
            if Touched(changes, id) then NewPeer(nextIdx) else if id in base then base[id] else NewPeer(nextIdx)
    decreases |changes|
  {
    if changes != [] {
      var n := |changes| - 1;
      assert Touched(changes, id) <==> Touched(changes[..n], id) || changes[n].0 == id;
      if changes[n].0 != id {
        RebuiltPeers(base, changes[..n], nextIdx, id);
      }
    }
  }

  predicate Touched(changes: MapChange, id: nat) {
    exists i :: 0 <= i < |changes| && changes[i].0 == id
  }

  /**
    A configuration being edited, with the changes its progress map is to undergo.
    The map itself is only looked at.
   */
  class Draft {
    const base: map<nat, Peer>
    var cfg: Configuration
    var changes: MapChange

    ghost function Abs(): Plan
      reads this
    {
      Plan(cfg, Keys(base.Keys, changes))
    }

    constructor (cfg: Configuration, base: map<nat, Peer>)
      ensures this.cfg == cfg && this.base == base && changes == []
      ensures Abs() == Plan(cfg, base.Keys)
    {
      this.cfg, this.base, changes := cfg, base, [];
    }

    /** The last recorded change of an id decides; without one, the map does. */
    method Contains(id: nat) returns (found: bool)
      ensures found <==> id in Keys(base.Keys, changes)
    {
      var i := |changes|;
      assert changes[..i] == changes;
      while i > 0
        invariant 0 <= i <= |changes|
        invariant id in Keys(base.Keys, changes) <==> id in Keys(base.Keys, changes[..i])
      {
        i := i - 1;
        assert changes[..i + 1][..i] == changes[..i];
        if changes[i].0 == id {
          return changes[i].1.Add?;
        }
      }
      found := id in base;
    }

    method Push(id: nat, change: MapChangeType)
      modifies this`changes
      ensures changes == old(changes) + [(id, change)]
      ensures Keys(base.Keys, changes) ==
              if change.Add? then old(Keys(base.Keys, changes)) + {id} else old(Keys(base.Keys, changes)) - {id}
    {
      assert (changes + [(id, change)])[..|changes|] == changes;
      changes := changes + [(id, change)];
    }

    method InitProgress(id: nat, isLearner: bool)
      modifies this
      ensures cfg == if isLearner then old(cfg).(learners := old(cfg).learners + {id})
                     else old(cfg).(voters := old(cfg).voters.(incoming := old(cfg).voters.incoming + {id}))
      ensures Keys(base.Keys, changes) == old(Keys(base.Keys, changes)) + {id}
    {
      if !isLearner {
        cfg := cfg.(voters := cfg.voters.(incoming := cfg.voters.incoming + {id}));
      } else {
        cfg := cfg.(learners := cfg.learners + {id});
      }
      Push(id, Add);
    }

    method MakeVoter(id: nat)
      modifies this
      ensures Abs() == WithVoter(old(Abs()), id)
    {
      var tracked := Contains(id);
      if !tracked {
        InitProgress(id, false);
        return;
      }
      cfg := cfg.(voters := cfg.voters.(incoming := cfg.voters.incoming + {id}));
      cfg := cfg.(learners := cfg.learners - {id});
      cfg := cfg.(learnersNext := cfg.learnersNext - {id});
    }

    method MakeLearner(id: nat)
      modifies this
      ensures Abs() == WithLearner(old(Abs()), id)
    {
      var tracked := Contains(id);
      if !tracked {
        InitProgress(id, true);
        return;
      }
      if id in cfg.learners {
        return;
      }
      Clear(id);
      if id in cfg.voters.outgoing {
        cfg := cfg.(learnersNext := cfg.learnersNext + {id});
      } else {
        cfg := cfg.(learners := cfg.learners + {id});
      }
    }

    method RemoveNode(id: nat)
      modifies this
      ensures Abs() == Without(old(Abs()), id)
    {
      var tracked := Contains(id);
      if !tracked {
        return;
      }
      Clear(id);
      if id !in cfg.voters.outgoing {
        Push(id, Remove);
      }
    }

    method Clear(id: nat)
      modifies this`cfg
      ensures Abs() == Cleared(old(Abs()), id)
    {
      cfg := cfg.(voters := cfg.voters.(incoming := cfg.voters.incoming - {id}));
      cfg := cfg.(learners := cfg.learners - {id});
      cfg := cfg.(learnersNext := cfg.learnersNext - {id});
    }

    /** `apply`: the changes one by one, ignoring those for node zero. */
    method Apply(documented: Dispatch, cs: seq<Change>) returns (ok: bool)
      modifies this
      ensures Abs() == WithChanges(documented, old(Abs()), cs)
      ensures ok <==> Abs().cfg.voters.incoming != {}
    {
      ghost var start := Abs();
      var i := 0;
      while i < |cs|
        invariant 0 <= i <= |cs|
        invariant Abs() == WithChanges(documented, start, cs[..i])
      {
        assert cs[..i + 1][..i] == cs[..i];
        var c := cs[i];
        i := i + 1;
        if c.id == 0 {
          continue;
        }
        match c.kind {
          case AddNode => MakeVoter(c.id);
          case RemoveNode => if documented { RemoveNode(c.id); } else { MakeLearner(c.id); }
          case AddLearnerNode => if documented { MakeLearner(c.id); } else { RemoveNode(c.id); }
          case UpdateNode =>
        }
      }
      assert cs[..|cs|] == cs;
      ok := cfg.voters.incoming != {};
    }

    method CheckInvariants() returns (ok: bool)
      ensures ok <==> Consistent(Abs())
    {
      var todo := cfg.voters.incoming + cfg.voters.outgoing;
      ok := AllTracked(todo);
      var learners := AllTracked(cfg.learners);
      var next := AllTracked(cfg.learnersNext);
      ok := ok && learners && cfg.learners !! cfg.voters.outgoing && cfg.learners !! cfg.voters.incoming
            && next && cfg.learnersNext <= cfg.voters.outgoing
            && (Joint(cfg) || (cfg.learnersNext == {} && !cfg.autoLeave));
    }

    method AllTracked(ids: set<nat>) returns (ok: bool)
      ensures ok <==> ids <= Keys(base.Keys, changes)
    {
      var todo := ids;
      while todo != {}
        invariant todo <= ids && ids - todo <= Keys(base.Keys, changes)
        decreases todo
      {
        var id :| id in todo;
        var tracked := Contains(id);
        if !tracked {
          return false;
        }
        todo := todo - {id};
      }
      ok := true;
    }
  }

  /** An accepted change: the new configuration and what the progress map must undergo. */
  datatype Update = Update(cfg: Configuration, changes: MapChange)

  /** The engine and its meaning agree: same error, or same configuration and same tracked ids. */
  ghost predicate Agrees(base: set<nat>, r: Result<Update>, s: Result<Plan>) {
    match r
    case Err(e) => s == Err(e)
    case Ok(u) => s == Ok(Plan(u.cfg, Keys(base, u.changes)))
  }

  class Tracker {
    var progress: map<nat, Peer>
    var conf: Configuration

    constructor ()
      ensures Abs() == EMPTY && progress == map[]
    {
      progress, conf := map[], EMPTY.cfg;
    }

    function Abs(): Plan
      reads this
    {
      Plan(conf, progress.Keys)
    }

    method EnterJoint(documented: Dispatch, autoLeave: bool, cs: seq<Change>) returns (r: Result<Update>)
      ensures Agrees(progress.Keys, r, Membership.EnterJoint(documented, Abs(), autoLeave, cs))
    {
      if Joint(conf) {
        return Err(AlreadyJoint);
      }
      var draft := new Draft(conf, progress);
      var ok := draft.CheckInvariants();
      if !ok {
        return Err(Inconsistent);
      }
      if draft.cfg.voters.incoming == {} {
        return Err(ZeroVoters);
      }
      draft.cfg := draft.cfg.(voters := draft.cfg.voters.(outgoing := draft.cfg.voters.outgoing + draft.cfg.voters.incoming));
      assert draft.Abs() == Doubled(Abs());
      ok := draft.Apply(documented, cs);
      if !ok {
        return Err(RemovedAllVoters);
      }
      draft.cfg := draft.cfg.(autoLeave := autoLeave);
      ok := draft.CheckInvariants();
      r := if ok then Ok(Update(draft.cfg, draft.changes)) else Err(Inconsistent);
    }

    method LeaveJoint() returns (r: Result<Update>)
      ensures Agrees(progress.Keys, r, Membership.LeaveJoint(Abs()))
    {
      if !Joint(conf) {
        return Err(NotJoint);
      }
      var draft := new Draft(conf, progress);
      var ok := draft.CheckInvariants();
      if !ok {
        return Err(Inconsistent);
      }
      draft.cfg := draft.cfg.(learners := draft.cfg.learners + draft.cfg.learnersNext, learnersNext := {});
      var todo := draft.cfg.voters.outgoing;
      ghost var keep := draft.cfg.voters.incoming + draft.cfg.learners;
      ghost var cfg := draft.cfg;
      while todo != {}
        invariant todo <= cfg.voters.outgoing && draft.cfg == cfg && draft.base == progress
        invariant Keys(progress.Keys, draft.changes) == progress.Keys - (cfg.voters.outgoing - todo - keep)
        decreases todo
      {
        var id :| id in todo;
        todo := todo - {id};
        if id !in draft.cfg.voters.incoming && id !in draft.cfg.learners {
          draft.Push(id, Remove);
        }
      }
      draft.cfg := draft.cfg.(voters := draft.cfg.voters.(outgoing := {}), autoLeave := false);
      assert cfg.voters.outgoing - {} - keep == cfg.voters.outgoing - cfg.voters.incoming - cfg.learners;
      ok := draft.CheckInvariants();
      r := if ok then Ok(Update(draft.cfg, draft.changes)) else Err(Inconsistent);
    }

    method Simple(documented: Dispatch, cs: seq<Change>) returns (r: Result<Update>)
      ensures Agrees(progress.Keys, r, Membership.Simple(documented, Abs(), cs))
    {
      if Joint(conf) {
        return Err(AlreadyJoint);
      }
      var draft := new Draft(conf, progress);
      var ok := draft.CheckInvariants();
      if !ok {
        return Err(Inconsistent);
      }
      ok := draft.Apply(documented, cs);
      if !ok {
        return Err(RemovedAllVoters);
      }
      if |Difference(conf.voters.incoming, draft.cfg.voters.incoming)| > 1 {
        return Err(TooManyVoters);
      }
      ok := draft.CheckInvariants();
      r := if ok then Ok(Update(draft.cfg, draft.changes)) else Err(Inconsistent);
    }

    /** `apply_conf`. */
    method ApplyConf(u: Update, nextIdx: nat)
      modifies this
      ensures conf == u.cfg && progress == Rebuilt(old(progress), u.changes, nextIdx)
      ensures Abs() == Plan(u.cfg, Keys(old(progress).Keys, u.changes))
    {
      conf := u.cfg;
      ghost var before := progress;
      var i := 0;
      while i < |u.changes|
        invariant 0 <= i <= |u.changes| && conf == u.cfg
        invariant progress == Rebuilt(before, u.changes[..i], nextIdx)
      {
        assert u.changes[..i + 1][..i] == u.changes[..i];
        var (id, change) := u.changes[i];
        match change {
          case Add => progress := progress[id := NewPeer(nextIdx)];
          case Remove => progress := progress - {id};
        }
        i := i + 1;
      }
      assert u.changes[..|u.changes|] == u.changes;
      RebuiltKeys(before, u.changes, nextIdx);
    }

    /** `Raft::apply_conf_change`: run the operation a `ConfChangeV2` asks for and install what it returns. */
    method ApplyConfChange(documented: Dispatch, transition: Transition, cs: seq<Change>, nextIdx: nat)
      returns (result: Result<Configuration>)
      modifies this
      ensures match Run(documented, old(Abs()), OpOf(transition, cs))
              case Ok(q) => Abs() == q && result == Ok(conf)
              case Err(e) => result == Err(e) && progress == old(progress) && conf == old(conf)
    {
      var r: Result<Update>;
      if transition == Auto && cs == [] {
        r := LeaveJoint();
      } else if transition != Auto || |cs| > 1 {
        r := EnterJoint(documented, transition != JointExplicit, cs);
      } else {
        r := Simple(documented, cs);
      }
      match r {
        case Ok(u) =>
          ApplyConf(u, nextIdx);
          result := Ok(conf);
        case Err(e) => result := Err(e);
      }
    }
  }
}
