/**
  When the reset guard as written does no harm in the `Ready` loop: exactly as long as no append replaces
  entries while the persisted index stands at the conflict or one above it.
 */
module ReadyLoopWritten {
  import opened Common
  import opened LogSpec
  import opened Delivery
  import opened ReadyLoop

  /** The act is an append that the written guard misses, as can be seen before it is taken. */
  ghost predicate MissesAt(findConflict: bool, s: Loop, a: Act)
    requires s.node.log.first >= 1
  {
    MayAct(s, a) && a.Take? && a.op.MaybeAppendOp? && Misses(findConflict, s.node.log, a.op.idx, a.op.term, a.op.ents)
  }

  lemma StepsAgreeExactly(findConflict: bool, l: Log, op: LogOp)
    requires Pointers(l) && Enabled(l, op)
    ensures Step(Reading(findConflict, false), l, op) == Step(Reading(findConflict, true), l, op)
            <==> !(op.MaybeAppendOp? && Misses(findConflict, l, op.idx, op.term, op.ents))
  {
    hide MaybeAppend, Misses, Pointers;
    PointersParts(l);
    if op.MaybeAppendOp? {
      GuardsAgreeExactly(findConflict, l, op.idx, op.term, op.committed, op.ents);
      OnlyLogs(Reading(findConflict, false), l, op.idx, op.term, op.committed, op.ents);
      OnlyLogs(Reading(findConflict, true), l, op.idx, op.term, op.committed, op.ents);
    }
  }

  /** The report of an append is settled by its arguments and the log before it. */
  lemma OnlyLogs(rd: Reading, l: Log, idx: nat, term: nat, committed: nat, ents: seq<Entry>)
    requires Pointers(l) && Continuous(ents, idx + 1)
    ensures var r := MaybeAppend(rd, l, idx, term, committed, ents);
            r.Next? ==> r.value.1 == if Term(l, idx) != Some(term) then Rejected
                                     else Accepted(FindConflict(rd.findConflict, l, ents), idx + |ents|)
  {
    hide MergedIfNeeded, Term, FindConflict, CommitTo;
  }

  lemma ActsAgreeExactly(findConflict: bool, s: Loop, a: Act)
    requires NodeOK(s.node) && s.node.log.first >= 1 && MayAct(s, a)
    ensures DoAct(Reading(findConflict, false), s, a) == DoAct(Reading(findConflict, true), s, a) <==> !MissesAt(findConflict, s, a)
  {
    hide Step, Pointers, Misses, MaybeAppend, Enabled, Allowed, TakeOn, AdvanceOn, Acknowledge, PersistOn, Bare, Honest, LastSaved, Upto, CommitReady;
    if a.Take? {
      StepsAgreeExactly(findConflict, s.node.log, a.op);
    } else if a.Propose? {
      StepsAgreeExactly(findConflict, s.node.log, ProposeOp(a.ents));
    } else if a.Commit? {
      OtherSteps(findConflict, s.node.log, CommitToOp(a.to));
    } else if a.Drop? {
      OtherSteps(findConflict, s.node.log, CompactOp(a.idx));
    } else if a.Elected? {
      OtherSteps(findConflict, s.node.log, ProposeOp([a.noop]));
    } else if a.Alone? {
      OtherSteps(findConflict, s.node.log, ProposeOp([a.noop]));
    }
  }

  lemma OtherSteps(findConflict: bool, l: Log, op: LogOp)
    requires Pointers(l) && !op.MaybeAppendOp?
    ensures Step(Reading(findConflict, false), l, op) == Step(Reading(findConflict, true), l, op)
  {
  }

  // ------------------------------------------------------------------ runs

  ghost predicate NothingMissed(findConflict: bool, l: Log, applied: nat, term: nat, vote: nat, acts: seq<Act>, k: nat)
    requires Startable(l, applied) && k <= |acts|
  {
    forall j :: 0 <= j < k ==> !MissedAt(findConflict, l, applied, term, vote, acts, j)
  }

  ghost predicate MissedAt(findConflict: bool, l: Log, applied: nat, term: nat, vote: nat, acts: seq<Act>, j: nat)
    requires Startable(l, applied) && j < |acts|
  {
    match LoopRun(Reading(findConflict, false), l, applied, term, vote, acts, j)
    case Panic => false
    case Next((s, _)) => s.node.log.first >= 1 && MissesAt(findConflict, s, acts[j])
  }

  ghost predicate SameAt(findConflict: bool, l: Log, applied: nat, term: nat, vote: nat, acts: seq<Act>, j: nat)
    requires Startable(l, applied) && j <= |acts|
  {
    LoopRun(Reading(findConflict, false), l, applied, term, vote, acts, j) == LoopRun(Reading(findConflict, true), l, applied, term, vote, acts, j)
  }

  /** From the same loop the next act leads to the same loop exactly if it is not missed. */
  lemma NextSame(findConflict: bool, l: Log, applied: nat, term: nat, vote: nat, acts: seq<Act>, j: nat)
    requires Startable(l, applied) && j < |acts| && SameAt(findConflict, l, applied, term, vote, acts, j)
    ensures SameAt(findConflict, l, applied, term, vote, acts, j + 1) <==> !MissedAt(findConflict, l, applied, term, vote, acts, j)
  {
    hide DoAct, MayAct, LoopInv, Pointers, Misses;
    StartsAtOne(l, applied);
    var r := LoopRun(Reading(findConflict, false), l, applied, term, vote, acts, j);
    if r.Next? {
      var (s, hs) := r.value;
      ActKeeps(Reading(findConflict, false), s, acts[j], Max(applied, l.first - 1), hs);
      if MayAct(s, acts[j]) {
        ActsAgreeExactly(findConflict, s, acts[j]);
        if MissesAt(findConflict, s, acts[j]) {
          AppendHandsNothing(Reading(findConflict, false), s, acts[j]);
          AppendHandsNothing(Reading(findConflict, true), s, acts[j]);
          assert hs + [] == hs;
        }
      }
    }
  }

  lemma StartsAtOne(l: Log, applied: nat)
    requires Startable(l, applied)
    ensures l.first >= 1
  {
  }

  lemma AppendHandsNothing(rd: Reading, s: Loop, a: Act)
    requires NodeOK(s.node) && s.node.log.first >= 1 && a.Take?
    ensures DoAct(rd, s, a).Next? ==> DoAct(rd, s, a).value.1 == []
  {
    hide Step, Pointers;
  }

  lemma {:induction false} RunsAgree(findConflict: bool, l: Log, applied: nat, term: nat, vote: nat, acts: seq<Act>, k: nat)
    requires Startable(l, applied) && k <= |acts| && NothingMissed(findConflict, l, applied, term, vote, acts, k)
    ensures SameAt(findConflict, l, applied, term, vote, acts, k)
  {
    hide MissedAt, SameAt, Startable;
    if k == 0 {
      SameStart(findConflict, l, applied, term, vote, acts);
    } else {
      RunsAgree(findConflict, l, applied, term, vote, acts, k - 1);
      NextSame(findConflict, l, applied, term, vote, acts, k - 1);
    }
  }

  lemma SameStart(findConflict: bool, l: Log, applied: nat, term: nat, vote: nat, acts: seq<Act>)
    requires Startable(l, applied)
    ensures SameAt(findConflict, l, applied, term, vote, acts, 0)
  {
    hide LoopInv, Startable;
  }

  /**
    A run with the guard as written is the run with the documented one, loop by loop, exactly as long as no
    append replaces entries while persisted stands at the conflict or one above it.
   */
  lemma RunsAgreeExactly(findConflict: bool, l: Log, applied: nat, term: nat, vote: nat, acts: seq<Act>, k: nat)
    requires Startable(l, applied) && k <= |acts|
    ensures NothingMissed(findConflict, l, applied, term, vote, acts, k) <==>
            forall j :: 0 <= j <= k ==> SameAt(findConflict, l, applied, term, vote, acts, j)
  {
    hide MissedAt, SameAt, Startable;
    if NothingMissed(findConflict, l, applied, term, vote, acts, k) {
      forall j | 0 <= j <= k
        ensures SameAt(findConflict, l, applied, term, vote, acts, j)
      {
        RunsAgree(findConflict, l, applied, term, vote, acts, j);
      }
    } else {
      var j :| 0 <= j < k && MissedAt(findConflict, l, applied, term, vote, acts, j);
      if SameAt(findConflict, l, applied, term, vote, acts, j) {
        NextSame(findConflict, l, applied, term, vote, acts, j);
      }
    }
  }

  /**
    In such a run an election by answers stops the node exactly if no report has named the end of its log,
    and never once the Ready of its campaign is reported.
   */
  lemma WrittenElectedIsSaved(findConflict: bool, l: Log, applied: nat, term: nat, vote: nat, acts: seq<Act>, k: nat, noop: Entry)
    requires Startable(l, applied) && k <= |acts| && NothingMissed(findConflict, l, applied, term, vote, acts, k)
    requires var r := LoopRun(Reading(findConflict, false), l, applied, term, vote, acts, k);
             r.Next? && r.value.0.node.log.first >= 1 && MayAct(r.value.0, Elected(noop))
    ensures var s := LoopRun(Reading(findConflict, false), l, applied, term, vote, acts, k).value.0;
            && NodeOK(s.node)
            && (DoAct(Reading(findConflict, false), s, Elected(noop)).Panic? <==> !s.covered)
            && (s.covered <==> s.node.log.persisted == Last(s.node.log))
            && (s.campaign <= s.reported ==> s.covered && Bare(s.node.records))
  {
    hide LoopRun, MayAct, DoAct, LoopInv, Bare, Pointers, NothingMissed, Startable;
    StartsAtOne(l, applied);
    RunsAgree(findConflict, l, applied, term, vote, acts, k);
    ElectedIsSaved(Reading(findConflict, true), l, applied, term, vote, acts, k, noop);
    LoopStopsExactly(Reading(findConflict, true), l, applied, term, vote, acts, k, Elected(noop));
    var (s, hs) := LoopRun(Reading(findConflict, true), l, applied, term, vote, acts, k).value;
    ActKeeps(Reading(findConflict, true), s, Elected(noop), Max(applied, l.first - 1), hs);
    ActsAgreeExactly(findConflict, s, Elected(noop));
  }
}
