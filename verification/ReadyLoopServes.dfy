/** One full turn of the loop: whatever was waiting is stored, persisted, handed out and applied. */
module ReadyLoopServes {
  import opened Common
  import opened LogSpec
  import opened Delivery
  import opened ReadyLoop

  /** Nothing waits to be sent, shown, stored or reported, and the application has received everything committed. */
  ghost predicate Served(s: Loop, start: nat, hs: seq<Handed>) {
    && s.node.log.first >= 1 && !s.node.outstanding && s.node.records == [] && !HasReady(s)
    && Stable(s.node.log) && s.node.log.persisted == Last(s.node.log)
    && Position(start, hs) == s.node.log.committed
  }

  /** `has_ready` says exactly whether a Ready would show, send, store or hand out anything. */
  lemma HasReadyExactly(rd: Reading, s: Loop, max: Option<nat>, start: nat, hs: seq<Handed>)
    requires LoopInv(rd, s, start, hs) && !s.node.outstanding && NodeOK(s.node) && s.node.log.first >= 1 && TakeOn(s, max).Next?
    ensures var (t, more) := TakeOn(s, max).value;
            && t.node.records != []
            && (HasReady(s) <==> s.messages || s.role != s.prevRole || CurrentHard(s) != s.prevHard
                                 || !BareRecord(t.node.records[|t.node.records| - 1]) || more != [])
  {
    ReadyShape(s.node, BecameLeader(s), max);
    ReadyHands(s.node, BecameLeader(s), max);
    RecordNames(s.node.log, s.node.maxNumber + 1);
    hide Ready, LoopInv, Drained, Pointers, HasNextEntries;
  }

  lemma ReadyHands(n: Node, became: bool, max: Option<nat>)
    requires NodeOK(n) && n.log.first >= 1 && Ready(n, became, max).Next?
    ensures Ready(n, became, max).value.1 != [] <==> n.log.pending || HasNextEntries(n.log, n.commitSince)
  {
    NextEntriesAre(n.log, n.commitSince, max);
    hide Bare, NextEntries, HasNextEntries, Recorded, Pointers;
  }

  lemma LeftIsLater(n: Node, reported: nat)
    requires NumbersOK(n, reported)
    ensures n.records != [] ==> reported < n.maxNumber
  {
    assert n.records != [] ==> reported < n.records[0].number;
  }

  /** A report of the latest number leaves no record, and the end of the log is persisted. */
  lemma AllReported(rd: Reading, s: Loop, start: nat, hs: seq<Handed>)
    requires LoopInv(rd, s, start, hs) && rd.resetGuard && s.node.log.first >= 1 && Stable(s.node.log) && s.reported == s.node.maxNumber
    ensures s.node.records == [] && s.node.log.persisted == Last(s.node.log)
  {
    hide Inv, CandidateOK;
    InvParts(s.node, start, hs);
    LeftIsLater(s.node, s.reported);
  }

  /** Acknowledging a Ready leaves nothing to store. */
  lemma Acknowledges(rd: Reading, s: Loop, start: nat, hs: seq<Handed>)
    requires LoopInv(rd, s, start, hs) && s.node.outstanding && s.node.log.first >= 1 && NodeOK(s.node)
    ensures Acknowledge(s).Next?
    ensures var a := Acknowledge(s).value;
            && a.node.log.first == s.node.log.first && Stable(a.node.log) && !a.node.outstanding
            && a.node.log.entries == s.node.log.entries && a.node.log.committed == s.node.log.committed
            && a.node.maxNumber == s.node.maxNumber && a.role == a.prevRole
  {
    OutstandingParts(s.node, start, hs);
    CommitSaves(s.node, s.covered);
    CommitReadyIs(s.node);
    hide Inv, LoopOK, OutstandingOK, SavedOK;
  }

  lemma Reports(a: Loop, stored: Option<nat>)
    requires NodeOK(a.node) && a.node.log.first >= 1 && Stable(a.node.log) && ReportAll(a, stored).Next?
    ensures var b := ReportAll(a, stored).value;
            && b.node.log == a.node.log.(persisted := b.node.log.persisted) && b.node.maxNumber == a.node.maxNumber
            && b.reported == Max(a.reported, a.node.maxNumber) && b.node.outstanding == a.node.outstanding
            && b.role == a.role && b.prevRole == a.prevRole
  {
    hide Upto, LastSnap, LastSaved, Pointers, Term;
  }

  /** The last part hands out all that is left. */
  lemma HandsOutAll(rd: Reading, b: Loop, start: nat, hs: seq<Handed>)
    requires LoopInv(rd, b, start, hs) && NodeOK(b.node) && b.node.log.first >= 1 && HandOut(b, None).Next?
    requires Stable(b.node.log) && b.node.log.persisted == Last(b.node.log) && b.node.records == [] && !b.node.outstanding && b.role == b.prevRole
    requires var (t, more) := HandOut(b, None).value; LoopInv(rd, t, start, hs + more)
    ensures var (t, more) := HandOut(b, None).value;
            && t.node.log == b.node.log && Served(t, start, hs + more) && (t.node.commitSince > 0 ==> t.node.commitSince == t.node.log.committed)
  {
    NothingLeft(b.node.log, b.node.commitSince);
    var (t, more) := HandOut(b, None).value;
    InvCursor(t.node, start, hs + more);
    hide LoopInv, NextEntries, Pointers, WellFormed;
    PointersParts(b.node.log);
  }

  lemma InvCursor(n: Node, start: nat, hs: seq<Handed>)
    requires Inv(n, start, hs)
    ensures n.log.first >= 1 && CursorOK(n, Position(start, hs))
  {
    hide InOrder, Committed, RecordsOK, CursorOK;
  }

  /** The application has stored a Ready and advances past it: the report covers all, and all is handed out. */
  lemma AdvanceServes(rd: Reading, s: Loop, start: nat, hs: seq<Handed>) returns (stored: Option<nat>)
    requires LoopInv(rd, s, start, hs) && rd.resetGuard && s.node.outstanding && s.stored == s.node.maxNumber
    ensures NodeOK(s.node) && s.node.log.first >= 1
    ensures MayAct(s, AdvanceAll(stored, 0, false, None)) && DoAct(rd, s, AdvanceAll(stored, 0, false, None)).Next?
    ensures var (t, more) := DoAct(rd, s, AdvanceAll(stored, 0, false, None)).value;
            && LoopInv(rd, t, start, hs + more) && Served(t, start, hs + more)
            && t.node.log.first == s.node.log.first && t.node.log.entries == s.node.log.entries && t.node.log.committed == s.node.log.committed
            && (t.node.commitSince > 0 ==> t.node.commitSince == t.node.log.committed)
  {
    hide LoopInv, NodeOK, MayAct, Acknowledge, ReportAll, HandOut, AsReady, Served;
    InvParts(s.node, start, hs) by { InvOf(rd, s, start, hs); }
    stored := HonestAnswer(rd, s, start, hs);
    OutstandingParts(s.node, start, hs) by { InvOf(rd, s, start, hs); }
    ReportAllowed(s, stored, 0, false, None);
    Acknowledges(rd, s, start, hs);
    AcknowledgeKeeps(rd, s, start, hs);
    var a := Acknowledge(s).value;
    ReportKeeps(rd, a, stored, start, hs);
    Reports(a, stored);
    var b := ReportAll(a, stored).value;
    Reported(rd, b, start, hs);
    AllReported(rd, b, start, hs);
    RaisesNothing(b);
    HandOutKeeps(rd, b, None, start, hs);
    HandsOutAll(rd, b, start, hs);
    assert b.(messages := b.messages || false) == b;
  }

  lemma InvOf(rd: Reading, s: Loop, start: nat, hs: seq<Handed>)
    requires LoopInv(rd, s, start, hs)
    ensures Inv(s.node, start, hs)
  {
    hide Inv, LoopOK;
  }

  /** No report is of a later number than the last. */
  lemma Reported(rd: Reading, b: Loop, start: nat, hs: seq<Handed>)
    requires LoopInv(rd, b, start, hs)
    ensures b.reported <= b.node.maxNumber
  {
    hide Inv, CandidateOK, SavedOK;
  }

  lemma RaisesNothing(s: Loop)
    requires NodeOK(s.node)
    ensures Raise(s, 0) == Next(s)
  {
    hide Pointers;
  }

  lemma HonestAnswer(rd: Reading, s: Loop, start: nat, hs: seq<Handed>) returns (stored: Option<nat>)
    requires LoopInv(rd, s, start, hs) && NodeOK(s.node) && s.node.log.first >= 1 && s.node.outstanding && s.stored == s.node.maxNumber
    ensures MayAct(s, AdvanceAll(stored, 0, false, None))
  {
    hide Inv, LoopOK, Pointers, Upto, LastSaved, Term;
    stored := None;
    if CommitReady(s.node).Next? {
      Acknowledges(rd, s, start, hs);
      stored := Term(CommitReady(s.node).value.log, LastSaved(s.node.records[..Upto(s.node.records, s.node.maxNumber)]).0);
    }
  }

  /** What was handed out can all be applied, if anything was; applying changes nothing else. */
  lemma Applies(rd: Reading, t: Loop, start: nat, hs: seq<Handed>)
    requires LoopInv(rd, t, start, hs) && Served(t, start, hs) && NodeOK(t.node)
    requires t.node.commitSince > 0 ==> t.node.commitSince == t.node.log.committed
    ensures var c := t.node.log.committed;
            && (t.node.commitSince > 0 ==> MayAct(t, ReadyLoop.Apply(c)))
            && (MayAct(t, ReadyLoop.Apply(c)) ==> DoAct(rd, t, ReadyLoop.Apply(c)) == Next((t.(node := t.node.(log := t.node.log.(applied := c))), [])))
  {
    InvOf(rd, t, start, hs);
    InvCursor(t.node, start, hs);
    hide LoopInv, Inv;
  }

  /** A `Ready` leaves the log as it is and gets the next number. */
  lemma Takes(rd: Reading, s: Loop)
    requires NodeOK(s.node) && s.node.log.first >= 1 && TakeOn(s, None).Next?
    ensures var s1 := TakeOn(s, None).value.0;
            s1.node.log == s.node.log && s1.node.maxNumber == s.node.maxNumber + 1 && s1.node.outstanding
  {
    ReadyShape(s.node, BecameLeader(s), None);
    hide Ready, Bare, BecameLeader, Recorded, Drained, Pointers;
  }

  /** A run goes on with an act that is open to it, and stays where it is otherwise. */
  lemma RunStep(rd: Reading, l: Log, applied: nat, term: nat, vote: nat, acts: seq<Act>, k: nat, s: Loop, hs: seq<Handed>)
    requires Startable(l, applied) && k < |acts| && LoopRun(rd, l, applied, term, vote, acts, k) == Next((s, hs))
    requires NodeOK(s.node) && s.node.log.first >= 1
    ensures !MayAct(s, acts[k]) ==> LoopRun(rd, l, applied, term, vote, acts, k + 1) == Next((s, hs))
    ensures MayAct(s, acts[k]) && DoAct(rd, s, acts[k]).Next? ==>
              var (t, more) := DoAct(rd, s, acts[k]).value;
              LoopRun(rd, l, applied, term, vote, acts, k + 1) == Next((t, hs + more))
  {
    hide MayAct, DoAct, LoopInv, Pointers, Started, Startable;
  }

  /** A run depends on the acts taken so far only. */
  lemma {:induction false} SameRun(rd: Reading, l: Log, applied: nat, term: nat, vote: nat, a: seq<Act>, b: seq<Act>, k: nat)
    requires Startable(l, applied) && k <= |a| && k <= |b| && a[..k] == b[..k]
    ensures LoopRun(rd, l, applied, term, vote, a, k) == LoopRun(rd, l, applied, term, vote, b, k)
  {
    hide MayAct, DoAct, LoopInv, Pointers, Started, Startable;
    if k > 0 {
      assert a[..k][..k - 1] == a[..k - 1] && b[..k][..k - 1] == b[..k - 1];
      assert a[k - 1] == a[..k][k - 1] && b[k - 1] == b[..k][k - 1];
      SameRun(rd, l, applied, term, vote, a, b, k - 1);
    }
  }

  /** The application may store the latest `Ready`. */
  lemma Stores(rd: Reading, s: Loop, start: nat, hs: seq<Handed>)
    requires LoopInv(rd, s, start, hs) && NodeOK(s.node) && s.node.log.first >= 1
    ensures MayAct(s, Store(s.node.maxNumber))
    ensures DoAct(rd, s, Store(s.node.maxNumber)) == Next((s.(stored := s.node.maxNumber), []))
    ensures LoopInv(rd, s.(stored := s.node.maxNumber), start, hs)
  {
    StoreOK(rd, s, s.node.maxNumber) by { assert LoopOK(rd, s) && s.stored <= s.node.maxNumber by { hide Inv, SavedOK, CandidateOK; } }
    hide Inv, SavedOK, CandidateOK, NumbersOK, ReadyOK;
  }

  /** Applying what was handed out, or nothing if the application has received nothing. */
  lemma AppliesLast(rd: Reading, l: Log, applied: nat, term: nat, vote: nat, acts: seq<Act>, k: nat, s: Loop, hs: seq<Handed>)
      returns (t: Loop, ts: seq<Handed>)
    requires Startable(l, applied) && k < |acts| && LoopRun(rd, l, applied, term, vote, acts, k) == Next((s, hs))
    requires LoopInv(rd, s, Max(applied, l.first - 1), hs) && Served(s, Max(applied, l.first - 1), hs)
    requires acts[k] == ReadyLoop.Apply(s.node.log.committed) && (s.node.commitSince > 0 ==> s.node.commitSince == s.node.log.committed)
    ensures LoopRun(rd, l, applied, term, vote, acts, k + 1) == Next((t, ts))
    ensures Served(t, Max(applied, l.first - 1), ts)
    ensures t.node.log == s.node.log.(applied := t.node.log.applied) && t.node.commitSince == s.node.commitSince
    ensures t.node.commitSince > 0 ==> t.node.log.applied == t.node.log.committed
  {
    var start := Max(applied, l.first - 1);
    InvOf(rd, s, start, hs);
    InvParts(s.node, start, hs);
    hide LoopInv, LoopRun, Inv, DoAct, MayAct, Committed, InOrder;
    RunStep(rd, l, applied, term, vote, acts, k, s, hs);
    Applies(rd, s, start, hs);
    assert hs + [] == hs;
    var end := LoopRun(rd, l, applied, term, vote, acts, k + 1).value;
    t, ts := end.0, end.1;
  }

  /** The three acts of a turn before the application applies anything. */
  lemma Turns(rd: Reading, s: Loop, start: nat, hs: seq<Handed>)
      returns (stored: Option<nat>, s1: Loop, h1: seq<Handed>, s3: Loop, h3: seq<Handed>)
    requires LoopInv(rd, s, start, hs) && rd.resetGuard && NodeOK(s.node) && s.node.log.first >= 1
    requires !s.node.outstanding && !Stops(rd, s, TakeReady(None))
    ensures MayAct(s, TakeReady(None)) && DoAct(rd, s, TakeReady(None)) == Next((s1, h1))
    ensures NodeOK(s1.node) && s1.node.log.first >= 1 && s1.node.maxNumber == s.node.maxNumber + 1
    ensures MayAct(s1, Store(s1.node.maxNumber)) && DoAct(rd, s1, Store(s1.node.maxNumber)) == Next((s1.(stored := s1.node.maxNumber), []))
    ensures var s2 := s1.(stored := s1.node.maxNumber);
            MayAct(s2, AdvanceAll(stored, 0, false, None)) && DoAct(rd, s2, AdvanceAll(stored, 0, false, None)) == Next((s3, h3))
    ensures LoopInv(rd, s3, start, hs + h1 + h3) && Served(s3, start, hs + h1 + h3)
    ensures s3.node.log.entries == s.node.log.entries && s3.node.log.committed == s.node.log.committed
    ensures s3.node.commitSince > 0 ==> s3.node.commitSince == s3.node.log.committed
  {
    hide LoopInv, NodeOK, TakeOn, AdvanceOn, Served, Stops;
    assert MayAct(s, TakeReady(None));
    ActKeeps(rd, s, TakeReady(None), start, hs);
    Takes(rd, s);
    var first := DoAct(rd, s, TakeReady(None)).value;
    s1, h1 := first.0, first.1;
    InvParts(s1.node, start, hs + h1) by { InvOf(rd, s1, start, hs + h1); }
    Stores(rd, s1, start, hs + h1);
    var s2 := s1.(stored := s1.node.maxNumber);
    stored := AdvanceServes(rd, s2, start, hs + h1);
    var last := DoAct(rd, s2, AdvanceAll(stored, 0, false, None)).value;
    s3, h3 := last.0, last.1;
  }

  /**
    One turn of the loop from any state a run leads to. Unless the node has been elected before its campaign
    was reported, the application can take a `Ready`, store it and advance; then `has_ready` is false, all of
    the log is persisted, the application has received everything committed, and applying it moves the
    applied index to the commit index.
   */
  lemma TurnServes(rd: Reading, l: Log, applied: nat, term: nat, vote: nat, acts: seq<Act>, k: nat)
      returns (stored: Option<nat>, t: Loop, hs: seq<Handed>)
    requires Startable(l, applied) && k <= |acts| && rd.resetGuard && LoopRun(rd, l, applied, term, vote, acts, k).Next?
    requires var s := LoopRun(rd, l, applied, term, vote, acts, k).value.0;
             !s.node.outstanding && NodeOK(s.node) && s.node.log.first >= 1 && !Stops(rd, s, TakeReady(None))
    ensures var s := LoopRun(rd, l, applied, term, vote, acts, k).value.0;
            var turn := acts[..k] + [TakeReady(None), Store(s.node.maxNumber + 1), AdvanceAll(stored, 0, false, None), ReadyLoop.Apply(s.node.log.committed)];
            && LoopRun(rd, l, applied, term, vote, turn, k + 4) == Next((t, hs))
            && Served(t, Max(applied, l.first - 1), hs)
            && t.node.log.entries == s.node.log.entries && t.node.log.committed == s.node.log.committed
            && (t.node.commitSince > 0 ==> t.node.log.applied == t.node.commitSince == t.node.log.committed)
  {
    hide LoopRun, LoopInv, MayAct, DoAct, Served, Stops;
    var (s, before) := LoopRun(rd, l, applied, term, vote, acts, k).value;
    var start, c := Max(applied, l.first - 1), s.node.log.committed;
    var s1: Loop, s3: Loop, h1: seq<Handed>, h3: seq<Handed>;
    stored, s1, h1, s3, h3 := Turns(rd, s, start, before);
    var turn := acts[..k] + [TakeReady(None), Store(s.node.maxNumber + 1), AdvanceAll(stored, 0, false, None), ReadyLoop.Apply(c)];
    SameRun(rd, l, applied, term, vote, acts, turn, k);
    RunStep(rd, l, applied, term, vote, turn, k, s, before);
    RunStep(rd, l, applied, term, vote, turn, k + 1, s1, before + h1);
    assert before + h1 + [] == before + h1;
    RunStep(rd, l, applied, term, vote, turn, k + 2, s1.(stored := s1.node.maxNumber), before + h1);
    t, hs := AppliesLast(rd, l, applied, term, vote, turn, k + 3, s3, before + h1 + h3);
  }
}
