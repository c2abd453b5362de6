/** Handing committed entries and snapshots to the application, in `Ready`s. */
module Delivery {
  import opened Common
  import opened LogSpec

  /** What a `Ready` was asked to make durable: its last entry and its snapshot, each index and term. */
  datatype Record = Record(number: nat, lastEntry: Option<(nat, nat)>, snapshot: Option<(nat, nat)>)

  datatype Node = Node(log: Log, commitSince: nat, maxNumber: nat, records: seq<Record>, outstanding: bool)

  /** What the application receives: a committed entry, or a snapshot that stands for all before it. */
  datatype Handed = Deliver(e: Entry) | Jump(index: nat)

  ghost predicate NodeOK(n: Node) {
    Pointers(n.log)
  }

  function GenLight(n: Node, max: Option<nat>): Outcome<(Node, seq<Entry>)>
    requires n.log.first >= 1 && n.log.committed <= Last(n.log)
  {
    var es := NextEntries(n.log, n.commitSince, max);
    if es == [] then Next((n, es))
    else if n.commitSince >= es[|es| - 1].index then Panic
    else Next((n.(commitSince := es[|es| - 1].index), es))
  }

  function Delivered(es: seq<Entry>): (hs: seq<Handed>)
    ensures |hs| == |es| && forall i :: 0 <= i < |es| ==> hs[i] == Deliver(es[i])
  {
    seq(|es|, i requires 0 <= i < |es| => Deliver(es[i]))
  }

  function RecordOf(l: Log, number: nat): Record
    requires l.first >= 1 && (l.pending ==> l.base.Some?)
  {
    Record(number,
           if l.offset <= Last(l) && Term(l, Last(l)).Some? then Some((Last(l), Term(l, Last(l)).value)) else None,
           if l.pending then Some((l.first - 1, l.base.value)) else None)
  }

  /** The records a Ready leaves behind. */
  function Recorded(n: Node): seq<Record>
    requires n.log.first >= 1 && (n.log.pending ==> n.log.base.Some?)
  {
    n.records + [RecordOf(n.log, n.maxNumber + 1)]
  }

  predicate Bare(records: seq<Record>) {
    forall i :: 0 <= i < |records| ==> records[i].lastEntry == None && records[i].snapshot == None
  }

  /** The pending snapshot moves the cursor first. */
  function TakeSnapshot(n: Node): Outcome<(Node, seq<Handed>)>
    requires n.log.first >= 1
  {
    var index := n.log.first - 1;
    if !n.log.pending then Next((n, []))
    else if n.commitSince > index || HasNextEntries(n.log, index) then Panic
    else Next((n.(commitSince := index), [Jump(index)]))
  }

  /** A Ready before its light part. */
  function Opening(n: Node): Outcome<(Node, seq<Handed>)>
    requires NodeOK(n)
  {
    match TakeSnapshot(n)
    case Panic => Panic
    case Next((m, jump)) =>
      Next((m.(maxNumber := n.maxNumber + 1, outstanding := true, records := Recorded(n)), jump))
  }

  /** A new leader has no use for the records of its candidacy. */
  function Drained(n: Node, becameLeader: bool): Node {
    if becameLeader then n.(records := []) else n
  }

  function Ready(n: Node, becameLeader: bool, max: Option<nat>): Outcome<(Node, seq<Handed>)>
    requires NodeOK(n)
  {
    if becameLeader && !Bare(n.records) then Panic
    else
      match Opening(Drained(n, becameLeader))
      case Panic => Panic
      case Next((m, jump)) =>
        match GenLight(m, max)
        case Panic => Panic
        case Next((k, es)) => Next((k, jump + Delivered(es)))
  }

  lemma ReadyDrained(n: Node, becameLeader: bool, max: Option<nat>)
    requires NodeOK(n)
    ensures Ready(n, becameLeader, max) ==
            if becameLeader && !Bare(n.records) then Panic else Ready(Drained(n, becameLeader), false, max)
  {
    hide Opening, GenLight, Bare, Pointers;
  }

  /** `commit_ready`, once the application has stored the snapshot and the entries. */
  function CommitReady(n: Node): Outcome<Node>
    requires n.log.first >= 1
  {
    if n.records == [] || n.records[|n.records| - 1].number != n.maxNumber then Panic
    else
      match Stabilized(n.log, n.records[|n.records| - 1])
      case Panic => Panic
      case Next(l) => Next(n.(log := l, outstanding := false))
  }

  /** What a record asked for is in the store now. */
  function Stabilized(l: Log, r: Record): Outcome<Log>
    requires l.first >= 1
  {
    match (if r.snapshot.Some? then StableSnap(l, r.snapshot.value.0) else Next(l))
    case Panic => Panic
    case Next(k) => if r.lastEntry.Some? then StableEntries(k, r.lastEntry.value.0, r.lastEntry.value.1) else Next(k)
  }

  /** How many records at the front have a number up to `number`. */
  function Upto(records: seq<Record>, number: nat): (k: nat)
    ensures k <= |records|
  {
    if records == [] || records[0].number > number then 0 else 1 + Upto(records[1..], number)
  }

  /** The last snapshot index among records, 0 if there is none. */
  function LastSnap(records: seq<Record>): nat
    decreases |records|
  {
    if records == [] then 0
    else if records[|records| - 1].snapshot.Some? then records[|records| - 1].snapshot.value.0
    else LastSnap(records[..|records| - 1])
  }

  /** The last entry recorded after the last snapshot, index and term 0 if there is none. */
  function LastSaved(records: seq<Record>): (nat, nat)
    decreases |records|
  {
    if records == [] then (0, 0)
    else
      var r := records[|records| - 1];
      if r.lastEntry.Some? then r.lastEntry.value
      else if r.snapshot.Some? then (0, 0)
      else LastSaved(records[..|records| - 1])
  }

  /** `stored` is the term the store has for the last index of the popped records. */
  function OnPersistReady(n: Node, number: nat, stored: Option<nat>): Outcome<Node>
    requires n.log.first >= 1
  {
    var k := Upto(n.records, number);
    var popped := n.records[..k];
    match Persisted(n.log, LastSnap(popped), LastSaved(popped), stored)
    case Panic => Panic
    case Next(l) => Next(n.(records := n.records[k..], log := l))
  }

  /** The snapshot, if any, and then the last entry, if any, count as persisted. */
  function Persisted(l: Log, snap: nat, saved: (nat, nat), stored: Option<nat>): Outcome<Log>
    requires l.first >= 1
  {
    match (if snap != 0 then MaybePersistSnap(l, snap) else Next(l))
    case Panic => Panic
    case Next(k) => Next(if saved.0 != 0 then MaybePersist(k, saved.0, stored, saved.1) else k)
  }

  const ANY: Reading := Reading(true, true)

  /** One more step of the log in a run. */
  lemma LogStep(l: Log, op: LogOp)
    requires Pointers(l) && Step(ANY, l, op).Next?
    ensures Pointers(Step(ANY, l, op).value) && Preserves(l, Step(ANY, l, op).value) && Step(ANY, l, op).value.first >= 1
  {
    StepKeeps(ANY, l, op);
  }

  lemma CommitReadyStays(n: Node)
    requires NodeOK(n) && CommitReady(n).Next?
    ensures NodeOK(CommitReady(n).value) && Preserves(n.log, CommitReady(n).value.log)
  {
    hide Pointers, Preserves, StableSnap, StableEntries;
    var r := n.records[|n.records| - 1];
    PointersParts(n.log);
    PreservesSame(n.log);
    var l := n.log;
    if r.snapshot.Some? {
      LogStep(l, StableSnapOp(r.snapshot.value.0));
      l := StableSnap(l, r.snapshot.value.0).value;
    }
    if r.lastEntry.Some? {
      LogStep(l, StableEntriesOp(r.lastEntry.value.0, r.lastEntry.value.1));
      PreservesTrans(n.log, l, CommitReady(n).value.log);
    }
  }

  lemma OnPersistReadyStays(n: Node, number: nat, stored: Option<nat>)
    requires NodeOK(n) && OnPersistReady(n, number, stored).Next?
    ensures NodeOK(OnPersistReady(n, number, stored).value)
    ensures Preserves(n.log, OnPersistReady(n, number, stored).value.log)
  {
    hide Pointers, Preserves, MaybePersist, MaybePersistSnap, Upto, LastSnap, LastSaved;
    var popped := n.records[..Upto(n.records, number)];
    PointersParts(n.log);
    PreservesSame(n.log);
    var l := n.log;
    if LastSnap(popped) != 0 {
      LogStep(l, MaybePersistSnapOp(LastSnap(popped)));
      l := MaybePersistSnap(l, LastSnap(popped)).value;
    }
    var (index, term) := LastSaved(popped);
    if index != 0 {
      LogStep(l, MaybePersistOp(index, stored, term));
      PreservesTrans(n.log, l, MaybePersist(l, index, stored, term));
    }
  }

  lemma AppendedStays(n: Node, stored: Option<nat>)
    requires NodeOK(n) && CommitReady(n).Next? && OnPersistReady(CommitReady(n).value, n.maxNumber, stored).Next?
    ensures NodeOK(OnPersistReady(CommitReady(n).value, n.maxNumber, stored).value)
    ensures Preserves(n.log, OnPersistReady(CommitReady(n).value, n.maxNumber, stored).value.log)
  {
    hide Pointers, Preserves, CommitReady, OnPersistReady;
    PointersParts(n.log);
    CommitReadyStays(n);
    var c := CommitReady(n).value;
    PointersParts(c.log);
    OnPersistReadyStays(c, n.maxNumber, stored);
    PreservesTrans(n.log, c.log, OnPersistReady(c, n.maxNumber, stored).value.log);
  }

  function AdvanceAppend(n: Node, stored: Option<nat>, max: Option<nat>): Outcome<(Node, seq<Handed>)>
    requires NodeOK(n)
  {
    match CommitReady(n)
    case Panic => Panic
    case Next(c) =>
      CommitReadyStays(n);
      match OnPersistReady(c, n.maxNumber, stored)
      case Panic => Panic
      case Next(p) =>
        AppendedStays(n, stored);
        match GenLight(p, max)
        case Panic => Panic
        case Next((m, es)) => Next((m, Delivered(es)))
  }

  function AdvanceApply(n: Node, applied: nat): Outcome<Node> {
    match AppliedTo(n.log, applied)
    case Panic => Panic
    case Next(l) => Next(n.(log := l))
  }

  /** `advance`: what was handed out before counts as applied afterwards. */
  function Advance(n: Node, stored: Option<nat>, max: Option<nat>): Outcome<(Node, seq<Handed>)>
    requires NodeOK(n)
  {
    match AdvanceAppend(n, stored, max)
    case Panic => Panic
    case Next((m, hs)) =>
      match AdvanceApply(m, n.commitSince)
      case Panic => Panic
      case Next(k) => Next((k, hs))
  }

  // ------------------------------------------------------------------ runs

  datatype Event =
    | RaftEvent(op: LogOp)
    | CompactEvent(idx: nat)
    | ReadyEvent(becameLeader: bool, max: Option<nat>)
    | AdvanceEvent(stored: Option<nat>, max: Option<nat>)
    | AdvanceAppendEvent(stored: Option<nat>, max: Option<nat>)
    | AdvanceAppendAsyncEvent
    | PersistEvent(number: nat, stored: Option<nat>)
    | ApplyEvent(applied: nat)

  /**
    What the application and the raft layer keep to. That a new leader is left with records that name
    nothing follows from the order of campaign, Ready and persistence, in `ReadyLoop`.
   */
  ghost predicate Allowed(n: Node, e: Event)
    requires n.log.first >= 1
  {
    match e
    case RaftEvent(op) =>
      && Enabled(n.log, op)
      // between a Ready and its advance the log may only be committed further
      && (op.CommitToOp? || op.MaybeCommitOp? || (!n.outstanding && (op.MaybeAppendOp? || op.ProposeOp? || op.RestoreOp?)))
    case CompactEvent(idx) => Enabled(n.log, CompactOp(idx))
    case ReadyEvent(becameLeader, _) => !n.outstanding && (becameLeader ==> Bare(n.records))
    case AdvanceEvent(_, _) => n.outstanding
    case AdvanceAppendEvent(_, _) => n.outstanding
    case AdvanceAppendAsyncEvent => n.outstanding
    case PersistEvent(number, _) => n.outstanding ==> number < n.maxNumber
    case ApplyEvent(applied) => n.log.applied <= applied <= Min(n.commitSince, Min(n.log.committed, n.log.persisted))
  }

  function OnLog(n: Node, r: Outcome<Log>): Outcome<(Node, seq<Handed>)> {
    match r case Panic => Panic case Next(l) => Next((n.(log := l), []))
  }

  function Quiet(r: Outcome<Node>): Outcome<(Node, seq<Handed>)> {
    match r case Panic => Panic case Next(n) => Next((n, []))
  }

  ghost function Handle(rd: Reading, n: Node, e: Event): Outcome<(Node, seq<Handed>)>
    requires NodeOK(n)
  {
    match e
    case RaftEvent(op) => OnLog(n, Step(rd, n.log, op))
    case CompactEvent(idx) => OnLog(n, Step(rd, n.log, CompactOp(idx)))
    case ReadyEvent(becameLeader, max) => Ready(n, becameLeader, max)
    case AdvanceEvent(stored, max) => Advance(n, stored, max)
    case AdvanceAppendEvent(stored, max) => AdvanceAppend(n, stored, max)
    case AdvanceAppendAsyncEvent => Quiet(CommitReady(n))
    case PersistEvent(number, stored) => Quiet(OnPersistReady(n, number, stored))
    case ApplyEvent(applied) => Quiet(AdvanceApply(n, applied))
  }

  // -------------------------------------------------------------- invariant

  function IndexOf(h: Handed): nat {
    match h case Deliver(e) => e.index case Jump(index) => index
  }

  /** How far the application has been brought. */
  function Position(start: nat, hs: seq<Handed>): nat {
    if hs == [] then start else IndexOf(hs[|hs| - 1])
  }

  /** Each entry follows right after what came before it; only a snapshot may jump, and only forward. */
  ghost predicate InOrder(start: nat, hs: seq<Handed>) {
    forall i :: 0 <= i < |hs| ==> InOrderAt(start, hs, i)
  }

  predicate InOrderAt(start: nat, hs: seq<Handed>, i: nat) {
    i < |hs| && Follows(if i == 0 then start else IndexOf(hs[i - 1]), hs[i])
  }

  predicate Follows(position: nat, h: Handed) {
    match h case Deliver(e) => e.index == position + 1 case Jump(index) => position <= index
  }

  /** What was delivered is what the log holds as committed. */
  ghost predicate Committed(l: Log, hs: seq<Handed>) {
    forall i :: 0 <= i < |hs| && hs[i].Deliver? ==> IsCommitted(l, hs[i].e)
  }

  ghost predicate IsCommitted(l: Log, e: Entry) {
    && e.index <= l.committed
    && (l.first >= 1 && l.first <= e.index <= Last(l) ==> At(l, e.index) == e)
  }

  ghost predicate RecordsOK(n: Node) {
    forall i :: 0 <= i < |n.records| ==>
      n.records[i].number <= n.maxNumber
      && (n.records[i].snapshot.Some? ==> n.records[i].snapshot.value.0 <= n.log.committed && n.records[i].snapshot.value.0 < n.log.offset)
  }

  /** Where the cursor stands relative to the log. */
  predicate CursorOK(n: Node, position: nat)
    requires n.log.first >= 1
  {
    && n.commitSince <= position <= n.log.committed && n.log.applied <= position
    && (!n.log.pending ==> position == Max(n.commitSince, n.log.first - 1))
    && (n.log.pending ==> position <= n.log.first - 1)
    && (!n.log.pending ==> n.commitSince == 0 || n.commitSince == position)
    && (n.log.pending && n.outstanding ==> n.commitSince == n.log.first - 1)
    && n.commitSince <= Max(Min(n.log.committed, n.log.persisted), LastSnap(n.records))
  }

  predicate OutstandingOK(n: Node)
    requires n.log.first >= 1
  {
    n.outstanding ==>
      n.records != [] && (n.log.pending ==> n.log.base.Some?)
      && n.records[|n.records| - 1] == RecordOf(n.log, n.maxNumber)
  }

  ghost predicate Inv(n: Node, start: nat, hs: seq<Handed>) {
    && NodeOK(n) && n.log.first >= 1
    && InOrder(start, hs) && Committed(n.log, hs)
    && RecordsOK(n) && CursorOK(n, Position(start, hs)) && OutstandingOK(n)
  }

  lemma CommittedStays(l: Log, m: Log, hs: seq<Handed>)
    requires Pointers(l) && Pointers(m) && Preserves(l, m) && Committed(l, hs)
    ensures Committed(m, hs)
  {
    forall i | 0 <= i < |hs| && hs[i].Deliver? ensures IsCommitted(m, hs[i].e) {
      var e := hs[i].e;
      assert IsCommitted(l, e);
      if m.first <= e.index <= Last(m) {
        assert At(m, e.index) == At(l, e.index);
      }
    }
  }

  /** What the raft layer's steps other than a restore do to the shape of the log. */
  predicate Grown(l: Log, m: Log) {
    && m.first == l.first && m.pending == l.pending && m.base == l.base && m.applied == l.applied
    && l.committed <= m.committed && Min(l.committed, l.persisted) <= Min(m.committed, m.persisted)
    && Min(l.offset, l.committed + 1) <= m.offset
  }

  lemma AppendGrows(rd: Reading, l: Log, op: LogOp)
    requires Pointers(l) && op.MaybeAppendOp? && Enabled(l, op) && Step(rd, l, op).Next?
    ensures Grown(l, Step(rd, l, op).value)
  {
    hide FindConflict;
    ConflictIndex(rd.findConflict, l, op.ents, op.idx + 1);
  }

  lemma RaftGrows(rd: Reading, l: Log, op: LogOp)
    requires Pointers(l) && Enabled(l, op) && Step(rd, l, op).Next?
    requires op.MaybeAppendOp? || op.ProposeOp? || op.CommitToOp? || op.MaybeCommitOp?
    ensures Grown(l, Step(rd, l, op).value)
    ensures op.CommitToOp? || op.MaybeCommitOp? ==>
              Step(rd, l, op).value == l.(committed := Step(rd, l, op).value.committed)
  {
    hide MaybeAppend;
    if op.MaybeAppendOp? {
      AppendGrows(rd, l, op);
    }
  }

  lemma GrownCursor(n: Node, m: Log, position: nat)
    requires n.log.first >= 1 && CursorOK(n, position) && RecordsOK(n) && Grown(n.log, m)
    ensures CursorOK(n.(log := m), position) && RecordsOK(n.(log := m))
  {
  }

  lemma RaftKeeps(rd: Reading, n: Node, op: LogOp, start: nat, hs: seq<Handed>)
    requires Inv(n, start, hs) && Allowed(n, RaftEvent(op)) && Step(rd, n.log, op).Next?
    ensures Inv(n.(log := Step(rd, n.log, op).value), start, hs)
  {
    var m := Step(rd, n.log, op).value;
    StepKeeps(rd, n.log, op);
    CommittedStays(n.log, m, hs);
    hide InOrder, Committed, Pointers, Preserves;
    PointersParts(n.log);
    if op.RestoreOp? {
      RestoredCursor(n, op.idx, op.term, Position(start, hs));
    } else {
      RaftGrows(rd, n.log, op) by { PointersParts(n.log); }
      GrownCursor(n, m, Position(start, hs));
    }
  }

  lemma RestoredCursor(n: Node, idx: nat, term: nat, position: nat)
    requires NodeOK(n) && CursorOK(n, position) && RecordsOK(n) && !n.outstanding && Restore(n.log, idx, term).Next?
    ensures var m := n.(log := Restore(n.log, idx, term).value); CursorOK(m, position) && RecordsOK(m)
  {
  }

  lemma CompactKeepsInv(n: Node, idx: nat, start: nat, hs: seq<Handed>)
    requires Inv(n, start, hs) && Allowed(n, CompactEvent(idx))
    ensures Inv(n.(log := Compact(n.log, idx)), start, hs)
  {
    CompactKeeps(n.log, idx);
    CommittedStays(n.log, Compact(n.log, idx), hs);
    hide InOrder, Committed, Preserves;
  }

  // ------------------------------------------------- handing out entries

  lemma Handing(start: nat, hs: seq<Handed>, h: Handed)
    requires InOrder(start, hs) && Follows(Position(start, hs), h)
    ensures InOrder(start, hs + [h]) && Position(start, hs + [h]) == IndexOf(h)
  {
    forall i | 0 <= i < |hs + [h]| ensures InOrderAt(start, hs + [h], i) {
      assert i < |hs| ==> InOrderAt(start, hs, i);
    }
  }

  lemma {:induction false} HandingRun(start: nat, hs: seq<Handed>, es: seq<Entry>)
    requires InOrder(start, hs) && Continuous(es, Position(start, hs) + 1)
    ensures InOrder(start, hs + Delivered(es)) && Position(start, hs + Delivered(es)) == Position(start, hs) + |es|
    decreases |es|
  {
    if es == [] {
      assert hs + Delivered(es) == hs;
    } else {
      var init, last := es[..|es| - 1], es[|es| - 1];
      assert Continuous(init, Position(start, hs) + 1);
      HandingRun(start, hs, init);
      hide InOrder;
      Handing(start, hs + Delivered(init), Deliver(last));
      assert hs + Delivered(es) == hs + Delivered(init) + [Deliver(last)];
    }
  }

  /** The next entries start right after the cursor and are the log's own. */
  lemma NextEntriesAre(l: Log, since: nat, max: Option<nat>)
    requires Pointers(l)
    ensures var es := NextEntries(l, since, max);
            && Continuous(es, Max(since + 1, l.first)) && (HasNextEntries(l, since) <==> es != [])
            && (forall i :: 0 <= i < |es| ==> l.first <= es[i].index <= Min(l.committed, l.persisted) && At(l, es[i].index) == es[i])
  {
    if HasNextEntries(l, since) {
      var lo := Max(since + 1, l.first) - l.first;
      var range := l.entries[lo..Min(l.committed, l.persisted) + 1 - l.first];
      LimitedPrefix(range, max);
      hide Limited;
      var es := Limited(range, max);
      forall i | 0 <= i < |es| ensures es[i] == l.entries[lo + i] {
        assert es[i] == range[i];
      }
    }
  }

  lemma CommittedAlso(l: Log, hs: seq<Handed>, es: seq<Entry>)
    requires l.first >= 1 && Committed(l, hs)
    requires forall i :: 0 <= i < |es| ==> l.first <= es[i].index <= l.committed && es[i].index <= Last(l) && At(l, es[i].index) == es[i]
    ensures Committed(l, hs + Delivered(es))
  {
    var all := hs + Delivered(es);
    forall i | 0 <= i < |all| && all[i].Deliver? ensures IsCommitted(l, all[i].e) {
      if i >= |hs| {
        assert all[i] == Deliver(es[i - |hs|]);
      }
    }
  }

  /** Entries to hand out start right after the position, and leave the cursor at the new one. */
  lemma NextAfterCursor(n: Node, es: seq<Entry>, position: nat)
    requires NodeOK(n) && n.log.first >= 1 && CursorOK(n, position) && (n.log.pending ==> n.commitSince == n.log.first - 1)
    requires es != [] && HasNextEntries(n.log, n.commitSince) && Continuous(es, Max(n.commitSince + 1, n.log.first))
    requires es[|es| - 1].index <= Min(n.log.committed, n.log.persisted)
    ensures Continuous(es, position + 1) && es[|es| - 1].index == position + |es| > n.commitSince
    ensures CursorOK(n.(commitSince := position + |es|), position + |es|)
  {
    assert !n.log.pending;
    hide LastSnap, WellFormed;
  }

  /** With a pending snapshot already taken, or none: the light part never trips and keeps the order. */
  lemma GenLightKeeps(n: Node, max: Option<nat>, start: nat, hs: seq<Handed>)
    requires NodeOK(n) && InOrder(start, hs) && Committed(n.log, hs) && n.log.first >= 1
    requires CursorOK(n, Position(start, hs)) && (n.log.pending ==> n.commitSince == n.log.first - 1)
    ensures GenLight(n, max).Next?
    ensures var (m, es) := GenLight(n, max).value;
            && InOrder(start, hs + Delivered(es)) && Committed(n.log, hs + Delivered(es))
            && m == n.(commitSince := m.commitSince) && CursorOK(m, Position(start, hs + Delivered(es)))
            && (n.log.pending ==> m.commitSince == n.log.first - 1)
  {
    hide Limited, NextEntries, InOrder, Committed;
    NextEntriesAre(n.log, n.commitSince, max);
    var es := NextEntries(n.log, n.commitSince, max);
    if es == [] {
      assert hs + Delivered(es) == hs;
    } else {
      assert !n.log.pending;
      NextAfterCursor(n, es, Position(start, hs));
      CommittedAlso(n.log, hs, es);
      HandingRun(start, hs, es);
      LightMoves(n, max);
      hide *;
    }
  }

  lemma LightMoves(n: Node, max: Option<nat>)
    requires n.log.first >= 1 && n.log.committed <= Last(n.log)
    ensures var es := NextEntries(n.log, n.commitSince, max);
            es != [] && es[|es| - 1].index > n.commitSince ==>
              GenLight(n, max) == Next((n.(commitSince := es[|es| - 1].index), es))
  {
    hide NextEntries;
  }

  lemma {:induction false} BareSnap(records: seq<Record>)
    requires Bare(records)
    ensures LastSnap(records) == 0
    decreases |records|
  {
    if records != [] {
      BareSnap(records[..|records| - 1]);
    }
  }

  lemma SnapOfLast(records: seq<Record>, r: Record)
    ensures LastSnap(records + [r]) == if r.snapshot.Some? then r.snapshot.value.0 else LastSnap(records)
  {
    assert (records + [r])[..|records|] == records;
  }

  lemma TakeSnapshotKeeps(n: Node, start: nat, hs: seq<Handed>)
    requires Inv(n, start, hs) && !n.outstanding
    ensures TakeSnapshot(n).Next?
    ensures var (m, jump) := TakeSnapshot(n).value;
            && InOrder(start, hs + jump) && Committed(n.log, hs + jump)
            && m == n.(commitSince := m.commitSince)
            && m.commitSince <= Position(start, hs + jump) <= n.log.committed && n.log.applied <= Position(start, hs + jump)
            && (n.log.pending ==> m.commitSince == n.log.first - 1 == Position(start, hs + jump))
            && (!n.log.pending ==> m == n && jump == [])
  {
    if n.log.pending {
      Handing(start, hs, Jump(n.log.first - 1));
      CommittedJump(n.log, hs, n.log.first - 1);
    } else {
      assert hs + [] == hs;
    }
  }

  lemma CommittedJump(l: Log, hs: seq<Handed>, index: nat)
    requires Committed(l, hs)
    ensures Committed(l, hs + [Jump(index)])
  {
  }

  lemma RecordedKeeps(n: Node)
    requires NodeOK(n) && RecordsOK(n) && n.log.first >= 1
    ensures RecordsOK(n.(maxNumber := n.maxNumber + 1, records := Recorded(n)))
    ensures LastSnap(Recorded(n)) == if n.log.pending then n.log.first - 1 else LastSnap(n.records)
  {
    SnapOfLast(n.records, RecordOf(n.log, n.maxNumber + 1));
  }

  lemma DrainedKeeps(n: Node, becameLeader: bool, start: nat, hs: seq<Handed>)
    requires Inv(n, start, hs) && !n.outstanding && (becameLeader ==> Bare(n.records))
    ensures Inv(Drained(n, becameLeader), start, hs)
  {
    hide InOrder, Committed, WellFormed;
    if becameLeader {
      BareSnap(n.records);
    }
  }

  lemma OpeningKeeps(n: Node, start: nat, hs: seq<Handed>)
    requires Inv(n, start, hs) && !n.outstanding
    ensures Opening(n).Next?
    ensures var (k, jump) := Opening(n).value;
            && Inv(k, start, hs + jump) && k.log == n.log && k.outstanding
  {
    TakeSnapshotKeeps(n, start, hs);
    RecordedKeeps(n);
    var (m, jump) := TakeSnapshot(n).value;
    var k := Opening(n).value.0;
    RecordsSame(n.(maxNumber := n.maxNumber + 1, records := Recorded(n)), k);
    OpenedCursor(n, k, Position(start, hs), Position(start, hs + jump));
    assert OutstandingOK(k);
    hide InOrder, Committed, LastSnap, WellFormed, CursorOK, RecordsOK, OutstandingOK;
  }

  lemma OpenedCursor(n: Node, k: Node, position: nat, position': nat)
    requires NodeOK(n) && n.log.first >= 1 && CursorOK(n, position) && k.log == n.log
    requires k.records == Recorded(n)
    requires LastSnap(Recorded(n)) == if n.log.pending then n.log.first - 1 else LastSnap(n.records)
    requires k.commitSince <= position' <= n.log.committed && n.log.applied <= position'
    requires if n.log.pending then k.commitSince == n.log.first - 1 == position'
             else k.commitSince == n.commitSince && position' == position
    ensures CursorOK(k, position')
  {
    hide LastSnap, Recorded, WellFormed;
  }

  lemma LightKeeps(k: Node, max: Option<nat>, start: nat, hs: seq<Handed>)
    requires Inv(k, start, hs) && (k.log.pending ==> k.commitSince == k.log.first - 1)
    ensures GenLight(k, max).Next?
    ensures var (m, es) := GenLight(k, max).value; Inv(m, start, hs + Delivered(es))
  {
    GenLightKeeps(k, max, start, hs);
    hide InOrder, Committed, LastSnap, WellFormed, GenLight;
    RecordsSame(k, GenLight(k, max).value.0);
  }

  lemma ReadyKeeps(n: Node, becameLeader: bool, max: Option<nat>, start: nat, hs: seq<Handed>)
    requires Inv(n, start, hs) && !n.outstanding && (becameLeader ==> Bare(n.records))
    ensures Ready(n, becameLeader, max).Next?
    ensures var (m, more) := Ready(n, becameLeader, max).value; Inv(m, start, hs + more)
  {
    DrainedKeeps(n, becameLeader, start, hs);
    OpeningKeeps(Drained(n, becameLeader), start, hs);
    hide Inv, GenLight, Opening, WellFormed, Position;
    var began := Opening(Drained(n, becameLeader)).value;
    LightAfterOpening(began.0, max, start, hs, began.1);
  }

  lemma LightAfterOpening(k: Node, max: Option<nat>, start: nat, hs: seq<Handed>, jump: seq<Handed>)
    requires Inv(k, start, hs + jump) && k.outstanding
    ensures k.log.first >= 1 && k.log.committed <= Last(k.log) && GenLight(k, max).Next?
    ensures var (m, es) := GenLight(k, max).value; Inv(m, start, hs + (jump + Delivered(es)))
  {
    OutstandingCursor(k, start, hs + jump);
    hide Inv, GenLight, Position, Last;
    LightKeeps(k, max, start, hs + jump);
    var es := GenLight(k, max).value.1;
    assert hs + jump + Delivered(es) == hs + (jump + Delivered(es));
  }

  lemma OutstandingCursor(k: Node, start: nat, hs: seq<Handed>)
    requires Inv(k, start, hs) && k.outstanding
    ensures k.log.first >= 1 && k.log.committed <= Last(k.log) && (k.log.pending ==> k.commitSince == k.log.first - 1)
  {
  }

  lemma RecordsSame(n: Node, m: Node)
    requires RecordsOK(n) && m == n.(commitSince := m.commitSince, outstanding := m.outstanding)
    ensures RecordsOK(m)
  {
  }

  // ------------------------------------------------------- acknowledging

  lemma CommitReadyIs(n: Node)
    requires NodeOK(n) && n.log.first >= 1 && OutstandingOK(n) && n.outstanding
    ensures CommitReady(n) ==
            Next(n.(log := n.log.(pending := false, offset := if n.log.offset <= Last(n.log) then Last(n.log) + 1 else n.log.offset),
                    outstanding := false))
  {
  }

  lemma CommitReadyKeeps(n: Node, start: nat, hs: seq<Handed>)
    requires Inv(n, start, hs) && n.outstanding
    ensures CommitReady(n).Next?
    ensures var m := CommitReady(n).value;
            && Inv(m, start, hs) && !m.log.pending && m.commitSince == n.commitSince
            && (m.commitSince == 0 || m.log.applied <= m.commitSince)
  {
    CommitReadyIs(n);
    CommitReadyStays(n);
    var m := CommitReady(n).value;
    CommittedStays(n.log, m.log, hs);
    hide InOrder, Committed, Preserves, CommitReady;
  }

  lemma {:induction false} SnapBound(n: Node, k: nat)
    requires RecordsOK(n) && k <= |n.records|
    ensures LastSnap(n.records[..k]) == 0 || (LastSnap(n.records[..k]) <= n.log.committed && LastSnap(n.records[..k]) < n.log.offset)
  {
    if k > 0 {
      assert n.records[..k][..k - 1] == n.records[..k - 1];
      SnapBound(n, k - 1);
    }
  }

  lemma {:induction false} SnapSplit(a: seq<Record>, b: seq<Record>)
    ensures LastSnap(a + b) <= Max(LastSnap(a), LastSnap(b))
    decreases |b|
  {
    if b == [] {
      assert a + b == a;
    } else {
      assert (a + b)[..|a + b| - 1] == a + b[..|b| - 1];
      SnapSplit(a, b[..|b| - 1]);
    }
  }

  lemma {:induction false} UptoStops(records: seq<Record>, number: nat)
    ensures records != [] && records[|records| - 1].number > number ==> Upto(records, number) < |records|
    ensures (forall i :: 0 <= i < |records| ==> records[i].number <= number) ==> Upto(records, number) == |records|
    decreases |records|
  {
    if records != [] && records[0].number <= number {
      UptoStops(records[1..], number);
    }
  }

  lemma OnPersistReadyIs(n: Node, number: nat, stored: Option<nat>)
    requires NodeOK(n) && n.log.first >= 1 && RecordsOK(n)
    ensures OnPersistReady(n, number, stored).Next?
    ensures var m := OnPersistReady(n, number, stored).value;
            && m == n.(log := n.log.(persisted := m.log.persisted), records := n.records[Upto(n.records, number)..])
            && m.log.persisted >= n.log.persisted && m.log.persisted >= LastSnap(n.records[..Upto(n.records, number)])
  {
    SnapBound(n, Upto(n.records, number));
    hide LastSnap, Upto, LastSaved, WellFormed;
  }

  lemma PersistKeeps(n: Node, number: nat, stored: Option<nat>, start: nat, hs: seq<Handed>)
    requires Inv(n, start, hs) && (n.outstanding ==> number < n.maxNumber)
    ensures OnPersistReady(n, number, stored).Next?
    ensures var m := OnPersistReady(n, number, stored).value;
            && Inv(m, start, hs) && m.commitSince == n.commitSince && m.log.pending == n.log.pending
            && m.log.applied == n.log.applied
            && (number == n.maxNumber ==> m.commitSince <= Min(m.log.committed, m.log.persisted))
  {
    OnPersistReadyIs(n, number, stored);
    OnPersistReadyStays(n, number, stored);
    var m := OnPersistReady(n, number, stored).value;
    CommittedStays(n.log, m.log, hs);
    PoppedKeeps(n, m, number, Position(start, hs));
    hide InOrder, Committed, Preserves, OnPersistReady, LastSnap, WellFormed, RecordsOK, CursorOK;
  }

  lemma PoppedKeeps(n: Node, m: Node, number: nat, position: nat)
    requires NodeOK(n) && RecordsOK(n) && n.log.first >= 1 && CursorOK(n, position) && OutstandingOK(n)
    requires n.outstanding ==> number < n.maxNumber
    requires m == n.(log := n.log.(persisted := m.log.persisted), records := n.records[Upto(n.records, number)..])
    requires m.log.persisted >= n.log.persisted && m.log.persisted >= LastSnap(n.records[..Upto(n.records, number)])
    ensures RecordsOK(m) && CursorOK(m, position) && OutstandingOK(m)
    ensures number == n.maxNumber ==> m.commitSince <= Min(m.log.committed, m.log.persisted)
  {
    PoppedCursor(n, m, Upto(n.records, number), position);
    PoppedRecords(n, m, Upto(n.records, number));
    PoppedOutstanding(n, m, number);
    hide LastSnap, Upto, RecordOf, WellFormed, CursorOK, RecordsOK, OutstandingOK;
    if number == n.maxNumber {
      CursorBound(m, position);
    }
  }

  lemma PoppedRecords(n: Node, m: Node, k: nat)
    requires RecordsOK(n) && k <= |n.records|
    requires m == n.(log := n.log.(persisted := m.log.persisted), records := n.records[k..])
    ensures RecordsOK(m)
  {
  }

  lemma PoppedOutstanding(n: Node, m: Node, number: nat)
    requires NodeOK(n) && RecordsOK(n) && n.log.first >= 1 && OutstandingOK(n)
    requires n.outstanding ==> number < n.maxNumber
    requires m == n.(log := n.log.(persisted := m.log.persisted), records := n.records[Upto(n.records, number)..])
    ensures OutstandingOK(m) && (number == n.maxNumber ==> m.records == [])
  {
    UptoStops(n.records, number);
    hide Upto, WellFormed;
  }

  lemma CursorBound(m: Node, position: nat)
    requires m.log.first >= 1 && CursorOK(m, position) && m.records == []
    ensures m.commitSince <= Min(m.log.committed, m.log.persisted)
  {
    EmptySnap();
  }

  lemma PoppedCursor(n: Node, m: Node, k: nat, position: nat)
    requires RecordsOK(n) && n.log.first >= 1 && CursorOK(n, position) && k <= |n.records|
    requires m == n.(log := n.log.(persisted := m.log.persisted), records := n.records[k..])
    requires m.log.persisted >= n.log.persisted && m.log.persisted >= LastSnap(n.records[..k])
    ensures CursorOK(m, position)
  {
    SnapBound(n, k);
    assert n.records == n.records[..k] + n.records[k..];
    SnapSplit(n.records[..k], n.records[k..]);
    hide LastSnap, RecordsOK;
  }

  lemma EmptySnap()
    ensures LastSnap([]) == 0
  {
  }

  lemma ApplyKeeps(n: Node, applied: nat, start: nat, hs: seq<Handed>)
    requires Inv(n, start, hs) && applied <= Min(n.commitSince, Min(n.log.committed, n.log.persisted))
    requires applied == 0 || n.log.applied <= applied
    ensures AdvanceApply(n, applied).Next? && Inv(AdvanceApply(n, applied).value, start, hs)
  {
    var m := n.log.(applied := if applied == 0 then n.log.applied else applied);
    CommittedStays(n.log, m, hs);
    hide InOrder, Committed, LastSnap;
  }

  lemma AdvanceAppendKeeps(n: Node, stored: Option<nat>, max: Option<nat>, start: nat, hs: seq<Handed>)
    requires Inv(n, start, hs) && n.outstanding
    ensures AdvanceAppend(n, stored, max).Next?
    ensures var (m, more) := AdvanceAppend(n, stored, max).value;
            Inv(m, start, hs + more) && n.commitSince <= Min(m.log.committed, m.log.persisted)
            && n.commitSince <= m.commitSince && (n.commitSince == 0 || m.log.applied <= n.commitSince)
  {
    CommitReadyKeeps(n, start, hs);
    var c := CommitReady(n).value;
    PersistKeeps(c, n.maxNumber, stored, start, hs);
    var p := OnPersistReady(c, n.maxNumber, stored).value;
    assert p.log.first >= 1 && p.log.committed <= Last(p.log);
    hide Inv, CommitReady, OnPersistReady, WellFormed;
    LightKeeps(p, max, start, hs);
    LightGrows(p, max);
  }

  lemma LightGrows(n: Node, max: Option<nat>)
    requires n.log.first >= 1 && n.log.committed <= Last(n.log) && GenLight(n, max).Next?
    ensures GenLight(n, max).value.0 == n.(commitSince := GenLight(n, max).value.0.commitSince)
    ensures n.commitSince <= GenLight(n, max).value.0.commitSince
  {
  }

  lemma AdvanceKeeps(n: Node, stored: Option<nat>, max: Option<nat>, start: nat, hs: seq<Handed>)
    requires Inv(n, start, hs) && n.outstanding
    ensures Advance(n, stored, max).Next?
    ensures var (m, more) := Advance(n, stored, max).value; Inv(m, start, hs + more)
  {
    AdvanceAppendKeeps(n, stored, max, start, hs);
    hide Inv, AdvanceAppend, AdvanceApply;
    var (m, more) := AdvanceAppend(n, stored, max).value;
    ApplyKeeps(m, n.commitSince, start, hs + more);
  }

  lemma EventKeeps(rd: Reading, n: Node, e: Event, start: nat, hs: seq<Handed>)
    requires Inv(n, start, hs) && Allowed(n, e)
    ensures Handle(rd, n, e).Panic? ==> e.RaftEvent?
    ensures Handle(rd, n, e).Next? ==> Inv(Handle(rd, n, e).value.0, start, hs + Handle(rd, n, e).value.1)
  {
    assert hs + [] == hs;
    hide Inv, Ready, Advance, AdvanceAppend, CommitReady, OnPersistReady, AdvanceApply, Step, Compact;
    match e
    case RaftEvent(op) =>
      if Step(rd, n.log, op).Next? {
        RaftKeeps(rd, n, op, start, hs);
      }
    case CompactEvent(idx) =>
      CompactStep(rd, n.log, idx);
      CompactKeepsInv(n, idx, start, hs);
    case ReadyEvent(becameLeader, max) => ReadyKeeps(n, becameLeader, max, start, hs);
    case AdvanceEvent(stored, max) => AdvanceKeeps(n, stored, max, start, hs);
    case AdvanceAppendEvent(stored, max) => AdvanceAppendKeeps(n, stored, max, start, hs);
    case AdvanceAppendAsyncEvent => CommitReadyKeeps(n, start, hs);
    case PersistEvent(number, stored) => PersistKeeps(n, number, stored, start, hs);
    case ApplyEvent(applied) => ApplyKeeps(n, applied, start, hs);
  }

  lemma CompactStep(rd: Reading, l: Log, idx: nat)
    requires Pointers(l) && Enabled(l, CompactOp(idx))
    ensures Step(rd, l, CompactOp(idx)) == Next(Compact(l, idx))
  {
  }

  // --------------------------------------------------------------- theorem

  /** The node `RawNode::new` starts with, on a log brought up to the configured applied index. */
  function Boot(l: Log, applied: nat): Node {
    Node(l, applied, 0, [], false)
  }

  ghost predicate Bootable(l: Log, applied: nat) {
    Pointers(l) && !l.pending && l.applied == Max(applied, l.first - 1) && (applied == 0 || l.first - 1 <= applied)
  }

  /** The node and everything handed over after a run; events that are not allowed do nothing. */
  ghost function Run(rd: Reading, l: Log, applied: nat, es: seq<Event>): (r: Outcome<(Node, seq<Handed>)>)
    requires Bootable(l, applied)
    ensures r.Next? ==> Inv(r.value.0, Max(applied, l.first - 1), r.value.1)
    decreases |es|
  {
    var start := Max(applied, l.first - 1);
    if es == [] then BootOK(l, applied); Next((Boot(l, applied), []))
    else
      match Run(rd, l, applied, es[..|es| - 1])
      case Panic => Panic
      case Next((n, hs)) =>
        if !Allowed(n, es[|es| - 1]) then Next((n, hs))
        else
          EventKeeps(rd, n, es[|es| - 1], start, hs);
          match Handle(rd, n, es[|es| - 1])
          case Panic => Panic
          case Next((m, more)) => Next((m, hs + more))
  }

  lemma BootOK(l: Log, applied: nat)
    requires Bootable(l, applied)
    ensures Inv(Boot(l, applied), Max(applied, l.first - 1), [])
  {
  }

  /**
    Exactly-once ordered delivery: over every run, what the application is handed is
    one gap-free increasing sequence from where it had applied to, with jumps only
    to snapshots; every entry in it is the one the log holds as committed.
   */
  lemma ExactlyOnce(rd: Reading, l: Log, applied: nat, es: seq<Event>, i: nat)
    requires Bootable(l, applied) && Run(rd, l, applied, es).Next?
    requires var hs := Run(rd, l, applied, es).value.1; i < |hs|
    ensures var (n, hs) := Run(rd, l, applied, es).value;
            var before := if i == 0 then Max(applied, l.first - 1) else IndexOf(hs[i - 1]);
            match hs[i]
            case Jump(index) => before <= index
            case Deliver(e) =>
              && e.index == before + 1 && e.index <= n.log.committed
              && (n.log.first <= e.index ==> At(n.log, e.index) == e)
  {
    var (n, hs) := Run(rd, l, applied, es).value;
    assert InOrderAt(Max(applied, l.first - 1), hs, i);
    if hs[i].Deliver? {
      assert IsCommitted(n.log, hs[i].e);
    }
  }

  /**
    With a new leader's records as `Allowed` has them, the assertions of `ready`, `commit_ready` and
    `on_persist_ready` and the fatals below them never fail: only a step of the raft layer itself can
    stop the process.
   */
  lemma DeliveryNeverPanics(rd: Reading, l: Log, applied: nat, es: seq<Event>, e: Event)
    requires Bootable(l, applied) && Run(rd, l, applied, es).Next?
    requires Allowed(Run(rd, l, applied, es).value.0, e) && !e.RaftEvent?
    ensures Handle(rd, Run(rd, l, applied, es).value.0, e).Next?
  {
    hide Handle, Allowed, Inv;
    EventKeeps(rd, Run(rd, l, applied, es).value.0, e, Max(applied, l.first - 1), Run(rd, l, applied, es).value.1);
  }

  /** After `advance` all that had been handed out before it is applied. */
  lemma AdvanceApplies(n: Node, stored: Option<nat>, max: Option<nat>)
    requires NodeOK(n) && Advance(n, stored, max).Next? && n.commitSince > 0
    ensures Advance(n, stored, max).value.0.log.applied == n.commitSince
  {
    hide Pointers, AdvanceAppend;
  }

  /** Without a size limit a Ready leaves nothing behind: the application is brought up to all that is committed and persisted. */
  lemma ReadyCatchesUp(rd: Reading, l: Log, applied: nat, es: seq<Event>)
    requires Bootable(l, applied) && Run(rd, l, applied, es).Next?
    requires !Run(rd, l, applied, es).value.0.outstanding
    ensures var n := Run(rd, l, applied, es).value.0;
            Ready(n, false, None).Next? && !HasNextEntries(n.log, Ready(n, false, None).value.0.commitSince)
  {
    hide Run;
    var (n, hs) := Run(rd, l, applied, es).value;
    ReadyKeeps(n, false, None, Max(applied, l.first - 1), hs);
    var m := TakeSnapshot(n).value.0;
    NextEntriesAre(n.log, m.commitSince, None);
    NothingLeft(n.log, m.commitSince);
  }

  lemma NothingLeft(l: Log, since: nat)
    requires Pointers(l)
    ensures var es := NextEntries(l, since, None);
            if es == [] then !HasNextEntries(l, since) else !HasNextEntries(l, es[|es| - 1].index)
  {
    NextEntriesAre(l, since, None);
  }
}
