/** The log of one node as one logical sequence with four moving pointers. */
module LogSpec {
  import opened Common

  datatype Outcome<T> = Panic | Next(value: T)

  /** u64::MAX, which stands for no limit. */
  const NO_LIMIT: nat := 0xFFFF_FFFF_FFFF_FFFF

  /** An entry, together with the length of its encoding. */
  datatype Entry = Entry(index: nat, term: nat, data: string, context: string, encodedLen: nat)

  // --------------------------------------------------------- size limit

  function Total(es: seq<Entry>): nat
    decreases |es|
  {
    if es == [] then 0 else Total(es[..|es| - 1]) + es[|es| - 1].encodedLen
  }

  /** Within the limit, or too large only because of its first entry of non-zero size. */
  predicate Fits(es: seq<Entry>, max: nat) {
    es == [] || Total(es) <= max || Total(es[..|es| - 1]) == 0
  }

  /** The longest prefix that fits: what `limit_size` keeps. */
  function Limited(es: seq<Entry>, max: Option<nat>): seq<Entry>
    decreases |es|
  {
    if |es| <= 1 || max == None || max == Some(NO_LIMIT) || Fits(es, max.value) then es
    else Limited(es[..|es| - 1], max)
  }

  lemma {:induction false} TotalPrefix(es: seq<Entry>, k: nat)
    requires k <= |es|
    ensures Total(es[..k]) <= Total(es)
    decreases |es|
  {
    if k < |es| {
      assert es[..|es| - 1][..k] == es[..k];
      TotalPrefix(es[..|es| - 1], k);
    } else {
      assert es[..k] == es;
    }
  }

  /** Fitting prefixes are closed downwards, so the longest one is where the scan stops. */
  lemma FitsPrefix(es: seq<Entry>, max: nat, k: nat)
    requires Fits(es, max) && k <= |es|
    ensures Fits(es[..k], max)
  {
    if 0 < k < |es| {
      TotalPrefix(es, k);
      assert es[..|es| - 1][..k] == es[..k] && es[..k][..k - 1] == es[..k - 1];
      TotalPrefix(es[..|es| - 1], k);
      TotalPrefix(es[..k], k - 1);
    } else if k == |es| {
      assert es[..k] == es;
    }
  }

  lemma {:induction false} LimitedIs(es: seq<Entry>, max: Option<nat>, k: nat)
    requires k <= |es| && max.Some? && max != Some(NO_LIMIT)
    requires Fits(es[..k], max.value) && (k == |es| || !Fits(es[..k + 1], max.value)) && (es != [] ==> k > 0)
    ensures Limited(es, max) == es[..k]
    decreases |es|
  {
    if k == |es| {
      assert es[..k] == es;
    } else {
      if Fits(es, max.value) {
        FitsPrefix(es, max.value, k + 1);
      }
      if |es| > 1 {
        var init := es[..|es| - 1];
        assert init[..k] == es[..k];
        if k < |init| {
          assert init[..k + 1] == es[..k + 1];
        }
        LimitedIs(init, max, k);
      }
    }
  }

  lemma {:induction false} LimitedPrefix(es: seq<Entry>, max: Option<nat>)
    ensures Limited(es, max) <= es
    ensures es != [] ==> Limited(es, max) != []
    ensures max.Some? && max != Some(NO_LIMIT) ==> Fits(Limited(es, max), max.value)
    ensures max.Some? && max != Some(NO_LIMIT) && |Limited(es, max)| < |es| ==>
              !Fits(es[..|Limited(es, max)| + 1], max.value)
    ensures max == None || max == Some(NO_LIMIT) ==> Limited(es, max) == es
    decreases |es|
  {
    if |es| > 1 && max.Some? && max != Some(NO_LIMIT) && !Fits(es, max.value) {
      var init := es[..|es| - 1];
      LimitedPrefix(init, max);
      if |Limited(init, max)| < |init| {
        assert init[..|Limited(init, max)| + 1] == es[..|Limited(init, max)| + 1];
      } else {
        assert es[..|init| + 1] == es;
      }
    }
  }

  /** Limiting a part first changes nothing if it was cut, and is undone by limiting the whole if it was not. */
  lemma LimitedParts(a: seq<Entry>, b: seq<Entry>, max: Option<nat>)
    ensures Limited(a, max) == a || Limited(a + b, max) == Limited(a, max)
  {
    LimitedPrefix(a, max);
    var k := |Limited(a, max)|;
    if k < |a| {
      assert (a + b)[..k] == a[..k] == Limited(a, max) && (a + b)[..k + 1] == a[..k + 1];
      LimitedIs(a + b, max, k);
    }
  }

  /**
    `limit_size`, scanning from the front: entries are taken while the running
    size is zero or stays within the limit.
   */
  method LimitSize(entries: seq<Entry>, max: Option<nat>) returns (r: seq<Entry>)
    ensures r == Limited(entries, max)
  {
    if |entries| <= 1 || max == None || max == Some(NO_LIMIT) {
      return entries;
    }
    var size, limit := 0, 0;
    while limit < |entries|
      invariant limit <= |entries|
      invariant size == Total(entries[..limit]) && Fits(entries[..limit], max.value)
    {
      var len := entries[limit].encodedLen;
      assert entries[..limit + 1][..limit] == entries[..limit];
      if size != 0 && size + len > max.value {
        break;
      }
      size := size + len;
      limit := limit + 1;
    }
    LimitedIs(entries, max, limit);
    r := entries[..limit];
  }

  // ------------------------------------------------------- the logical log

  /**
    The entries from `first` on, the term of the entry before them if it is known,
    the pointers, where the unsaved part begins, and whether it begins with a snapshot.
   */
  datatype Log = Log(
    first: nat, base: Option<nat>, entries: seq<Entry>,
    committed: nat, persisted: nat, applied: nat,
    offset: nat, pending: bool)

  ghost predicate Continuous(es: seq<Entry>, index: nat) {
    forall i :: 0 <= i < |es| ==> es[i].index == index + i
  }

  ghost predicate WellFormed(l: Log) {
    && l.first >= 1 && Continuous(l.entries, l.first)
    && l.first <= l.offset <= Last(l) + 1
    && (l.pending ==> l.offset == l.first && l.base.Some?)
    && BaseKnown(l.first, l.base, l.entries)
  }

  /** An empty log knows the term it starts after, and index 0 has term 0. */
  predicate BaseKnown(first: nat, base: Option<nat>, entries: seq<Entry>) {
    && (entries == [] ==> base.Some?)
    && (first == 1 ==> base == Some(0))
  }

  function Last(l: Log): nat
    requires l.first >= 1
  {
    l.first + |l.entries| - 1
  }

  /** The term at an index: zero outside the log, unknown when the entry before it was compacted away. */
  function Term(l: Log, idx: nat): Option<nat>
    requires l.first >= 1
  {
    if idx < l.first - 1 || idx > Last(l) then Some(0)
    else if idx == l.first - 1 then l.base
    else Some(l.entries[idx - l.first].term)
  }

  /** The first entry the log does not hold, 0 if it holds them all; as written, simply the first one. */
  function FindConflict(documented: bool, l: Log, ents: seq<Entry>): nat
    requires l.first >= 1
    decreases |ents|
  {
    if ents == [] then 0
    else if !documented || Term(l, ents[0].index) != Some(ents[0].term) then ents[0].index
    else FindConflict(documented, l, ents[1..])
  }

  /** The entries from the first index of `ents` on are replaced by `ents`. */
  function Spliced(l: Log, ents: seq<Entry>): Log
    requires ents != [] && l.first <= ents[0].index <= l.first + |l.entries|
  {
    l.(entries := l.entries[..ents[0].index - l.first] + ents, offset := Min(l.offset, ents[0].index))
  }

  function Append(l: Log, ents: seq<Entry>): Outcome<Log>
    requires WellFormed(l) && l.first - 1 <= l.committed && (ents != [] ==> ents[0].index >= 1)
  {
    if ents == [] then Next(l)
    else if ents[0].index - 1 < l.committed || ents[0].index > Last(l) + 1 then Panic
    else Next(Spliced(l, ents))
  }

  function CommitTo(l: Log, to: nat): Outcome<Log>
    requires l.first >= 1
  {
    if l.committed >= to then Next(l)
    else if Last(l) < to then Panic
    else Next(l.(committed := to))
  }

  function AppliedTo(l: Log, idx: nat): Outcome<Log> {
    if idx == 0 then Next(l)
    else if idx > Min(l.committed, l.persisted) || idx < l.applied then Panic
    else Next(l.(applied := idx))
  }

  function MaybeCommit(l: Log, idx: nat, term: nat): Outcome<Log>
    requires l.first >= 1
  {
    if idx > l.committed && Term(l, idx) == Some(term) then CommitTo(l, idx) else Next(l)
  }

  /** The guard of the persisted reset: as documented any changed entry, as written two further on. */
  function ResetPersisted(documented: bool, persisted: nat, conflict: nat): nat
    requires conflict >= 1
  {
    if persisted > conflict + (if documented then -1 else 1) then conflict - 1 else persisted
  }

  /** Which reading of the two lines that differ from their comments is in force. */
  datatype Reading = Reading(findConflict: bool, resetGuard: bool)

  datatype Appended = Rejected | Accepted(conflict: nat, last: nat)

  function MaybeAppend(rd: Reading, l: Log, idx: nat, term: nat, committed: nat, ents: seq<Entry>): Outcome<(Log, Appended)>
    requires WellFormed(l) && l.first - 1 <= l.committed && Continuous(ents, idx + 1)
  {
    if Term(l, idx) != Some(term) then Next((l, Rejected))
    else
      ConflictIndex(rd.findConflict, l, ents, idx + 1);
      match MergedIfNeeded(rd, l, idx, ents)
      case Panic => Panic
      case Next(b) =>
        match CommitTo(b, Min(committed, idx + |ents|))
        case Panic => Panic
        case Next(c) => Next((c, Accepted(FindConflict(rd.findConflict, l, ents), idx + |ents|)))
  }

  function MergedIfNeeded(rd: Reading, l: Log, idx: nat, ents: seq<Entry>): (r: Outcome<Log>)
    requires WellFormed(l) && l.first - 1 <= l.committed && Continuous(ents, idx + 1)
    ensures r.Next? ==> r.value.first == l.first
  {
    ConflictIndex(rd.findConflict, l, ents, idx + 1);
    var conflict := FindConflict(rd.findConflict, l, ents);
    if conflict == 0 then Next(l) else Merged(rd, l, conflict, ents[conflict - (idx + 1)..])
  }

  /** The conflicting entries go in, and what was persisted of the old ones is forgotten. */
  function Merged(rd: Reading, l: Log, conflict: nat, ents: seq<Entry>): Outcome<Log>
    requires WellFormed(l) && l.first - 1 <= l.committed && conflict >= 1 && ents != [] && ents[0].index == conflict
  {
    if conflict <= l.committed then Panic
    else
      match Append(l, ents)
      case Panic => Panic
      case Next(a) => Next(a.(persisted := ResetPersisted(rd.resetGuard, a.persisted, conflict)))
  }

  lemma {:induction false} ConflictIndex(documented: bool, l: Log, ents: seq<Entry>, index: nat)
    requires l.first >= 1 && Continuous(ents, index)
    ensures var c := FindConflict(documented, l, ents); c == 0 || (index <= c < index + |ents|)
    decreases |ents|
  {
    if ents != [] {
      assert Continuous(ents[1..], index + 1);
      ConflictIndex(documented, l, ents[1..], index + 1);
    }
  }

  function FirstUpdate(l: Log): nat
    requires l.first >= 1
  {
    if l.pending then l.first - 1 else l.offset
  }

  /** `stored` is the term the store has for the index, if any. */
  function MaybePersist(l: Log, idx: nat, stored: Option<nat>, term: nat): Log
    requires l.first >= 1
  {
    if idx > l.persisted && idx < FirstUpdate(l) && stored == Some(term) then l.(persisted := idx) else l
  }

  function MaybePersistSnap(l: Log, idx: nat): Outcome<Log> {
    if idx <= l.persisted then Next(l)
    else if idx > l.committed || idx >= l.offset then Panic
    else Next(l.(persisted := idx))
  }

  function Restore(l: Log, index: nat, term: nat): Outcome<Log> {
    if index < l.committed then Panic
    else Next(Log(index + 1, Some(term), [], index, Min(l.persisted, l.committed), l.applied, index + 1, true))
  }

  function StableSnap(l: Log, index: nat): Outcome<Log>
    requires l.first >= 1
  {
    if !l.pending || index != l.first - 1 then Panic else Next(l.(pending := false))
  }

  function StableEntries(l: Log, index: nat, term: nat): Outcome<Log>
    requires l.first >= 1
  {
    if l.pending || l.offset > Last(l) || Last(l) != index || Term(l, index) != Some(term) then Panic
    else Next(l.(offset := index + 1))
  }

  /** Entries below `index` leave the store; behind a pending snapshot nobody sees it. */
  function Compact(l: Log, index: nat): Log
    requires l.first >= 1 && index <= l.first + |l.entries|
  {
    if l.pending || index <= l.first then l
    else l.(first := index, base := None, entries := l.entries[index - l.first..])
  }

  /** Whether entries past `since` are both committed and persisted. */
  predicate HasNextEntries(l: Log, since: nat) {
    Min(l.committed, l.persisted) + 1 > Max(since + 1, l.first)
  }

  /** Those entries, limited in size. */
  function NextEntries(l: Log, since: nat, max: Option<nat>): seq<Entry>
    requires l.first >= 1 && l.committed <= Last(l)
  {
    if HasNextEntries(l, since) then
      Limited(l.entries[Max(since + 1, l.first) - l.first..Min(l.committed, l.persisted) + 1 - l.first], max)
    else []
  }

  // ------------------------------------------------------------------ runs

  datatype LogOp =
    | MaybeAppendOp(idx: nat, term: nat, committed: nat, ents: seq<Entry>)
    | ProposeOp(ents: seq<Entry>)
    | CommitToOp(to: nat)
    | MaybeCommitOp(idx: nat, term: nat)
    | AppliedToOp(idx: nat)
    | MaybePersistOp(idx: nat, stored: Option<nat>, term: nat)
    | MaybePersistSnapOp(idx: nat)
    | RestoreOp(idx: nat, term: nat)
    | StableSnapOp(idx: nat)
    | StableEntriesOp(idx: nat, term: nat)
    | CompactOp(idx: nat)

  /** What the callers of each operation guarantee. */
  ghost predicate Enabled(l: Log, op: LogOp)
    requires l.first >= 1
  {
    match op
    case MaybeAppendOp(idx, _, _, ents) => Continuous(ents, idx + 1)
    case ProposeOp(ents) => Continuous(ents, Last(l) + 1) // a leader numbers its entries from the end
    // the application drops only what it has applied, and what the store still holds for the log
    case CompactOp(idx) => idx <= l.applied && idx <= Min(l.offset, Last(l))
    case RestoreOp(idx, _) => idx > 0 // no snapshot is taken of nothing
    case _ => true
  }

  ghost function Step(rd: Reading, l: Log, op: LogOp): Outcome<Log>
    requires WellFormed(l) && l.first - 1 <= l.committed
  {
    if !Enabled(l, op) then Next(l)
    else
      match op
      case MaybeAppendOp(idx, term, committed, ents) =>
        (match MaybeAppend(rd, l, idx, term, committed, ents) case Panic => Panic case Next(r) => Next(r.0))
      case ProposeOp(ents) => Append(l, ents)
      case CommitToOp(to) => CommitTo(l, to)
      case MaybeCommitOp(idx, term) => MaybeCommit(l, idx, term)
      case AppliedToOp(idx) => AppliedTo(l, idx)
      case MaybePersistOp(idx, stored, term) => Next(MaybePersist(l, idx, stored, term))
      case MaybePersistSnapOp(idx) => MaybePersistSnap(l, idx)
      case RestoreOp(idx, term) => Restore(l, idx, term)
      case StableSnapOp(idx) => StableSnap(l, idx)
      case StableEntriesOp(idx, term) => StableEntries(l, idx, term)
      case CompactOp(idx) => Next(Compact(l, idx))
  }

  /** What `RaftLog::new` makes of a store. */
  function Opened(first: nat, base: Option<nat>, entries: seq<Entry>): Log
    requires first >= 1
  {
    Log(first, base, entries, first - 1, first + |entries| - 1, first - 1, first + |entries|, false)
  }

  /** The pointer invariants that hold under either reading. */
  ghost predicate Pointers(l: Log) {
    && WellFormed(l)
    && l.applied <= Min(l.committed, l.persisted)
    && l.first - 1 <= l.committed <= Last(l)
    && (l.pending ==> l.persisted < l.first)
  }

  /** `persisted < unstable.offset`. */
  predicate PersistedIsSaved(l: Log) {
    l.persisted < l.offset
  }

  function At(l: Log, i: nat): Entry
    requires l.first >= 1 && l.first <= i <= Last(l)
  {
    l.entries[i - l.first]
  }

  /** What a step may not do: lower what is both committed and persisted, or change a committed entry. */
  ghost predicate Preserves(l: Log, m: Log)
    requires Pointers(l) && Pointers(m)
  {
    && Min(l.committed, l.persisted) <= Min(m.committed, m.persisted)
    && l.committed <= m.committed && l.first <= m.first
    && forall i :: Max(l.first, m.first) <= i <= l.committed ==> At(m, i) == At(l, i)
  }

  lemma SplicedKeeps(l: Log, ents: seq<Entry>)
    requires Pointers(l) && ents != [] && Continuous(ents, ents[0].index)
    requires l.committed < ents[0].index <= Last(l) + 1 && (l.persisted < ents[0].index || !l.pending)
    ensures Pointers(Spliced(l, ents)) && Preserves(l, Spliced(l, ents))
    ensures Last(Spliced(l, ents)) == ents[0].index + |ents| - 1
  {
  }

  lemma CommitToKeeps(l: Log, to: nat)
    requires Pointers(l) && CommitTo(l, to).Next?
    ensures Pointers(CommitTo(l, to).value) && Preserves(l, CommitTo(l, to).value)
  {
  }

  lemma ResetKeeps(documented: bool, l: Log, conflict: nat)
    requires Pointers(l) && l.committed < conflict
    ensures var m := l.(persisted := ResetPersisted(documented, l.persisted, conflict)); Pointers(m) && Preserves(l, m)
  {
  }

  lemma PreservesTrans(l: Log, m: Log, n: Log)
    requires Pointers(l) && Pointers(m) && Pointers(n) && Preserves(l, m) && Preserves(m, n)
    ensures Preserves(l, n)
  {
    forall i | Max(l.first, n.first) <= i <= l.committed ensures At(n, i) == At(l, i) {
      assert At(m, i) == At(l, i);
    }
  }

  lemma MergedKeeps(rd: Reading, l: Log, conflict: nat, ents: seq<Entry>)
    requires Pointers(l) && conflict >= 1 && ents != [] && Continuous(ents, conflict)
    requires Merged(rd, l, conflict, ents).Next?
    ensures var m := Merged(rd, l, conflict, ents).value;
            Pointers(m) && Preserves(l, m) && (rd.resetGuard && PersistedIsSaved(l) ==> PersistedIsSaved(m))
  {
    hide Preserves;
    SplicedKeeps(l, ents);
    ResetKeeps(rd.resetGuard, Spliced(l, ents), conflict);
    PreservesTrans(l, Spliced(l, ents), Merged(rd, l, conflict, ents).value);
  }

  lemma AppendKeeps(rd: Reading, l: Log, idx: nat, term: nat, committed: nat, ents: seq<Entry>)
    requires Pointers(l) && Continuous(ents, idx + 1)
    requires MaybeAppend(rd, l, idx, term, committed, ents).Next?
    ensures var m := MaybeAppend(rd, l, idx, term, committed, ents).value.0;
            Pointers(m) && Preserves(l, m) && (rd.resetGuard && PersistedIsSaved(l) ==> PersistedIsSaved(m))
  {
    hide FindConflict, Pointers, Preserves, Merged, Term;
    PointersParts(l);
    PreservesSame(l);
    var conflict := FindConflict(rd.findConflict, l, ents);
    ConflictIndex(rd.findConflict, l, ents, idx + 1);
    if Term(l, idx) == Some(term) {
      var to := Min(committed, idx + |ents|);
      if conflict == 0 {
        CommitToKeeps(l, to);
      } else {
        var tail := ents[conflict - (idx + 1)..];
        MergedKeeps(rd, l, conflict, tail);
        var b := Merged(rd, l, conflict, tail).value;
        PointersParts(b);
        CommitToKeeps(b, to);
        PreservesTrans(l, b, CommitTo(b, to).value);
      }
    }
  }

  lemma PointersParts(l: Log)
    requires Pointers(l)
    ensures WellFormed(l) && l.first - 1 <= l.committed <= Last(l) && (l.pending ==> l.persisted < l.first)
  {
  }

  lemma PreservesSame(l: Log)
    requires Pointers(l)
    ensures Preserves(l, l)
  {
  }

  lemma ProposeKeeps(l: Log, ents: seq<Entry>)
    requires Pointers(l) && Continuous(ents, Last(l) + 1) && Append(l, ents).Next?
    ensures Pointers(Append(l, ents).value) && Preserves(l, Append(l, ents).value)
    ensures PersistedIsSaved(l) ==> PersistedIsSaved(Append(l, ents).value)
  {
    PreservesSame(l);
    hide Preserves;
    if ents != [] {
      SplicedKeeps(l, ents);
    }
  }

  lemma RestoreKeeps(l: Log, index: nat, term: nat)
    requires Pointers(l) && index > 0 && Restore(l, index, term).Next?
    ensures Pointers(Restore(l, index, term).value) && Preserves(l, Restore(l, index, term).value)
    ensures PersistedIsSaved(Restore(l, index, term).value)
  {
  }

  lemma CompactKeeps(l: Log, index: nat)
    requires Pointers(l) && index <= l.applied && index <= Min(l.offset, Last(l))
    ensures Pointers(Compact(l, index)) && Preserves(l, Compact(l, index))
    ensures PersistedIsSaved(l) ==> PersistedIsSaved(Compact(l, index))
  {
  }

  /** Steps that move one pointer and touch no entry. */
  lemma MovedKeeps(l: Log, committed: nat, persisted: nat, applied: nat)
    requires Pointers(l) && l.committed <= committed <= Last(l) && l.persisted <= persisted
    requires applied <= Min(committed, persisted) && (l.pending ==> persisted < l.first)
    ensures var m := l.(committed := committed, persisted := persisted, applied := applied); Pointers(m) && Preserves(l, m)
  {
  }

  lemma StableKeeps(l: Log, offset: nat)
    requires Pointers(l) && l.offset <= offset <= Last(l) + 1
    requires l.pending ==> offset == l.offset
    ensures var m := l.(offset := offset, pending := false); Pointers(m) && Preserves(l, m)
  {
  }

  lemma PointerStepKeeps(rd: Reading, l: Log, op: LogOp)
    requires Pointers(l) && Step(rd, l, op).Next?
    requires !op.MaybeAppendOp? && !op.ProposeOp? && !op.RestoreOp? && !op.CompactOp?
    ensures Pointers(Step(rd, l, op).value) && Preserves(l, Step(rd, l, op).value)
    ensures PersistedIsSaved(l) ==> PersistedIsSaved(Step(rd, l, op).value)
  {
    hide FindConflict, MaybeAppend, Preserves, Continuous;
    var m := Step(rd, l, op).value;
    if op.StableSnapOp? || op.StableEntriesOp? {
      StableKeeps(l, m.offset);
    } else {
      MovedKeeps(l, m.committed, m.persisted, m.applied);
    }
  }

  lemma StepKeeps(rd: Reading, l: Log, op: LogOp)
    requires Pointers(l) && Step(rd, l, op).Next?
    ensures Pointers(Step(rd, l, op).value) && Preserves(l, Step(rd, l, op).value)
    ensures rd.resetGuard && PersistedIsSaved(l) ==> PersistedIsSaved(Step(rd, l, op).value)
  {
    hide FindConflict, Preserves, PersistedIsSaved, MaybeAppend;
    if !Enabled(l, op) {
      PreservesSame(l);
    } else if op.MaybeAppendOp? {
      AppendKeeps(rd, l, op.idx, op.term, op.committed, op.ents);
    } else if op.ProposeOp? {
      ProposeKeeps(l, op.ents);
    } else if op.RestoreOp? {
      RestoreKeeps(l, op.idx, op.term);
    } else if op.CompactOp? {
      CompactKeeps(l, op.idx);
    } else {
      PointerStepKeeps(rd, l, op);
    }
  }

  /** The log after a run of operations, or a stopped process. */
  ghost function Run(rd: Reading, start: Log, ops: seq<LogOp>): (r: Outcome<Log>)
    requires Pointers(start)
    ensures r.Next? ==> Pointers(r.value)
    decreases |ops|
  {
    if ops == [] then Next(start)
    else
      match Run(rd, start, ops[..|ops| - 1])
      case Panic => Panic
      case Next(l) =>
        if Step(rd, l, ops[|ops| - 1]).Next? then StepKeeps(rd, l, ops[|ops| - 1]); Step(rd, l, ops[|ops| - 1])
        else Panic
  }

  lemma OpenedKeeps(first: nat, base: Option<nat>, entries: seq<Entry>)
    requires first >= 1 && Continuous(entries, first) && BaseKnown(first, base, entries)
    ensures Pointers(Opened(first, base, entries)) && PersistedIsSaved(Opened(first, base, entries))
  {
  }

  lemma {:induction false} RunBefore(rd: Reading, start: Log, ops: seq<LogOp>, j: nat)
    requires Pointers(start) && j <= |ops| && Run(rd, start, ops).Next?
    ensures Run(rd, start, ops[..j]).Next? && Preserves(Run(rd, start, ops[..j]).value, Run(rd, start, ops).value)
    ensures rd.resetGuard && PersistedIsSaved(start) ==> PersistedIsSaved(Run(rd, start, ops).value)
    decreases |ops|
  {
    hide Preserves, PersistedIsSaved, Step, Pointers;
    if |ops| == 0 {
      PreservesSame(start);
      assert ops[..j] == ops;
    } else {
      var init := ops[..|ops| - 1];
      var l := Run(rd, start, init).value;
      StepKeeps(rd, l, ops[|ops| - 1]);
      if j == |ops| {
        assert ops[..j] == ops;
        RunBefore(rd, start, init, j - 1);
        PreservesSame(Run(rd, start, ops).value);
      } else {
        assert init[..j] == ops[..j];
        RunBefore(rd, start, init, j);
        PreservesTrans(Run(rd, start, ops[..j]).value, l, Run(rd, start, ops).value);
      }
    }
  }

  /** A run from the log that `RaftLog::new` opens on a store. */
  ghost function Reached(rd: Reading, first: nat, base: Option<nat>, entries: seq<Entry>, ops: seq<LogOp>): (r: Outcome<Log>)
    requires first >= 1 && Continuous(entries, first) && BaseKnown(first, base, entries)
    ensures r.Next? ==> Pointers(r.value)
  {
    OpenedKeeps(first, base, entries);
    Run(rd, Opened(first, base, entries), ops)
  }

  /**
    Log pointers, over every run of log operations from any opened store: applied
    never passes what is both committed and persisted, which never falls; committed
    never passes the last index; a committed entry only disappears behind a snapshot
    or a compaction; and with the documented reset guard what is persisted is saved.
   */
  lemma PointerInvariants(rd: Reading, first: nat, base: Option<nat>, entries: seq<Entry>, ops: seq<LogOp>, j: nat)
    requires first >= 1 && Continuous(entries, first) && BaseKnown(first, base, entries) && j <= |ops|
    requires Reached(rd, first, base, entries, ops).Next?
    ensures Reached(rd, first, base, entries, ops[..j]).Next?
    ensures var l, m := Reached(rd, first, base, entries, ops[..j]).value, Reached(rd, first, base, entries, ops).value;
            && m.applied <= Min(m.committed, m.persisted) && m.committed <= Last(m)
            && Min(l.committed, l.persisted) <= Min(m.committed, m.persisted)
            && l.committed <= m.committed
            && (forall i :: Max(l.first, m.first) <= i <= l.committed ==> At(m, i) == At(l, i))
            && (rd.resetGuard ==> m.persisted < m.offset)
  {
    hide Run;
    OpenedKeeps(first, base, entries);
    RunBefore(rd, Opened(first, base, entries), ops, j);
  }

  /**
    Exactly when the reset guard as written keeps the persisted pointer below the
    unsaved part: unless it stood at the conflict or one above it.
   */
  lemma WrittenGuardExact(l: Log, conflict: nat, ents: seq<Entry>)
    requires Pointers(l) && PersistedIsSaved(l) && conflict >= 1 && ents != [] && Continuous(ents, conflict)
    requires Merged(Reading(true, false), l, conflict, ents).Next?
    ensures PersistedIsSaved(Merged(Reading(true, false), l, conflict, ents).value) <==>
            !(conflict <= l.persisted <= conflict + 1)
  {
  }

  /** The append replaces entries while persisted stands at the conflict or one above it: the guard as written misses it. */
  predicate Misses(findConflict: bool, l: Log, idx: nat, term: nat, ents: seq<Entry>)
    requires l.first >= 1
  {
    var c := FindConflict(findConflict, l, ents);
    Term(l, idx) == Some(term) && l.committed < c <= Last(l) + 1 && c <= l.persisted <= c + 1
  }

  lemma MergesAgreeExactly(findConflict: bool, l: Log, c: nat, ents: seq<Entry>)
    requires WellFormed(l) && l.first - 1 <= l.committed && c >= 1 && ents != [] && Continuous(ents, c)
    ensures Merged(Reading(findConflict, false), l, c, ents) == Merged(Reading(findConflict, true), l, c, ents)
            <==> !(l.committed < c <= Last(l) + 1 && c <= l.persisted <= c + 1)
  {
  }

  /** A merge ends the log with its last entry, and leaves the commit index. */
  lemma MergedReach(rd: Reading, l: Log, c: nat, ents: seq<Entry>)
    requires WellFormed(l) && l.first - 1 <= l.committed && c >= 1 && ents != [] && Continuous(ents, c)
    ensures Merged(rd, l, c, ents).Next? ==>
              var m := Merged(rd, l, c, ents).value; m.first >= 1 && Last(m) == c + |ents| - 1 && m.committed == l.committed
  {
  }

  /** What the commit step makes of two logs that reach as far tells them apart. */
  lemma CommitsApart(a: Log, b: Log, to: nat)
    requires a.first >= 1 && b.first >= 1 && to <= Last(a) && to <= Last(b) && a.persisted != b.persisted
    ensures CommitTo(a, to).Next? && CommitTo(b, to).Next? && CommitTo(a, to) != CommitTo(b, to)
  {
  }

  lemma MergedApart(findConflict: bool, l: Log, c: nat, ents: seq<Entry>)
    requires WellFormed(l) && l.first - 1 <= l.committed && c >= 1 && ents != [] && Continuous(ents, c)
    requires l.committed < c <= Last(l) + 1 && c <= l.persisted <= c + 1
    ensures var a, b := Merged(Reading(findConflict, false), l, c, ents), Merged(Reading(findConflict, true), l, c, ents);
            a.Next? && b.Next? && a.value.persisted != b.value.persisted
  {
  }

  /** An append does the same under both readings of the reset guard exactly if the written one does not miss it. */
  lemma GuardsAgreeExactly(findConflict: bool, l: Log, idx: nat, term: nat, committed: nat, ents: seq<Entry>)
    requires Pointers(l) && Continuous(ents, idx + 1)
    ensures MaybeAppend(Reading(findConflict, false), l, idx, term, committed, ents) ==
            MaybeAppend(Reading(findConflict, true), l, idx, term, committed, ents)
            <==> !Misses(findConflict, l, idx, term, ents)
  {
    hide FindConflict, Merged, Term, Pointers, WellFormed, Continuous, CommitTo, BaseKnown;
    PointersParts(l);
    ConflictIndex(findConflict, l, ents, idx + 1);
    var c := FindConflict(findConflict, l, ents);
    if c != 0 {
      TailContinuous(ents, idx + 1, c);
      var tail := ents[c - (idx + 1)..];
      MergesAgreeExactly(findConflict, l, c, tail);
      MergedReach(Reading(findConflict, false), l, c, tail);
      MergedReach(Reading(findConflict, true), l, c, tail);
      if Misses(findConflict, l, idx, term, ents) {
        MergedApart(findConflict, l, c, tail);
        CommitsApart(Merged(Reading(findConflict, false), l, c, tail).value, Merged(Reading(findConflict, true), l, c, tail).value,
                     Min(committed, idx + |ents|));
      }
    }
  }

  const SAVED: Entry := Entry(1, 1, "", "", 0)
  const REPLACEMENT: Entry := Entry(1, 2, "", "", 0)
  const ONE_SAVED: Log := Log(1, Some(0), [SAVED], 0, 1, 0, 2, false)

  /** An append after which index 1 is committed and counts as persisted, although its entry is not saved. */
  lemma WrittenGuardFails()
    ensures Pointers(ONE_SAVED) && PersistedIsSaved(ONE_SAVED)
    ensures MaybeAppend(Reading(true, false), ONE_SAVED, 0, 0, 1, [REPLACEMENT]) ==
            Next((ONE_SAVED.(entries := [REPLACEMENT], committed := 1, offset := 1), Accepted(1, 1)))
  {
    assert [REPLACEMENT][0..] == [REPLACEMENT];
    assert Spliced(ONE_SAVED, [REPLACEMENT]).entries == [REPLACEMENT];
    assert FindConflict(true, ONE_SAVED, [REPLACEMENT]) == 1;
    assert Merged(Reading(true, false), ONE_SAVED, 1, [REPLACEMENT]) ==
           Next(ONE_SAVED.(entries := [REPLACEMENT], offset := 1));
    assert CommitTo(ONE_SAVED.(entries := [REPLACEMENT], offset := 1), 1) ==
           Next(ONE_SAVED.(entries := [REPLACEMENT], committed := 1, offset := 1));
  }

  // ------------------------------------------------- what an append means

  lemma {:induction false} ConflictIsFirst(l: Log, ents: seq<Entry>, index: nat)
    requires l.first >= 1 && Continuous(ents, index) && index >= 1
    ensures var c := FindConflict(true, l, ents);
            && (forall i :: 0 <= i < |ents| && (c == 0 || ents[i].index < c) ==> Term(l, ents[i].index) == Some(ents[i].term))
            && (c != 0 ==> exists i :: 0 <= i < |ents| && ents[i].index == c && Term(l, c) != Some(ents[i].term))
    decreases |ents|
  {
    if ents != [] && Term(l, ents[0].index) == Some(ents[0].term) {
      assert Continuous(ents[1..], index + 1);
      ConflictIsFirst(l, ents[1..], index + 1);
      var c := FindConflict(true, l, ents[1..]);
      forall i | 0 <= i < |ents| && (c == 0 || ents[i].index < c) ensures Term(l, ents[i].index) == Some(ents[i].term) {
        if i > 0 {
          assert ents[1..][i - 1] == ents[i];
        }
      }
      if c != 0 {
        var j :| 0 <= j < |ents[1..]| && ents[1..][j].index == c && Term(l, c) != Some(ents[1..][j].term);
        assert ents[j + 1].index == c;
      }
    }
  }

  lemma MergedHolds(rd: Reading, l: Log, conflict: nat, ents: seq<Entry>, i: nat)
    requires Pointers(l) && conflict >= 1 && ents != [] && Continuous(ents, conflict)
    requires Merged(rd, l, conflict, ents).Next?
    ensures var m := Merged(rd, l, conflict, ents).value;
            && (conflict <= i < conflict + |ents| ==> Term(m, i) == Some(ents[i - conflict].term))
            && (l.first <= i < conflict ==> i <= Last(m) && At(m, i) == At(l, i))
            && (l.first - 1 <= i < conflict ==> Term(m, i) == Term(l, i))
  {
    SplicedKeeps(l, ents);
  }

  /** As documented, an accepted append leaves the log holding every entry of the message. */
  lemma AppendHolds(guard: bool, l: Log, idx: nat, term: nat, committed: nat, ents: seq<Entry>, i: nat)
    requires Pointers(l) && Continuous(ents, idx + 1) && i < |ents| && l.first <= idx + 1
    requires var r := MaybeAppend(Reading(true, guard), l, idx, term, committed, ents); r.Next? && r.value.1.Accepted?
    ensures var m := MaybeAppend(Reading(true, guard), l, idx, term, committed, ents).value.0;
            Term(m, ents[i].index) == Some(ents[i].term)
  {
    var rd := Reading(true, guard);
    MergedAllHolds(guard, l, idx, ents, i);
    var m := MaybeAppend(rd, l, idx, term, committed, ents).value.0;
    hide MergedIfNeeded, FindConflict, WellFormed;
    assert m.entries == MergedIfNeeded(rd, l, idx, ents).value.entries;
  }

  lemma MergedAllHolds(guard: bool, l: Log, idx: nat, ents: seq<Entry>, i: nat)
    requires Pointers(l) && Continuous(ents, idx + 1) && i < |ents| && l.first <= idx + 1
    requires MergedIfNeeded(Reading(true, guard), l, idx, ents).Next?
    ensures Term(MergedIfNeeded(Reading(true, guard), l, idx, ents).value, ents[i].index) == Some(ents[i].term)
  {
    var c := FindConflict(true, l, ents);
    ConflictIndex(true, l, ents, idx + 1);
    BelowConflict(l, ents, idx + 1, i);
    if c != 0 {
      MergedTailHolds(Reading(true, guard), l, idx, ents, c, i);
    }
    hide FindConflict, Merged, Term, WellFormed, Continuous;
  }

  lemma MergedTailHolds(rd: Reading, l: Log, idx: nat, ents: seq<Entry>, c: nat, i: nat)
    requires Pointers(l) && Continuous(ents, idx + 1) && idx < c <= idx + |ents| && i < |ents| && l.first <= idx + 1
    requires ents[i].index < c ==> Term(l, ents[i].index) == Some(ents[i].term)
    ensures ents[c - (idx + 1)..] != [] && Continuous(ents[c - (idx + 1)..], c)
    ensures Merged(rd, l, c, ents[c - (idx + 1)..]).Next? ==>
              Term(Merged(rd, l, c, ents[c - (idx + 1)..]).value, ents[i].index) == Some(ents[i].term)
  {
    TailContinuous(ents, idx + 1, c);
    assert ents[i].index == idx + 1 + i;
    if Merged(rd, l, c, ents[c - (idx + 1)..]).Next? {
      MergedHolds(rd, l, c, ents[c - (idx + 1)..], ents[i].index);
    }
    hide Merged, Term, WellFormed, Continuous;
  }

  lemma BelowConflict(l: Log, ents: seq<Entry>, index: nat, i: nat)
    requires l.first >= 1 && Continuous(ents, index) && index >= 1 && i < |ents|
    ensures var c := FindConflict(true, l, ents); c == 0 || ents[i].index < c ==> Term(l, ents[i].index) == Some(ents[i].term)
  {
    ConflictIsFirst(l, ents, index);
  }

  lemma TailContinuous(ents: seq<Entry>, index: nat, from: nat)
    requires Continuous(ents, index) && index <= from < index + |ents|
    ensures ents[from - index..] != [] && Continuous(ents[from - index..], from) && ents[from - index..][0].index == from
  {
  }

  /** As documented, a message whose entries are all held changes no entry: a late append takes nothing back. */
  lemma HeldAppendIsQuiet(guard: bool, l: Log, idx: nat, term: nat, committed: nat, ents: seq<Entry>)
    requires Pointers(l) && Continuous(ents, idx + 1)
    requires forall j :: 0 <= j < |ents| ==> Term(l, ents[j].index) == Some(ents[j].term)
    requires MaybeAppend(Reading(true, guard), l, idx, term, committed, ents).Next?
    ensures MaybeAppend(Reading(true, guard), l, idx, term, committed, ents).value.0.entries == l.entries
  {
    ConflictIsFirst(l, ents, idx + 1);
  }

  /**
    As written, a message of held entries cuts the log off behind its own last entry: it is quiet exactly
    if its anchor does not match, it carries nothing, or the log ends with it.
   */
  lemma WrittenQuietExactly(guard: bool, l: Log, idx: nat, term: nat, committed: nat, ents: seq<Entry>)
    requires Pointers(l) && Continuous(ents, idx + 1) && l.first <= idx + 1 && idx + |ents| <= Last(l)
    requires forall j :: 0 <= j < |ents| ==> At(l, idx + 1 + j) == ents[j]
    requires MaybeAppend(Reading(false, guard), l, idx, term, committed, ents).Next?
    ensures MaybeAppend(Reading(false, guard), l, idx, term, committed, ents).value.0.entries == l.entries
            <==> Term(l, idx) != Some(term) || ents == [] || idx + |ents| == Last(l)
  {
  }

  /** Such a cut. */
  lemma WrittenTruncates()
    ensures var l := ONE_SAVED.(entries := [SAVED, Entry(2, 1, "", "", 0)]);
            && Pointers(l)
            && MaybeAppend(Reading(false, true), l, 0, 0, 0, [SAVED]) ==
               Next((l.(entries := [SAVED], persisted := 0, offset := 1), Accepted(1, 1)))
  {
    var l := ONE_SAVED.(entries := [SAVED, Entry(2, 1, "", "", 0)]);
    assert [SAVED][0..] == [SAVED];
    assert FindConflict(false, l, [SAVED]) == 1;
    assert Spliced(l, [SAVED]).entries == [SAVED];
    assert Merged(Reading(false, true), l, 1, [SAVED]) == Next(l.(entries := [SAVED], persisted := 0, offset := 1));
  }
}
