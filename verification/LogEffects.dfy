/** What the operations of the log bring about, said by what it holds before and after. */
module LogEffects {
  import opened Common
  import opened LogSpec

  /** The entry at an index, if the log still has it. */
  function EntryAt(l: Log, i: nat): Option<Entry>
    requires l.first >= 1
  {
    if l.first <= i <= Last(l) then Some(At(l, i)) else None
  }

  // ----------------------------------------------------------------- append

  /** Every entry of the message is in the log already. */
  predicate AllHeld(l: Log, idx: nat, ents: seq<Entry>)
    requires l.first >= 1
  {
    forall j :: 0 <= j < |ents| ==> Term(l, idx + 1 + j) == Some(ents[j].term)
  }

  /** At index `c` the message first says something else than the log. */
  predicate FirstDiffers(l: Log, idx: nat, ents: seq<Entry>, c: nat)
    requires l.first >= 1
  {
    && idx < c <= idx + |ents| && Term(l, c) != Some(ents[c - idx - 1].term)
    && AllHeld(l, idx, ents[..c - idx - 1])
  }

  lemma ConflictFound(l: Log, idx: nat, ents: seq<Entry>)
    requires l.first >= 1 && Continuous(ents, idx + 1)
    ensures var f := FindConflict(true, l, ents); if f == 0 then AllHeld(l, idx, ents) else FirstDiffers(l, idx, ents, f)
  {
    hide FindConflict, Term;
    ConflictIsFirst(l, ents, idx + 1);
    ConflictIndex(true, l, ents, idx + 1);
    var f := FindConflict(true, l, ents);
    var held := if f == 0 then ents else ents[..f - idx - 1];
    forall j | 0 <= j < |held|
      ensures Term(l, idx + 1 + j) == Some(held[j].term)
    {
      assert ents[j] == held[j] && ents[j].index == idx + 1 + j;
    }
    if f != 0 {
      var i :| 0 <= i < |ents| && ents[i].index == f && Term(l, f) != Some(ents[i].term);
      assert i == f - idx - 1;
    }
  }

  /** There is one first difference at most, and none if all is held. */
  lemma OneDiffers(l: Log, idx: nat, ents: seq<Entry>, c: nat, f: nat)
    requires l.first >= 1 && FirstDiffers(l, idx, ents, c)
    ensures !AllHeld(l, idx, ents) && (c < f ==> !FirstDiffers(l, idx, ents, f))
  {
    hide Term;
    assert Term(l, idx + 1 + (c - idx - 1)) != Some(ents[c - idx - 1].term);
    if c < f <= idx + |ents| {
      assert ents[..f - idx - 1][c - idx - 1] == ents[c - idx - 1];
    }
  }

  lemma ConflictAt(l: Log, idx: nat, ents: seq<Entry>, c: nat)
    requires l.first >= 1 && Continuous(ents, idx + 1)
    ensures var f := FindConflict(true, l, ents); (f == 0 <==> AllHeld(l, idx, ents)) && (FirstDiffers(l, idx, ents, c) <==> f != 0 && c == f)
  {
    hide FindConflict, AllHeld, FirstDiffers;
    ConflictIs(l, idx, ents);
  }

  lemma ConflictIs(l: Log, idx: nat, ents: seq<Entry>)
    requires l.first >= 1 && Continuous(ents, idx + 1)
    ensures var f := FindConflict(true, l, ents);
            && (f == 0 <==> AllHeld(l, idx, ents)) && (f != 0 ==> idx < f <= idx + |ents|)
            && forall c: nat :: FirstDiffers(l, idx, ents, c) <==> f != 0 && c == f
  {
    ConflictFound(l, idx, ents);
    hide FindConflict, Term, AllHeld;
    var f := FindConflict(true, l, ents);
    forall c: nat | FirstDiffers(l, idx, ents, c)
      ensures !AllHeld(l, idx, ents) && (f != 0 ==> c == f)
    {
      OneDiffers(l, idx, ents, c, f);
      if f != 0 {
        OneDiffers(l, idx, ents, f, c);
      }
    }
    if f != 0 {
      OneDiffers(l, idx, ents, f, f);
    }
  }

  /** What an accepted append makes of the pointers, and of a log that holds the message already. */
  predicate Acknowledges(l: Log, idx: nat, committed: nat, ents: seq<Entry>, m: Log, a: Appended)
    requires l.first >= 1
  {
    && a.Accepted? && a.last == idx + |ents|
    && m.committed == Max(l.committed, Min(committed, idx + |ents|)) && m.applied == l.applied && m.first == l.first && m.base == l.base
    && (AllHeld(l, idx, ents) ==> a.conflict == 0 && m.entries == l.entries && m.persisted == l.persisted && m.offset == l.offset)
  }

  /** What it makes of one that first differs at `c`. */
  predicate Overwrites(guard: bool, l: Log, idx: nat, ents: seq<Entry>, m: Log, a: Appended, c: nat)
    requires l.first >= 1
  {
    FirstDiffers(l, idx, ents, c) ==>
      && a.Accepted? && a.conflict == c && l.committed < c && l.first <= c <= Last(l) + 1
      && m.entries == l.entries[..c - l.first] + ents[c - idx - 1..] && m.offset == Min(l.offset, c)
      && (guard ==> m.persisted == Min(l.persisted, c - 1))
  }

  /** What the parts of an append come to, for one that is taken. */
  lemma AppendTaken(guard: bool, l: Log, idx: nat, committed: nat, ents: seq<Entry>, b: Log, f: nat, c: nat)
    requires 1 <= l.first && l.first - 1 <= l.committed
    requires f == 0 <==> AllHeld(l, idx, ents)
    requires FirstDiffers(l, idx, ents, c) ==> c == f > 0
    requires if f == 0 then b == l
             else idx < f <= idx + |ents| && l.committed < f <= Last(l) + 1 && b == Replaced(guard, l, f, ents[f - (idx + 1)..])
    ensures var m, a := b.(committed := Max(b.committed, Min(committed, idx + |ents|))), Accepted(f, idx + |ents|);
            Acknowledges(l, idx, committed, ents, m, a) && Overwrites(guard, l, idx, ents, m, a, c)
  {
    hide AllHeld, FirstDiffers, Replaced;
    if f != 0 {
      ReplacedIs(guard, l, f, ents[f - (idx + 1)..]);
    }
  }

  /**
    An append is rejected exactly if the log has something else at its anchor. If accepted, the log keeps what
    the message confirms, everything from the first difference on is the message's, what was persisted of the
    old tail no longer counts, and the commit index rises as far as the message reaches.
   */
  lemma AppendDecides(guard: bool, l: Log, idx: nat, term: nat, committed: nat, ents: seq<Entry>, c: nat)
    requires Pointers(l) && Continuous(ents, idx + 1)
    ensures var r := MaybeAppend(Reading(true, guard), l, idx, term, committed, ents);
            && (Term(l, idx) != Some(term) ==> r == Next((l, Rejected)))
            && (Term(l, idx) == Some(term) && r.Next? ==>
                  Acknowledges(l, idx, committed, ents, r.value.0, r.value.1) && Overwrites(guard, l, idx, ents, r.value.0, r.value.1, c))
  {
    PointersParts(l);
    hide FindConflict, Pointers, Term, WellFormed, Continuous, AllHeld, FirstDiffers, Replaced, MaybeAppend, MergedIfNeeded, Acknowledges, Overwrites, Settles;
    ConflictAt(l, idx, ents, c);
    AppendSettles(guard, l, idx, term, committed, ents);
    AppendSettled(guard, l, idx, committed, ents, c, MergedIfNeeded(Reading(true, guard), l, idx, ents),
                  MaybeAppend(Reading(true, guard), l, idx, term, committed, ents), Term(l, idx) == Some(term));
  }

  /** What the two steps of an append come to, the merge giving `b` and the whole `r`, with its conflict at `f`. */
  predicate Settles(guard: bool, l: Log, idx: nat, committed: nat, ents: seq<Entry>, f: nat,
                    b: Outcome<Log>, r: Outcome<(Log, Appended)>, matches: bool)
    requires l.first >= 1
  {
    if !matches then r == Next((l, Rejected))
    else
      r.Next? ==>
        && b.Next? && r.value == (b.value.(committed := Max(b.value.committed, Min(committed, idx + |ents|))), Accepted(f, idx + |ents|))
        && if f == 0 then b.value == l
           else idx < f <= idx + |ents| && l.committed < f && l.first <= f <= Last(l) + 1
                && b.value == Replaced(guard, l, f, ents[f - (idx + 1)..])
  }

  lemma AppendSettles(guard: bool, l: Log, idx: nat, term: nat, committed: nat, ents: seq<Entry>)
    requires l.first >= 1 && Pointers(l) && WellFormed(l) && l.first - 1 <= l.committed && Continuous(ents, idx + 1)
    ensures Settles(guard, l, idx, committed, ents, FindConflict(true, l, ents), MergedIfNeeded(Reading(true, guard), l, idx, ents),
                    MaybeAppend(Reading(true, guard), l, idx, term, committed, ents), Term(l, idx) == Some(term))
  {
    hide FindConflict, Pointers, Term, WellFormed, Continuous, Replaced, MaybeAppend, MergedIfNeeded;
    AppendIs(Reading(true, guard), l, idx, term, committed, ents);
    MergeIs(Reading(true, guard), l, idx, ents);
  }

  lemma AppendSettled(guard: bool, l: Log, idx: nat, committed: nat, ents: seq<Entry>, c: nat,
                      b: Outcome<Log>, r: Outcome<(Log, Appended)>, matches: bool)
    requires l.first >= 1 && l.first - 1 <= l.committed
    requires var f := FindConflict(true, l, ents);
             && (f == 0 <==> AllHeld(l, idx, ents)) && (FirstDiffers(l, idx, ents, c) <==> f != 0 && c == f)
             && Settles(guard, l, idx, committed, ents, f, b, r, matches)
    ensures !matches ==> r == Next((l, Rejected))
    ensures matches && r.Next? ==>
              Acknowledges(l, idx, committed, ents, r.value.0, r.value.1) && Overwrites(guard, l, idx, ents, r.value.0, r.value.1, c)
  {
    hide FindConflict, AllHeld, FirstDiffers, Replaced, Acknowledges, Overwrites;
    if matches && r.Next? {
      AppendTaken(guard, l, idx, committed, ents, b.value, FindConflict(true, l, ents), c);
    }
  }

  /** The tail of the log from `c` on is replaced, and what was persisted of it forgotten. */
  function Replaced(guard: bool, l: Log, c: nat, tail: seq<Entry>): Log
    requires 1 <= l.first <= c <= Last(l) + 1
  {
    l.(entries := l.entries[..c - l.first] + tail, offset := Min(l.offset, c), persisted := ResetPersisted(guard, l.persisted, c))
  }

  lemma ReplacedIs(guard: bool, l: Log, c: nat, tail: seq<Entry>)
    requires 1 <= l.first <= c <= Last(l) + 1
    ensures var m := Replaced(guard, l, c, tail);
            && m == l.(entries := l.entries[..c - l.first] + tail, offset := Min(l.offset, c), persisted := m.persisted)
            && (guard ==> m.persisted == Min(l.persisted, c - 1))
  {
  }

  lemma MergedIs(rd: Reading, l: Log, c: nat, tail: seq<Entry>)
    requires Pointers(l) && c >= 1 && tail != [] && tail[0].index == c
    ensures l.first - 1 <= l.committed && WellFormed(l)
    ensures Merged(rd, l, c, tail) == if l.committed < c <= Last(l) + 1 then Next(Replaced(rd.resetGuard, l, c, tail)) else Panic
  {
    hide Term, BaseKnown, ResetPersisted;
  }

  lemma MergeIs(rd: Reading, l: Log, idx: nat, ents: seq<Entry>)
    requires l.first >= 1 && Pointers(l) && Continuous(ents, idx + 1) && WellFormed(l) && l.first - 1 <= l.committed
    ensures var r, c := MergedIfNeeded(rd, l, idx, ents), FindConflict(rd.findConflict, l, ents);
            if c == 0 then r == Next(l)
            else
              && idx < c <= idx + |ents|
              && r == if l.committed < c <= Last(l) + 1 then Next(Replaced(rd.resetGuard, l, c, ents[c - (idx + 1)..])) else Panic
  {
    hide FindConflict, Pointers, Term, WellFormed, Continuous, Merged, Replaced;
    ConflictIndex(rd.findConflict, l, ents, idx + 1);
    var c := FindConflict(rd.findConflict, l, ents);
    if c != 0 {
      TailContinuous(ents, idx + 1, c);
      MergedIs(rd, l, c, ents[c - (idx + 1)..]);
    }
  }

  lemma AppendIs(rd: Reading, l: Log, idx: nat, term: nat, committed: nat, ents: seq<Entry>)
    requires l.first >= 1 && l.first - 1 <= l.committed && WellFormed(l) && Continuous(ents, idx + 1)
    ensures var r, b := MaybeAppend(rd, l, idx, term, committed, ents), MergedIfNeeded(rd, l, idx, ents);
            var to := Min(committed, idx + |ents|);
            if Term(l, idx) != Some(term) then r == Next((l, Rejected))
            else if b == Panic || Max(b.value.committed, Last(b.value)) < to then r == Panic
            else r == Next((b.value.(committed := Max(b.value.committed, to)), Accepted(FindConflict(rd.findConflict, l, ents), idx + |ents|)))
  {
    hide FindConflict, Term, WellFormed, Continuous, MergedIfNeeded;
  }

  /** No entry is of term 0, so one beyond the end of the log is never taken for held. */
  predicate Termed(ents: seq<Entry>) {
    forall j :: 0 <= j < |ents| ==> ents[j].term > 0
  }

  /** An append that starts within the log stops the process exactly if it contradicts a committed entry. */
  lemma AppendStopsExactly(guard: bool, l: Log, idx: nat, term: nat, committed: nat, ents: seq<Entry>)
    requires Pointers(l) && Continuous(ents, idx + 1) && idx <= Last(l) && Termed(ents)
    ensures MaybeAppend(Reading(true, guard), l, idx, term, committed, ents).Panic? <==>
              Term(l, idx) == Some(term) && exists c: nat :: FirstDiffers(l, idx, ents, c) && c <= l.committed
  {
    PointersParts(l);
    hide FindConflict, Pointers, WellFormed, Continuous, FirstDiffers, AllHeld, MaybeAppend, Term;
    ConflictIs(l, idx, ents);
    var c := FindConflict(true, l, ents);
    DiffersWithin(l, idx, ents, c);
    assert c != 0 <==> FirstDiffers(l, idx, ents, c);
    AppendStopsAt(guard, l, idx, term, committed, ents);
  }

  lemma AppendStopsAt(guard: bool, l: Log, idx: nat, term: nat, committed: nat, ents: seq<Entry>)
    requires l.first >= 1 && l.first - 1 <= l.committed <= Last(l) && WellFormed(l) && Pointers(l) && Continuous(ents, idx + 1)
    requires var c := FindConflict(true, l, ents); if c == 0 then idx + |ents| <= Last(l) else c <= Last(l) + 1
    ensures var c := FindConflict(true, l, ents);
            MaybeAppend(Reading(true, guard), l, idx, term, committed, ents).Panic? <==> Term(l, idx) == Some(term) && 0 < c <= l.committed
  {
    hide FindConflict, Pointers, WellFormed, Continuous, MaybeAppend, MergedIfNeeded, Replaced, Term;
    AppendIs(Reading(true, guard), l, idx, term, committed, ents);
    MergeIs(Reading(true, guard), l, idx, ents);
    var c := FindConflict(true, l, ents);
    if l.committed < c <= Last(l) + 1 {
      ReplacedEnd(guard, l, idx, ents, c);
    }
  }

  lemma ReplacedEnd(guard: bool, l: Log, idx: nat, ents: seq<Entry>, c: nat)
    requires 1 <= l.first <= c <= Last(l) + 1 && idx < c <= idx + |ents|
    ensures var b := Replaced(guard, l, c, ents[c - (idx + 1)..]); b.first == l.first && Last(b) == idx + |ents| && b.committed == l.committed
  {
  }

  lemma DiffersWithin(l: Log, idx: nat, ents: seq<Entry>, c: nat)
    requires l.first >= 1 && idx <= Last(l) && Termed(ents)
    ensures AllHeld(l, idx, ents) ==> idx + |ents| <= Last(l)
    ensures FirstDiffers(l, idx, ents, c) ==> c <= Last(l) + 1
  {
    hide FindConflict;
    HeldWithin(l, idx, ents);
    if idx < c <= idx + |ents| {
      HeldWithin(l, idx, ents[..c - idx - 1]);
    }
  }

  lemma HeldWithin(l: Log, idx: nat, ents: seq<Entry>)
    requires l.first >= 1 && idx <= Last(l) && Termed(ents)
    ensures AllHeld(l, idx, ents) ==> idx + |ents| <= Last(l)
  {
    if idx + |ents| > Last(l) {
      assert Term(l, idx + 1 + (|ents| - 1)) != Some(ents[|ents| - 1].term);
    }
  }

  // --------------------------------------------------------------- pointers

  /** The commit index rises to what is named, and never falls; naming more than the log has stops the process. */
  lemma CommitDecides(l: Log, to: nat)
    requires Pointers(l)
    ensures CommitTo(l, to) == if to > Last(l) then Panic else Next(l.(committed := Max(l.committed, to)))
  {
  }

  /** An index commits exactly if it is beyond what is committed and its entry is of the given term. */
  lemma MaybeCommitDecides(l: Log, idx: nat, term: nat)
    requires Pointers(l) && term > 0
    ensures var held := EntryAt(l, idx);
            MaybeCommit(l, idx, term) ==
            Next(l.(committed := if held.Some? && held.value.term == term then Max(l.committed, idx) else l.committed))
  {
  }

  /** The persisted index rises to what was stored, if it was handed over and the store still has it in that term. */
  lemma PersistDecides(l: Log, idx: nat, stored: Option<nat>, term: nat)
    requires Pointers(l)
    ensures var handed := if l.pending then idx < l.first - 1 else idx < l.offset;
            MaybePersist(l, idx, stored, term) ==
            l.(persisted := if handed && stored == Some(term) then Max(l.persisted, idx) else l.persisted)
  {
  }

  /** An index that is both committed and persisted, and not handed out yet. */
  predicate Waits(l: Log, since: nat, i: nat)
    requires l.first >= 1
  {
    l.first <= i <= Last(l) && since < i <= l.committed && i <= l.persisted
  }

  /** All entries that wait. */
  lemma NextAll(l: Log, since: nat)
    requires l.first >= 1 && l.committed <= Last(l)
    ensures NextEntries(l, since, None) ==
            if HasNextEntries(l, since) then l.entries[Max(since + 1, l.first) - l.first..Min(l.committed, l.persisted) + 1 - l.first] else []
  {
    if HasNextEntries(l, since) {
      LimitedPrefix(l.entries[Max(since + 1, l.first) - l.first..Min(l.committed, l.persisted) + 1 - l.first], None);
    }
    hide Limited;
  }

  lemma WaitingHandedOut(l: Log, since: nat)
    requires Pointers(l)
    ensures var all, from, upto := NextEntries(l, since, None), Max(since + 1, l.first), Min(l.committed, l.persisted);
            && |all| == (if upto >= from then upto + 1 - from else 0) && upto <= Last(l)
            && forall k :: 0 <= k < |all| ==> all[k].index == from + k && all[k] == At(l, from + k)
  {
    hide NextEntries, BaseKnown;
    NextAll(l, since);
  }

  lemma LimitedNext(l: Log, since: nat, max: Option<nat>)
    requires l.first >= 1 && l.committed <= Last(l)
    ensures NextEntries(l, since, max) == Limited(NextEntries(l, since, None), max)
  {
    NextAll(l, since);
  }

  predicate HandedAt(es: seq<Entry>, i: nat, k: nat) {
    k < |es| && es[k].index == i
  }

  lemma HandedIfWaits(l: Log, since: nat, i: nat)
    requires Pointers(l)
    ensures Waits(l, since, i) <==> exists k: nat :: HandedAt(NextEntries(l, since, None), i, k)
  {
    PointersParts(l);
    hide NextEntries, WellFormed, Pointers, At;
    WaitingHandedOut(l, since);
    if Waits(l, since, i) {
      assert HandedAt(NextEntries(l, since, None), i, i - Max(since + 1, l.first));
    }
  }

  /** Without a limit every waiting entry is handed out, in order; with one, as many of the first as fit, and at least one. */
  lemma HandsOutExactly(l: Log, since: nat, max: Option<nat>)
    requires Pointers(l)
    ensures var all, es := NextEntries(l, since, None), NextEntries(l, since, max);
            && (forall i: nat :: Waits(l, since, i) <==> exists k: nat :: HandedAt(all, i, k))
            && (forall k :: 0 <= k < |all| ==> all[k].index == Max(since + 1, l.first) + k <= Last(l) && all[k] == At(l, all[k].index))
            && es <= all && (all != [] ==> es != [])
            && (max.Some? && max != Some(NO_LIMIT) ==> Fits(es, max.value) && (|es| < |all| ==> !Fits(all[..|es| + 1], max.value)))
  {
    PointersParts(l);
    hide Limited, Fits, NextEntries, WellFormed, Pointers, HandedAt, Waits;
    WaitingHandedOut(l, since);
    LimitedNext(l, since, max);
    LimitedPrefix(NextEntries(l, since, None), max);
    forall i: nat
      ensures Waits(l, since, i) <==> exists k: nat :: HandedAt(NextEntries(l, since, None), i, k)
    {
      HandedIfWaits(l, since, i);
    }
  }

  // ---------------------------------------------- snapshots and compaction

  /** After a snapshot the log knows one index, the snapshot's; one behind the commit index stops the process. */
  lemma RestoreDecides(l: Log, index: nat, term: nat)
    requires Pointers(l)
    ensures Restore(l, index, term).Panic? <==> index < l.committed
    ensures Restore(l, index, term).Next? ==>
              var m := Restore(l, index, term).value;
              && m.first >= 1 && Last(m) == m.committed == index && m.applied == l.applied && m.pending
              && m.persisted == Min(l.persisted, l.committed)
              && (forall i: nat :: Term(m, i) == Some(if i == index then term else 0)) && (forall i: nat :: EntryAt(m, i) == None)
  {
  }

  /** Compaction drops the entries below its index and no others, and leaves every pointer. */
  lemma CompactDecides(l: Log, index: nat)
    requires Pointers(l) && index <= l.first + |l.entries|
    ensures var m := Compact(l, index);
            && m.first >= 1 && m.committed == l.committed && m.persisted == l.persisted && m.applied == l.applied
            && m.offset == l.offset && m.pending == l.pending && Last(m) == Last(l)
            && forall i: nat :: EntryAt(m, i) == if !l.pending && i < index then None else EntryAt(l, i)
  {
  }
}
