/** The log in its own form: an unstable suffix over a store, refined to one logical sequence. */
module TwoLayerLog {
  import opened Common
  import opened LogSpec

  datatype StoreError = Compacted | Unavailable | SnapshotOutOfDate

  datatype StoreResult<T> = Ok(value: T) | Err(error: StoreError)

  datatype Snapshot = Snapshot(index: nat, term: nat)

  /** `MemStorageCore`, as far as the log reads it. */
  class MemStorage {
    var entries: seq<Entry>
    var meta: Snapshot

    ghost predicate Valid()
      reads this
    {
      && Continuous(entries, FirstIndex())
      && (entries != [] ==> meta.index < entries[0].index)
      && (meta.index == 0 ==> meta.term == 0)
    }

    constructor ()
      ensures Valid() && entries == [] && meta == Snapshot(0, 0)
    {
      entries, meta := [], Snapshot(0, 0);
    }

    function FirstIndex(): nat
      reads this
    {
      if entries != [] then entries[0].index else meta.index + 1
    }

    function LastIndex(): nat
      reads this
    {
      if entries != [] then entries[|entries| - 1].index else meta.index
    }

    lemma Length()
      requires Valid()
      ensures LastIndex() + 1 == FirstIndex() + |entries| && FirstIndex() >= 1
    {
    }

    function Term(idx: nat): StoreResult<nat>
      requires Valid()
      reads this
    {
      if idx == meta.index then Ok(meta.term)
      else if idx < FirstIndex() then Err(Compacted)
      else if idx > LastIndex() then Err(Unavailable)
      else Ok(entries[idx - FirstIndex()].term)
    }

    /** The stored entries from `low` up to `high`, limited in size. */
    method Entries(low: nat, high: nat, max: Option<nat>) returns (r: Outcome<StoreResult<seq<Entry>>>)
      requires Valid()
      ensures low < FirstIndex() ==> r == Next(Err(Compacted))
      ensures FirstIndex() <= low <= high <= LastIndex() + 1 && entries != [] ==>
                r == Next(Ok(Limited(entries[low - FirstIndex()..high - FirstIndex()], max)))
      ensures FirstIndex() <= low && (high > LastIndex() + 1 || high < low || entries == []) ==> r == Panic
    {
      if low < FirstIndex() {
        return Next(Err(Compacted));
      }
      if high > LastIndex() + 1 || entries == [] || high < low {
        return Panic;
      }
      var offset := entries[0].index;
      var ents := LimitSize(entries[low - offset..high - offset], max);
      r := Next(Ok(ents));
    }

    method Append(ents: seq<Entry>) returns (r: Outcome<()>)
      requires Valid() && (ents != [] ==> Continuous(ents, ents[0].index))
      modifies this`entries
      ensures ents == [] ==> r == Next(()) && entries == old(entries)
      ensures ents != [] ==>
                (r == Next(()) <==> old(FirstIndex()) <= ents[0].index <= old(LastIndex()) + 1)
      ensures ents != [] && r.Next? ==>
                Valid() && FirstIndex() == old(FirstIndex()) && 0 <= ents[0].index - old(FirstIndex()) <= |old(entries)|
                && entries == old(entries)[..ents[0].index - old(FirstIndex())] + ents
    {
      if ents == [] {
        return Next(());
      }
      if FirstIndex() > ents[0].index || LastIndex() + 1 < ents[0].index {
        return Panic;
      }
      var diff := ents[0].index - FirstIndex();
      entries := entries[..diff] + ents;
      r := Next(());
    }

    /** `compact`; an emptied store falls back to its snapshot's indexes. */
    method Compact(index: nat) returns (r: Outcome<()>)
      requires Valid()
      modifies this`entries
      ensures r == Panic <==> index > old(FirstIndex()) && index > old(LastIndex()) + 1
      ensures r == Panic || index <= old(FirstIndex()) ==> entries == old(entries)
      ensures r.Next? && index > old(FirstIndex()) ==> 0 < index - old(FirstIndex()) <= |old(entries)| && entries == old(entries)[index - old(FirstIndex())..]
      ensures Valid() && (r.Next? ==> FirstIndex() == if entries == [] then meta.index + 1 else Max(index, old(FirstIndex())))
    {
      r := Next(());
      if index <= FirstIndex() {
        return;
      }
      if index > LastIndex() + 1 {
        return Panic;
      }
      entries := entries[index - entries[0].index..];
    }

    /** What the application does with a `Ready`: apply its snapshot, if any, then append its entries. */
    method Receive(s: Option<Snapshot>, ents: seq<Entry>) returns (ok: bool)
      requires Valid() && (ents != [] ==> Continuous(ents, ents[0].index))
      requires s.Some? ==> s.value.index > 0 && (ents != [] ==> ents[0].index == s.value.index + 1)
      requires s == None && ents != [] ==> FirstIndex() <= ents[0].index <= LastIndex() + 1
      modifies this
      ensures ok <==> (s == None || old(FirstIndex()) <= s.value.index)
      ensures ok ==> Valid()
      ensures ok && s.Some? ==> meta == s.value && entries == ents && FirstIndex() == s.value.index + 1
      ensures ok && s == None && ents == [] ==> meta == old(meta) && entries == old(entries)
      ensures ok && s == None && ents != [] ==>
                meta == old(meta) && FirstIndex() == old(FirstIndex())
                && 0 <= ents[0].index - old(FirstIndex()) <= |old(entries)|
                && entries == old(entries)[..ents[0].index - old(FirstIndex())] + ents
    {
      ok := true;
      if s.Some? {
        var applied := ApplySnapshot(s.value);
        if applied.Err? {
          return false;
        }
      }
      Length();
      var done := Append(ents);
    }

    method ApplySnapshot(s: Snapshot) returns (r: StoreResult<()>)
      requires Valid()
      modifies this
      ensures Valid()
      ensures if old(FirstIndex()) > s.index then r == Err(SnapshotOutOfDate) && entries == old(entries) && meta == old(meta)
              else r == Ok(()) && entries == [] && meta == s
    {
      if FirstIndex() > s.index {
        return Err(SnapshotOutOfDate);
      }
      entries, meta := [], s;
      r := Ok(());
    }
  }

  function ApproximateSize(e: Entry): nat {
    |e.data| + |e.context| + 12
  }

  function Sizes(es: seq<Entry>): nat
    decreases |es|
  {
    if es == [] then 0 else Sizes(es[..|es| - 1]) + ApproximateSize(es[|es| - 1])
  }

  lemma {:induction false} SizesConcat(a: seq<Entry>, b: seq<Entry>)
    ensures Sizes(a + b) == Sizes(a) + Sizes(b)
    decreases |b|
  {
    if b == [] {
      assert a + b == a;
    } else {
      assert (a + b)[..|a + b| - 1] == a + b[..|b| - 1];
      SizesConcat(a, b[..|b| - 1]);
    }
  }

  method SumSizes(es: seq<Entry>) returns (n: nat)
    ensures n == Sizes(es)
  {
    n := 0;
    for i := 0 to |es|
      invariant n == Sizes(es[..i])
    {
      assert es[..i + 1][..i] == es[..i];
      n := n + ApproximateSize(es[i]);
    }
    assert es[..|es|] == es;
  }

  /** What is left of `u`, which starts at `off`, when `ents` replace it from their index on. */
  function Truncated(u: seq<Entry>, off: nat, ents: seq<Entry>): seq<Entry> {
    if ents == [] || ents[0].index > off + |u| then u
    else (if ents[0].index <= off then [] else u[..ents[0].index - off]) + ents
  }

  /** Entries that are the first `n` of `s` followed by `u`. */
  predicate TwoLayers(es: seq<Entry>, s: seq<Entry>, n: int, u: seq<Entry>) {
    0 <= n <= |s| && es == s[..n] + u
  }

  class Unstable {
    var snapshot: Option<Snapshot>
    var entries: seq<Entry>
    var entriesSize: nat
    var offset: nat

    ghost predicate Valid()
      reads this
    {
      && Continuous(entries, offset)
      && entriesSize == Sizes(entries)
    }

    /** A waiting snapshot is of something, and the entries start right after it. */
    ghost predicate Aligned()
      reads this
    {
      snapshot.Some? ==> offset == snapshot.value.index + 1 && snapshot.value.index > 0
    }

    constructor (offset: nat)
      ensures Valid() && entries == [] && snapshot == None && this.offset == offset
    {
      this.offset, snapshot, entries, entriesSize := offset, None, [], 0;
    }

    function MaybeFirstIndex(): Option<nat>
      reads this
    {
      if snapshot.Some? then Some(snapshot.value.index + 1) else None
    }

    function MaybeLastIndex(): Option<int>
      reads this
    {
      if |entries| == 0 then if snapshot.Some? then Some(snapshot.value.index) else None
      else Some(offset + |entries| - 1)
    }

    function MaybeTerm(idx: nat): Option<nat>
      requires Valid() && Aligned()
      reads this
    {
      if idx < offset then
        if snapshot.Some? && idx == snapshot.value.index then Some(snapshot.value.term) else None
      else if MaybeLastIndex() == None || idx > MaybeLastIndex().value then None
      else Some(entries[idx - offset].term)
    }

    method StableEntries(index: nat, term: nat) returns (r: Outcome<()>)
      requires Valid()
      modifies this
      ensures r.Next? <==> old(snapshot == None && entries != []
                               && entries[|entries| - 1].index == index && entries[|entries| - 1].term == term)
      ensures r.Next? ==> Valid() && entries == [] && offset == index + 1 && snapshot == None
    {
      if snapshot.Some? || entries == [] {
        return Panic;
      }
      var entry := entries[|entries| - 1];
      if entry.index != index || entry.term != term {
        return Panic;
      }
      offset := entry.index + 1;
      entries := [];
      entriesSize := 0;
      r := Next(());
    }

    method StableSnap(index: nat) returns (r: Outcome<()>)
      requires Valid()
      modifies this`snapshot
      ensures r.Next? <==> old(snapshot.Some? && snapshot.value.index == index)
      ensures r.Next? ==> Valid() && snapshot == None
    {
      if snapshot == None || snapshot.value.index != index {
        return Panic;
      }
      snapshot := None;
      r := Next(());
    }

    method Restore(s: Snapshot)
      modifies this
      ensures Valid() && (s.index > 0 ==> Aligned()) && snapshot == Some(s) && entries == [] && offset == s.index + 1
    {
      entries := [];
      entriesSize := 0;
      offset := s.index + 1;
      snapshot := Some(s);
    }

    /** Appends in place, first dropping what `ents` overlaps. */
    method TruncateAndAppend(ents: seq<Entry>) returns (r: Outcome<()>)
      requires Valid() && ents != [] && Continuous(ents, ents[0].index)
      modifies this
      ensures r.Next? <==> ents[0].index <= old(offset + |entries|)
      ensures r.Next? ==> Valid() && snapshot == old(snapshot) && offset == Min(old(offset), ents[0].index)
      ensures r.Next? ==> entries == Truncated(old(entries), old(offset), ents)
    {
      var after := ents[0].index;
      if after == offset + |entries| {
        assert entries[..|entries|] == entries;
      } else if after <= offset {
        offset := after;
        entries := [];
        entriesSize := 0;
      } else {
        if after > offset + |entries| {
          return Panic;
        }
        Truncate(after - offset);
      }
      Extend(ents);
      r := Next(());
    }

    method Truncate(n: nat)
      requires Valid() && n <= |entries|
      modifies this`entries, this`entriesSize
      ensures Valid() && entries == old(entries)[..n]
    {
      var dropped := SumSizes(entries[n..]);
      SizesConcat(entries[..n], entries[n..]);
      assert entries[..n] + entries[n..] == entries;
      entriesSize := entriesSize - dropped;
      entries := entries[..n];
    }

    method Extend(ents: seq<Entry>)
      requires Valid() && Continuous(ents, offset + |entries|)
      modifies this`entries, this`entriesSize
      ensures Valid() && entries == old(entries) + ents
    {
      var added := SumSizes(ents);
      SizesConcat(entries, ents);
      entries := entries + ents;
      entriesSize := entriesSize + added;
    }

    function Slice(lo: nat, hi: nat): seq<Entry>
      requires offset <= lo <= hi <= offset + |entries|
      reads this
    {
      entries[lo - offset..hi - offset]
    }
  }

  /** Cutting the two layers together at `at` is cutting each. */
  lemma CutLayers(s: seq<Entry>, u: seq<Entry>, n: nat, at: nat)
    requires n <= |s| && at <= n + |u|
    ensures (s[..n] + u)[..at] == if at <= n then s[..at] else s[..n] + u[..at - n]
  {
  }

  lemma DropFirst(s: seq<Entry>, u: seq<Entry>, k: nat)
    requires k <= |s|
    ensures (s + u)[k..] == s[k..] + u
  {
  }

  // A range of two layers: `s` from index `f` up to `off`, then `u`.

  function RangeIn(s: seq<Entry>, u: seq<Entry>, f: nat, off: nat, low: nat, high: nat): seq<Entry> {
    if f <= off <= f + |s| && f <= low <= high <= off + |u| then (s[..off - f] + u)[low - f..high - f] else []
  }

  function LowerIn(s: seq<Entry>, f: nat, off: nat, low: nat, high: nat): seq<Entry> {
    if f <= low < Min(high, off) <= f + |s| then s[low - f..Min(high, off) - f] else []
  }

  function UpperIn(u: seq<Entry>, off: nat, low: nat, high: nat): seq<Entry> {
    if off < high <= off + |u| && low < high then u[Max(low, off) - off..high - off] else []
  }

  lemma RangeOfLayers(s: seq<Entry>, u: seq<Entry>, f: nat, off: nat, low: nat, high: nat)
    requires f <= off <= f + |s| && f <= low < high <= off + |u|
    ensures RangeIn(s, u, f, off, low, high) == LowerIn(s, f, off, low, high) + UpperIn(u, off, low, high)
  {
    PartsBelow(s, u, f, off, low, high);
    PartsAbove(s, u, f, off, low, high);
    PartsAcross(s, u, f, off, low, high);
    hide *;
  }

  lemma PartsBelow(s: seq<Entry>, u: seq<Entry>, f: nat, off: nat, low: nat, high: nat)
    requires f <= off <= f + |s| && f <= low < high <= off + |u|
    ensures high <= off ==> RangeIn(s, u, f, off, low, high) == LowerIn(s, f, off, low, high) + UpperIn(u, off, low, high)
  {
    if high <= off {
      hide *;
      var k, x, y := off - f, low - f, high - f;
      RangeIs(s, u, f, off, low, high, k, x, y);
      LowerIs(s, f, off, low, high, x, y);
      NoUpper(u, off, low, high);
      RangeBelow(s, u, k, x, y);
      NothingAfter(s[x..y]);
    }
  }

  lemma PartsAbove(s: seq<Entry>, u: seq<Entry>, f: nat, off: nat, low: nat, high: nat)
    requires f <= off <= f + |s| && f <= low < high <= off + |u|
    ensures low >= off ==> RangeIn(s, u, f, off, low, high) == LowerIn(s, f, off, low, high) + UpperIn(u, off, low, high)
  {
    if low >= off {
      hide *;
      var k, x, y := off - f, low - f, high - f;
      RangeIs(s, u, f, off, low, high, k, x, y);
      UpperIs(u, off, low, high, x - k, y - k);
      NoLower(s, f, off, low, high);
      RangeAbove(s, u, k, x, y);
      NothingBefore(u[x - k..y - k]);
    }
  }

  lemma PartsAcross(s: seq<Entry>, u: seq<Entry>, f: nat, off: nat, low: nat, high: nat)
    requires f <= off <= f + |s| && f <= low < high <= off + |u|
    ensures low < off < high ==> RangeIn(s, u, f, off, low, high) == LowerIn(s, f, off, low, high) + UpperIn(u, off, low, high)
  {
    if low < off < high {
      hide *;
      var k, x, y := off - f, low - f, high - f;
      RangeIs(s, u, f, off, low, high, k, x, y);
      LowerIs(s, f, off, low, high, x, k);
      UpperIs(u, off, low, high, 0, y - k);
      RangeAcross(s, u, k, x, y);
    }
  }

  lemma RangeIs(s: seq<Entry>, u: seq<Entry>, f: nat, off: nat, low: nat, high: nat, k: nat, x: nat, y: nat)
    requires f <= off <= f + |s| && f <= low < high <= off + |u|
    requires k == off - f && x == low - f && y == high - f
    ensures RangeIn(s, u, f, off, low, high) == (s[..k] + u)[x..y]
  {
  }

  lemma LowerIs(s: seq<Entry>, f: nat, off: nat, low: nat, high: nat, x: nat, z: nat)
    requires f <= low < high && low < off <= f + |s|
    requires x == low - f && z == (if high <= off then high else off) - f
    ensures LowerIn(s, f, off, low, high) == s[x..z]
  {
  }

  lemma UpperIs(u: seq<Entry>, off: nat, low: nat, high: nat, a: nat, b: nat)
    requires off < high <= off + |u| && low < high
    requires a == (if low >= off then low else off) - off && b == high - off
    ensures UpperIn(u, off, low, high) == u[a..b]
  {
  }

  lemma NoLower(s: seq<Entry>, f: nat, off: nat, low: nat, high: nat)
    requires low >= off
    ensures LowerIn(s, f, off, low, high) == []
  {
  }

  lemma NoUpper(u: seq<Entry>, off: nat, low: nat, high: nat)
    requires high <= off
    ensures UpperIn(u, off, low, high) == []
  {
  }

  lemma RangeBelow(s: seq<Entry>, u: seq<Entry>, k: nat, a: nat, b: nat)
    requires k <= |s| && a <= b <= k
    ensures (s[..k] + u)[a..b] == s[a..b]
  {
  }

  lemma RangeAbove(s: seq<Entry>, u: seq<Entry>, k: nat, a: nat, b: nat)
    requires k <= |s| && k <= a <= b <= k + |u|
    ensures (s[..k] + u)[a..b] == u[a - k..b - k]
  {
  }

  lemma RangeAcross(s: seq<Entry>, u: seq<Entry>, k: nat, a: nat, b: nat)
    requires k <= |s| && a <= k <= b <= k + |u|
    ensures (s[..k] + u)[a..b] == s[a..k] + u[0..b - k]
  {
  }

  lemma NothingAfter(s: seq<Entry>)
    ensures s + [] == s
  {
  }

  lemma NothingBefore(s: seq<Entry>)
    ensures [] + s == s
  {
  }

  lemma LastOf(es: seq<Entry>, index: nat)
    requires Continuous(es, index)
    ensures es != [] ==> es[|es| - 1].index == index + |es| - 1
  {
  }

  lemma FirstOf(es: seq<Entry>, index: nat)
    requires Continuous(es, index)
    ensures es != [] ==> es[0].index == index
  {
  }

  class RaftLog {
    const store: MemStorage
    const unstable: Unstable
    var committed: nat
    var persisted: nat
    var applied: nat

    /** How the two layers fit together. */
    ghost predicate Layered()
      reads store, unstable
    {
      && store.Valid() && unstable.Valid() && unstable.Aligned()
      && (unstable.snapshot == None ==>
            store.FirstIndex() <= unstable.offset <= store.LastIndex() + 1
            && (unstable.entries == [] ==> unstable.offset == store.LastIndex() + 1))
    }

    ghost predicate Valid()
      reads this, store, unstable
    {
      Layered() && FirstIndex() - 1 <= committed <= LastIndex()
    }

    /** The entries of the log: what is stored below the unstable part, and the unstable part. */
    ghost function Entries(): seq<Entry>
      requires Layered()
      reads store, unstable
    {
      if unstable.snapshot.Some? then unstable.entries
      else store.entries[..unstable.offset - store.FirstIndex()] + unstable.entries
    }

    ghost function Base(): Option<nat>
      reads store, unstable
    {
      if unstable.snapshot.Some? then Some(unstable.snapshot.value.term)
      else if store.meta.index == store.FirstIndex() - 1 then Some(store.meta.term)
      else None
    }

    ghost function Abs(): (l: Log)
      requires Layered()
      reads this, store, unstable
      ensures WellFormed(l) && Last(l) == LastIndex()
    {
      Log(FirstIndex(), Base(), Entries(), committed, persisted, applied, unstable.offset, unstable.snapshot.Some?)
    }

    function FirstIndex(): nat
      reads store, unstable
    {
      match unstable.MaybeFirstIndex() case Some(idx) => idx case None => store.FirstIndex()
    }

    function LastIndex(): int
      reads store, unstable
    {
      match unstable.MaybeLastIndex() case Some(idx) => idx case None => store.LastIndex()
    }

    lemma AbsIs()
      requires Layered()
      ensures LogSpec.Term(Abs(), LastIndex()).Some?
    {
    }

    constructor (store: MemStorage)
      requires store.Valid()
      ensures Valid() && this.store == store && fresh(unstable)
      ensures Abs() == Opened(store.FirstIndex(), Base(), store.entries)
    {
      this.store := store;
      unstable := new Unstable(store.LastIndex() + 1);
      committed, persisted, applied := store.FirstIndex() - 1, store.LastIndex(), store.FirstIndex() - 1;
      new;
      assert store.entries[..unstable.offset - store.FirstIndex()] == store.entries;
    }

    /** The term of an index; the error is that of the store. */
    function Term(idx: nat): (t: StoreResult<nat>)
      requires Layered()
      reads this, store, unstable
      ensures t == match LogSpec.Term(Abs(), idx) case Some(v) => Ok(v) case None => Err(Compacted)
    {
      AbsIs();
      if idx < FirstIndex() - 1 || idx > LastIndex() then Ok(0)
      else
        match unstable.MaybeTerm(idx)
        case Some(t) => Ok(t)
        case None => store.Term(idx)
    }

    predicate MatchTerm(idx: nat, term: nat)
      requires Layered()
      reads this, store, unstable
    {
      Term(idx) == Ok(term)
    }

    /** Never an error: an empty log knows the term it starts after. */
    function LastTerm(): (t: nat)
      requires Valid()
      reads this, store, unstable
      ensures Some(t) == LogSpec.Term(Abs(), LastIndex())
    {
      AbsIs();
      match Term(LastIndex()) case Ok(t) => t
    }

    method FindConflict(documented: bool, ents: seq<Entry>) returns (c: nat)
      requires Valid() && (ents != [] ==> Continuous(ents, ents[0].index))
      ensures c == LogSpec.FindConflict(documented, Abs(), ents)
    {
      AbsIs();
      for i := 0 to |ents|
        invariant LogSpec.FindConflict(documented, Abs(), ents) == LogSpec.FindConflict(documented, Abs(), ents[i..])
      {
        assert ents[i..][1..] == ents[i + 1..];
        if !documented {
          return ents[i].index;
        }
        if !MatchTerm(ents[i].index, ents[i].term) {
          return ents[i].index;
        }
      }
      c := 0;
    }

    /**
      The last index up to `index` whose term is at most `term`: everything above it
      is of a later term. Below the known terms there is no answer.
     */
    method FindConflictByTerm(index: nat, term: nat) returns (c: nat, t: Option<nat>)
      requires Valid()
      ensures index > LastIndex() ==> c == index && t == None
      ensures index <= LastIndex() ==>
                c <= index && LogSpec.Term(Abs(), c) == t && (t.Some? ==> t.value <= term)
                && forall i :: c < i <= index ==> LogSpec.Term(Abs(), i).Some? && LogSpec.Term(Abs(), i).value > term
    {
      AbsIs();
      c := index;
      if index > LastIndex() {
        return index, None;
      }
      while true
        invariant c <= index
        invariant forall i :: c < i <= index ==> LogSpec.Term(Abs(), i).Some? && LogSpec.Term(Abs(), i).value > term
        decreases c
      {
        match Term(c) {
          case Ok(u) =>
            if u > term {
              c := c - 1;
            } else {
              return c, Some(u);
            }
          case Err(_) => return c, None;
        }
      }
    }

    method CommitTo(to: nat) returns (r: Outcome<()>)
      requires Valid()
      modifies this`committed
      ensures match LogSpec.CommitTo(old(Abs()), to)
              case Panic => r == Panic
              case Next(l) => r == Next(()) && Valid() && Abs() == l
    {
      AbsIs();
      if committed >= to {
        return Next(());
      }
      if LastIndex() < to {
        return Panic;
      }
      committed := to;
      r := Next(());
    }

    method AppliedTo(idx: nat) returns (r: Outcome<()>)
      requires Valid()
      modifies this`applied
      ensures match LogSpec.AppliedTo(old(Abs()), idx)
              case Panic => r == Panic
              case Next(l) => r == Next(()) && Valid() && Abs() == l
    {
      if idx == 0 {
        return Next(());
      }
      if idx > Min(committed, persisted) || idx < applied {
        return Panic;
      }
      applied := idx;
      r := Next(());
    }

    method MaybeCommit(maxIndex: nat, term: nat) returns (r: Outcome<bool>)
      requires Valid()
      modifies this`committed
      ensures match LogSpec.MaybeCommit(old(Abs()), maxIndex, term)
              case Panic => r == Panic
              case Next(l) => r == Next(l.committed != old(committed)) && Valid() && Abs() == l
    {
      AbsIs();
      if maxIndex > committed && Term(maxIndex) == Ok(term) {
        var done := CommitTo(maxIndex);
        if done.Panic? {
          return Panic;
        }
        r := Next(true);
      } else {
        r := Next(false);
      }
    }

    /** What splicing the unstable part does to the whole; `u` and `off` are its entries and offset before. */
    lemma SplicedLayers(es: seq<Entry>, u: seq<Entry>, off: nat, ents: seq<Entry>)
      requires store.Valid() && unstable.Valid() && unstable.Aligned()
      requires ents != [] && FirstIndex() <= off && FirstIndex() <= ents[0].index <= off + |u|
      requires unstable.offset == Min(off, ents[0].index)
      requires unstable.entries == Truncated(u, off, ents)
      requires unstable.snapshot.Some? ==> es == u && FirstIndex() == off
      requires unstable.snapshot == None ==> off <= store.LastIndex() + 1 && TwoLayers(es, store.entries, off - FirstIndex(), u)
      ensures ents[0].index - FirstIndex() <= |es|
      ensures Layered() && Entries() == es[..ents[0].index - FirstIndex()] + ents
    {
      store.Length();
      hide Continuous, Sizes;
      if unstable.snapshot == None {
        CutLayers(store.entries, u, off - FirstIndex(), ents[0].index - FirstIndex());
      }
    }

    /** Splices the entries in at their index: the logical log below it is kept, the rest replaced. */
    method Append(ents: seq<Entry>) returns (r: Outcome<nat>)
      requires Valid() && (ents != [] ==> ents[0].index >= 1 && Continuous(ents, ents[0].index))
      modifies unstable
      ensures match LogSpec.Append(old(Abs()), ents)
              case Panic => r == Panic
              case Next(l) => Layered() && Abs() == l && r == Next(LastIndex())
      ensures r.Next? ==> Valid()
    {
      LayersAre();
      hide Continuous, Sizes, WellFormed, LogSpec.Term, BaseKnown, Layered, Entries, Spliced, Truncated, TwoLayers;
      if ents == [] {
        return Next(LastIndex());
      }
      var after := ents[0].index - 1;
      if after < committed {
        return Panic;
      }
      ghost var before, u, off := Abs(), unstable.entries, unstable.offset;
      var done := unstable.TruncateAndAppend(ents);
      if done.Panic? {
        return Panic;
      }
      SplicedLayers(before.entries, u, off, ents);
      SplicedAbs(before, ents);
      r := Next(LastIndex());
    }

    lemma LayersAre()
      requires Layered()
      ensures store.Valid() && unstable.Valid() && unstable.Aligned() && FirstIndex() == Abs().first <= unstable.offset
      ensures unstable.offset + |unstable.entries| == LastIndex() + 1 == Last(Abs()) + 1
      ensures unstable.snapshot.Some? ==> Abs().entries == unstable.entries && FirstIndex() == unstable.offset
      ensures unstable.snapshot == None ==>
                unstable.offset <= store.LastIndex() + 1
                && TwoLayers(Abs().entries, store.entries, unstable.offset - FirstIndex(), unstable.entries)
    {
      store.Length();
      hide Continuous, Sizes;
    }

    lemma SplicedAbs(before: Log, ents: seq<Entry>)
      requires Layered() && ents != [] && before.first <= ents[0].index <= before.first + |before.entries|
      requires Entries() == before.entries[..ents[0].index - before.first] + ents
      requires before == Abs().(entries := before.entries, offset := before.offset)
      requires unstable.offset == Min(before.offset, ents[0].index)
      ensures Abs() == Spliced(before, ents) && LastIndex() == ents[0].index + |ents| - 1
    {
      hide Layered, Entries, Base;
    }

    /** The entries from a conflict on go in, and what was persisted of the old ones is forgotten. */
    method Merge(rd: Reading, conflict: nat, ents: seq<Entry>) returns (r: Outcome<()>)
      requires Valid() && conflict >= 1 && ents != [] && Continuous(ents, conflict)
      modifies this`persisted, unstable
      ensures match Merged(rd, old(Abs()), conflict, ents)
              case Panic => r == Panic
              case Next(l) => r == Next(()) && Valid() && Abs() == l
    {
      FirstOf(ents, conflict);
      MergePre(conflict);
      hide Continuous, Sizes, WellFormed, LogSpec.Term, BaseKnown, Spliced, Layered, Entries, Base, FirstIndex, LastIndex, ResetPersisted, LogSpec.Append;
      if conflict <= committed {
        return Panic;
      }
      var done := Append(ents);
      if done.Panic? {
        return Panic;
      }
      ForgetPersisted(ResetPersisted(rd.resetGuard, persisted, conflict));
      r := Next(());
    }

    lemma MergePre(conflict: nat)
      requires Valid()
      ensures WellFormed(Abs()) && Abs().first - 1 <= committed
    {
    }

    method ForgetPersisted(index: nat)
      requires Valid()
      modifies this`persisted
      ensures Valid() && Abs() == old(Abs()).(persisted := index) && persisted == index
    {
      persisted := index;
    }

    method MergeIfNeeded(rd: Reading, idx: nat, ents: seq<Entry>) returns (r: Outcome<nat>)
      requires Valid() && Continuous(ents, idx + 1)
      modifies this`persisted, unstable
      ensures match MergedIfNeeded(rd, old(Abs()), idx, ents)
              case Panic => r == Panic
              case Next(l) => Valid() && Abs() == l && r == Next(LogSpec.FindConflict(rd.findConflict, old(Abs()), ents))
    {
      hide Sizes, BaseKnown, Merged, Layered, Entries, Base, FirstIndex, LastIndex;
      var conflict := FindConflict(rd.findConflict, ents);
      ConflictIndex(rd.findConflict, Abs(), ents, idx + 1);
      hide LogSpec.FindConflict, LogSpec.Term;
      if conflict != 0 {
        TailContinuous(ents, idx + 1, conflict);
        hide Continuous;
        var done := Merge(rd, conflict, ents[conflict - (idx + 1)..]);
        if done.Panic? {
          return Panic;
        }
      }
      r := Next(conflict);
    }

    /** Answers with the conflict and the last new index, or with a rejection. */
    method MaybeAppend(rd: Reading, idx: nat, term: nat, leaderCommit: nat, ents: seq<Entry>) returns (r: Outcome<Appended>)
      requires Valid() && Continuous(ents, idx + 1)
      modifies this`committed, this`persisted, unstable
      ensures match LogSpec.MaybeAppend(rd, old(Abs()), idx, term, leaderCommit, ents)
              case Panic => r == Panic
              case Next(p) => r == Next(p.1) && Valid() && Abs() == p.0
    {
      hide Sizes, BaseKnown, MergedIfNeeded, Layered, Entries, Base, FirstIndex, LastIndex, LogSpec.CommitTo, LogSpec.FindConflict;
      if !MatchTerm(idx, term) {
        return Next(Rejected);
      }
      var conflict := MergeIfNeeded(rd, idx, ents);
      if conflict.Panic? {
        return Panic;
      }
      hide LogSpec.Term, Continuous;
      var lastNew := idx + |ents|;
      var done := CommitTo(Min(leaderCommit, lastNew));
      if done.Panic? {
        return Panic;
      }
      r := Next(Accepted(conflict.value, lastNew));
    }

    method MaybePersist(index: nat, term: nat) returns (updated: bool)
      requires Valid()
      modifies this`persisted
      ensures Valid()
      ensures Abs() == LogSpec.MaybePersist(old(Abs()), index, Stored(index), term)
      ensures updated <==> persisted != old(persisted)
    {
      AbsIs();
      var firstUpdate := match unstable.snapshot case Some(s) => s.index case None => unstable.offset;
      if index > persisted && index < firstUpdate && store.Term(index) == Ok(term) {
        persisted := index;
        updated := true;
      } else {
        updated := false;
      }
    }

    ghost function Stored(index: nat): Option<nat>
      requires Layered()
      reads store, unstable
    {
      match store.Term(index) case Ok(t) => Some(t) case Err(_) => None
    }

    /** Without a pending snapshot, what the store says of an index below the unstable part is what the log says. */
    lemma StoredIsLogged(index: nat)
      requires Layered() && unstable.snapshot == None && FirstIndex() - 1 <= index < unstable.offset
      ensures Stored(index) == LogSpec.Term(Abs(), index)
    {
      AbsIs();
    }

    method MaybePersistSnap(index: nat) returns (r: Outcome<bool>)
      requires Valid()
      modifies this`persisted
      ensures match LogSpec.MaybePersistSnap(old(Abs()), index)
              case Panic => r == Panic
              case Next(l) => r == Next(l.persisted != old(persisted)) && Valid() && Abs() == l
    {
      if index > persisted {
        if index > committed || index >= unstable.offset {
          return Panic;
        }
        persisted := index;
        r := Next(true);
      } else {
        r := Next(false);
      }
    }

    method RestoreSnapshot(s: Snapshot) returns (r: Outcome<()>)
      requires Valid() && s.index > 0
      modifies this, unstable
      ensures match LogSpec.Restore(old(Abs()), s.index, s.term)
              case Panic => r == Panic
              case Next(l) => r == Next(()) && Valid() && Abs() == l && unstable.snapshot == Some(s)
    {
      if s.index < committed {
        return Panic;
      }
      if persisted > committed {
        persisted := committed;
      }
      committed := s.index;
      unstable.Restore(s);
      r := Next(());
    }

    /** The store already holds what the unstable part is about to hand over. */
    ghost predicate Saved()
      requires Layered()
      reads store, unstable
    {
      && (unstable.snapshot.Some? ==> store.meta == unstable.snapshot.value && store.FirstIndex() == unstable.offset)
      && store.FirstIndex() <= unstable.offset <= store.LastIndex() + 1
      && unstable.offset + |unstable.entries| == store.LastIndex() + 1
      && store.entries[unstable.offset - store.FirstIndex()..] == unstable.entries
    }

    /** The application writes the pending snapshot and entries to the store; the log stays the same. */
    method Save() returns (ok: bool)
      requires Valid()
      modifies store
      ensures ok <==> (unstable.snapshot == None || old(store.FirstIndex()) <= unstable.snapshot.value.index)
      ensures ok ==> Valid() && Saved() && Abs() == old(Abs())
    {
      BelowIs();
      ghost var first, base, below := FirstIndex(), Base(), Below();
      hide Continuous, Sizes, WellFormed, Layered, Entries, Below;
      ok := store.Receive(unstable.snapshot, unstable.entries);
      if ok {
        assert store.entries == below + unstable.entries && FirstIndex() == first && Base() == base;
        SavedLayers(below);
        hide Saved, FirstIndex, Base;
      }
    }

    /** The live part of the store. */
    ghost function Below(): seq<Entry>
      reads store, unstable
    {
      if unstable.snapshot == None && store.FirstIndex() <= unstable.offset <= store.FirstIndex() + |store.entries|
      then store.entries[..unstable.offset - store.FirstIndex()] else []
    }

    lemma BelowIs()
      requires Layered()
      ensures Entries() == Below() + unstable.entries
      ensures unstable.entries != [] ==> unstable.entries[0].index == unstable.offset
      ensures unstable.snapshot.Some? ==> Below() == [] && unstable.offset == FirstIndex() == unstable.snapshot.value.index + 1
      ensures unstable.snapshot == None ==>
                |Below()| == unstable.offset - store.FirstIndex() <= |store.entries|
                && Below() == store.entries[..unstable.offset - store.FirstIndex()]
                && unstable.offset <= store.LastIndex() + 1
      ensures unstable.entries == [] && unstable.snapshot == None ==> Below() == store.entries
    {
      store.Length();
      FirstOf(unstable.entries, unstable.offset);
      hide Continuous, Sizes;
    }

    /** What appending the unstable entries to the store leaves of the two layers. */
    lemma SavedLayers(below: seq<Entry>)
      requires store.Valid() && unstable.Valid() && unstable.Aligned() && store.entries == below + unstable.entries
      requires |below| == unstable.offset - store.FirstIndex()
      requires unstable.snapshot.Some? ==> store.meta == unstable.snapshot.value && below == []
      ensures Layered() && Saved()
      ensures Entries() == if unstable.snapshot.Some? then unstable.entries else below + unstable.entries
    {
      store.Length();
      hide Continuous, Sizes;
      assert store.entries[..|below|] == below && store.entries[|below|..] == unstable.entries;
    }

    method StableSnap(index: nat) returns (r: Outcome<()>)
      requires Valid() && Saved()
      modifies unstable
      ensures match LogSpec.StableSnap(old(Abs()), index)
              case Panic => r == Panic
              case Next(l) => r == Next(()) && Valid() && Saved() && Abs() == l
    {
      var done := unstable.StableSnap(index);
      if done.Panic? {
        return Panic;
      }
      store.Length();
      assert store.entries[..0] + unstable.entries == unstable.entries;
      r := Next(());
    }

    method StableEntries(index: nat, term: nat) returns (r: Outcome<()>)
      requires Valid() && Saved()
      modifies unstable
      ensures match LogSpec.StableEntries(old(Abs()), index, term)
              case Panic => r == Panic
              case Next(l) => r == Next(()) && Valid() && Saved() && Abs() == l
    {
      hide Continuous, Sizes, WellFormed, Layered, Saved, Entries, LogSpec.StableEntries;
      StableEntriesIs(index, term);
      SavedIs();
      ghost var es := Entries();
      var done := unstable.StableEntries(index, term);
      if done.Panic? {
        return Panic;
      }
      AllStable();
      r := Next(());
    }

    /** When `stable_entries` goes through, in terms of the unstable part. */
    lemma StableEntriesIs(index: nat, term: nat)
      requires Layered()
      ensures LogSpec.StableEntries(Abs(), index, term) ==
              if unstable.snapshot == None && unstable.entries != []
                 && unstable.entries[|unstable.entries| - 1].index == index && unstable.entries[|unstable.entries| - 1].term == term
              then Next(Abs().(offset := index + 1)) else Panic
      ensures unstable.entries != [] ==> unstable.entries[|unstable.entries| - 1].index == LastIndex()
    {
      BelowIs();
      LastOf(unstable.entries, unstable.offset);
    }

    lemma SavedIs()
      requires Layered() && Saved()
      ensures store.Valid() && unstable.Valid() && unstable.Aligned()
      ensures store.entries == Entries() || unstable.snapshot.Some?
      ensures LastIndex() == store.LastIndex() || unstable.entries == []
    {
      store.Length();
      hide Continuous, Sizes;
      var n := unstable.offset - store.FirstIndex();
      assert store.entries == store.entries[..n] + store.entries[n..];
    }

    lemma AllStable()
      requires store.Valid() && unstable.Valid() && unstable.Aligned() && unstable.snapshot == None && unstable.entries == []
      requires unstable.offset == store.LastIndex() + 1
      ensures Layered() && Saved() && Entries() == store.entries
    {
      store.Length();
    }

    /** The application drops stored entries; not past what it applied, nor all of them. */
    method CompactStore(index: nat)
      requires Valid() && index <= applied <= committed && index <= store.LastIndex()
      requires unstable.snapshot == None ==> index <= unstable.offset
      modifies store
      ensures Valid() && Abs() == LogSpec.Compact(old(Abs()), index)
    {
      store.Length();
      ghost var before, e, f := Abs(), store.entries, store.FirstIndex();
      assert index > f ==> store.meta.index < f;
      hide Continuous, Sizes;
      var done := store.Compact(index);
      CompactedLog(before, e, f, index);
    }

    lemma CompactedLog(before: Log, e: seq<Entry>, f: nat, index: nat)
      requires store.Valid() && unstable.Valid() && unstable.Aligned() && WellFormed(before) && index <= before.first + |before.entries|
      requires before.committed == committed && before.persisted == persisted && before.applied == applied
      requires before.offset == unstable.offset && before.pending == unstable.snapshot.Some?
      requires if index <= f then store.FirstIndex() == f && store.entries == e
               else store.FirstIndex() == index <= f + |e| && store.entries == e[index - f..] && store.meta.index < f
      requires unstable.snapshot.Some? ==>
                 before.first == FirstIndex() && before.base == Base() && before.entries == unstable.entries
      requires unstable.snapshot == None ==>
                 before.first == f <= unstable.offset <= f + |e| && index <= unstable.offset
                 && before.entries == e[..unstable.offset - f] + unstable.entries
                 && (index <= f ==> before.base == Base())
                 && (unstable.entries == [] ==> unstable.offset == f + |e|)
      ensures Layered() && Abs() == LogSpec.Compact(before, index)
    {
      CompactedLayers(e, f);
      hide Layered, Entries, WellFormed, Continuous, Sizes;
    }

    lemma CompactedLayers(e: seq<Entry>, f: nat)
      requires store.Valid() && unstable.Valid() && unstable.Aligned() && f <= store.FirstIndex() <= f + |e|
      requires store.entries == e[store.FirstIndex() - f..]
      requires unstable.snapshot == None ==> store.FirstIndex() <= unstable.offset <= f + |e|
      requires unstable.snapshot == None && unstable.entries == [] ==> unstable.offset == f + |e|
      ensures Layered()
      ensures unstable.snapshot == None ==> Entries() == (e[..unstable.offset - f] + unstable.entries)[store.FirstIndex() - f..]
    {
      store.Length();
      hide Continuous, Sizes;
      if unstable.snapshot == None {
        var k := store.FirstIndex() - f;
        assert e[..unstable.offset - f][k..] == e[k..][..unstable.offset - f - k];
        DropFirst(e[..unstable.offset - f], unstable.entries, k);
      }
    }

    /** The logical entries from index `low` up to `high`. */
    ghost function LogRange(low: nat, high: nat): seq<Entry>
      reads store, unstable
    {
      if Layered() && FirstIndex() <= low <= high <= FirstIndex() + |Entries()|
      then Entries()[low - FirstIndex()..high - FirstIndex()] else []
    }

    lemma StoredBounds(low: nat)
      requires Layered() && FirstIndex() <= low < unstable.offset
      ensures unstable.snapshot == None && store.FirstIndex() <= low && unstable.offset <= store.LastIndex() + 1 && store.entries != []
    {
      hide Continuous, Sizes;
      store.Length();
    }

    /** A range of the log is its stored part followed by its unstable part. */
    lemma RangeLayers(low: nat, high: nat)
      requires Layered() && FirstIndex() <= low < high <= LastIndex() + 1
      ensures LogRange(low, high) == StoredRange(low, high) + UnstableRange(low, high)
    {
      if unstable.snapshot == None {
        RangeOverStore(low, high);
      } else {
        RangeOverSnapshot(low, high);
      }
    }

    lemma RangeOverStore(low: nat, high: nat)
      requires Layered() && FirstIndex() <= low < high <= LastIndex() + 1 && unstable.snapshot == None
      ensures LogRange(low, high) == StoredRange(low, high) + UnstableRange(low, high)
    {
      LogRangeIs(low, high);
      RangeOfLayers(store.entries, unstable.entries, store.FirstIndex(), unstable.offset, low, high);
      hide RangeIn, LowerIn, UpperIn, LogRange, Layered;
    }

    lemma LogRangeIs(low: nat, high: nat)
      requires Layered() && FirstIndex() <= low < high <= LastIndex() + 1 && unstable.snapshot == None
      ensures store.FirstIndex() <= unstable.offset <= store.FirstIndex() + |store.entries|
      ensures store.FirstIndex() <= low && high <= unstable.offset + |unstable.entries|
      ensures LogRange(low, high) == RangeIn(store.entries, unstable.entries, store.FirstIndex(), unstable.offset, low, high)
    {
      store.Length();
      hide Continuous, Sizes;
    }

    lemma RangeOverSnapshot(low: nat, high: nat)
      requires Layered() && FirstIndex() <= low < high <= LastIndex() + 1 && unstable.snapshot.Some?
      ensures LogRange(low, high) == StoredRange(low, high) + UnstableRange(low, high)
    {
      hide Continuous, Sizes;
      assert StoredRange(low, high) == [];
      assert UnstableRange(low, high) == unstable.entries[low - FirstIndex()..high - FirstIndex()];
    }

    ghost function StoredRange(low: nat, high: nat): seq<Entry>
      reads store, unstable
    {
      if unstable.snapshot == None then LowerIn(store.entries, store.FirstIndex(), unstable.offset, low, high) else []
    }

    ghost function UnstableRange(low: nat, high: nat): seq<Entry>
      reads unstable
    {
      UpperIn(unstable.entries, unstable.offset, low, high)
    }

    /**
      Entries from `low` up to `high`: the stored part limited in size, ended early
      if it was cut, else continued with the unstable part and limited again. All of
      it together is the logical range, limited once.
     */
    method Slice(low: nat, high: nat, max: Option<nat>) returns (r: Outcome<StoreResult<seq<Entry>>>)
      requires Valid()
      ensures low > high || (low >= FirstIndex() && high > LastIndex() + 1) ==> r == Panic
      ensures low <= high && low < FirstIndex() ==> r == Next(Err(Compacted))
      ensures FirstIndex() <= low <= high <= LastIndex() + 1 ==>
                r == Next(Ok(Limited(LogRange(low, high), max)))
    {
      hide Limited, Entries, LogRange, Continuous, Sizes;
      if low > high {
        return Panic;
      }
      if low < FirstIndex() {
        return Next(Err(Compacted));
      }
      if high > LastIndex() + 1 {
        return Panic;
      }
      if low == high {
        NoRange(low, max);
        return Next(Ok([]));
      }
      var ents := Range(low, high, max);
      r := Next(Ok(ents));
    }

    lemma NoRange(low: nat, max: Option<nat>)
      ensures Limited(LogRange(low, low), max) == []
    {
    }

    method Range(low: nat, high: nat, max: Option<nat>) returns (ents: seq<Entry>)
      requires Layered() && FirstIndex() <= low < high <= LastIndex() + 1
      ensures ents == Limited(LogRange(low, high), max)
    {
      hide *;
      RangeLayers(low, high);
      LimitedParts(StoredRange(low, high), UnstableRange(low, high), max);
      var cut := false;
      ents, cut := StoredPart(low, high, max);
      if cut {
        return;
      }
      ents := ents + UnstablePart(low, high);
      ents := LimitSize(ents, max);
    }

    /** What the store contributes to a range, and whether the limit ended it early. */
    method StoredPart(low: nat, high: nat, max: Option<nat>) returns (ents: seq<Entry>, cut: bool)
      requires Layered() && FirstIndex() <= low < high
      ensures ents == if cut then Limited(StoredRange(low, high), max) else StoredRange(low, high)
      ensures cut <==> Limited(StoredRange(low, high), max) != StoredRange(low, high)
    {
      hide Limited, Continuous, Sizes, Entries;
      LimitedPrefix(StoredRange(low, high), max);
      if low < unstable.offset {
        StoredBounds(low);
        store.Length();
        var storedHigh := Min(high, unstable.offset);
        var part := store.Entries(low, storedHigh, max);
        ents := part.value.value;
        cut := |ents| < storedHigh - low;
      } else {
        ents, cut := [], false;
      }
    }

    function UnstablePart(low: nat, high: nat): (es: seq<Entry>)
      requires Layered() && FirstIndex() <= low < high <= LastIndex() + 1
      reads store, unstable
      ensures es == UnstableRange(low, high)
    {
      store.Length();
      if high > unstable.offset then unstable.Slice(Max(low, unstable.offset), high) else []
    }

    predicate HasNextEntriesSince(since: nat)
      reads this, store, unstable
    {
      Min(committed, persisted) + 1 > Max(since + 1, FirstIndex())
    }

    lemma NextRange(since: nat, max: Option<nat>)
      requires Valid()
      ensures Abs().committed <= Last(Abs()) && FirstIndex() >= 1
      ensures HasNextEntriesSince(since) <==> HasNextEntries(Abs(), since)
      ensures HasNextEntriesSince(since) ==>
                NextEntries(Abs(), since, max) ==
                Limited(LogRange(Max(since + 1, FirstIndex()), Min(committed, persisted) + 1), max)
    {
      hide Continuous, Sizes, Limited;
    }

    /** Never an error: what is committed lies within the log. */
    method NextEntriesSince(since: nat, max: Option<nat>) returns (r: Option<seq<Entry>>)
      requires Valid()
      ensures r == if HasNextEntriesSince(since) then Some(NextEntries(Abs(), since, max)) else None
    {
      var offset := Max(since + 1, FirstIndex());
      var high := Min(committed, persisted) + 1;
      NextRange(since, max);
      hide Limited, Entries, LogRange, Continuous, Sizes, NextEntries, WellFormed;
      if high > offset {
        var ents := Slice(offset, high, max);
        r := Some(ents.value.value);
      } else {
        r := None;
      }
    }
  }
}
