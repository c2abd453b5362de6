/** What a leader admits to its log: one membership change at a time, and a bounded number of bytes. */
module Proposals {
  import opened Common

  /** A proposed or logged entry, as far as admission looks at it. */
  datatype Item =
    | Normal(size: nat)
    | ConfChange(size: nat, leaves: bool, malformed: bool)

  /** `NO_LIMIT`, the largest 64-bit number. */
  const NO_LIMIT: nat := 0xFFFF_FFFF_FFFF_FFFF

  const BLANK: Item := Normal(0)

  /** The empty change that leaves a joint configuration. */
  const LEAVE: Item := ConfChange(0, true, false)

  /**
    A leader's log, where its tail stood at the election, what was handed to the
    application and what that has applied, the index of the latest change that may
    be pending, the uncommitted bytes it counts and their limit, and for the record
    the latest batch it admitted when it counted none.
   */
  datatype Leader = Leader(
    log: seq<Item>, tail: nat, handed: nat, applied: nat,
    pendingConf: nat, joint: bool, autoLeave: bool,
    size: nat, limit: nat, free: nat)

  function Bytes(es: seq<Item>): nat
    decreases |es|
  {
    if es == [] then 0 else Bytes(es[..|es| - 1]) + es[|es| - 1].size
  }

  // ------------------------------------------------------ uncommitted bytes

  /** Empty batches and the first batch are always admitted. */
  predicate Admits(size: nat, limit: nat, batch: nat) {
    batch == 0 || size == 0 || batch + size <= limit
  }

  /** The bytes of the entries from index `from + 1` to `to` that lie above the tail. */
  function Owned(l: Leader, from: nat, to: nat): nat
    requires from <= to <= |l.log|
  {
    Bytes(l.log[Min(Max(from, l.tail), to)..to])
  }

  class UncommittedState {
    const maxUncommittedSize: nat
    var uncommittedSize: nat
    var lastLogTailIndex: nat

    constructor (max: nat)
      ensures maxUncommittedSize == max && uncommittedSize == 0 && lastLogTailIndex == 0
    {
      maxUncommittedSize, uncommittedSize, lastLogTailIndex := max, 0, 0;
    }

    predicate IsNoLimit() {
      maxUncommittedSize == NO_LIMIT
    }

    method MaybeIncrease(ents: seq<Item>) returns (ok: bool)
      modifies this`uncommittedSize
      ensures ok <==> IsNoLimit() || Admits(old(uncommittedSize), maxUncommittedSize, Bytes(ents))
      ensures uncommittedSize == old(uncommittedSize) + if ok && !IsNoLimit() then Bytes(ents) else 0
    {
      if IsNoLimit() {
        return true;
      }
      var size := SumBytes(ents);
      if size == 0 || uncommittedSize == 0 || size + uncommittedSize <= maxUncommittedSize {
        uncommittedSize := uncommittedSize + size;
        ok := true;
      } else {
        ok := false;
      }
    }

    /** `first` is the index of the first entry; entries up to the tail were never counted. */
    method MaybeReduce(first: nat, ents: seq<Item>) returns (ok: bool)
      requires first >= 1
      modifies this`uncommittedSize
      ensures var size := Bytes(ents[Min(if lastLogTailIndex >= first then lastLogTailIndex + 1 - first else 0, |ents|)..]);
              && (ok <==> IsNoLimit() || size <= old(uncommittedSize) || ents == [])
              && uncommittedSize == if IsNoLimit() then old(uncommittedSize) else if ok then old(uncommittedSize) - size else 0
    {
      if IsNoLimit() || ents == [] {
        return true;
      }
      var skip := Min(if lastLogTailIndex >= first then lastLogTailIndex + 1 - first else 0, |ents|);
      var size := SumBytes(ents[skip..]);
      if size > uncommittedSize {
        uncommittedSize := 0;
        ok := false;
      } else {
        uncommittedSize := uncommittedSize - size;
        ok := true;
      }
    }
  }

  method SumBytes(es: seq<Item>) returns (n: nat)
    ensures n == Bytes(es)
  {
    n := 0;
    for i := 0 to |es|
      invariant n == Bytes(es[..i])
    {
      assert es[..i + 1][..i] == es[..i];
      n := n + es[i].size;
    }
    assert es[..|es|] == es;
  }

  // ---------------------------------------------------------------- screening

  /** A batch on its way through the loop: what it becomes, the pending index, and whether it decoded so far. */
  datatype Screened = Screened(items: seq<Item>, pending: nat, ok: bool)

  /** A change is kept if none may be pending and it fits the present configuration; else it is blanked. */
  function ScreenItem(s: Screened, applied: nat, last: nat, joint: bool, item: Item): Screened {
    if !s.ok then s
    else if item.Normal? then s.(items := s.items + [item])
    else if item.malformed then s.(ok := false)
    else if s.pending > applied || joint != item.leaves then s.(items := s.items + [BLANK])
    else Screened(s.items + [item], last + |s.items| + 1, true)
  }

  function Screen(pending: nat, applied: nat, last: nat, joint: bool, items: seq<Item>): Screened
    decreases |items|
  {
    if items == [] then Screened([], pending, true)
    else ScreenItem(Screen(pending, applied, last, joint, items[..|items| - 1]), applied, last, joint, items[|items| - 1])
  }

  // ------------------------------------------------ what screening decides

  predicate Malformed(items: seq<Item>, i: nat) {
    i < |items| && items[i].ConfChange? && items[i].malformed
  }

  /** The entry decodes, as all before it do. */
  ghost predicate Decodes(items: seq<Item>, i: nat) {
    i < |items| && forall j: nat :: j <= i ==> !Malformed(items, j)
  }

  /** A change that fits the present configuration: leaving, if it is joint, and any other, if it is not. */
  predicate Fitting(joint: bool, items: seq<Item>, i: nat) {
    i < |items| && items[i].ConfChange? && items[i].leaves == joint
  }

  /** A change that may go in: none is pending, and it is the first of the batch that fits. */
  ghost predicate Permitted(pending: nat, applied: nat, joint: bool, items: seq<Item>, i: nat) {
    pending <= applied && Fitting(joint, items, i) && forall j: nat :: j < i ==> !Fitting(joint, items, j)
  }

  /** What was proposed is what goes in, except that a change which may not is blanked. */
  ghost predicate Passed(pending: nat, applied: nat, joint: bool, items: seq<Item>, out: seq<Item>, i: nat) {
    && i < |items| && i < |out|
    && out[i] == if items[i].Normal? || Permitted(pending, applied, joint, items, i) then items[i] else BLANK
  }

  /** The change that is let through is the pending one from now on. */
  ghost predicate PendingMoves(pending: nat, applied: nat, last: nat, joint: bool, items: seq<Item>, after: nat) {
    && (forall i: nat :: Permitted(pending, applied, joint, items, i) && Decodes(items, i) ==> after == last + i + 1)
    && (after == pending || exists i: nat :: Permitted(pending, applied, joint, items, i) && Decodes(items, i))
  }

  /** A batch fails exactly on a change that does not decode; otherwise each entry passes, and the pending index moves. */
  ghost predicate Decided(pending: nat, applied: nat, last: nat, joint: bool, items: seq<Item>, ok: bool, out: seq<Item>, after: nat) {
    && (ok <==> forall i: nat :: !Malformed(items, i))
    && (ok ==> |out| == |items| && forall i: nat :: i < |items| ==> Passed(pending, applied, joint, items, out, i))
    && PendingMoves(pending, applied, last, joint, items, after)
  }

  ghost predicate WellMade(items: seq<Item>) {
    forall i: nat :: !Malformed(items, i)
  }

  /** The batch without its last entry looks the same. */
  lemma SameBefore(pending: nat, applied: nat, joint: bool, items: seq<Item>, i: nat)
    requires i < |items| - 1
    ensures var init := items[..|items| - 1];
            && (Malformed(init, i) <==> Malformed(items, i)) && (Fitting(joint, init, i) <==> Fitting(joint, items, i))
            && (Decodes(init, i) <==> Decodes(items, i))
            && (Permitted(pending, applied, joint, init, i) <==> Permitted(pending, applied, joint, items, i))
  {
    var init := items[..|items| - 1];
    assert forall j: nat :: j <= i ==> (Malformed(init, j) <==> Malformed(items, j)) && (Fitting(joint, init, j) <==> Fitting(joint, items, j));
  }

  /** Nothing may go in any more exactly if something was pending or went in already. */
  lemma Accepting(pending: nat, applied: nat, last: nat, joint: bool, items: seq<Item>, after: nat)
    requires applied <= last && PendingMoves(pending, applied, last, joint, items, after) && forall i: nat :: !Malformed(items, i)
    ensures after <= applied <==> pending <= applied && forall i: nat :: !Fitting(joint, items, i)
  {
    assert forall i: nat :: i < |items| ==> Decodes(items, i);
    if pending <= applied && exists i: nat :: Fitting(joint, items, i) {
      var i := FirstFitting(joint, items);
      assert Permitted(pending, applied, joint, items, i);
    }
  }

  lemma {:induction false} FirstFitting(joint: bool, items: seq<Item>) returns (i: nat)
    requires exists j: nat :: Fitting(joint, items, j)
    ensures Fitting(joint, items, i) && forall j: nat :: j < i ==> !Fitting(joint, items, j)
    decreases |items|
  {
    var init := items[..|items| - 1];
    assert forall j: nat :: j < |init| ==> (Fitting(joint, init, j) <==> Fitting(joint, items, j));
    if exists j: nat :: Fitting(joint, init, j) {
      i := FirstFitting(joint, init);
    } else {
      i := |items| - 1;
    }
  }

  /** Exactly what the loop does to a batch. */
  lemma {:induction false} ScreenDecides(pending: nat, applied: nat, last: nat, joint: bool, items: seq<Item>)
    requires applied <= last
    ensures var s := Screen(pending, applied, last, joint, items);
            Decided(pending, applied, last, joint, items, s.ok, s.items, s.pending)
    decreases |items|
  {
    hide Permitted, Decodes, Fitting, Decided;
    if items == [] {
      NothingDecided(pending, applied, last, joint);
    } else {
      var n := |items| - 1;
      var s, t := Screen(pending, applied, last, joint, items[..n]), Screen(pending, applied, last, joint, items);
      ScreenDecides(pending, applied, last, joint, items[..n]);
      ScreenOneMore(pending, applied, last, joint, items, s, t);
    }
  }

  lemma NothingDecided(pending: nat, applied: nat, last: nat, joint: bool)
    ensures Decided(pending, applied, last, joint, [], true, [], pending)
  {
  }

  lemma SameInit(pending: nat, applied: nat, joint: bool, items: seq<Item>)
    requires items != []
    ensures var init := items[..|items| - 1];
            forall i: nat :: i < |init| ==>
              && (Malformed(init, i) <==> Malformed(items, i)) && (Decodes(init, i) <==> Decodes(items, i))
              && (Permitted(pending, applied, joint, init, i) <==> Permitted(pending, applied, joint, items, i))
    ensures forall i: nat :: Decodes(items, i) ==> i < |items|
    ensures var init := items[..|items| - 1]; forall i: nat :: Decodes(init, i) ==> i < |init|
  {
    DecodesWithin(items);
    DecodesWithin(items[..|items| - 1]);
    hide Malformed, Permitted, Decodes, Fitting;
    forall i: nat | i < |items| - 1
      ensures var init := items[..|items| - 1];
              && (Malformed(init, i) <==> Malformed(items, i)) && (Decodes(init, i) <==> Decodes(items, i))
              && (Permitted(pending, applied, joint, init, i) <==> Permitted(pending, applied, joint, items, i))
    {
      SameBefore(pending, applied, joint, items, i);
    }
  }

  /** What is known of the last entry. */
  lemma LastDecides(pending: nat, applied: nat, last: nat, joint: bool, items: seq<Item>, after: nat)
    requires items != [] && applied <= last
    requires PendingMoves(pending, applied, last, joint, items[..|items| - 1], after)
    requires WellMade(items[..|items| - 1])
    ensures var n := |items| - 1;
            && (Decodes(items, n) <==> !Malformed(items, n))
            && (Permitted(pending, applied, joint, items, n) <==> after <= applied && Fitting(joint, items, n))
  {
    hide PendingMoves;
    var n, init := |items| - 1, items[..|items| - 1];
    Accepting(pending, applied, last, joint, init, after);
    assert forall j: nat :: j < n ==> (Malformed(init, j) <==> Malformed(items, j)) && (Fitting(joint, init, j) <==> Fitting(joint, items, j));
  }

  lemma ScreenOneMore(pending: nat, applied: nat, last: nat, joint: bool, items: seq<Item>, s: Screened, t: Screened)
    requires applied <= last && items != []
    requires Decided(pending, applied, last, joint, items[..|items| - 1], s.ok, s.items, s.pending)
    requires t == ScreenItem(s, applied, last, joint, items[|items| - 1])
    ensures Decided(pending, applied, last, joint, items, t.ok, t.items, t.pending)
  {
    hide Permitted, Decodes;
    var n, init := |items| - 1, items[..|items| - 1];
    SameInit(pending, applied, joint, items);
    if s.ok {
      assert WellMade(init);
      LastDecides(pending, applied, last, joint, items, s.pending);
      forall i: nat | t.ok && i < |items|
        ensures Passed(pending, applied, joint, items, t.items, i)
      {
        assert i < n ==> Passed(pending, applied, joint, init, s.items, i);
      }
    } else {
      var i: nat :| Malformed(init, i);
      assert Malformed(items, i);
      NotDecoded(items, i, n);
    }
  }

  lemma DecodesWithin(items: seq<Item>)
    ensures forall i: nat :: Decodes(items, i) ==> i < |items|
  {
  }

  lemma NotDecoded(items: seq<Item>, i: nat, n: nat)
    requires Malformed(items, i) && i <= n
    ensures !Decodes(items, n)
  {
  }

  /** The proposal loop, which rewrites the entries of the message in place. */
  method ScreenEntries(pending: nat, applied: nat, last: nat, joint: bool, entries: array<Item>)
    returns (pending': nat, ok: bool)
    modifies entries
    ensures var s := Screen(pending, applied, last, joint, old(entries[..]));
            ok == s.ok && pending' == s.pending && (ok ==> entries[..] == s.items)
    ensures applied <= last ==> Decided(pending, applied, last, joint, old(entries[..]), ok, entries[..], pending')
  {
    hide Decided;
    ghost var before := entries[..];
    if applied <= last {
      ScreenDecides(pending, applied, last, joint, before);
      DecidedItems(pending, applied, last, joint, before);
    }
    pending' := pending;
    assert before[..0] == [];
    for i := 0 to entries.Length
      invariant Screen(pending, applied, last, joint, before[..i]) == Screened(entries[..i], pending', true)
      invariant forall j :: i <= j < entries.Length ==> entries[j] == before[j]
    {
      ghost var done := entries[..i];
      ScreenNext(pending, applied, last, joint, before, i);
      var e := entries[i];
      if e.ConfChange? {
        if e.malformed {
          ScreenStops(pending, applied, last, joint, before, i + 1);
          return pending', false;
        }
        if pending' > applied || joint != e.leaves {
          entries[i] := BLANK;
        } else {
          pending' := last + i + 1;
        }
      }
      assert entries[..i + 1] == done + [entries[i]];
    }
    assert before[..entries.Length] == before && entries[..entries.Length] == entries[..];
    ok := true;
  }

  /** Of a batch that fails it does not matter what has become of the entries. */
  lemma DecidedItems(pending: nat, applied: nat, last: nat, joint: bool, items: seq<Item>)
    requires var s := Screen(pending, applied, last, joint, items);
             Decided(pending, applied, last, joint, items, s.ok, s.items, s.pending)
    ensures var s := Screen(pending, applied, last, joint, items);
            forall out {:trigger Decided(pending, applied, last, joint, items, s.ok, out, s.pending)} ::
              !s.ok || out == s.items ==> Decided(pending, applied, last, joint, items, s.ok, out, s.pending)
  {
  }

  lemma ScreenNext(pending: nat, applied: nat, last: nat, joint: bool, items: seq<Item>, i: nat)
    requires i < |items|
    ensures Screen(pending, applied, last, joint, items[..i + 1]) ==
            ScreenItem(Screen(pending, applied, last, joint, items[..i]), applied, last, joint, items[i])
  {
    assert items[..i + 1][..i] == items[..i];
  }

  lemma {:induction false} ScreenStops(pending: nat, applied: nat, last: nat, joint: bool, items: seq<Item>, k: nat)
    requires k <= |items| && !Screen(pending, applied, last, joint, items[..k]).ok
    ensures Screen(pending, applied, last, joint, items) == Screen(pending, applied, last, joint, items[..k])
    decreases |items|
  {
    if k < |items| {
      assert items[..|items| - 1][..k] == items[..k];
      ScreenStops(pending, applied, last, joint, items[..|items| - 1], k);
    } else {
      assert items[..k] == items;
    }
  }

  // ----------------------------------------------------------------- the leader

  /** `become_leader`: whatever the log, nothing of its tail is counted and all of it may hold a pending change. */
  function Elected(log: seq<Item>, handed: nat, applied: nat, joint: bool, autoLeave: bool, limit: nat): Leader {
    Leader(log + [BLANK], |log|, handed, applied, |log|, joint, autoLeave, 0, limit, 0)
  }

  /** `append_entry`: the batch goes in if its bytes are admitted. */
  function Append(l: Leader, items: seq<Item>): Leader {
    if !Admits(l.size, l.limit, Bytes(items)) then l
    else l.(log := l.log + items, size := l.size + Bytes(items), free := if l.size == 0 then Bytes(items) else l.free)
  }

  /** A proposal; a dropped one may still have moved the pending index. */
  function Propose(l: Leader, items: seq<Item>): Leader {
    var s := Screen(l.pendingConf, l.applied, |l.log|, l.joint, items);
    var m := l.(pendingConf := s.pending);
    if s.ok then Append(m, s.items) else m
  }

  /** `commit_apply`: reaching the pending change of an auto-leaving configuration proposes to leave it. */
  function Apply(l: Leader, applied: nat): Leader {
    var m := l.(applied := applied);
    if l.autoLeave && l.applied <= l.pendingConf <= applied then
      var a := Append(m, [LEAVE]);
      a.(pendingConf := |a.log|)
    else m
  }

  /** The entries up to `to` are handed out, and their bytes given back. */
  function HandOut(l: Leader, to: nat): Leader
    requires l.handed <= to <= |l.log|
  {
    var size := Owned(l, l.handed, to);
    l.(handed := to, size := if size > l.size then 0 else l.size - size)
  }

  datatype Event = ProposeEvent(items: seq<Item>) | HandOutEvent(to: nat) | ApplyEvent(applied: nat) | ConfEvent(joint: bool, autoLeave: bool)

  predicate Allowed(l: Leader, e: Event) {
    match e
    case ProposeEvent(items) => items != []
    case HandOutEvent(to) => l.handed <= to <= |l.log|
    case ApplyEvent(applied) => l.applied <= applied <= l.handed
    case ConfEvent(_, _) => true
  }

  function Handle(l: Leader, e: Event): Leader {
    if !Allowed(l, e) then l
    else
      match e
      case ProposeEvent(items) => Propose(l, items)
      case HandOutEvent(to) => HandOut(l, to)
      case ApplyEvent(applied) => Apply(l, applied)
      case ConfEvent(joint, autoLeave) => l.(joint := joint, autoLeave := autoLeave)
  }

  function Run(start: Leader, es: seq<Event>): Leader
    decreases |es|
  {
    if es == [] then start else Handle(Run(start, es[..|es| - 1]), es[|es| - 1])
  }

  // ------------------------------------------------------------------ invariant

  predicate IsConf(l: Leader, i: nat) {
    1 <= i <= |l.log| && l.log[i - 1].ConfChange?
  }

  /** Every change not yet applied lies at or below the pending index. */
  ghost predicate PendingBounds(l: Leader) {
    forall i: nat :: IsConf(l, i) && i > l.applied ==> i <= l.pendingConf
  }

  /** Above what is applied and what the leader inherited there is at most one change. */
  ghost predicate OneAbove(l: Leader) {
    forall i: nat, j: nat :: IsConf(l, i) && IsConf(l, j) && i > Max(l.applied, l.tail) && j > Max(l.applied, l.tail) ==> i == j
  }

  ghost predicate ConfOK(l: Leader) {
    PendingBounds(l) && OneAbove(l) && l.tail <= l.pendingConf && l.tail <= |l.log|
  }

  predicate BytesOK(l: Leader)
    requires l.handed <= |l.log|
  {
    && l.size == Owned(l, l.handed, |l.log|)
    && l.size <= Max(l.limit, l.free)
  }

  ghost predicate Inv(l: Leader) {
    l.applied <= l.handed <= |l.log| && l.tail <= |l.log| && ConfOK(l) && BytesOK(l)
  }

  lemma {:induction false} BytesConcat(a: seq<Item>, b: seq<Item>)
    ensures Bytes(a + b) == Bytes(a) + Bytes(b)
    decreases |b|
  {
    if b == [] {
      assert a + b == a;
    } else {
      assert (a + b)[..|a + b| - 1] == a + b[..|b| - 1];
      BytesConcat(a, b[..|b| - 1]);
    }
  }

  lemma BytesOfOne(item: Item)
    ensures Bytes([item]) == item.size
  {
    assert [item][..0] == [];
  }

  lemma AppendBytes(l: Leader, items: seq<Item>)
    requires l.handed <= |l.log| && l.tail <= |l.log| && BytesOK(l)
    ensures BytesOK(Append(l, items))
  {
    var k := Max(l.handed, l.tail);
    BytesConcat(l.log[k..], items);
    assert (l.log + items)[k..|l.log + items|] == l.log[k..] + items;
    assert l.log[k..|l.log|] == l.log[k..];
  }

  lemma HandOutBytes(l: Leader, to: nat)
    requires l.handed <= to <= |l.log| && l.tail <= |l.log| && BytesOK(l)
    ensures BytesOK(HandOut(l, to)) && Owned(l, l.handed, to) <= l.size
  {
    var k, n := Max(l.handed, l.tail), |l.log|;
    if to >= k {
      BytesConcat(l.log[k..to], l.log[to..n]);
      assert l.log[k..to] + l.log[to..n] == l.log[k..n];
    } else {
      assert l.log[to..to] == [];
    }
  }

  /** What screening lets through: at most one change, at the new pending index, and only when none was pending. */
  lemma {:induction false} ScreenKeeps(pending: nat, applied: nat, last: nat, joint: bool, items: seq<Item>, i: nat)
    requires applied <= last
    ensures var s := Screen(pending, applied, last, joint, items);
            && |s.items| <= |items| && (s.ok ==> |s.items| == |items|)
            && (s.pending == pending || (pending <= applied && last < s.pending <= last + |s.items|))
            && (i < |s.items| && s.items[i].ConfChange? ==> pending <= applied && s.pending == last + i + 1)
    decreases |items|
  {
    if items != [] {
      ScreenKeeps(pending, applied, last, joint, items[..|items| - 1], i);
    }
  }

  lemma AppendedConf(l: Leader, items: seq<Item>, i: nat)
    ensures IsConf(l.(log := l.log + items), i) <==> IsConf(l, i) || (|l.log| < i <= |l.log| + |items| && items[i - |l.log| - 1].ConfChange?)
  {
  }

  lemma ProposeConf(l: Leader, items: seq<Item>)
    requires Inv(l)
    ensures ConfOK(Propose(l, items))
  {
    hide BytesOK, Admits, Screen;
    var m := Propose(l, items);
    var s := Screen(l.pendingConf, l.applied, |l.log|, l.joint, items);
    ScreenKeeps(l.pendingConf, l.applied, |l.log|, l.joint, items, 0);
    forall i: nat | IsConf(m, i) && i > l.applied
      ensures i <= m.pendingConf && (IsConf(l, i) || (l.pendingConf <= l.applied && i == m.pendingConf))
    {
      AppendedConf(l, s.items, i);
      if !IsConf(l, i) {
        ScreenKeeps(l.pendingConf, l.applied, |l.log|, l.joint, items, i - |l.log| - 1);
      }
    }
  }

  lemma ApplyConf(l: Leader, applied: nat)
    requires Inv(l) && l.applied <= applied <= l.handed
    ensures ConfOK(Apply(l, applied))
  {
    hide BytesOK;
    var m := Apply(l, applied);
    forall i: nat | IsConf(m, i) && i > applied ensures IsConf(l, i) || (l.pendingConf <= applied && i == m.pendingConf) {
      AppendedConf(l, [LEAVE], i);
    }
  }

  lemma HandleKeeps(l: Leader, e: Event)
    requires Inv(l)
    ensures Inv(Handle(l, e)) && Handle(l, e).limit == l.limit && Handle(l, e).tail == l.tail
  {
    hide ConfOK, BytesOK;
    if Allowed(l, e) {
      match e
      case ProposeEvent(items) => ProposeKeeps(l, items);
      case HandOutEvent(to) => HandOutKeeps(l, to);
      case ApplyEvent(applied) => ApplyKeeps(l, applied);
      case ConfEvent(joint, autoLeave) => SameLog(l, joint, autoLeave);
    }
  }

  lemma SameLog(l: Leader, joint: bool, autoLeave: bool)
    requires Inv(l)
    ensures Inv(l.(joint := joint, autoLeave := autoLeave))
  {
    var m := l.(joint := joint, autoLeave := autoLeave);
    assert forall i: nat :: IsConf(m, i) <==> IsConf(l, i);
  }

  lemma ProposeKeeps(l: Leader, items: seq<Item>)
    requires Inv(l)
    ensures Inv(Propose(l, items)) && Propose(l, items).limit == l.limit && Propose(l, items).tail == l.tail
  {
    ProposeConf(l, items);
    var s := Screen(l.pendingConf, l.applied, |l.log|, l.joint, items);
    AppendBytes(l.(pendingConf := s.pending), s.items);
    hide ConfOK, Screen;
  }

  lemma HandOutKeeps(l: Leader, to: nat)
    requires Inv(l) && l.handed <= to <= |l.log|
    ensures Inv(HandOut(l, to))
  {
    HandOutBytes(l, to);
    var m := HandOut(l, to);
    assert forall i: nat :: IsConf(m, i) <==> IsConf(l, i);
    hide BytesOK;
  }

  lemma ApplyKeeps(l: Leader, applied: nat)
    requires Inv(l) && l.applied <= applied <= l.handed
    ensures Inv(Apply(l, applied)) && Apply(l, applied).limit == l.limit && Apply(l, applied).tail == l.tail
  {
    ApplyConf(l, applied);
    assert BytesOK(l.(applied := applied));
    AppendBytes(l.(applied := applied), [LEAVE]);
    hide ConfOK;
  }

  lemma ElectedOK(log: seq<Item>, handed: nat, applied: nat, joint: bool, autoLeave: bool, limit: nat)
    requires applied <= handed <= |log|
    ensures Inv(Elected(log, handed, applied, joint, autoLeave, limit))
  {
    var l := Elected(log, handed, applied, joint, autoLeave, limit);
    assert l.log[|log|..|l.log|] == [BLANK];
    BytesOfOne(BLANK);
    forall i: nat | IsConf(l, i) ensures i <= |log| {
      AppendedConf(l.(log := log), [BLANK], i);
    }
  }

  lemma {:induction false} Always(start: Leader, es: seq<Event>)
    requires Inv(start)
    ensures Inv(Run(start, es)) && Run(start, es).limit == start.limit && Run(start, es).tail == start.tail
    decreases |es|
  {
    hide Inv, Handle;
    if es != [] {
      Always(start, es[..|es| - 1]);
      HandleKeeps(Run(start, es[..|es| - 1]), es[|es| - 1]);
    }
  }

  // -------------------------------------------------------------------- theorems

  /** What a proposal does at any moment of a leadership: fails, is refused for its size, or is appended as screened. */
  lemma ProposeDecides(log: seq<Item>, handed: nat, applied: nat, joint: bool, autoLeave: bool, limit: nat, es: seq<Event>, items: seq<Item>)
    requires applied <= handed <= |log|
    ensures var l := Run(Elected(log, handed, applied, joint, autoLeave, limit), es);
            var m := Propose(l, items);
            && l.handed <= |l.log| && l.applied <= |l.log| && |log| <= |l.log|
            && (if exists i: nat :: Malformed(items, i) then m.log == l.log
                else exists out ::
                       && Decided(l.pendingConf, l.applied, |l.log|, l.joint, items, true, out, m.pendingConf)
                       && m.log == if TooMuch(l, |log|, out) then l.log else l.log + out)
            && PendingMoves(l.pendingConf, l.applied, |l.log|, l.joint, items, m.pendingConf)
  {
    hide Inv, Decided, PendingMoves;
    var start := Elected(log, handed, applied, joint, autoLeave, limit);
    ElectedOK(log, handed, applied, joint, autoLeave, limit);
    Always(start, es);
    var l := Run(start, es);
    InvBounds(l);
    ScreenDecides(l.pendingConf, l.applied, |l.log|, l.joint, items);
    var s := Screen(l.pendingConf, l.applied, |l.log|, l.joint, items);
    DecidedParts(l.pendingConf, l.applied, |l.log|, l.joint, items, s);
    UncommittedConserved(log, handed, applied, joint, autoLeave, limit, es, 0);
  }

  /** A batch is refused exactly if some bytes of the leader's own wait already and it brings more than the limit leaves. */
  predicate TooMuch(l: Leader, tail: nat, batch: seq<Item>)
    requires l.handed <= |l.log| && tail <= |l.log|
  {
    var waiting := Bytes(l.log[Max(l.handed, tail)..]);
    waiting > 0 && Bytes(batch) > 0 && waiting + Bytes(batch) > l.limit
  }

  lemma InvBounds(l: Leader)
    requires Inv(l)
    ensures l.applied <= l.handed <= |l.log|
  {
  }

  lemma DecidedParts(pending: nat, applied: nat, last: nat, joint: bool, items: seq<Item>, s: Screened)
    requires Decided(pending, applied, last, joint, items, s.ok, s.items, s.pending)
    ensures s.ok <==> forall i: nat :: !Malformed(items, i)
    ensures PendingMoves(pending, applied, last, joint, items, s.pending)
  {
  }

  /**
    Applying up to the pending change of a configuration that is left automatically proposes to leave it, and
    that proposal is the pending change; otherwise applying only moves what is applied.
   */
  lemma ApplyDecides(l: Leader, applied: nat)
    ensures var m := Apply(l, applied);
            && m.applied == applied
            && (if l.autoLeave && l.applied <= l.pendingConf <= applied
                then m.log == l.log + [LEAVE] && m.pendingConf == |m.log| && IsConf(m, m.pendingConf)
                else m == l.(applied := applied))
  {
    LeaveNeverRefused(l.(applied := applied));
  }

  /**
    One pending change: at any moment of a leadership, the pending index bounds every
    unapplied change, and at most one lies above both what is applied and the log
    the leader was elected with.
   */
  lemma OnePendingChange(log: seq<Item>, handed: nat, applied: nat, joint: bool, autoLeave: bool, limit: nat, es: seq<Event>, i: nat, j: nat)
    requires applied <= handed <= |log|
    ensures var l := Run(Elected(log, handed, applied, joint, autoLeave, limit), es);
            && (IsConf(l, i) && i > l.applied ==> i <= l.pendingConf)
            && (IsConf(l, i) && IsConf(l, j) && i > Max(l.applied, |log|) && j > Max(l.applied, |log|) ==> i == j)
  {
    ElectedOK(log, handed, applied, joint, autoLeave, limit);
    Always(Elected(log, handed, applied, joint, autoLeave, limit), es);
  }

  /**
    Byte conservation: at any moment of a leadership the counted size is that of the
    leader's own entries not yet handed out, so giving bytes back never underflows,
    and it is at most the limit or one batch admitted when nothing was counted.
   */
  lemma UncommittedConserved(log: seq<Item>, handed: nat, applied: nat, joint: bool, autoLeave: bool, limit: nat, es: seq<Event>, to: nat)
    requires applied <= handed <= |log|
    ensures var l := Run(Elected(log, handed, applied, joint, autoLeave, limit), es);
            && l.handed <= |l.log| && |log| <= |l.log|
            && l.size == Bytes(l.log[Max(l.handed, |log|)..])
            && l.size <= Max(limit, l.free)
            && (l.handed <= to <= |l.log| ==> Owned(l, l.handed, to) <= l.size)
  {
    ElectedOK(log, handed, applied, joint, autoLeave, limit);
    Always(Elected(log, handed, applied, joint, autoLeave, limit), es);
    var l := Run(Elected(log, handed, applied, joint, autoLeave, limit), es);
    if l.handed <= to <= |l.log| {
      HandOutBytes(l, to);
    }
    assert l.log[Max(l.handed, |log|)..|l.log|] == l.log[Max(l.handed, |log|)..];
  }

  /** The automatic proposal to leave is never refused for its size. */
  lemma LeaveNeverRefused(l: Leader)
    ensures Append(l, [LEAVE]).log == l.log + [LEAVE]
  {
    BytesOfOne(LEAVE);
  }
}
