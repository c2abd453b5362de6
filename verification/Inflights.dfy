/** The window of messages in flight to one follower: a ring buffer that refines a bounded queue. */
module Inflights {
  import opened Common

  /** The queue the ring buffer stands for, its capacity, and a smaller capacity waiting for it to drain. */
  datatype Window = Window(queue: seq<nat>, cap: nat, incoming: Option<nat>)

  predicate Full(w: Window) {
    |w.queue| == w.cap || (w.incoming.Some? && |w.queue| >= w.incoming.value)
  }

  function Added(w: Window, x: nat): Window {
    w.(queue := w.queue + [x])
  }

  /** The first place from `i` on whose element is above `to`. */
  function FirstAbove(q: seq<nat>, to: nat, i: nat): (k: nat)
    requires i <= |q|
    ensures i <= k <= |q| && (k < |q| ==> q[k] > to)
    ensures forall j :: i <= j < k ==> q[j] <= to
    decreases |q| - i
  {
    if i == |q| || q[i] > to then i else FirstAbove(q, to, i + 1)
  }

  /** The queue from its first element above `to` on. */
  function Above(q: seq<nat>, to: nat): seq<nat> {
    q[FirstAbove(q, to, 0)..]
  }

  /** A window that ran empty takes the capacity that was waiting. */
  function Settled(w: Window): Window {
    if w.queue == [] && w.incoming.Some? then Window([], w.incoming.value, None) else w
  }

  function FreedTo(w: Window, to: nat): Window {
    Settled(w.(queue := Above(w.queue, to)))
  }

  function FreedFirst(w: Window): Window {
    if w.queue == [] then w else FreedTo(w, w.queue[0])
  }

  /** Growing takes effect at once, shrinking when the window is empty. */
  function Resized(w: Window, cap: nat): Window {
    if cap == w.cap then w.(incoming := None)
    else if cap > w.cap || w.queue == [] then w.(cap := cap, incoming := None)
    else w.(incoming := Some(cap))
  }

  function Cleared(w: Window): Window {
    Window([], if w.incoming.Some? then w.incoming.value else w.cap, None)
  }

  // ------------------------------------------------------------ ring buffer

  /** Where the element `i` places after the start lies. */
  function Slot(start: nat, i: nat, cap: nat): int {
    if start + i >= cap then start + i - cap else start + i
  }

  class Inflights {
    var start: nat
    var count: nat
    var buffer: seq<nat>
    var hasCapacity: bool // whether the vector has any capacity
    var cap: nat
    var incomingCap: Option<nat>

    ghost predicate Valid()
      reads this
    {
      && count <= cap && |buffer| <= cap && (start < cap || start == 0)
      && (if start + count <= cap then start + count <= |buffer| else |buffer| == cap)
      && (!hasCapacity ==> buffer == [] && start == 0)
      && (incomingCap.Some? ==> count > 0 && incomingCap.value < cap)
    }

    ghost function Abs(): (w: Window)
      requires Valid()
      reads this
      ensures |w.queue| == count && w.cap == cap && w.incoming == incomingCap
    {
      Window(Queue(), cap, incomingCap)
    }

    ghost function Queue(): (q: seq<nat>)
      requires Valid()
      reads this
      ensures |q| == count
    {
      seq(count, i requires 0 <= i < count && Valid() reads this => buffer[Slot(start, i, cap)])
    }

    constructor (cap: nat)
      ensures Valid() && Abs() == Window([], cap, None)
    {
      start, count, buffer, hasCapacity := 0, 0, [], cap > 0;
      this.cap, incomingCap := cap, None;
    }

    method SetCap(incoming: nat)
      requires Valid()
      modifies this
      ensures Valid() && Abs() == Resized(old(Abs()), incoming)
    {
      ghost var q := Queue();
      if cap == incoming {
        incomingCap := None;
      } else if cap < incoming {
        // reserving room in place moves no element; a wrapped buffer is unrolled
        if start + count > cap {
          assert |buffer| == cap;
          buffer := buffer[start..] + buffer[..count - (cap - start)];
          start := 0;
        }
        cap := incoming;
        incomingCap := None;
      } else if count == 0 {
        cap := incoming;
        incomingCap := None;
        start := 0;
        buffer := [];
        if hasCapacity {
          hasCapacity := incoming > 0;
        }
      } else {
        incomingCap := Some(incoming);
      }
      assert Queue() == q;
    }

    predicate IsFull()
      reads this
    {
      count == cap || (incomingCap.Some? && count >= incomingCap.value)
    }

    /** Panics on a full window; its other assertions never fail. */
    method Add(inflight: nat) returns (ok: bool)
      requires Valid()
      modifies this
      ensures ok <==> !Full(old(Abs()))
      ensures ok ==> Valid() && Abs() == Added(old(Abs()), inflight)
    {
      if IsFull() {
        return false;
      }
      ghost var q := Queue();
      if !hasCapacity {
        assert count == 0 && start == 0 && incomingCap == None;
        buffer := [];
        hasCapacity := cap > 0;
      }
      var next := start + count;
      if next >= cap {
        next := next - cap;
      }
      assert next <= |buffer|;
      if next == |buffer| {
        buffer := buffer + [inflight];
      } else {
        buffer := buffer[next := inflight];
      }
      count := count + 1;
      assert Queue() == q + [inflight];
      ok := true;
    }

    /** How many elements from the front are at most `to`, and the slot after them. */
    method Scan(to: nat) returns (i: nat, idx: nat)
      requires Valid() && count > 0
      ensures i == FirstAbove(Queue(), to, 0) && idx == Slot(start, i, cap)
      ensures idx < cap || (idx == 0 && i == count)
    {
      ghost var q := Queue();
      i, idx := 0, start;
      while i < count
        invariant 0 <= i <= count && FirstAbove(q, to, 0) == FirstAbove(q, to, i)
        invariant idx == Slot(start, i, cap) && (idx < cap || (idx == 0 && i == count))
      {
        assert q[i] == buffer[idx];
        if to < buffer[idx] {
          break;
        }
        idx := idx + 1;
        if idx >= cap {
          idx := idx - cap;
        }
        i := i + 1;
      }
    }

    /** Moves the start past the first `i` elements. */
    method Skip(i: nat, idx: nat)
      requires Valid() && i <= count && idx == Slot(start, i, cap) && (idx < cap || (idx == 0 && i == count))
      requires i == count ==> incomingCap == None
      modifies this`start, this`count
      ensures Valid() && Queue() == old(Queue())[i..]
    {
      ghost var q := Queue();
      count := count - i;
      start := idx;
      forall k | 0 <= k < count ensures Queue()[k] == q[i + k] {}
    }

    method FreeTo(to: nat)
      requires Valid()
      modifies this
      ensures Valid() && Abs() == FreedTo(old(Abs()), to)
    {
      if count == 0 || to < buffer[start] {
        assert count > 0 ==> Queue()[0] == buffer[start];
        return;
      }
      var i, idx := Scan(to);
      if i < count || incomingCap == None {
        Skip(i, idx);
      } else { // it ran empty with a capacity waiting
        count, start := 0, 0;
        cap := incomingCap.value;
        incomingCap := None;
        buffer := [];
        hasCapacity := cap > 0;
      }
    }

    method FreeFirstOne()
      requires Valid()
      modifies this
      ensures Valid() && Abs() == FreedFirst(old(Abs()))
    {
      if count > 0 {
        assert Queue()[0] == buffer[start];
        var first := buffer[start];
        FreeTo(first);
      }
    }

    method Reset()
      requires Valid()
      modifies this
      ensures Valid() && Abs() == Cleared(old(Abs()))
    {
      count, start := 0, 0;
      buffer, hasCapacity := [], false;
      cap := if incomingCap.Some? then incomingCap.value else cap;
      incomingCap := None;
    }

    method MaybeFreeBuffer()
      requires Valid()
      modifies this
      ensures Valid() && Abs() == old(Abs())
    {
      if count == 0 {
        start := 0;
        buffer, hasCapacity := [], false;
      }
    }
  }

  // ------------------------------------------------------------------ runs

  datatype Op = AddOp(x: nat) | FreeToOp(to: nat) | FreeFirstOp | SetCapOp(cap: nat) | ResetOp

  /** An addition to a full window stops the process, so it ends a run. */
  function Step(w: Window, op: Op): Option<Window> {
    match op
    case AddOp(x) => if Full(w) then None else Some(Added(w, x))
    case FreeToOp(to) => Some(FreedTo(w, to))
    case FreeFirstOp => Some(FreedFirst(w))
    case SetCapOp(cap) => Some(Resized(w, cap))
    case ResetOp => Some(Cleared(w))
  }

  function Run(cap: nat, ops: seq<Op>): Option<Window>
    decreases |ops|
  {
    if ops == [] then Some(Window([], cap, None))
    else
      match Run(cap, ops[..|ops| - 1])
      case None => None
      case Some(w) => Step(w, ops[|ops| - 1])
  }

  /** Everything added over a run, in order. */
  function Adds(ops: seq<Op>): seq<nat>
    decreases |ops|
  {
    if ops == [] then []
    else
      var before := Adds(ops[..|ops| - 1]);
      if ops[|ops| - 1].AddOp? then before + [ops[|ops| - 1].x] else before
  }

  /** The latest of `all`, in order. */
  ghost predicate Latest(q: seq<nat>, all: seq<nat>) {
    |q| <= |all| && forall i :: 0 <= i < |q| ==> SameFromEnd(q, all, i)
  }

  predicate SameFromEnd(q: seq<nat>, all: seq<nat>, i: nat)
    requires |q| <= |all| && i < |q|
  {
    q[i] == all[|all| - |q| + i]
  }

  lemma LatestAdded(q: seq<nat>, all: seq<nat>, x: nat)
    requires Latest(q, all)
    ensures Latest(q + [x], all + [x])
  {
    forall i | 0 <= i < |q + [x]| ensures SameFromEnd(q + [x], all + [x], i) {
      assert i < |q| ==> SameFromEnd(q, all, i);
    }
  }

  lemma LatestDropped(q: seq<nat>, all: seq<nat>, k: nat)
    requires Latest(q, all) && k <= |q|
    ensures Latest(q[k..], all)
  {
    forall i | 0 <= i < |q[k..]| ensures SameFromEnd(q[k..], all, i) {
      assert SameFromEnd(q, all, i + k);
    }
  }

  /**
    First in, first out, whatever is resized in between: the window always holds the
    latest additions in order, never more than its capacity, and a capacity that
    waits is smaller than the present one.
   */
  lemma {:induction false} WindowIsFifo(cap: nat, ops: seq<Op>)
    requires Run(cap, ops).Some?
    ensures var w := Run(cap, ops).value;
            && Latest(w.queue, Adds(ops)) && |w.queue| <= w.cap
            && (w.incoming.Some? ==> w.queue != [] && w.incoming.value < w.cap)
    decreases |ops|
  {
    if ops != [] {
      WindowIsFifo(cap, ops[..|ops| - 1]);
      var w, op := Run(cap, ops[..|ops| - 1]).value, ops[|ops| - 1];
      var all := Adds(ops[..|ops| - 1]);
      match op
      case AddOp(x) => LatestAdded(w.queue, all, x);
      case FreeToOp(to) => LatestDropped(w.queue, all, FirstAbove(w.queue, to, 0));
      case FreeFirstOp =>
        if w.queue != [] {
          LatestDropped(w.queue, all, FirstAbove(w.queue, w.queue[0], 0));
        }
      case _ =>
    }
  }

  ghost predicate Increasing(s: seq<nat>) {
    forall i, j :: 0 <= i < j < |s| ==> s[i] < s[j]
  }

  lemma LatestIncreasing(q: seq<nat>, all: seq<nat>)
    requires Latest(q, all) && Increasing(all)
    ensures Increasing(q)
  {
    forall i, j | 0 <= i < j < |q| ensures q[i] < q[j] {
      assert SameFromEnd(q, all, i) && SameFromEnd(q, all, j);
    }
  }

  /** With indexes added in order, freeing up to an index keeps exactly the later ones. */
  lemma FreeToIsExact(cap: nat, ops: seq<Op>, to: nat, x: nat)
    requires Run(cap, ops).Some? && Increasing(Adds(ops))
    ensures var w := Run(cap, ops).value; x in FreedTo(w, to).queue <==> x in w.queue && x > to
  {
    WindowIsFifo(cap, ops);
    var q := Run(cap, ops).value.queue;
    LatestIncreasing(q, Adds(ops));
    var k := FirstAbove(q, to, 0);
    hide Latest, Adds, Run;
    if x in q {
      var i :| 0 <= i < |q| && q[i] == x;
      InTail(q, k, i);
      if i >= k {
        assert k == i || q[k] < q[i];
      }
    }
  }

  /** In an increasing queue, an element is in the tail exactly when its place is. */
  lemma InTail(q: seq<nat>, k: nat, i: nat)
    requires Increasing(q) && k <= |q| && i < |q|
    ensures q[i] in q[k..] <==> i >= k
  {
    if i >= k {
      assert q[k..][i - k] == q[i];
    }
    if q[i] in q[k..] {
      var j :| 0 <= j < |q[k..]| && q[k..][j] == q[i];
      assert q[k + j] == q[i];
    }
  }

  /** And freeing the first one frees just that one. */
  lemma FreeFirstIsOne(cap: nat, ops: seq<Op>)
    requires Run(cap, ops).Some? && Increasing(Adds(ops)) && Run(cap, ops).value.queue != []
    ensures FreedFirst(Run(cap, ops).value).queue == Run(cap, ops).value.queue[1..]
  {
    WindowIsFifo(cap, ops);
    var q := Run(cap, ops).value.queue;
    LatestIncreasing(q, Adds(ops));
    assert FirstAbove(q, q[0], 0) == FirstAbove(q, q[0], 1);
  }

  /** The capacity last asked for. */
  function LastCap(cap: nat, ops: seq<Op>): nat
    decreases |ops|
  {
    if ops == [] then cap
    else if ops[|ops| - 1].SetCapOp? then ops[|ops| - 1].cap
    else LastCap(cap, ops[..|ops| - 1])
  }

  /**
    Whatever was added, freed and resized in between, the capacity last asked for is the one that counts: the
    window is full, and an addition stops the process, exactly if it holds that many. A smaller capacity waits
    for the window to run empty, and no longer.
   */
  lemma {:induction false} LastCapCounts(cap: nat, ops: seq<Op>, x: nat)
    requires Run(cap, ops).Some?
    ensures var w := Run(cap, ops).value;
            && (Full(w) <==> |w.queue| >= LastCap(cap, ops))
            && (Run(cap, ops + [AddOp(x)]).None? <==> |w.queue| >= LastCap(cap, ops))
            && w.cap >= LastCap(cap, ops) && (w.queue == [] ==> w.cap == LastCap(cap, ops))
            && (if w.cap > LastCap(cap, ops) then w.incoming == Some(LastCap(cap, ops)) else w.incoming == None)
    decreases |ops|
  {
    WindowIsFifo(cap, ops);
    assert (ops + [AddOp(x)])[..|ops|] == ops;
    if ops != [] {
      var init := ops[..|ops| - 1];
      LastCapCounts(cap, init, x);
      WindowIsFifo(cap, init);
    }
  }

  /** Starting over empties the window. */
  lemma ResetEmpties(cap: nat, ops: seq<Op>)
    requires Run(cap, ops).Some?
    ensures Run(cap, ops + [ResetOp]).Some? && Run(cap, ops + [ResetOp]).value.queue == []
  {
    assert (ops + [ResetOp])[..|ops|] == ops;
  }

  /** So does freeing up to what was added last, if indexes were added in order. */
  lemma LastFreesAll(cap: nat, ops: seq<Op>)
    requires Run(cap, ops).Some? && Increasing(Adds(ops)) && Adds(ops) != []
    ensures FreedTo(Run(cap, ops).value, Adds(ops)[|Adds(ops)| - 1]).queue == []
  {
    hide Run, Adds;
    var w, all := Run(cap, ops).value, Adds(ops);
    WindowIsFifo(cap, ops);
    forall i | 0 <= i < |w.queue|
      ensures w.queue[i] <= all[|all| - 1]
    {
      assert SameFromEnd(w.queue, all, i);
    }
  }

}
