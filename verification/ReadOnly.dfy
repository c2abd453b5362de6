/** Pending read requests: a map and a queue that must agree, released once a quorum has answered. */
module ReadOnly {
  import opened Common
  import opened Quorum

  type Context = string

  datatype Request = Request(context: Context, from: nat)

  datatype Status = Status(req: Request, index: nat, acks: set<nat>)

  datatype Reads = Reads(pending: map<Context, Status>, queue: seq<Context>)

  const EMPTY: Reads := Reads(map[], [])

  function Added(r: Reads, index: nat, req: Request, self: nat): Reads {
    if req.context in r.pending then r
    else Reads(r.pending[req.context := Status(req, index, {self})], r.queue + [req.context])
  }

  function Answering(r: Reads, id: nat, ctx: Context): Reads {
    if ctx in r.pending then
      r.(pending := r.pending[ctx := r.pending[ctx].(acks := r.pending[ctx].acks + {id})])
    else r
  }

  /** The place of a context in the queue, from `i` on; the length if it is not there. */
  function Place(q: seq<Context>, ctx: Context, i: nat): (k: nat)
    requires i <= |q|
    ensures i <= k <= |q| && (k < |q| ==> q[k] == ctx)
    ensures forall j :: i <= j < k ==> q[j] != ctx
    decreases |q| - i
  {
    if i == |q| || q[i] == ctx then i else Place(q, ctx, i + 1)
  }

  /** The statuses of the first `k` queued requests. */
  function Front(r: Reads, k: nat): (ss: seq<Status>)
    requires Agree(r) && k <= |r.queue|
    ensures |ss| == k
  {
    seq(k, i requires 0 <= i < k => assert IsPending(r, i); r.pending[r.queue[i]])
  }

  function InFront(q: seq<Context>, k: nat): set<Context>
    requires k <= |q|
  {
    set i | 0 <= i < k :: q[i]
  }

  /** The requests up to and including `ctx` leave the queue and the map. */
  function Advanced(r: Reads, ctx: Context): (Reads, seq<Status>)
    requires Agree(r)
  {
    var i := Place(r.queue, ctx, 0);
    if i == |r.queue| then (r, [])
    else (Reads(r.pending - InFront(r.queue, i + 1), r.queue[i + 1..]), Front(r, i + 1))
  }

  /** The map's keys are the queue's elements, each queued once. */
  predicate Agree(r: Reads) {
    && (forall i {:trigger IsPending(r, i)} :: 0 <= i < |r.queue| ==> IsPending(r, i))
    && (forall ctx {:trigger IsQueued(r, ctx)} :: ctx in r.pending ==> IsQueued(r, ctx))
    && Distinct(r.queue)
  }

  predicate IsPending(r: Reads, i: nat) {
    i < |r.queue| && r.queue[i] in r.pending
  }

  predicate IsQueued(r: Reads, ctx: Context) {
    ctx in r.pending && ctx in r.queue && r.pending[ctx].req.context == ctx
  }

  predicate Distinct(q: seq<Context>) {
    forall i, j :: 0 <= i < j < |q| ==> q[i] != q[j]
  }

  lemma AddKeeps(r: Reads, index: nat, req: Request, self: nat)
    requires Agree(r)
    ensures Agree(Added(r, index, req, self))
  {
    var a := Added(r, index, req, self);
    if a != r {
      forall i | 0 <= i < |a.queue| ensures IsPending(a, i) {
        assert i < |r.queue| ==> IsPending(r, i);
      }
      forall ctx | ctx in a.pending ensures IsQueued(a, ctx) {
        if ctx == req.context {
          assert a.queue[|r.queue|] == ctx;
        } else {
          assert IsQueued(r, ctx);
        }
      }
      forall i | 0 <= i < |r.queue| ensures r.queue[i] != req.context {
        assert IsPending(r, i);
      }
    }
  }

  lemma AckKeeps(r: Reads, id: nat, ctx: Context)
    requires Agree(r)
    ensures Agree(Answering(r, id, ctx))
  {
    var a := Answering(r, id, ctx);
    forall i | 0 <= i < |a.queue| ensures IsPending(a, i) {
      assert IsPending(r, i);
    }
    forall c | c in a.pending ensures IsQueued(a, c) {
      assert IsQueued(r, c);
    }
  }

  lemma AdvanceKeeps(r: Reads, ctx: Context)
    requires Agree(r)
    ensures Agree(Advanced(r, ctx).0)
  {
    var n := Place(r.queue, ctx, 0) + 1;
    if n <= |r.queue| {
      var a := Advanced(r, ctx).0;
      forall c | c in a.pending ensures IsQueued(a, c) {
        assert IsQueued(r, c);
        var j :| 0 <= j < |r.queue| && r.queue[j] == c;
        assert j >= n;
        assert a.queue[j - n] == c;
      }
      forall j | 0 <= j < |a.queue| ensures IsPending(a, j) {
        assert IsPending(r, j + n);
        assert a.queue[j] == r.queue[j + n];
        forall k | 0 <= k < n ensures r.queue[k] != a.queue[j] {}
      }
    }
  }

  /** Popping one more request. */
  lemma PopStep(r: Reads, n: nat)
    requires Agree(r) && n < |r.queue|
    ensures r.queue[n..][0] == r.queue[n] && r.queue[n..][1..] == r.queue[n + 1..]
    ensures var rest := r.pending - InFront(r.queue, n);
            r.queue[n] in rest && rest[r.queue[n]] == r.pending[r.queue[n]]
            && rest - {r.queue[n]} == r.pending - InFront(r.queue, n + 1)
    ensures Front(r, n + 1) == Front(r, n) + [r.pending[r.queue[n]]]
  {
    assert IsPending(r, n);
    assert InFront(r.queue, n + 1) == InFront(r.queue, n) + {r.queue[n]};
  }

  lemma NothingPopped(r: Reads)
    requires Agree(r)
    ensures r.queue[0..] == r.queue && r.pending - InFront(r.queue, 0) == r.pending && Front(r, 0) == []
  {
  }

  // ---------------------------------------------------- what a release is

  predicate Queues(q: seq<Context>, ctx: Context) {
    exists i :: 0 <= i < |q| && q[i] == ctx
  }

  predicate StatusAt(r: Reads, ss: seq<Status>, j: nat) {
    j < |ss| && j < |r.queue| && r.queue[j] in r.pending && ss[j] == r.pending[r.queue[j]]
  }

  /** The requests at places 0 to `i` come out in order; exactly those behind them stay, as they were. */
  ghost predicate Releases(r: Reads, i: nat, s: Reads, ss: seq<Status>) {
    && i < |r.queue| && |ss| == i + 1 && (forall j: nat :: j <= i ==> StatusAt(r, ss, j))
    && s.queue == r.queue[i + 1..]
    && (forall c :: c in s.pending <==> Queues(s.queue, c))
    && (forall c :: c in s.pending ==> c in r.pending && s.pending[c] == r.pending[c])
  }

  lemma PlaceIs(q: seq<Context>, ctx: Context, i: nat)
    requires Distinct(q) && i < |q| && q[i] == ctx
    ensures Place(q, ctx, 0) == i
  {
    var k := Place(q, ctx, 0);
    assert k <= i;
  }

  /** Advancing to a queued context releases it and everything queued before it. */
  lemma AdvanceReleases(r: Reads, ctx: Context, i: nat)
    requires Agree(r) && i < |r.queue| && r.queue[i] == ctx
    ensures Releases(r, i, Advanced(r, ctx).0, Advanced(r, ctx).1)
  {
    PlaceIs(r.queue, ctx, i);
    AdvanceKeeps(r, ctx);
    var (s, ss) := Advanced(r, ctx);
    assert s.queue == r.queue[i + 1..];
    forall j: nat | j <= i
      ensures StatusAt(r, ss, j)
    {
      assert IsPending(r, j);
    }
    forall c
      ensures c in s.pending <==> Queues(s.queue, c)
    {
      if c in s.pending {
        assert IsQueued(s, c);
      }
      if Queues(s.queue, c) {
        var j :| 0 <= j < |s.queue| && s.queue[j] == c;
        assert IsPending(s, j);
      }
    }
  }

  class ReadOnly {
    var pendingReadIndex: map<Context, Status>
    var readIndexQueue: seq<Context>

    function Abs(): Reads
      reads this
    {
      Reads(pendingReadIndex, readIndexQueue)
    }

    ghost predicate Valid()
      reads this
    {
      Agree(Abs())
    }

    constructor ()
      ensures Valid() && Abs() == EMPTY
    {
      pendingReadIndex, readIndexQueue := map[], [];
    }

    method AddRequest(index: nat, req: Request, self: nat)
      requires Valid()
      modifies this
      ensures Valid() && Abs() == Added(old(Abs()), index, req, self)
    {
      AddKeeps(Abs(), index, req, self);
      if req.context in pendingReadIndex {
        return;
      }
      pendingReadIndex := pendingReadIndex[req.context := Status(req, index, {self})];
      readIndexQueue := readIndexQueue + [req.context];
    }

    /** Records the answer of `id` and gives all answers so far. */
    method RecvAck(id: nat, ctx: Context) returns (acks: Option<set<nat>>)
      requires Valid()
      modifies this`pendingReadIndex
      ensures Valid() && Abs() == Answering(old(Abs()), id, ctx)
      ensures acks == if ctx in pendingReadIndex then Some(pendingReadIndex[ctx].acks) else None
    {
      if ctx !in pendingReadIndex {
        return None;
      }
      AckKeeps(Abs(), id, ctx);
      var rs := pendingReadIndex[ctx];
      pendingReadIndex := pendingReadIndex[ctx := rs.(acks := rs.acks + {id})];
      acks := Some(pendingReadIndex[ctx].acks);
    }

    /** The place of a context in the queue; fatal if a queued context is not in the map, which never happens. */
    method Position(ctx: Context) returns (i: nat)
      requires Valid()
      ensures i == Place(readIndexQueue, ctx, 0)
    {
      i := 0;
      while i < |readIndexQueue|
        invariant i <= |readIndexQueue| && Place(readIndexQueue, ctx, 0) == Place(readIndexQueue, ctx, i)
      {
        assert IsPending(Abs(), i);
        if readIndexQueue[i] == ctx {
          return;
        }
        i := i + 1;
      }
    }

    /** Releases the queue up to and including `ctx`; both unwraps succeed. */
    method Advance(ctx: Context) returns (rss: seq<Status>)
      requires Valid()
      modifies this
      ensures Valid() && (Abs(), rss) == Advanced(old(Abs()), ctx)
      ensures forall i: nat :: i < |old(readIndexQueue)| && old(readIndexQueue)[i] == ctx ==> Releases(old(Abs()), i, Abs(), rss)
      ensures !Queues(old(readIndexQueue), ctx) ==> Abs() == old(Abs()) && rss == []
    {
      hide Agree, InFront, Place, Releases;
      rss := [];
      ghost var r := Abs();
      forall i: nat | i < |r.queue| && r.queue[i] == ctx
        ensures Releases(r, i, Advanced(r, ctx).0, Advanced(r, ctx).1)
      {
        AdvanceReleases(r, ctx, i);
      }
      AdvanceKeeps(r, ctx);
      var i := Position(ctx);
      NothingPopped(r);
      if i < |readIndexQueue| {
        var n := 0;
        while n <= i
          invariant n <= i + 1 && readIndexQueue == r.queue[n..]
          invariant pendingReadIndex == r.pending - InFront(r.queue, n)
          invariant rss == Front(r, n)
        {
          PopStep(r, n);
          var rs := readIndexQueue[0];
          readIndexQueue := readIndexQueue[1..];
          var status := pendingReadIndex[rs];
          pendingReadIndex := pendingReadIndex - {rs};
          rss := rss + [status];
          n := n + 1;
        }
      }
    }
  }

  // ------------------------------------------------------------------ runs

  /** A request reaches the leader, a heartbeat response carries a context, or the voters change. */
  datatype Event =
    | RequestEvent(index: nat, req: Request)
    | HeartbeatEvent(from: nat, ctx: Context)
    | ChangeEvent(voters: JointConfig)

  /** The leader's reads, its voters, and what was accepted and released so far. */
  datatype Leader = Leader(self: nat, voters: JointConfig, waiting: Reads, accepted: seq<(Context, nat)>, released: seq<(Context, nat)>)

  function Named(ss: seq<Status>): (ns: seq<(Context, nat)>)
    ensures |ns| == |ss| && forall i :: 0 <= i < |ss| ==> ns[i] == (ss[i].req.context, ss[i].index)
  {
    seq(|ss|, i requires 0 <= i < |ss| => (ss[i].req.context, ss[i].index))
  }

  /** An answer that completes a quorum releases the queue up to its context. */
  function Answered(l: Leader, from: nat, ctx: Context): Leader
    requires Agree(l.waiting)
  {
    var r := Answering(l.waiting, from, ctx);
    AckKeeps(l.waiting, from, ctx);
    if ctx in r.pending && HasQuorum(l.voters, r.pending[ctx].acks) then
      var (a, ss) := Advanced(r, ctx);
      l.(waiting := a, released := l.released + Named(ss))
    else l.(waiting := r)
  }

  function Handle(l: Leader, e: Event): Leader
    requires Agree(l.waiting)
  {
    match e
    case RequestEvent(index, req) =>
      l.(waiting := Added(l.waiting, index, req, l.self),
         accepted := if req.context in l.waiting.pending then l.accepted else l.accepted + [(req.context, index)])
    case HeartbeatEvent(from, ctx) => Answered(l, from, ctx)
    case ChangeEvent(voters) =>
      var m := l.(voters := voters);
      if m.waiting.queue == [] then m else Answered(m, m.self, m.waiting.queue[|m.waiting.queue| - 1])
  }

  lemma HandleKeeps(l: Leader, e: Event)
    requires Agree(l.waiting)
    ensures Agree(Handle(l, e).waiting)
  {
    match e
    case RequestEvent(index, req) => AddKeeps(l.waiting, index, req, l.self);
    case HeartbeatEvent(from, ctx) => AnsweredKeeps(l, from, ctx);
    case ChangeEvent(voters) =>
      if l.waiting.queue != [] {
        AnsweredKeeps(l.(voters := voters), l.self, l.waiting.queue[|l.waiting.queue| - 1]);
      }
  }

  lemma AnsweredKeeps(l: Leader, from: nat, ctx: Context)
    requires Agree(l.waiting)
    ensures Agree(Answered(l, from, ctx).waiting)
  {
    hide Agree, Advanced;
    AckKeeps(l.waiting, from, ctx);
    AdvanceKeeps(Answering(l.waiting, from, ctx), ctx);
  }

  function Run(self: nat, voters: JointConfig, es: seq<Event>): (l: Leader)
    ensures Agree(l.waiting)
    decreases |es|
  {
    if es == [] then Leader(self, voters, EMPTY, [], [])
    else
      var l := Run(self, voters, es[..|es| - 1]);
      HandleKeeps(l, es[|es| - 1]);
      Handle(l, es[|es| - 1])
  }

  /** What is released, then what still waits, is exactly what was accepted, in order. */
  ghost predicate Conserved(l: Leader)
    requires Agree(l.waiting)
  {
    l.released + Named(Front(l.waiting, |l.waiting.queue|)) == l.accepted
  }

  lemma AckedFront(r: Reads, id: nat, ctx: Context, k: nat)
    requires Agree(r) && k <= |r.queue|
    ensures Agree(Answering(r, id, ctx)) && Named(Front(Answering(r, id, ctx), k)) == Named(Front(r, k))
  {
    AckKeeps(r, id, ctx);
  }

  lemma AdvancedFront(r: Reads, ctx: Context)
    requires Agree(r)
    ensures var (a, ss) := Advanced(r, ctx);
            && Agree(a) && Named(ss) + Named(Front(a, |a.queue|)) == Named(Front(r, |r.queue|))
  {
    AdvanceKeeps(r, ctx);
    var (a, ss) := Advanced(r, ctx);
    var n := |ss|;
    assert a.queue == r.queue[n..] && ss == Front(r, n);
    var x, y := Named(ss) + Named(Front(a, |a.queue|)), Named(Front(r, |r.queue|));
    forall i | 0 <= i < |y| ensures x[i] == y[i] {
      if i >= n {
        LaterStatus(r, ctx, i);
      }
    }
  }

  lemma LaterStatus(r: Reads, ctx: Context, i: nat)
    requires Agree(r) && |Advanced(r, ctx).1| <= i < |r.queue|
    ensures var (a, ss) := Advanced(r, ctx);
            && |a.queue| == |r.queue| - |ss| && a.queue[i - |ss|] == r.queue[i]
            && r.queue[i] in a.pending && a.pending[r.queue[i]] == r.pending[r.queue[i]]
  {
    AdvanceKeeps(r, ctx);
    var (a, ss) := Advanced(r, ctx);
    Queued(a, i - |ss|);
    Queued(r, i);
    hide Agree, InFront;
  }

  lemma Queued(r: Reads, i: nat)
    requires Agree(r) && i < |r.queue|
    ensures r.queue[i] in r.pending
  {
    assert IsPending(r, i);
  }

  lemma AnsweredConserves(l: Leader, from: nat, ctx: Context)
    requires Agree(l.waiting) && Conserved(l)
    ensures Agree(Answered(l, from, ctx).waiting) && Conserved(Answered(l, from, ctx))
  {
    hide Agree, Advanced, HasQuorum;
    var r := Answering(l.waiting, from, ctx);
    AckedFront(l.waiting, from, ctx, |l.waiting.queue|);
    AdvancedFront(r, ctx);
    var (a, ss) := Advanced(r, ctx);
    assert l.released + Named(ss) + Named(Front(a, |a.queue|)) == l.released + (Named(ss) + Named(Front(a, |a.queue|)));
  }

  lemma AddedConserves(l: Leader, index: nat, req: Request)
    requires Agree(l.waiting) && Conserved(l)
    ensures var m := Handle(l, RequestEvent(index, req)); Agree(m.waiting) && Conserved(m)
  {
    AddKeeps(l.waiting, index, req, l.self);
    var m := Handle(l, RequestEvent(index, req));
    if req.context !in l.waiting.pending {
      var q := l.waiting.queue;
      var x := Named(Front(m.waiting, |m.waiting.queue|));
      var y := Named(Front(l.waiting, |q|));
      forall i | 0 <= i < |q| ensures x[i] == y[i] {
        assert m.waiting.queue[i] == q[i] && IsPending(l.waiting, i);
      }
      assert x == y + [(req.context, index)];
      assert l.released + (y + [(req.context, index)]) == l.released + y + [(req.context, index)];
    }
  }

  /**
    Read conservation: over every run, the reads released so far followed by those
    still queued are exactly the reads accepted, in order, so each is read once.
   */
  lemma {:induction false} ReadsConserved(self: nat, voters: JointConfig, es: seq<Event>)
    ensures Conserved(Run(self, voters, es))
    decreases |es|
  {
    hide Agree, Answered;
    if es == [] {
      EmptyConserved(self, voters);
    } else {
      ReadsConserved(self, voters, es[..|es| - 1]);
      var l, e := Run(self, voters, es[..|es| - 1]), es[|es| - 1];
      match e
      case RequestEvent(index, req) => AddedConserves(l, index, req);
      case HeartbeatEvent(from, ctx) => AnsweredConserves(l, from, ctx);
      case ChangeEvent(newVoters) =>
        if l.waiting.queue != [] {
          AnsweredConserves(l.(voters := newVoters), l.self, l.waiting.queue[|l.waiting.queue| - 1]);
        }
    }
  }

  /** Every request event carries a commit index no smaller than the ones before it. */
  ghost predicate CommitGrows(es: seq<Event>) {
    forall i, j :: 0 <= i < j < |es| && es[i].RequestEvent? && es[j].RequestEvent? ==> es[i].index <= es[j].index
  }

  ghost predicate Ascending(ns: seq<(Context, nat)>) {
    forall i, j :: 0 <= i < j < |ns| ==> ns[i].1 <= ns[j].1
  }

  lemma EmptyConserved(self: nat, voters: JointConfig)
    ensures Agree(EMPTY) && Conserved(Leader(self, voters, EMPTY, [], []))
  {
  }

  ghost predicate RequestsUpTo(es: seq<Event>, bound: nat) {
    forall i :: 0 <= i < |es| && es[i].RequestEvent? ==> es[i].index <= bound
  }

  ghost predicate UpTo(ns: seq<(Context, nat)>, bound: nat) {
    forall i :: 0 <= i < |ns| ==> ns[i].1 <= bound
  }

  lemma {:induction false} AcceptedUpTo(self: nat, voters: JointConfig, es: seq<Event>, bound: nat)
    requires RequestsUpTo(es, bound)
    ensures UpTo(Run(self, voters, es).accepted, bound)
    decreases |es|
  {
    hide Agree, Answered;
    if es != [] {
      AcceptedUpTo(self, voters, es[..|es| - 1], bound);
      AcceptedStep(Run(self, voters, es[..|es| - 1]), es[|es| - 1]);
    }
  }

  lemma AcceptedStep(l: Leader, e: Event)
    requires Agree(l.waiting)
    ensures Handle(l, e).accepted == l.accepted
            || (e.RequestEvent? && Handle(l, e).accepted == l.accepted + [(e.req.context, e.index)])
  {
    hide Agree;
  }

  lemma {:induction false} AcceptedAscend(self: nat, voters: JointConfig, es: seq<Event>)
    requires CommitGrows(es)
    ensures Ascending(Run(self, voters, es).accepted)
    decreases |es|
  {
    hide Agree, Answered;
    if es != [] {
      var init := es[..|es| - 1];
      AcceptedAscend(self, voters, init);
      AcceptedStep(Run(self, voters, init), es[|es| - 1]);
      if es[|es| - 1].RequestEvent? {
        AcceptedUpTo(self, voters, init, es[|es| - 1].index);
      }
    }
  }

  /** What a released request is known by. */
  predicate NamedAt(r: Reads, ns: seq<(Context, nat)>, j: nat) {
    j < |ns| && j < |r.queue| && r.queue[j] in r.pending && ns[j] == (r.queue[j], r.pending[r.queue[j]].index)
  }

  /** An answer is added to those its context has, and no other request notices. */
  ghost predicate AnswerNoted(r: Reads, s: Reads, from: nat, ctx: Context) {
    && s.queue == r.queue && s.pending.Keys == r.pending.Keys
    && forall c :: c in r.pending ==>
         s.pending[c] == if c == ctx then r.pending[c].(acks := r.pending[c].acks + {from}) else r.pending[c]
  }

  /**
    One heartbeat answer. If it completes a quorum for its context, that request and all queued before it are
    released in order with the indexes they came with, and all behind it stay; otherwise it is only noted.
   */
  lemma AnswerDecides(l: Leader, from: nat, i: nat)
    requires Agree(l.waiting) && i < |l.waiting.queue|
    ensures l.waiting.queue[i] in l.waiting.pending
    ensures var ctx := l.waiting.queue[i];
            var m := Handle(l, HeartbeatEvent(from, ctx));
            if HasQuorum(l.voters, l.waiting.pending[ctx].acks + {from}) then
              && |m.released| == |l.released| + i + 1 && m.released[..|l.released|] == l.released
              && (forall j: nat :: j <= i ==> NamedAt(l.waiting, m.released[|l.released|..], j))
              && m.waiting.queue == l.waiting.queue[i + 1..]
              && (forall c :: c in m.waiting.pending <==> Queues(m.waiting.queue, c))
              && (forall c :: c in m.waiting.pending ==> c in l.waiting.pending && m.waiting.pending[c] == l.waiting.pending[c])
            else
              m.released == l.released && AnswerNoted(l.waiting, m.waiting, from, ctx)
  {
    hide HasQuorum, Advanced;
    var ctx := l.waiting.queue[i];
    Queued(l.waiting, i);
    AckKeeps(l.waiting, from, ctx);
    var r := Answering(l.waiting, from, ctx);
    if HasQuorum(l.voters, r.pending[ctx].acks) {
      AdvanceReleases(r, ctx, i);
      var (s, ss) := Advanced(r, ctx);
      var m := Handle(l, HeartbeatEvent(from, ctx));
      assert m.released[|l.released|..] == Named(ss);
      forall j: nat | j <= i
        ensures NamedAt(l.waiting, m.released[|l.released|..], j)
      {
        assert StatusAt(r, ss, j) && IsQueued(r, r.queue[j]);
        assert IsPending(l.waiting, j);
      }
      forall c | c in s.pending
        ensures c in l.waiting.pending && s.pending[c] == l.waiting.pending[c]
      {
        var k :| 0 <= k < |s.queue| && s.queue[k] == c;
        assert r.queue[i + 1 + k] == c && c != ctx;
      }
    }
  }

  /** An answer for a request that is not queued changes nothing. */
  lemma UnknownAnswer(l: Leader, from: nat, ctx: Context)
    requires Agree(l.waiting) && !Queues(l.waiting.queue, ctx)
    ensures Handle(l, HeartbeatEvent(from, ctx)) == l
  {
    assert ctx in l.waiting.pending ==> IsQueued(l.waiting, ctx);
  }

  /** A request waits from now on exactly if its context did not yet: behind the others, with its index and the leader's own answer. */
  lemma RequestWaits(l: Leader, index: nat, req: Request)
    requires Agree(l.waiting)
    ensures var ctx, m := req.context, Handle(l, RequestEvent(index, req));
            if Queues(l.waiting.queue, ctx) then m == l
            else m == l.(waiting := Reads(l.waiting.pending[ctx := Status(req, index, {l.self})], l.waiting.queue + [ctx]),
                         accepted := l.accepted + [(ctx, index)])
  {
    var ctx := req.context;
    if ctx in l.waiting.pending {
      assert IsQueued(l.waiting, ctx);
    }
    if Queues(l.waiting.queue, ctx) {
      var i :| 0 <= i < |l.waiting.queue| && l.waiting.queue[i] == ctx;
      assert IsPending(l.waiting, i);
    }
  }

  /** One answer after the other, for one context. */
  function AllAnswered(l: Leader, ctx: Context, ids: seq<nat>): (m: Leader)
    requires Agree(l.waiting)
    ensures Agree(m.waiting)
    decreases |ids|
  {
    if ids == [] then l
    else
      var m := AllAnswered(l, ctx, ids[..|ids| - 1]);
      HandleKeeps(m, HeartbeatEvent(ids[|ids| - 1], ctx));
      Handle(m, HeartbeatEvent(ids[|ids| - 1], ctx))
  }

  /** The request is released with its index, or still waits with all answers noted, which are no quorum yet. */
  ghost predicate ServedOrNoted(l: Leader, m: Leader, ctx: Context, ids: seq<nat>)
    requires ctx in l.waiting.pending
  {
    var was := l.waiting.pending[ctx];
    && m.voters == l.voters
    && ((ctx, was.index) in m.released
        || (&& ctx in m.waiting.pending && m.waiting.pending[ctx] == was.(acks := was.acks + (set id | id in ids))
            && (ids != [] ==> !HasQuorum(l.voters, was.acks + (set id | id in ids)))))
  }

  lemma {:induction false} AnswersAdd(l: Leader, ctx: Context, ids: seq<nat>)
    requires Agree(l.waiting) && ctx in l.waiting.pending
    ensures ServedOrNoted(l, AllAnswered(l, ctx, ids), ctx, ids)
    decreases |ids|
  {
    if ids == [] {
      assert l.waiting.pending[ctx].acks + (set id | id in ids) == l.waiting.pending[ctx].acks;
    } else {
      var init, from := ids[..|ids| - 1], ids[|ids| - 1];
      AnswersAdd(l, ctx, init);
      OneMoreAnswer(l, AllAnswered(l, ctx, init), ctx, init, from);
      assert init + [from] == ids;
    }
  }

  lemma OneMoreAnswer(l: Leader, m: Leader, ctx: Context, ids: seq<nat>, from: nat)
    requires ctx in l.waiting.pending && Agree(m.waiting) && ServedOrNoted(l, m, ctx, ids)
    ensures ServedOrNoted(l, Handle(m, HeartbeatEvent(from, ctx)), ctx, ids + [from])
  {
    hide HasQuorum, Advanced, Agree;
    var was := l.waiting.pending[ctx];
    assert was.acks + (set id | id in ids + [from]) == was.acks + (set id | id in ids) + {from};
    NoneTakenBack(m, from, ctx);
    if ctx in m.waiting.pending && (ctx, was.index) !in m.released {
      var i := PlaceOf(m.waiting, ctx);
      AnswerDecides(m, from, i);
      var n := Handle(m, HeartbeatEvent(from, ctx));
      if HasQuorum(m.voters, m.waiting.pending[ctx].acks + {from}) {
        assert NamedAt(m.waiting, n.released[|m.released|..], i);
        assert n.released[|m.released| + i] == (ctx, was.index);
      }
    }
  }

  lemma PlaceOf(r: Reads, ctx: Context) returns (i: nat)
    requires Agree(r) && ctx in r.pending
    ensures i < |r.queue| && r.queue[i] == ctx
  {
    assert IsQueued(r, ctx);
    i :| 0 <= i < |r.queue| && r.queue[i] == ctx;
  }

  lemma NoneTakenBack(l: Leader, from: nat, ctx: Context)
    requires Agree(l.waiting)
    ensures var m := Handle(l, HeartbeatEvent(from, ctx)); l.released <= m.released && m.voters == l.voters
  {
    hide HasQuorum, Advanced;
  }

  /** A waiting request is released, with the index it came with, once the answers that come in make a quorum, in whatever order. */
  lemma ReadServed(l: Leader, ctx: Context, ids: seq<nat>)
    requires Agree(l.waiting) && ctx in l.waiting.pending && ids != []
    requires HasQuorum(l.voters, l.waiting.pending[ctx].acks + (set id | id in ids))
    ensures (ctx, l.waiting.pending[ctx].index) in AllAnswered(l, ctx, ids).released
  {
    hide HasQuorum;
    AnswersAdd(l, ctx, ids);
  }

  /** A change of voters asks again whether the last request has a quorum, the leader included. */
  lemma ChangeDecides(l: Leader, voters: JointConfig)
    requires Agree(l.waiting)
    ensures var n := |l.waiting.queue|;
            Handle(l, ChangeEvent(voters)) ==
            if n == 0 then l.(voters := voters)
            else Handle(l.(voters := voters), HeartbeatEvent(l.self, l.waiting.queue[n - 1]))
  {
  }

  /** What one answer releases. */
  lemma AnswerReleases(l: Leader, from: nat, ctx: Context)
    requires Agree(l.waiting) && |Answered(l, from, ctx).released| > |l.released|
    ensures var m := Answered(l, from, ctx);
            && ctx in l.waiting.pending && HasQuorum(l.voters, l.waiting.pending[ctx].acks + {from})
            && m.accepted == l.accepted
            && m.released[|m.released| - 1] == (ctx, l.waiting.pending[ctx].index)
  {
    AckKeeps(l.waiting, from, ctx);
    var r := Answering(l.waiting, from, ctx);
    hide HasQuorum;
    assert ctx in r.pending && IsQueued(r, ctx);
    var i := Place(r.queue, ctx, 0);
    var (a, ss) := Advanced(r, ctx);
    assert i < |r.queue| && ss[|ss| - 1] == r.pending[ctx];
  }

  /**
    One answer releases a prefix of the queue that ends at its own context, which a
    quorum has answered since it was queued; with a growing commit index no released
    read is above that context's.
   */
  lemma AnswerReleasesPrefix(self: nat, voters: JointConfig, es: seq<Event>, from: nat, ctx: Context, k: nat)
    requires CommitGrows(es)
    requires |Run(self, voters, es).released| <= k < |Answered(Run(self, voters, es), from, ctx).released|
    ensures var l, m := Run(self, voters, es), Answered(Run(self, voters, es), from, ctx);
            && ctx in l.waiting.pending && HasQuorum(l.voters, l.waiting.pending[ctx].acks + {from})
            && m.released <= l.accepted && m.released[|m.released| - 1] == (ctx, l.waiting.pending[ctx].index)
            && m.released[k].1 <= l.waiting.pending[ctx].index
  {
    hide HasQuorum, Run, CommitGrows, Agree;
    var l := Run(self, voters, es);
    ReadsConserved(self, voters, es);
    AcceptedAscend(self, voters, es);
    AnswerReleases(l, from, ctx);
    AnsweredConserves(l, from, ctx);
    var m := Answered(l, from, ctx);
    ReleasedPrefix(m, k);
  }

  lemma ReleasedPrefix(m: Leader, k: nat)
    requires Agree(m.waiting) && Conserved(m) && Ascending(m.accepted) && k < |m.released|
    ensures m.released <= m.accepted && m.released[k].1 <= m.released[|m.released| - 1].1
  {
    var last := |m.released| - 1;
    assert m.released[k] == m.accepted[k] && m.released[last] == m.accepted[last];
  }
}
