/** What a leader knows of one follower, and how that decides what to send next. */
module Progress {
  import opened Common
  import I = Inflights

  datatype State = Probe | Replicate | Snapshot

  const INVALID_INDEX: nat := 0

  datatype Peer = Peer(
    matched: nat, nextIdx: nat, state: State, paused: bool,
    pendingSnapshot: nat, pendingRequest: nat,
    window: I.Window, committedIndex: nat)

  function Entered(p: Peer, state: State): Peer {
    p.(paused := false, pendingSnapshot := 0, state := state, window := I.Cleared(p.window))
  }

  function Probing(p: Peer): Peer {
    Entered(p, Probe).(nextIdx := if p.state == Snapshot then Max(p.matched + 1, p.pendingSnapshot + 1) else p.matched + 1)
  }

  function Replicating(p: Peer): Peer {
    Entered(p, Replicate).(nextIdx := p.matched + 1)
  }

  function Snapshotting(p: Peer, index: nat): Peer {
    Entered(p, Snapshot).(pendingSnapshot := index)
  }

  function IsPaused(p: Peer): bool {
    match p.state
    case Probe => p.paused
    case Replicate => I.Full(p.window)
    case Snapshot => true
  }

  function Updated(p: Peer, n: nat): Peer {
    var q := if p.matched < n then p.(matched := n, paused := false) else p;
    if q.nextIdx < n + 1 then q.(nextIdx := n + 1) else q
  }

  /** Whether a rejection is too old to act on. */
  predicate Stale(p: Peer, rejected: nat, request: nat) {
    if p.state == Replicate then rejected < p.matched || (rejected == p.matched && request == INVALID_INDEX)
    else (p.nextIdx == 0 || p.nextIdx - 1 != rejected) && request == INVALID_INDEX
  }

  function Decreased(p: Peer, rejected: nat, hint: nat, request: nat): Peer {
    if Stale(p, rejected, request) then p
    else if p.state == Replicate then
      if request == INVALID_INDEX then p.(nextIdx := p.matched + 1) else p.(pendingRequest := request)
    else
      var q := if request == INVALID_INDEX then p.(nextIdx := Max(1, Min(rejected, hint + 1)))
               else if p.pendingRequest == INVALID_INDEX then p.(pendingRequest := request) else p;
      q.(paused := false)
  }

  /** After a send: a probing leader pauses, a replicating one moves on; as written the two are exchanged. */
  function Sent(documented: bool, p: Peer, last: nat): Option<Peer> {
    var moved := if I.Full(p.window) then None else Some(p.(nextIdx := last + 1, window := I.Added(p.window, last)));
    var held := Some(p.(paused := true));
    match p.state
    case Probe => if documented then held else moved
    case Replicate => if documented then moved else held
    case Snapshot => None
  }

  class Progress {
    var matched: nat
    var nextIdx: nat
    var state: State
    var paused: bool
    var pendingSnapshot: nat
    var pendingRequestSnapshot: nat
    const ins: I.Inflights
    var committedIndex: nat

    ghost predicate Valid()
      reads this, ins
    {
      ins.Valid()
    }

    ghost function Abs(): Peer
      requires Valid()
      reads this, ins
    {
      Peer(matched, nextIdx, state, paused, pendingSnapshot, pendingRequestSnapshot, ins.Abs(), committedIndex)
    }

    constructor (nextIdx: nat, insSize: nat)
      ensures Valid() && fresh(ins)
      ensures Abs() == Peer(0, nextIdx, Probe, false, 0, 0, I.Window([], insSize, None), 0)
    {
      matched, this.nextIdx, state, paused := 0, nextIdx, Probe, false;
      pendingSnapshot, pendingRequestSnapshot, committedIndex := 0, 0, 0;
      ins := new I.Inflights(insSize);
    }

    method ResetState(s: State)
      requires Valid()
      modifies this, ins
      ensures Valid() && Abs() == Entered(old(Abs()), s)
    {
      paused := false;
      pendingSnapshot := 0;
      state := s;
      ins.Reset();
    }

    method BecomeProbe()
      requires Valid()
      modifies this, ins
      ensures Valid() && Abs() == Probing(old(Abs()))
    {
      if state == Snapshot {
        var pending := pendingSnapshot;
        ResetState(Probe);
        nextIdx := Max(matched + 1, pending + 1);
      } else {
        ResetState(Probe);
        nextIdx := matched + 1;
      }
    }

    method BecomeReplicate()
      requires Valid()
      modifies this, ins
      ensures Valid() && Abs() == Replicating(old(Abs()))
    {
      ResetState(Replicate);
      nextIdx := matched + 1;
    }

    method BecomeSnapshot(index: nat)
      requires Valid()
      modifies this, ins
      ensures Valid() && Abs() == Snapshotting(old(Abs()), index)
    {
      ResetState(Snapshot);
      pendingSnapshot := index;
    }

    method MaybeUpdate(n: nat) returns (needUpdate: bool)
      requires Valid()
      modifies this
      ensures Valid() && Abs() == Updated(old(Abs()), n) && (needUpdate <==> old(matched) < n)
    {
      needUpdate := matched < n;
      if needUpdate {
        matched := n;
        paused := false;
      }
      if nextIdx < n + 1 {
        nextIdx := n + 1;
      }
    }

    method UpdateCommitted(index: nat)
      modifies this`committedIndex
      ensures committedIndex == Max(old(committedIndex), index)
    {
      if index > committedIndex {
        committedIndex := index;
      }
    }

    method MaybeDecrTo(rejected: nat, matchHint: nat, requestSnapshot: nat) returns (ok: bool)
      requires Valid()
      modifies this
      ensures Valid() && Abs() == Decreased(old(Abs()), rejected, matchHint, requestSnapshot)
      ensures ok <==> !Stale(old(Abs()), rejected, requestSnapshot)
    {
      if state == Replicate {
        if rejected < matched || (rejected == matched && requestSnapshot == INVALID_INDEX) {
          return false;
        }
        if requestSnapshot == INVALID_INDEX {
          nextIdx := matched + 1;
        } else {
          pendingRequestSnapshot := requestSnapshot;
        }
        return true;
      }
      if (nextIdx == 0 || nextIdx - 1 != rejected) && requestSnapshot == INVALID_INDEX {
        return false;
      }
      if requestSnapshot == INVALID_INDEX {
        nextIdx := Min(rejected, matchHint + 1);
        if nextIdx < 1 {
          nextIdx := 1;
        }
      } else if pendingRequestSnapshot == INVALID_INDEX {
        pendingRequestSnapshot := requestSnapshot;
      }
      paused := false;
      ok := true;
    }

    /** Panics, by returning false, in a snapshot or on a full window. */
    method UpdateState(documented: bool, last: nat) returns (ok: bool)
      requires Valid()
      modifies this, ins
      ensures match Sent(documented, old(Abs()), last)
              case None => !ok
              case Some(p) => ok && Valid() && Abs() == p
    {
      if state == Snapshot {
        return false;
      }
      if (state == Probe) == documented {
        paused := true;
        ok := true;
      } else {
        nextIdx := last + 1;
        ok := ins.Add(last);
      }
    }
  }

  // -------------------------------------------------------------- properties

  /** What is sent next lies above what is known to match. */
  predicate NextAbove(p: Peer) {
    p.matched < p.nextIdx
  }

  /** Every change of mode, every acknowledgement and every send of later entries keeps it, and the match never falls. */
  lemma NextStaysAbove(documented: bool, p: Peer, n: nat, last: nat)
    requires NextAbove(p) && last >= p.matched
    ensures NextAbove(Probing(p)) && NextAbove(Replicating(p)) && NextAbove(Snapshotting(p, n)) && NextAbove(Updated(p, n))
    ensures Sent(documented, p, last).Some? ==> NextAbove(Sent(documented, p, last).value)
    ensures Updated(p, n).matched == Max(p.matched, n)
  {
  }

  /** Probing and replicating begin right behind the match, or behind a snapshot that was sent: nothing is skipped or sent twice. */
  lemma ModesBeginBehindMatch(p: Peer)
    ensures Probing(p).nextIdx == if p.state == Snapshot && p.pendingSnapshot > p.matched then p.pendingSnapshot + 1 else p.matched + 1
    ensures Replicating(p).nextIdx == p.matched + 1
    ensures !IsPaused(Probing(p)) && IsPaused(Snapshotting(p, p.matched))
    ensures Probing(p).window.queue == [] && Replicating(p).window.queue == [] && (IsPaused(Replicating(p)) <==> Replicating(p).window.cap == 0)
  {
  }

  /**
    What a rejection does: a replicating leader goes back to right behind the match, a probing one to a
    strictly earlier index unless it is at the first already, and may send at once. Only a rejection that
    cannot be of the last probe, or that lies within the match, is ignored.
   */
  lemma RejectionGoesBack(p: Peer, rejected: nat, hint: nat)
    requires NextAbove(p)
    ensures var q := Decreased(p, rejected, hint, INVALID_INDEX);
            && (p.state == Replicate ==> q == if rejected <= p.matched then p else p.(nextIdx := p.matched + 1))
            && (p.state == Probe && rejected + 1 != p.nextIdx ==> q == p)
            && (p.state == Probe && rejected + 1 == p.nextIdx ==>
                  !IsPaused(q) && 1 <= q.nextIdx <= Max(1, hint + 1) && (q.nextIdx < p.nextIdx || p.nextIdx == 1))
  {
  }

  /**
    A rejection that asks for a snapshot is remembered, by a prober the first one only, and moves no index; a
    replicating leader ignores one below its match.
   */
  lemma SnapshotRequestRemembered(p: Peer, rejected: nat, hint: nat, request: nat)
    requires request != INVALID_INDEX
    ensures var q := Decreased(p, rejected, hint, request);
            && q == p.(pendingRequest := q.pendingRequest, paused := q.paused)
            && (p.state == Replicate ==> q.paused == p.paused && q.pendingRequest == if rejected < p.matched then p.pendingRequest else request)
            && (p.state != Replicate ==> !q.paused && q.pendingRequest == if p.pendingRequest == INVALID_INDEX then request else p.pendingRequest)
  {
  }

  /** An acknowledgement of news lets a paused probe go on, behind what it acknowledged. */
  lemma NewsResumes(p: Peer, n: nat)
    requires p.matched < n
    ensures Updated(p, n).matched == n && Updated(p, n).nextIdx == Max(p.nextIdx, n + 1)
    ensures p.state == Probe ==> !IsPaused(Updated(p, n))
  {
  }

  /** A rejection keeps it exactly when it is stale, leaves probing aside, asks for a snapshot, or hints above the match. */
  lemma DecreaseKeepsNextAbove(p: Peer, rejected: nat, hint: nat, request: nat)
    requires NextAbove(p)
    ensures NextAbove(Decreased(p, rejected, hint, request)) <==>
            Stale(p, rejected, request) || p.state == Replicate || request != INVALID_INDEX
            || p.matched == 0 || p.matched < Min(rejected, hint + 1)
  {
  }

  /**
    Exactly when a send that the pause check let through stops the process: never as
    documented; as written, when a probe meets a full window.
   */
  lemma SendPanicsExactly(documented: bool, p: Peer, last: nat)
    requires !IsPaused(p)
    ensures Sent(documented, p, last).None? <==> !documented && p.state == Probe && I.Full(p.window)
  {
  }

  /** A probing follower gets one message and then waits, exactly as documented. */
  lemma ProbeSendsOnce(documented: bool, p: Peer, last: nat)
    requires p.state == Probe && !p.paused && !I.Full(p.window)
    ensures Sent(documented, p, last).Some?
    ensures IsPaused(Sent(documented, p, last).value) <==> documented
  {
  }

  /** Sends in a row, each let through by the pause check, until one is held back or stops the process. */
  function Burst(documented: bool, p: Peer, last: seq<nat>): Option<Peer>
    decreases |last|
  {
    if last == [] || IsPaused(p) then Some(p)
    else
      match Sent(documented, p, last[0])
      case None => None
      case Some(q) => Burst(documented, q, last[1..])
  }

  /** As documented, no burst of sends ever overflows the window. */
  lemma {:induction false} BurstIsSafe(p: Peer, last: seq<nat>)
    ensures Burst(true, p, last).Some?
    decreases |last|
  {
    if last != [] && !IsPaused(p) {
      SendPanicsExactly(true, p, last[0]);
      BurstIsSafe(Sent(true, p, last[0]).value, last[1..]);
    }
  }

  /** As written, a probing leader with a window of `cap` stops at its send number `cap + 1`. */
  lemma {:induction false} WrittenBurstPanics(p: Peer, last: seq<nat>)
    requires p.state == Probe && !p.paused && p.window.incoming == None
    requires |p.window.queue| <= p.window.cap && |last| == p.window.cap - |p.window.queue| + 1
    ensures Burst(false, p, last) == None
    decreases |last|
  {
    if !I.Full(p.window) {
      var q := Sent(false, p, last[0]).value;
      WrittenBurstPanics(q, last[1..]);
    }
  }
}
