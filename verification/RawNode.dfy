/** `RawNode` in its own form: the cursor and the records it updates in place. */
module RawNode {
  import opened Common
  import opened LogSpec
  import opened TwoLayerLog
  import opened Delivery
  import opened ReadyLoop

  /** What the log and the records contribute to a `Ready`. */
  datatype Parts = Parts(number: nat, snapshot: Option<Snapshot>, entries: seq<Entry>, committed: seq<Entry>)

  /** What `ready` returns: the changed role and hard state, those parts, and how it is to be stored and sent. */
  datatype ReadyBundle = ReadyBundle(
    role: Option<Role>, hard: Option<HardState>, parts: Parts, mustSync: bool, persistedMessages: bool)

  /** What `advance_append` returns. */
  datatype LightReady = LightReady(commitIndex: Option<nat>, committed: seq<Entry>)

  /** What the application receives with it, in order: the snapshot first. */
  function HandedBy(rd: Parts): seq<Handed> {
    (if rd.snapshot.Some? then [Jump(rd.snapshot.value.index)] else []) + Delivered(rd.committed)
  }

  class RawNode {
    const log: RaftLog
    var commitSinceIndex: nat
    var maxNumber: nat
    var records: seq<Record>
    ghost var outstanding: bool

    // of the raft layer: its role, term and vote, and whether messages wait
    var role: Role
    var term: nat
    var vote: nat
    var messages: bool

    var prevRole: Role
    var prevHard: HardState

    // for the record: the first Ready after the last campaign, the last numbers stored and reported, whether
    // a report has named the end of the log, whether the node was elected before that, what the last Ready showed
    ghost var campaign: nat
    ghost var stored: nat
    ghost var reported: nat
    ghost var covered: bool
    ghost var early: bool
    ghost var readyRole: Role
    ghost var readyHard: HardState

    ghost predicate Valid()
      reads log, log.store, log.unstable
    {
      log.Valid() && Pointers(log.Abs())
    }

    ghost function Abs(): Node
      requires log.Layered()
      reads this, log, log.store, log.unstable
    {
      Node(log.Abs(), commitSinceIndex, maxNumber, records, outstanding)
    }

    ghost function AbsLoop(): Loop
      requires log.Layered()
      reads this, log, log.store, log.unstable
    {
      Loop(Abs(), role, term, vote, messages, campaign, stored, reported, covered, early, prevRole, prevHard, readyRole, readyHard)
    }

    /** On a log and the hard state saved with it. */
    constructor (log: RaftLog, applied: nat, term: nat, vote: nat)
      requires log.Valid() && Pointers(log.Abs())
      ensures Valid() && this.log == log && AbsLoop() == Started(log.Abs(), applied, term, vote)
    {
      this.log, commitSinceIndex, maxNumber, records, outstanding := log, applied, 0, [], false;
      this.term, this.vote, role, messages := term, vote, Follower, false;
      prevRole, prevHard := Follower, HardState(term, vote, log.committed);
      campaign, stored, reported, covered, early := 0, 0, 0, true, false;
      readyRole, readyHard := Follower, HardState(term, vote, log.committed);
    }

    method HardStateNow() returns (hard: HardState)
      requires log.Layered()
      ensures hard == CurrentHard(AbsLoop())
    {
      hard := HardState(term, vote, log.committed);
    }

    method HasReady() returns (r: bool)
      requires Valid()
      ensures Abs().log.first >= 1 && r == ReadyLoop.HasReady(AbsLoop())
    {
      LightIs(None);
      if messages || role != prevRole {
        return true;
      }
      var hard := HardStateNow();
      if hard != prevHard {
        return true;
      }
      if log.unstable.entries != [] || log.unstable.snapshot.Some? {
        return true;
      }
      r := log.HasNextEntriesSince(commitSinceIndex);
    }

    method GenLightReady(max: Option<nat>) returns (r: Outcome<seq<Entry>>)
      requires Valid()
      modifies this`commitSinceIndex
      ensures match GenLight(old(Abs()), max)
              case Panic => r == Panic
              case Next((n, es)) => r == Next(es) && Valid() && Abs() == n
    {
      hide *;
      LightIs(max);
      Moved();
      var next := log.NextEntriesSince(commitSinceIndex, max);
      var committed := if next.Some? then next.value else [];
      if committed != [] {
        var e := committed[|committed| - 1];
        if commitSinceIndex >= e.index {
          return Panic;
        }
        commitSinceIndex := e.index;
      }
      Moved();
      r := Next(committed);
    }

    lemma LightIs(max: Option<nat>)
      requires Valid()
      ensures log.Valid() && log.Abs().first >= 1 && log.Abs().committed <= Last(log.Abs())
      ensures log.HasNextEntriesSince(commitSinceIndex) <==> HasNextEntries(log.Abs(), commitSinceIndex)
      ensures !HasNextEntries(log.Abs(), commitSinceIndex) ==> NextEntries(log.Abs(), commitSinceIndex, max) == []
      ensures var es := NextEntries(log.Abs(), commitSinceIndex, max);
              GenLight(Abs(), max) ==
              if es == [] then Next((Abs(), es))
              else if commitSinceIndex >= es[|es| - 1].index then Panic
              else Next((Abs().(commitSince := es[|es| - 1].index), es))
    {
    }

    /** The abstraction is made of the log's and the fields of this object. */
    lemma Moved()
      requires log.Layered()
      ensures Abs() == Node(log.Abs(), commitSinceIndex, maxNumber, records, outstanding)
    {
    }

    /** A new leader has no use for the records of its candidacy. */
    method DrainRecords() returns (ok: bool)
      modifies this`records
      ensures ok <==> Bare(old(records))
      ensures ok ==> records == []
    {
      while records != []
        invariant Bare(records) <==> Bare(old(records))
        decreases |records|
      {
        var record := records[0];
        assert records == [record] + records[1..];
        if record.lastEntry != None || record.snapshot != None {
          return false;
        }
        records := records[1..];
      }
      ok := true;
    }

    method MoveToSnapshot() returns (ok: bool)
      requires Valid()
      modifies this`commitSinceIndex
      ensures match TakeSnapshot(old(Abs()))
              case Panic => !ok
              case Next((n, jump)) =>
                && ok && Valid() && Abs() == n
                && jump == if log.unstable.snapshot.Some? then [Jump(log.unstable.snapshot.value.index)] else []
    {
      hide WellFormed, log.Entries, log.Base;
      ok := true;
      var snapshot := log.unstable.snapshot;
      if snapshot.Some? {
        if commitSinceIndex > snapshot.value.index {
          return false;
        }
        if log.HasNextEntriesSince(snapshot.value.index) {
          return false;
        }
        commitSinceIndex := snapshot.value.index;
      }
    }

    /** A Ready up to its light part: number, snapshot and record. */
    method OpenReady() returns (r: Outcome<(Option<Snapshot>, seq<Entry>)>)
      requires Valid()
      modifies this`commitSinceIndex, this`maxNumber, this`records, this`outstanding
      ensures match Opening(old(Abs()))
              case Panic => r == Panic
              case Next((n, jump)) =>
                && r == Next((log.unstable.snapshot, log.unstable.entries)) && Abs() == n
                && jump == if log.unstable.snapshot.Some? then [Jump(log.unstable.snapshot.value.index)] else []
    {
      var entries, snapshot := log.unstable.entries, log.unstable.snapshot;
      var last := if entries != [] then Some((entries[|entries| - 1].index, entries[|entries| - 1].term)) else None;
      var record := Record(maxNumber + 1, last, if snapshot.Some? then Some((snapshot.value.index, snapshot.value.term)) else None);
      RecordIs(record);
      hide WellFormed, Pointers, log.Valid, log.Layered, log.Entries, log.Base, log.FirstIndex, RecordOf, Last, TakeSnapshot;
      var moved := MoveToSnapshot();
      if !moved {
        return Panic;
      }
      maxNumber := maxNumber + 1;
      outstanding := true;
      records := records + [record];
      r := Next((snapshot, entries));
    }

    method ReadyParts(becameLeader: bool, max: Option<nat>) returns (r: Outcome<Parts>)
      requires Valid()
      modifies this`commitSinceIndex, this`maxNumber, this`records, this`outstanding
      ensures match Ready(old(Abs()), becameLeader, max)
              case Panic => r == Panic
              case Next((n, hs)) =>
                && r.Next? && Valid() && Abs() == n && HandedBy(r.value) == hs
                && r.value.entries == log.unstable.entries && r.value.number == maxNumber
    {
      ReadyDrained(Abs(), becameLeader, max);
      hide Ready, Opening, GenLight, Bare, Pointers, WellFormed, log.Valid, log.Layered, log.FirstIndex, log.LastIndex, log.Entries, log.Base;
      if becameLeader {
        var bare := DrainRecords();
        if !bare {
          return Panic;
        }
      }
      r := AssembleReady(max);
    }

    /** A Ready, its records drained if need be. */
    method AssembleReady(max: Option<nat>) returns (r: Outcome<Parts>)
      requires Valid()
      modifies this`commitSinceIndex, this`maxNumber, this`records, this`outstanding
      ensures match Ready(old(Abs()), false, max)
              case Panic => r == Panic
              case Next((n, hs)) =>
                && r.Next? && Valid() && Abs() == n && HandedBy(r.value) == hs
                && r.value.entries == log.unstable.entries && r.value.number == maxNumber
    {
      hide Opening, GenLight, Bare, WellFormed, Pointers, Valid, log.Valid, log.Layered, log.FirstIndex, log.LastIndex, log.Entries, log.Base, Abs;
      var opening := OpenReady();
      if opening.Panic? {
        return Panic;
      }
      var light := GenLightReady(max);
      if light.Panic? {
        return Panic;
      }
      Numbered();
      r := Next(Parts(maxNumber, opening.value.0, opening.value.1, light.value));
    }

    lemma Numbered()
      requires Valid()
      ensures Abs().maxNumber == maxNumber
    {
    }

    /** The record taken of the unstable part is the one the logical log calls for. */
    lemma RecordIs(record: Record)
      requires Valid()
      requires record.snapshot == match log.unstable.snapshot case None => None case Some(s) => Some((s.index, s.term))
      requires record.lastEntry == (if log.unstable.entries == [] then None
               else Some((log.unstable.entries[|log.unstable.entries| - 1].index, log.unstable.entries[|log.unstable.entries| - 1].term)))
      ensures record == RecordOf(log.Abs(), record.number)
    {
    }

    method Stabilize(record: Record) returns (r: Outcome<()>)
      requires log.Valid() && log.Saved()
      modifies log.unstable
      ensures match Stabilized(old(log.Abs()), record)
              case Panic => r == Panic
              case Next(l) => r == Next(()) && log.Valid() && log.Saved() && log.Abs() == l
    {
      hide WellFormed, log.Layered, log.Entries, log.Base, log.FirstIndex, log.LastIndex, log.Saved, StableSnap, StableEntries;
      if record.snapshot.Some? {
        var done := log.StableSnap(record.snapshot.value.0);
        if done.Panic? {
          return Panic;
        }
      }
      r := Next(());
      if record.lastEntry.Some? {
        r := log.StableEntries(record.lastEntry.value.0, record.lastEntry.value.1);
      }
    }

    /** The application has stored what the Ready of this number asked for. */
    method CommitRecord(number: nat) returns (r: Outcome<()>)
      requires Valid() && log.Saved() && number == maxNumber
      modifies this`outstanding, log.unstable
      ensures match Delivery.CommitReady(old(Abs()))
              case Panic => r == Panic
              case Next(n) => r == Next(()) && log.Valid() && Abs() == n
    {
      assert log.Valid() && log.Abs().first >= 1;
      hide WellFormed, Pointers, Valid, log.Valid, log.Layered, log.Entries, log.Base, log.FirstIndex, log.LastIndex, log.Saved, Stabilized;
      if records == [] || records[|records| - 1].number != number {
        return Panic;
      }
      r := Stabilize(records[|records| - 1]);
      outstanding := false;
    }

    /** Pops the records up to `number`, then reports their last snapshot and last entry as persisted. */
    method PersistRecords(number: nat) returns (r: Outcome<()>)
      requires Valid()
      modifies this`records, log`persisted
      ensures match Delivery.OnPersistReady(old(Abs()), number, old(log.Stored(LastSaved(records[..Upto(records, number)]).0)))
              case Panic => r == Panic
              case Next(n) => r == Next(()) && log.Valid() && Abs() == n
    {
      var snapIndex, index, term := PopRecords(number);
      hide WellFormed, Pointers, log.Layered, log.Entries, log.Base, log.FirstIndex, log.LastIndex, LastSnap, LastSaved, Upto, Persisted;
      r := Persist(snapIndex, index, term);
    }

    method Persist(snapIndex: nat, index: nat, term: nat) returns (r: Outcome<()>)
      requires log.Valid()
      modifies log`persisted
      ensures match Persisted(old(log.Abs()), snapIndex, (index, term), old(log.Stored(index)))
              case Panic => r == Panic
              case Next(l) => r == Next(()) && log.Valid() && log.Abs() == l
    {
      hide WellFormed, log.Layered, log.Entries, log.Base, log.FirstIndex, log.LastIndex, MaybePersist, MaybePersistSnap;
      if snapIndex != 0 {
        var done := log.MaybePersistSnap(snapIndex);
        if done.Panic? {
          return Panic;
        }
      }
      if index != 0 {
        var updated := log.MaybePersist(index, term);
      }
      r := Next(());
    }

    method PopRecords(number: nat) returns (snapIndex: nat, index: nat, term: nat)
      modifies this`records
      ensures var popped := old(records)[..Upto(old(records), number)];
              snapIndex == LastSnap(popped) && (index, term) == LastSaved(popped)
      ensures records == old(records)[Upto(old(records), number)..]
    {
      index, term, snapIndex := 0, 0, 0;
      ghost var all, k := records, 0;
      while records != []
        invariant k <= |all| && records == all[k..]
        invariant k <= Upto(all, number) && Upto(all, number) == k + Upto(records, number)
        invariant snapIndex == LastSnap(all[..k]) && (index, term) == LastSaved(all[..k])
        decreases |records|
      {
        var record := records[0];
        if record.number > number {
          break;
        }
        assert all[..k + 1][..k] == all[..k] && all[..k + 1][k] == record;
        records, k := records[1..], k + 1;
        if record.snapshot.Some? {
          snapIndex, index, term := record.snapshot.value.0, 0, 0;
        }
        if record.lastEntry.Some? {
          index, term := record.lastEntry.value.0, record.lastEntry.value.1;
        }
      }
    }

    method AdvanceApplyTo(applied: nat) returns (r: Outcome<()>)
      requires Valid()
      modifies log`applied
      ensures match AdvanceApply(old(Abs()), applied)
              case Panic => r == Panic
              case Next(n) => r == Next(()) && log.Valid() && Abs() == n
    {
      r := log.AppliedTo(applied);
    }

    // ------------------------------------------------------------ the loop

    /** The bundle is the latest one, and tells what has changed since the one acknowledged before. */
    ghost predicate IsLatest(rd: ReadyBundle)
      reads this
    {
      && rd.parts.number == maxNumber
      && rd.role == (if readyRole != prevRole then Some(readyRole) else None)
      && rd.hard == (if readyHard != prevHard then Some(readyHard) else None)
    }

    lemma Parted()
      requires Valid()
      ensures log.Valid() && log.Layered() && NodeOK(Abs()) && Abs().log.first >= 1
    {
    }

    /** The log and the records part of a Ready. */
    method LoopParts(max: Option<nat>) returns (r: Outcome<Parts>)
      requires Valid()
      modifies this`commitSinceIndex, this`maxNumber, this`records, this`outstanding
      ensures log.Valid() && NodeOK(old(Abs()))
      ensures match Ready(old(Abs()), BecameLeader(old(AbsLoop())), max)
              case Panic => r == Panic
              case Next((n, hs)) =>
                && r.Next? && Valid() && AbsLoop() == old(AbsLoop()).(node := n) && HandedBy(r.value) == hs
                && r.value.entries == log.unstable.entries && r.value.number == maxNumber
    {
      hide Ready, NodeOK, Valid, Abs, HandedBy, log.Valid, log.Layered, log.Abs;
      Parted();
      r := ReadyParts(prevRole != Leader && role == Leader, max);
      if r.Next? {
        Parted();
      }
    }

    /** The rest of it: what has changed, and what has to be stored before anything is sent, apart from a commit index. */
    /** The Ready names what is new since the previous one. */
    method Show(parts: Parts, hard: HardState) returns (rd: ReadyBundle)
      requires parts.number == maxNumber
      modifies this`messages, this`readyRole, this`readyHard
      ensures !messages && readyRole == role && readyHard == hard
      ensures rd.parts == parts && IsLatest(rd) && rd.persistedMessages == (role != Leader)
      ensures rd.mustSync <==>
                parts.snapshot.Some? || parts.entries != []
                || (rd.hard.Some? && (rd.hard.value.term != prevHard.term || rd.hard.value.vote != prevHard.vote))
    {
      var mustSync := (hard != prevHard && (hard.vote != prevHard.vote || hard.term != prevHard.term))
                      || parts.snapshot.Some? || parts.entries != [];
      readyRole, readyHard, messages := role, hard, false;
      rd := ReadyBundle(if role != prevRole then Some(role) else None, if hard != prevHard then Some(hard) else None,
                        parts, mustSync, role != Leader);
    }

    method ShowReady(parts: Parts) returns (rd: ReadyBundle)
      requires log.Layered() && parts.number == maxNumber
      modifies this`messages, this`readyRole, this`readyHard
      ensures AbsLoop() == old(AbsLoop()).(readyRole := role, readyHard := CurrentHard(old(AbsLoop())), messages := false)
      ensures rd.parts == parts && IsLatest(rd) && rd.persistedMessages == (role != Leader)
      ensures rd.mustSync <==>
                parts.snapshot.Some? || parts.entries != []
                || (rd.hard.Some? && (rd.hard.value.term != prevHard.term || rd.hard.value.vote != prevHard.vote))
    {
      hide log.Layered, log.Abs, CurrentHard, IsLatest;
      var hard := HardStateNow();
      rd := Show(parts, hard);
    }

    method GetReady(max: Option<nat>) returns (r: Outcome<ReadyBundle>)
      requires Valid()
      modifies this
      ensures log.Valid() && NodeOK(old(Abs()))
      ensures match TakeOn(old(AbsLoop()), max)
              case Panic => r == Panic
              case Next((s, hs)) =>
                && r.Next? && Valid() && AbsLoop() == s && HandedBy(r.value.parts) == hs && IsLatest(r.value)
                && r.value.parts.entries == log.unstable.entries
                && r.value.persistedMessages == (role != Leader)
                && (r.value.mustSync <==>
                      r.value.parts.snapshot.Some? || r.value.parts.entries != []
                      || (r.value.hard.Some? && (r.value.hard.value.term != prevHard.term || r.value.hard.value.vote != prevHard.vote)))
    {
      hide Ready, NodeOK, Valid, Abs, HandedBy, log.Valid, log.Layered, log.Abs, IsLatest, BecameLeader;
      Parted();
      ghost var n, became := Abs(), BecameLeader(AbsLoop());
      var parts := LoopParts(max);
      if parts.Panic? {
        return Panic;
      }
      ReadyShape(n, became, max);
      Parted();
      var rd := ShowReady(parts.value);
      r := Next(rd);
    }

    /** What the Ready showed is now the previous state. */
    method CommitReady(rd: ReadyBundle) returns (r: Outcome<()>)
      requires Valid() && log.Saved() && IsLatest(rd)
      modifies this`outstanding, this`prevRole, this`prevHard, this`covered, log.unstable
      ensures match Acknowledge(old(AbsLoop()))
              case Panic => r == Panic
              case Next(s) => r == Next(()) && Valid() && AbsLoop() == s && prevHard == old(readyHard)
    {
      hide Delivery.CommitReady, NodeOK, Valid, Abs, log.Valid, log.Layered, log.Saved, log.Abs;
      Parted();
      ghost var n := Abs();
      ShownIsPrevious(rd);
      r := CommitRecord(rd.parts.number);
      if r.Next? {
        CommitReadyStays(n);
        StillValid();
        HandedOver(n);
      }
    }

    /** For the record: a report before this says nothing of what was handed over now. */
    ghost method HandedOver(n: Node)
      requires Valid() && n.log.first >= 1
      modifies this`covered
      ensures Valid() && Abs() == old(Abs()) && Abs().log.first >= 1
      ensures AbsLoop() == old(AbsLoop()).(covered := if Stable(n.log) then old(covered) else Abs().log.persisted >= Last(Abs().log))
    {
      Parted();
      if !Stable(n.log) {
        covered := Abs().log.persisted >= Last(Abs().log);
      }
    }

    lemma StillValid()
      requires log.Valid() && NodeOK(Abs())
      ensures Valid()
    {
    }

    method ShownIsPrevious(rd: ReadyBundle)
      requires log.Layered() && IsLatest(rd)
      modifies this`prevRole, this`prevHard
      ensures Abs() == old(Abs()) && AbsLoop() == old(AbsLoop()).(prevRole := readyRole, prevHard := readyHard)
    {
      if rd.role.Some? {
        prevRole := rd.role.value;
      }
      if rd.hard.Some? {
        prevHard := rd.hard.value;
      }
    }

    /** `known` reports the term the store held for the last entry reported. */
    method OnPersistReady(number: nat) returns (r: Outcome<()>, ghost known: Option<nat>)
      requires Valid()
      modifies this`records, this`reported, this`covered, log`persisted
      ensures NodeOK(old(Abs())) && old(Abs()).log.first >= 1
      ensures match PersistOn(old(AbsLoop()), number, known)
              case Panic => r == Panic
              case Next((s, _)) => r == Next(()) && Valid() && AbsLoop() == s
    {
      hide Delivery.OnPersistReady, NodeOK, Valid, log.Valid, log.Layered, log.Abs, log.Stored, LastSaved, Upto, ReportsEnd;
      Parted();
      ghost var n := Abs();
      known := log.Stored(LastSaved(records[..Upto(records, number)]).0);
      r := PersistRecords(number);
      reported := Max(reported, number);
      covered := covered || ReportsEnd(n.log, n.records[..Upto(n.records, number)]);
      if r.Next? {
        OnPersistReadyStays(n, number, known);
        StillValid();
      }
    }

    /** The checks that end an advance, and the commit index it tells of. */
    method FinishAdvance(committed: seq<Entry>) returns (r: Outcome<LightReady>)
      requires log.Layered()
      modifies this`messages, this`prevHard
      ensures match Checked(old(AbsLoop()))
              case Panic => r == Panic
              case Next(s) =>
                && AbsLoop() == s && Abs() == old(Abs())
                && r == Next(LightReady(if log.committed > old(prevHard.commit) then Some(log.committed) else None, committed))
    {
      if role != Leader && messages {
        return Panic;
      }
      var hard := HardStateNow();
      var commitIndex := None;
      if hard.commit > prevHard.commit {
        commitIndex := Some(hard.commit);
        prevHard := prevHard.(commit := hard.commit);
      } else if hard.commit != prevHard.commit {
        return Panic;
      }
      if hard != prevHard {
        return Panic;
      }
      messages := false;
      r := Next(LightReady(commitIndex, committed));
    }

    /** Reporting everything handed to the application for storage. */
    method ReportLatest() returns (r: Outcome<()>, ghost known: Option<nat>)
      requires Valid()
      modifies this`records, this`reported, this`covered, log`persisted
      ensures NodeOK(old(Abs()))
      ensures match ReportAll(old(AbsLoop()), known)
              case Panic => r == Panic
              case Next(s) => r == Next(()) && Valid() && AbsLoop() == s
    {
      hide Delivery.OnPersistReady, NodeOK, Valid, log.Valid, log.Layered, log.Abs;
      Parted();
      r, known := OnPersistReady(maxNumber);
    }

    /** A quorum may cover more now: a leader's commit index moves up. */
    method RaiseCommit(to: nat) returns (r: Outcome<()>)
      requires Valid()
      modifies log`committed
      ensures match Raise(old(AbsLoop()), to)
              case Panic => r == Panic
              case Next(s) => r == Next(()) && Valid() && AbsLoop() == s
    {
      Parted();
      CommitToValid(to);
      hide NodeOK, Valid, log.Valid, log.Layered, log.Abs, LogSpec.CommitTo;
      r := log.CommitTo(to);
      if r.Next? {
        Moved();
        StillValid();
      }
    }

    lemma CommitToValid(to: nat)
      requires Valid()
      ensures LogSpec.CommitTo(log.Abs(), to).Next? ==> Pointers(LogSpec.CommitTo(log.Abs(), to).value)
    {
      CommitsKeep(log.Abs(), to);
      hide LogSpec.CommitTo, Pointers, log.Valid;
    }

    static lemma CommitsKeep(l: Log, to: nat)
      requires Pointers(l)
      ensures LogSpec.CommitTo(l, to).Next? ==> Pointers(LogSpec.CommitTo(l, to).value)
    {
      if LogSpec.CommitTo(l, to).Next? {
        CommitToKeeps(l, to);
      }
    }

    /** Messages to send wait for the next call that takes them. */
    method Wait(sent: bool)
      requires Valid()
      modifies this`messages
      ensures Valid() && AbsLoop() == old(AbsLoop()).(messages := old(messages) || sent)
    {
      Parted();
      hide NodeOK, Valid, log.Valid, log.Layered, log.Abs;
      messages := messages || sent;
    }

    /** The committed entries and the checks that end an advance. */
    method FinishReady(max: Option<nat>) returns (r: Outcome<LightReady>)
      requires Valid()
      modifies this`commitSinceIndex, this`messages, this`prevHard
      ensures match HandOut(old(AbsLoop()), max)
              case Panic => r == Panic
              case Next((s, hs)) =>
                && r.Next? && Valid() && AbsLoop() == s && Delivered(r.value.committed) == hs
                && r.value.commitIndex == if log.committed > old(prevHard.commit) then Some(log.committed) else None
    {
      hide GenLight, NodeOK, Valid, Abs, log.Valid, log.Layered, log.Abs, Checked;
      Parted();
      var light := GenLightReady(max);
      if light.Panic? {
        return Panic;
      }
      Parted();
      r := FinishAdvance(light.value);
      if r.Next? {
        StillValid();
      }
    }

    /**
      `raised` and `sent` are what the report makes a leader commit and send; `known` is the term the
      store held for the last entry reported.
     */
    method AdvanceAppend(rd: ReadyBundle, raised: nat, sent: bool, max: Option<nat>) returns (r: Outcome<LightReady>, ghost known: Option<nat>)
      requires Valid() && log.Saved() && IsLatest(rd)
      modifies this, log`persisted, log`committed, log.unstable
      ensures match AdvanceOn(old(AbsLoop()), known, raised, sent, max)
              case Panic => r == Panic
              case Next((s, hs)) =>
                && r.Next? && Valid() && AbsLoop() == s && Delivered(r.value.committed) == hs
                && r.value.commitIndex == if log.committed > old(readyHard.commit) then Some(log.committed) else None
    {
      hide NodeOK, Valid, Abs, log.Valid, log.Layered, log.Abs, log.Saved, IsLatest, Acknowledge, ReportAll, Raise, HandOut;
      Parted();
      known := None;
      var done := CommitReady(rd);
      if done.Panic? {
        return Panic, known;
      }
      done, known := ReportLatest();
      if done.Panic? {
        return Panic, known;
      }
      done := RaiseCommit(raised);
      if done.Panic? {
        return Panic, known;
      }
      Wait(sent);
      r := FinishReady(max);
    }

    /** What was handed over before the call counts as applied after it. */
    method Advance(rd: ReadyBundle, raised: nat, sent: bool, max: Option<nat>) returns (r: Outcome<LightReady>, ghost known: Option<nat>)
      requires Valid() && log.Saved() && IsLatest(rd)
      modifies this, log`persisted, log`committed, log`applied, log.unstable
      ensures match AdvanceOn(old(AbsLoop()), known, raised, sent, max)
              case Panic => r == Panic
              case Next((s, hs)) =>
                match AdvanceApply(s.node, old(commitSinceIndex))
                case Panic => r == Panic
                case Next(n) =>
                  && r.Next? && log.Valid() && AbsLoop() == s.(node := n) && Delivered(r.value.committed) == hs
    {
      hide NodeOK, Valid, Abs, log.Valid, log.Layered, log.Abs, log.Saved, IsLatest, AdvanceOn, AdvanceApply;
      var applied := commitSinceIndex;
      r, known := AdvanceAppend(rd, raised, sent, max);
      if r.Panic? {
        return;
      }
      var done := AdvanceApplyTo(applied);
      if done.Panic? {
        r := Panic;
      }
    }
  }
}
