/**
  The loop around a `RawNode`: campaigns and elections on one side, `Ready`s and their persistence on the
  other. What a new leader may take for granted about its own log and records is proved here from the
  order in which these happen.
 */
module ReadyLoop {
  import opened Common
  import opened LogSpec
  import opened Delivery

  datatype Role = Follower | Candidate | Leader

  datatype HardState = HardState(term: nat, vote: nat, commit: nat)

  /**
    The node, its role, term and vote, whether messages wait to be sent, and what the last acknowledged and
    the last generated `Ready` said. `campaign` is the number of the first `Ready` after the latest campaign,
    which carries its vote requests; `stored` is the last number whose `Ready` the application has stored,
    and `reported` the last it has reported so. For the record, `covered` says that since something was last
    handed over for storage a report has named the end of the log, and `early` that the node was elected
    before that first `Ready` was reported.
   */
  datatype Loop = Loop(
    node: Node, role: Role, term: nat, vote: nat, messages: bool,
    campaign: nat, stored: nat, reported: nat, covered: bool, early: bool,
    prevRole: Role, prevHard: HardState,
    readyRole: Role, readyHard: HardState)

  datatype Act =
    | Campaign(id: nat)
    | Elected(noop: Entry)
    | Alone(id: nat, noop: Entry)
    | Turn(term: nat, vote: nat)
    | Take(op: LogOp)
    | Propose(ents: seq<Entry>)
    | Commit(to: nat)
    | Send
    | TakeReady(max: Option<nat>)
    | AdvanceAsync
    | AdvanceAll(stored: Option<nat>, raised: nat, sent: bool, max: Option<nat>)
    | Store(number: nat)
    | Persist(number: nat, stored: Option<nat>)
    | Apply(applied: nat)
    | Drop(idx: nat)

  /** The store answers with the term of the log for an index it has been given, the one before the log included. */
  predicate Honest(l: Log, idx: nat, stored: Option<nat>)
    requires l.first >= 1
  {
    !l.pending && l.first - 1 <= idx < l.offset ==> stored == Term(l, idx)
  }

  /** What the raft layer and the application keep to. Nothing is stepped between a `Ready` and its advance. */
  ghost predicate MayAct(s: Loop, a: Act)
    requires s.node.log.first >= 1
  {
    var n := s.node;
    match a
    case Campaign(_) => !n.outstanding && s.role != Leader
    // vote requests leave once the first Ready after the campaign is stored, reported or not; only answers to them elect
    case Elected(noop) => !n.outstanding && s.role == Candidate && s.campaign <= s.stored && noop.index == Last(n.log) + 1
    case Alone(_, noop) => !n.outstanding && s.role != Leader && noop.index == Last(n.log) + 1
    case Turn(term, _) => !n.outstanding && term >= s.term
    case Take(op) => !n.outstanding && s.role != Leader && (op.MaybeAppendOp? || op.RestoreOp?) && Enabled(n.log, op)
    case Propose(ents) => !n.outstanding && s.role == Leader && Enabled(n.log, ProposeOp(ents))
    // a report of persistence may let a leader commit and send at any time
    case Commit(to) => (n.outstanding ==> s.role == Leader) && to <= Last(n.log)
    case Send => n.outstanding ==> s.role == Leader
    case TakeReady(_) => !n.outstanding
    case AdvanceAsync => n.outstanding
    case AdvanceAll(stored, raised, sent, _) =>
      && n.outstanding && s.stored == n.maxNumber && raised <= Last(n.log) && (raised > n.log.committed || sent ==> s.role == Leader)
      && (CommitReady(n).Next? ==> Honest(CommitReady(n).value.log, LastSaved(n.records[..Upto(n.records, n.maxNumber)]).0, stored))
    case Store(number) => s.stored <= number <= n.maxNumber
    // only what is stored is reported
    case Persist(number, stored) =>
      && number <= s.stored && (n.outstanding ==> number < n.maxNumber)
      && Honest(n.log, LastSaved(n.records[..Upto(n.records, number)]).0, stored)
    case Apply(applied) => Allowed(n, ApplyEvent(applied))
    case Drop(idx) => Allowed(n, CompactEvent(idx))
  }

  function CurrentHard(s: Loop): HardState {
    HardState(s.term, s.vote, s.node.log.committed)
  }

  /** Nothing waits to be stored. */
  predicate Stable(l: Log)
    requires l.first >= 1
  {
    !l.pending && l.offset > Last(l)
  }

  /** `commit_ready`: what the Ready said is now the previous state. */
  function Acknowledged(s: Loop, n: Node): Loop
    requires s.node.log.first >= 1 && n.log.first >= 1
  {
    s.(node := n, prevRole := s.readyRole, prevHard := s.readyHard,
       covered := if Stable(s.node.log) then s.covered else n.log.persisted >= Last(n.log))
  }

  /** What the records report as persisted is the end of the log. */
  predicate ReportsEnd(l: Log, popped: seq<Record>)
    requires l.first >= 1
  {
    LastSnap(popped) == Last(l) || (LastSaved(popped).0 == Last(l) && Term(l, Last(l)) == Some(LastSaved(popped).1))
  }

  /** The node after a report. */
  function AfterReport(s: Loop, number: nat, n: Node): Loop
    requires s.node.log.first >= 1
  {
    s.(reported := Max(s.reported, number), node := n,
       covered := s.covered || ReportsEnd(s.node.log, s.node.records[..Upto(s.node.records, number)]))
  }

  /** `become_leader`: its assertion wants the whole log persisted; then it appends an empty entry. */
  ghost function Lead(rd: Reading, s: Loop, noop: Entry, early: bool): Outcome<(Loop, seq<Handed>)>
    requires NodeOK(s.node) && s.node.log.first >= 1
  {
    if s.node.log.persisted != Last(s.node.log) then Panic
    else OnNode(s.(role := Leader, early := early, messages := true), Handle(rd, s.node, RaftEvent(ProposeOp([noop]))))
  }

  function OnNode(s: Loop, r: Outcome<(Node, seq<Handed>)>): Outcome<(Loop, seq<Handed>)> {
    match r case Panic => Panic case Next((n, hs)) => Next((s.(node := n), hs))
  }

  /** A new leader, as seen since the last acknowledged Ready. */
  predicate BecameLeader(s: Loop) {
    s.prevRole != Leader && s.role == Leader
  }

  /** `has_ready`: something waits to be sent, shown, stored or handed out. */
  predicate HasReady(s: Loop)
    requires s.node.log.first >= 1
  {
    || s.messages || s.role != s.prevRole || CurrentHard(s) != s.prevHard
    || s.node.log.offset <= Last(s.node.log) || s.node.log.pending || HasNextEntries(s.node.log, s.node.commitSince)
  }

  /** The checks that end `advance_append`. */
  function Checked(s: Loop): Outcome<Loop> {
    if s.role != Leader && s.messages then Panic // fatal: not leader but has new messages
    else
      var hard := CurrentHard(s);
      if hard.commit < s.prevHard.commit then Panic
      else
        var prev := s.prevHard.(commit := hard.commit);
        if hard != prev then Panic else Next(s.(prevHard := prev, messages := false))
  }

  /** `commit_ready`. */
  function Acknowledge(s: Loop): (r: Outcome<Loop>)
    requires NodeOK(s.node)
    ensures r.Next? ==> NodeOK(r.value.node)
  {
    match CommitReady(s.node)
    case Panic => Panic
    case Next(c) => CommitReadyStays(s.node); Next(Acknowledged(s, c))
  }

  /** `on_persist_ready` with the latest number. */
  function ReportAll(s: Loop, stored: Option<nat>): (r: Outcome<Loop>)
    requires NodeOK(s.node)
    ensures r.Next? ==> NodeOK(r.value.node)
  {
    match OnPersistReady(s.node, s.node.maxNumber, stored)
    case Panic => Panic
    case Next(p) =>
      OnPersistReadyStays(s.node, s.node.maxNumber, stored);
      Next(AfterReport(s, s.node.maxNumber, p))
  }

  /** The report may let a leader commit. */
  function Raise(s: Loop, raised: nat): (r: Outcome<Loop>)
    requires NodeOK(s.node)
    ensures r.Next? ==> NodeOK(r.value.node)
  {
    match CommitTo(s.node.log, raised)
    case Panic => Panic
    case Next(l) => CommitToKeeps(s.node.log, raised); Next(s.(node := s.node.(log := l)))
  }

  /** What `advance_append` ends with: handing out, and its checks. */
  function HandOut(s: Loop, max: Option<nat>): Outcome<(Loop, seq<Handed>)>
    requires NodeOK(s.node)
  {
    match GenLight(s.node, max)
    case Panic => Panic
    case Next((m, es)) =>
      match Checked(s.(node := m))
      case Panic => Panic
      case Next(t) => Next((t, Delivered(es)))
  }

  /** `advance_append`: acknowledge, report as persisted, let a leader commit and send, hand out. */
  function AdvanceOn(s: Loop, stored: Option<nat>, raised: nat, sent: bool, max: Option<nat>): Outcome<(Loop, seq<Handed>)>
    requires NodeOK(s.node)
  {
    match Acknowledge(s)
    case Panic => Panic
    case Next(a) =>
      match ReportAll(a, stored)
      case Panic => Panic
      case Next(b) =>
        match Raise(b, raised)
        case Panic => Panic
        case Next(c) => HandOut(c.(messages := c.messages || sent), max)
  }

  /** `ready`: notes the state it shows, takes the messages, and drains the records of a new leader. */
  function TakeOn(s: Loop, max: Option<nat>): Outcome<(Loop, seq<Handed>)>
    requires NodeOK(s.node)
  {
    OnNode(s.(readyRole := s.role, readyHard := CurrentHard(s), messages := false), Ready(s.node, BecameLeader(s), max))
  }

  /** `on_persist_ready`. */
  function PersistOn(s: Loop, number: nat, stored: Option<nat>): Outcome<(Loop, seq<Handed>)>
    requires s.node.log.first >= 1
  {
    match OnPersistReady(s.node, number, stored)
    case Panic => Panic
    case Next(n) => Next((AfterReport(s, number, n), []))
  }

  ghost function DoAct(rd: Reading, s: Loop, a: Act): Outcome<(Loop, seq<Handed>)>
    requires NodeOK(s.node) && s.node.log.first >= 1
  {
    var n := s.node;
    match a
    case Campaign(id) =>
      Next((s.(role := Candidate, term := s.term + 1, vote := id, early := false, campaign := n.maxNumber + 1, messages := true), []))
    case Elected(noop) => Lead(rd, s, noop, s.reported < s.campaign)
    case Alone(id, noop) => Lead(rd, s.(term := s.term + 1, vote := id), noop, true)
    case Turn(term, vote) => Next((s.(role := Follower, term := term, vote := vote), []))
    case Take(op) => OnNode(s.(role := Follower), Handle(rd, n, RaftEvent(op)))
    case Propose(ents) => OnNode(s, Handle(rd, n, RaftEvent(ProposeOp(ents))))
    case Commit(to) => OnNode(s, Handle(rd, n, RaftEvent(CommitToOp(to))))
    case Send => Next((s.(messages := true), []))
    case TakeReady(max) => TakeOn(s, max)
    case AdvanceAsync =>
      (match Acknowledge(s) case Panic => Panic case Next(t) => Next((t, [])))
    case AdvanceAll(stored, raised, sent, max) => AdvanceOn(s, stored, raised, sent, max)
    case Store(number) => Next((s.(stored := number), []))
    case Persist(number, stored) => PersistOn(s, number, stored)
    case Apply(applied) => OnNode(s, Handle(rd, n, ApplyEvent(applied)))
    case Drop(idx) => OnNode(s, Handle(rd, n, CompactEvent(idx)))
  }

  // -------------------------------------------------------------- invariant

  /** Records are numbered in order, and none that was reported is left. */
  ghost predicate NumbersOK(n: Node, reported: nat) {
    && reported <= n.maxNumber && (n.outstanding ==> reported < n.maxNumber)
    && (forall i :: 0 <= i < |n.records| ==> reported < n.records[i].number <= n.maxNumber)
    && (forall i, j :: 0 <= i < j < |n.records| ==> n.records[i].number < n.records[j].number)
  }

  predicate BareRecord(r: Record) {
    r.lastEntry == None && r.snapshot == None
  }

  /** A candidate's log has not changed since its first Ready, so later records name nothing. */
  ghost predicate CandidateOK(n: Node, campaign: nat)
    requires n.log.first >= 1
  {
    && (campaign <= n.maxNumber && !(n.outstanding && n.maxNumber == campaign) ==> Stable(n.log))
    && (forall i :: 0 <= i < |n.records| && n.records[i].number > campaign ==> BareRecord(n.records[i]))
  }

  /** While a Ready is outstanding the node is still as that Ready saw it. */
  predicate ReadyOK(s: Loop) {
    s.node.outstanding ==>
      && s.readyRole == s.role && s.readyHard.term == s.term && s.readyHard.vote == s.vote
      && s.readyHard.commit <= s.node.log.committed
      && (s.messages ==> s.role == Leader)
  }

  /** The last record that names anything. */
  function Newest(records: seq<Record>): Option<Record>
    decreases |records|
  {
    if records == [] then None
    else if BareRecord(records[|records| - 1]) then Newest(records[..|records| - 1])
    else Some(records[|records| - 1])
  }

  /** The record names the end of the log. */
  predicate NamesEnd(l: Log, r: Option<Record>)
    requires l.first >= 1
  {
    && r.Some?
    && match r.value.lastEntry
       case Some(e) => l.first <= Last(l) && e.0 == Last(l) && Term(l, Last(l)) == Some(e.1)
       case None => r.value.snapshot.Some? && r.value.snapshot.value.0 == Last(l)
  }

  /** A stored log is persisted to its end exactly if a report has said so; else a record is waiting that will. */
  predicate SavedOK(l: Log, records: seq<Record>, covered: bool)
    requires l.first >= 1
  {
    Stable(l) ==> (l.persisted >= Last(l) <==> covered) && (covered || NamesEnd(l, Newest(records)))
  }

  ghost predicate LoopOK(rd: Reading, s: Loop) {
    && s.node.log.first >= 1
    && NumbersOK(s.node, s.reported) && s.reported <= s.stored <= s.node.maxNumber
    && ReadyOK(s) && SavedOK(s.node.log, s.node.records, s.covered)
    && (s.role == Candidate ==> CandidateOK(s.node, s.campaign))
    && (BecameLeader(s) && !s.node.outstanding && !s.early ==> Bare(s.node.records))
    && (rd.resetGuard ==> PersistedIsSaved(s.node.log))
  }

  ghost predicate LoopInv(rd: Reading, s: Loop, start: nat, hs: seq<Handed>) {
    Inv(s.node, start, hs) && LoopOK(rd, s)
  }

  // ---------------------------------------------------------------- records

  lemma {:induction false} NewestSplit(a: seq<Record>, b: seq<Record>)
    ensures Newest(a + b) == if Bare(b) then Newest(a) else Newest(b)
    decreases |b|
  {
    if b == [] {
      assert a + b == a;
    } else {
      var init, last := b[..|b| - 1], b[|b| - 1];
      assert (a + b)[..|a + b| - 1] == a + init;
      NewestSplit(a, init);
      assert Bare(b) <==> Bare(init) && BareRecord(last);
    }
  }

  lemma {:induction false} BareNewest(records: seq<Record>)
    ensures Bare(records) <==> Newest(records) == None
    decreases |records|
  {
    if records != [] {
      BareNewest(records[..|records| - 1]);
      assert Bare(records) <==> Bare(records[..|records| - 1]) && BareRecord(records[|records| - 1]);
    }
  }

  /** What is reported as saved is what the last record that names anything says. */
  lemma {:induction false} NewestSaved(records: seq<Record>)
    ensures match Newest(records)
            case None => true
            case Some(r) =>
              && LastSaved(records) == (if r.lastEntry.Some? then r.lastEntry.value else (0, 0))
              && (r.snapshot.Some? ==> LastSnap(records) == r.snapshot.value.0)
    decreases |records|
  {
    if records != [] {
      NewestSaved(records[..|records| - 1]);
    }
  }

  /** A number splits the records. */
  lemma {:induction false} UptoSplits(records: seq<Record>, number: nat)
    requires forall i, j :: 0 <= i < j < |records| ==> records[i].number < records[j].number
    ensures var k := Upto(records, number); forall i :: k <= i < |records| ==> records[i].number > number
    decreases |records|
  {
    if records != [] && records[0].number <= number {
      var rest := records[1..];
      forall i, j | 0 <= i < j < |rest| ensures rest[i].number < rest[j].number {
        assert rest[i] == records[i + 1] && rest[j] == records[j + 1];
      }
      UptoSplits(rest, number);
      forall i | Upto(records, number) <= i < |records| ensures records[i].number > number {
        assert rest[i - 1] == records[i];
      }
    }
  }

  // ------------------------------------------------------------- the Ready

  lemma ReadyShape(n: Node, became: bool, max: Option<nat>)
    requires NodeOK(n) && n.log.first >= 1 && Ready(n, became, max).Next?
    ensures var m := Ready(n, became, max).value.0;
            && (n.log.pending ==> n.log.base.Some?)
            && m.log == n.log && m.maxNumber == n.maxNumber + 1 && m.outstanding
            && m.records == Recorded(Drained(n, became)) && (became ==> Bare(n.records))
  {
    hide Bare, NextEntries, HasNextEntries, Recorded;
  }

  lemma RecordedNumbers(n: Node, reported: nat, m: Node)
    requires n.log.first >= 1 && (n.log.pending ==> n.log.base.Some?)
    requires NumbersOK(n, reported) && m.maxNumber == n.maxNumber + 1 && m.records == Recorded(n)
    ensures NumbersOK(m, reported)
  {
  }

  lemma DrainedNumbers(n: Node, reported: nat, became: bool)
    requires NumbersOK(n, reported)
    ensures NumbersOK(Drained(n, became), reported)
  {
  }

  /** The new record names something exactly if something waits to be stored. */
  lemma RecordNames(l: Log, number: nat)
    requires WellFormed(l)
    ensures BareRecord(RecordOf(l, number)) <==> Stable(l)
    ensures !Stable(l) ==> NamesEnd(l, Some(RecordOf(l, number)))
  {
  }

  lemma PendingBase(l: Log)
    requires WellFormed(l)
    ensures l.pending ==> l.base.Some?
  {
  }

  lemma RecordedSaved(n: Node, became: bool, m: Node, covered: bool)
    requires NodeOK(n) && n.log.first >= 1 && SavedOK(n.log, n.records, covered) && (became ==> Bare(n.records))
    requires m.log == n.log && m.records == Recorded(Drained(n, became))
    ensures SavedOK(m.log, m.records, covered)
    ensures !Stable(n.log) ==> NamesEnd(n.log, Newest(m.records))
  {
    PendingBase(n.log);
    hide WellFormed, RecordOf;
    var r := RecordOf(n.log, n.maxNumber + 1);
    RecordNames(n.log, n.maxNumber + 1);
    NewestSplit(Drained(n, became).records, [r]);
    assert Bare([r]) <==> BareRecord([r][0]);
    BareNewest(n.records);
    BareNewest([]);
    assert Newest([r]) == if BareRecord(r) then Newest([r][..0]) else Some(r);
  }

  lemma RecordedCandidate(n: Node, campaign: nat, m: Node)
    requires NodeOK(n) && n.log.first >= 1 && !n.outstanding && CandidateOK(n, campaign)
    requires m.log == n.log && m.maxNumber == n.maxNumber + 1 && m.outstanding && m.records == Recorded(n)
    ensures CandidateOK(m, campaign)
  {
    hide WellFormed, RecordOf;
    RecordNames(n.log, n.maxNumber + 1);
    RecordNumber(n.log, n.maxNumber + 1);
  }

  lemma RecordNumber(l: Log, number: nat)
    requires WellFormed(l)
    ensures RecordOf(l, number).number == number
  {
  }

  lemma ReadyLoopOK(rd: Reading, s: Loop, m: Node)
    requires LoopOK(rd, s) && NodeOK(s.node) && !s.node.outstanding && (BecameLeader(s) ==> Bare(s.node.records))
    requires m.log == s.node.log && m.maxNumber == s.node.maxNumber + 1 && m.outstanding
    requires (s.node.log.pending ==> s.node.log.base.Some?) && m.records == Recorded(Drained(s.node, BecameLeader(s)))
    ensures LoopOK(rd, s.(readyRole := s.role, readyHard := CurrentHard(s), messages := false, node := m))
  {
    hide Pointers, Bare, NumbersOK, SavedOK, CandidateOK, PersistedIsSaved;
    var n, became := s.node, BecameLeader(s);
    DrainedNumbers(n, s.reported, became);
    RecordedNumbers(Drained(n, became), s.reported, m);
    RecordedSaved(n, became, m, s.covered);
    if s.role == Candidate {
      RecordedCandidate(n, s.campaign, m);
    }
    hide Recorded;
  }

  lemma TakeReadyKeeps(rd: Reading, s: Loop, max: Option<nat>, start: nat, hs: seq<Handed>)
    requires LoopInv(rd, s, start, hs) && !s.node.outstanding && (BecameLeader(s) ==> Bare(s.node.records))
    ensures NodeOK(s.node) && TakeOn(s, max).Next?
    ensures var (t, more) := TakeOn(s, max).value; LoopInv(rd, t, start, hs + more)
  {
    InvParts(s.node, start, hs);
    hide Inv, Ready, LoopOK, Bare, Recorded, Pointers, CurrentHard, BecameLeader;
    ReadyKeeps(s.node, BecameLeader(s), max, start, hs);
    ReadyShape(s.node, BecameLeader(s), max);
    ReadyLoopOK(rd, s, Ready(s.node, BecameLeader(s), max).value.0);
  }

  lemma InvParts(n: Node, start: nat, hs: seq<Handed>)
    requires Inv(n, start, hs)
    ensures NodeOK(n) && n.log.first >= 1
  {
  }

  // -------------------------------------------------------- acknowledgement

  lemma CommitSaves(n: Node, covered: bool)
    requires NodeOK(n) && n.log.first >= 1 && OutstandingOK(n) && n.outstanding && SavedOK(n.log, n.records, covered)
    ensures CommitReady(n).Next? && Stable(CommitReady(n).value.log)
    ensures var c := CommitReady(n).value;
            SavedOK(c.log, c.records, if Stable(n.log) then covered else c.log.persisted >= Last(c.log)) && (PersistedIsSaved(n.log) ==> PersistedIsSaved(c.log))
  {
    CommitReadyIs(n);
    RecordNames(n.log, n.maxNumber);
    hide WellFormed, RecordOf, CommitReady;
    assert Newest(n.records) == if BareRecord(n.records[|n.records| - 1]) then Newest(n.records[..|n.records| - 1]) else Some(n.records[|n.records| - 1]);
  }

  lemma AcknowledgedOK(rd: Reading, s: Loop)
    requires LoopOK(rd, s) && NodeOK(s.node) && OutstandingOK(s.node) && s.node.outstanding
    ensures CommitReady(s.node).Next? && CommitReady(s.node).value.log.first >= 1
    ensures LoopOK(rd, Acknowledged(s, CommitReady(s.node).value))
  {
    CommitSaves(s.node, s.covered);
    CommitReadyIs(s.node);
    hide Pointers, SavedOK, CommitReady, PersistedIsSaved, Bare;
  }

  lemma OutstandingParts(n: Node, start: nat, hs: seq<Handed>)
    requires Inv(n, start, hs)
    ensures OutstandingOK(n) && RecordsOK(n)
  {
  }

  // ------------------------------------------------------------ persistence

  /** A stored log is persisted to its end by a report exactly if that is what it reports. */
  lemma EndPersisted(l: Log, popped: seq<Record>, stored: Option<nat>)
    requires Pointers(l) && l.first >= 1 && Stable(l)
    requires Honest(l, LastSaved(popped).0, stored) && Persisted(l, LastSnap(popped), LastSaved(popped), stored).Next?
    ensures Persisted(l, LastSnap(popped), LastSaved(popped), stored).value.persisted >= Last(l)
            <==> l.persisted >= Last(l) || ReportsEnd(l, popped)
  {
    hide LastSnap, LastSaved;
  }

  lemma NamedIsReported(l: Log, popped: seq<Record>)
    requires l.first >= 1 && NamesEnd(l, Newest(popped))
    ensures ReportsEnd(l, popped)
  {
    NewestSaved(popped);
    hide LastSnap, LastSaved, Newest;
  }

  lemma PersistSaved(n: Node, number: nat, stored: Option<nat>, covered: bool)
    requires NodeOK(n) && n.log.first >= 1 && RecordsOK(n) && SavedOK(n.log, n.records, covered)
    requires Honest(n.log, LastSaved(n.records[..Upto(n.records, number)]).0, stored)
    ensures OnPersistReady(n, number, stored).Next?
    ensures var m := OnPersistReady(n, number, stored).value;
            SavedOK(m.log, m.records, covered || ReportsEnd(n.log, n.records[..Upto(n.records, number)]))
  {
    OnPersistReadyIs(n, number, stored);
    var k := Upto(n.records, number);
    var popped, rest := n.records[..k], n.records[k..];
    assert n.records == popped + rest;
    NewestSplit(popped, rest);
    hide Upto, LastSnap, LastSaved, Newest, Bare, WellFormed;
    var m := OnPersistReady(n, number, stored).value;
    assert m.log == Persisted(n.log, LastSnap(popped), LastSaved(popped), stored).value;
    if Stable(n.log) {
      EndPersisted(n.log, popped, stored);
      if Bare(rest) && !covered {
        NamedIsReported(n.log, popped);
      }
    }
  }

  lemma PersistNumbers(n: Node, reported: nat, number: nat, m: Node)
    requires NumbersOK(n, reported) && number <= n.maxNumber && (n.outstanding ==> number < n.maxNumber)
    requires m.maxNumber == n.maxNumber && m.outstanding == n.outstanding && m.records == n.records[Upto(n.records, number)..]
    ensures NumbersOK(m, Max(reported, number))
  {
    UptoSplits(n.records, number);
    hide Upto;
  }

  lemma PersistCandidate(n: Node, campaign: nat, number: nat, m: Node)
    requires n.log.first >= 1 && CandidateOK(n, campaign) && m.log == n.log.(persisted := m.log.persisted)
    requires m.maxNumber == n.maxNumber && m.outstanding == n.outstanding && m.records == n.records[Upto(n.records, number)..]
    ensures CandidateOK(m, campaign)
  {
    hide Upto;
  }

  /** Persisting never counts what is not stored. */
  lemma PersistBelow(n: Node, number: nat, stored: Option<nat>)
    requires NodeOK(n) && n.log.first >= 1 && RecordsOK(n) && PersistedIsSaved(n.log)
    ensures OnPersistReady(n, number, stored).Next? && PersistedIsSaved(OnPersistReady(n, number, stored).value.log)
  {
    OnPersistReadyIs(n, number, stored);
    hide Upto, LastSnap, LastSaved, WellFormed;
  }

  lemma PersistLoopOK(rd: Reading, s: Loop, number: nat, stored: Option<nat>)
    requires LoopOK(rd, s) && NodeOK(s.node) && RecordsOK(s.node) && MayAct(s, Persist(number, stored))
    ensures OnPersistReady(s.node, number, stored).Next?
    ensures LoopOK(rd, AfterReport(s, number, OnPersistReady(s.node, number, stored).value))
  {
    hide Pointers, SavedOK, OnPersistReady, PersistedIsSaved, NumbersOK, CandidateOK, RecordsOK, Upto, LastSaved, LastSnap, Honest;
    var n := s.node;
    OnPersistReadyIs(n, number, stored);
    PersistSaved(n, number, stored, s.covered);
    var m := OnPersistReady(n, number, stored).value;
    PersistNumbers(n, s.reported, number, m);
    if s.role == Candidate {
      PersistCandidate(n, s.campaign, number, m);
    }
    if rd.resetGuard {
      PersistBelow(n, number, stored);
    }
  }

  lemma PersistKeepsLoop(rd: Reading, s: Loop, number: nat, stored: Option<nat>, start: nat, hs: seq<Handed>)
    requires LoopInv(rd, s, start, hs) && s.node.log.first >= 1 && MayAct(s, Persist(number, stored))
    ensures PersistOn(s, number, stored).Next?
    ensures var (t, more) := PersistOn(s, number, stored).value; more == [] && LoopInv(rd, t, start, hs)
  {
    InvParts(s.node, start, hs);
    OutstandingParts(s.node, start, hs);
    hide Inv, OnPersistReady, LoopOK, Pointers, Honest, Upto, LastSaved;
    PersistLoopOK(rd, s, number, stored);
    PersistKeeps(s.node, number, stored, start, hs);
  }

  // ---------------------------------------------------------------- the log

  /** A step of the raft layer leaves something to be stored, or moves the commit index at most. */
  lemma LeavesUnstored(rd: Reading, l: Log, op: LogOp)
    requires Pointers(l) && Enabled(l, op) && Step(rd, l, op).Next?
    requires op.MaybeAppendOp? || op.ProposeOp? || op.CommitToOp? || op.RestoreOp?
    ensures var m := Step(rd, l, op).value;
            && m.first >= 1 && (Stable(m) ==> m == l.(committed := m.committed))
            && (!op.RestoreOp? ==> l.committed <= m.committed)
            && (op.CommitToOp? ==> m == l.(committed := m.committed))
  {
    if op.MaybeAppendOp? {
      AppendLeaves(rd, l, op);
    }
    hide MaybeAppend;
  }

  lemma AppendLeaves(rd: Reading, l: Log, op: LogOp)
    requires Pointers(l) && op.MaybeAppendOp? && Enabled(l, op) && Step(rd, l, op).Next?
    ensures var m := Step(rd, l, op).value;
            m.first >= 1 && (Stable(m) ==> m == l.(committed := m.committed)) && l.committed <= m.committed
  {
    hide FindConflict;
    ConflictIndex(rd.findConflict, l, op.ents, op.idx + 1);
  }

  /** The commit index plays no part in what is stored. */
  lemma CommitSavedOK(l: Log, c: nat, records: seq<Record>, covered: bool)
    requires l.first >= 1 && SavedOK(l, records, covered)
    ensures SavedOK(l.(committed := c), records, covered)
  {
    hide Newest;
  }

  lemma UnstoredSavedOK(l: Log, m: Log, records: seq<Record>, covered: bool)
    requires l.first >= 1 && SavedOK(l, records, covered) && m.first >= 1 && (Stable(m) ==> m == l.(committed := m.committed))
    ensures SavedOK(m, records, covered)
  {
    hide Newest;
    if Stable(m) {
      CommitSavedOK(l, m.committed, records, covered);
    }
  }

  lemma LogActOK(rd: Reading, s: Loop, op: LogOp, role: Role)
    requires LoopOK(rd, s) && Pointers(s.node.log) && Enabled(s.node.log, op) && Step(rd, s.node.log, op).Next?
    requires op.MaybeAppendOp? || op.ProposeOp? || op.CommitToOp? || op.RestoreOp?
    requires role == s.role || role == Follower
    requires op.CommitToOp? || !s.node.outstanding
    requires op.CommitToOp? || role != Candidate
    requires s.node.outstanding ==> role == s.role
    ensures LoopOK(rd, s.(role := role, node := s.node.(log := Step(rd, s.node.log, op).value)))
  {
    var m := Step(rd, s.node.log, op).value;
    StepKeeps(rd, s.node.log, op);
    LeavesUnstored(rd, s.node.log, op);
    UnstoredSavedOK(s.node.log, m, s.node.records, s.covered);
    hide Step, SavedOK, NumbersOK, Bare, Pointers, Preserves;
    CommitsBelow(s.node.log, m.committed);
  }

  lemma CommitsBelow(l: Log, c: nat)
    ensures PersistedIsSaved(l.(committed := c)) <==> PersistedIsSaved(l)
  {
  }

  /** A step on the log keeps the loop in order, whatever it does to the role. */
  lemma LogActKeeps(rd: Reading, s: Loop, op: LogOp, role: Role, start: nat, hs: seq<Handed>)
    requires LoopInv(rd, s, start, hs) && Enabled(s.node.log, op) && Step(rd, s.node.log, op).Next?
    requires op.CommitToOp? || (!s.node.outstanding && (op.MaybeAppendOp? || op.ProposeOp? || op.RestoreOp?))
    requires role == s.role || (role == Follower && !s.node.outstanding)
    requires op.CommitToOp? || role != Candidate
    ensures LoopInv(rd, s.(role := role, node := s.node.(log := Step(rd, s.node.log, op).value)), start, hs)
  {
    InvParts(s.node, start, hs);
    LogActOK(rd, s, op, role);
    hide Inv, Step, LoopOK, Pointers;
    RaftKeeps(rd, s.node, op, start, hs);
  }

  /** Proposals never stop a node. */
  lemma ProposesOn(rd: Reading, l: Log, ents: seq<Entry>)
    requires Pointers(l) && Enabled(l, ProposeOp(ents))
    ensures Step(rd, l, ProposeOp(ents)).Next?
  {
  }

  lemma CommitsOn(rd: Reading, l: Log, to: nat)
    requires Pointers(l) && to <= Last(l)
    ensures Step(rd, l, CommitToOp(to)).Next? && Enabled(l, CommitToOp(to))
    ensures Step(rd, l, CommitToOp(to)) == CommitTo(l, to)
  {
  }

  // -------------------------------------------------------------- elections

  /**
    A candidate whose requests are out has nothing left to store. Its log is persisted to its end exactly if
    a report has named that end; if the Ready of its campaign is reported, one has, and nothing is left to drain.
   */
  lemma ReadyToLead(rd: Reading, s: Loop, noop: Entry)
    requires LoopOK(rd, s) && Pointers(s.node.log) && MayAct(s, Elected(noop))
    ensures Stable(s.node.log) && (s.node.log.persisted >= Last(s.node.log) <==> s.covered)
    ensures !s.covered ==> s.reported < s.campaign && NamesEnd(s.node.log, Newest(s.node.records))
    ensures s.campaign <= s.reported ==> s.covered && Bare(s.node.records)
    ensures rd.resetGuard ==> s.node.log.persisted <= Last(s.node.log)
  {
    hide Newest;
    if s.campaign <= s.reported {
      forall i | 0 <= i < |s.node.records|
        ensures BareRecord(s.node.records[i])
      {
        assert s.node.records[i].number > s.reported;
      }
      BareNewest(s.node.records);
    }
  }

  lemma LeadKeeps(rd: Reading, s: Loop, noop: Entry, early: bool, term: nat, vote: nat, start: nat, hs: seq<Handed>)
    requires LoopInv(rd, s, start, hs) && !s.node.outstanding && noop.index == Last(s.node.log) + 1
    requires s.node.log.persisted == Last(s.node.log) && (early || Bare(s.node.records))
    ensures Lead(rd, s.(term := term, vote := vote), noop, early).Next?
    ensures var (t, more) := Lead(rd, s.(term := term, vote := vote), noop, early).value; LoopInv(rd, t, start, hs + more)
  {
    InvParts(s.node, start, hs);
    var u := s.(role := Leader, early := early, messages := true, term := term, vote := vote);
    LeaderOK(rd, s, early, term, vote);
    assert Continuous([noop], Last(s.node.log) + 1);
    hide Inv, Step, LoopOK, Pointers, Bare, Last, Continuous;
    ProposesOn(rd, s.node.log, [noop]);
    LogActKeeps(rd, u, ProposeOp([noop]), Leader, start, hs);
    assert hs + [] == hs;
  }

  lemma LeaderOK(rd: Reading, s: Loop, early: bool, term: nat, vote: nat)
    requires LoopOK(rd, s) && !s.node.outstanding && (early || Bare(s.node.records))
    ensures LoopOK(rd, s.(role := Leader, early := early, messages := true, term := term, vote := vote))
  {
    hide SavedOK, NumbersOK, Bare, PersistedIsSaved;
  }

  lemma CampaignOK(rd: Reading, s: Loop, id: nat)
    requires LoopOK(rd, s) && !s.node.outstanding
    ensures LoopOK(rd, s.(role := Candidate, term := s.term + 1, vote := id, early := false, campaign := s.node.maxNumber + 1, messages := true))
  {
    hide SavedOK, Bare, PersistedIsSaved, Stable;
  }

  lemma TurnOK(rd: Reading, s: Loop, term: nat, vote: nat)
    requires LoopOK(rd, s)
    ensures !s.node.outstanding ==> LoopOK(rd, s.(role := Follower, term := term, vote := vote))
    ensures (s.node.outstanding ==> s.role == Leader) ==> LoopOK(rd, s.(messages := true))
  {
    hide SavedOK, NumbersOK, Bare, PersistedIsSaved, CandidateOK;
  }

  // ---------------------------------------------- applying and compacting

  lemma CompactedSavedOK(l: Log, idx: nat, records: seq<Record>, covered: bool)
    requires Pointers(l) && SavedOK(l, records, covered) && Enabled(l, CompactOp(idx))
    ensures Compact(l, idx).first >= 1 && SavedOK(Compact(l, idx), records, covered)
    ensures Stable(l) <==> Stable(Compact(l, idx))
    ensures Compact(l, idx).committed == l.committed && (PersistedIsSaved(l) ==> PersistedIsSaved(Compact(l, idx)))
  {
    hide Newest;
  }

  lemma DropKeeps(rd: Reading, s: Loop, idx: nat, start: nat, hs: seq<Handed>)
    requires LoopInv(rd, s, start, hs) && MayAct(s, Drop(idx))
    ensures DoAct(rd, s, Drop(idx)).Next?
    ensures var (t, more) := DoAct(rd, s, Drop(idx)).value; LoopInv(rd, t, start, hs + more)
  {
    InvParts(s.node, start, hs);
    CompactStep(rd, s.node.log, idx);
    CompactedSavedOK(s.node.log, idx, s.node.records, s.covered);
    CompactKeepsInv(s.node, idx, start, hs);
    hide Inv, Step, Compact, Pointers, SavedOK, NumbersOK, Bare, PersistedIsSaved, Stable;
    assert hs + [] == hs;
  }

  lemma AppliedSavedOK(l: Log, applied: nat, records: seq<Record>, covered: bool)
    requires l.first >= 1 && SavedOK(l, records, covered)
    ensures SavedOK(l.(applied := applied), records, covered) && (PersistedIsSaved(l) ==> PersistedIsSaved(l.(applied := applied)))
    ensures Stable(l) <==> Stable(l.(applied := applied))
  {
    hide Newest;
  }

  lemma ApplyLoopOK(rd: Reading, s: Loop, applied: nat)
    requires LoopOK(rd, s) && AdvanceApply(s.node, applied).Next?
    ensures LoopOK(rd, s.(node := AdvanceApply(s.node, applied).value))
  {
    AppliedSavedOK(s.node.log, AdvanceApply(s.node, applied).value.log.applied, s.node.records, s.covered);
    hide SavedOK, NumbersOK, Bare, PersistedIsSaved, Stable;
  }

  lemma ApplyKeepsLoop(rd: Reading, s: Loop, applied: nat, start: nat, hs: seq<Handed>)
    requires LoopInv(rd, s, start, hs) && MayAct(s, Apply(applied))
    ensures DoAct(rd, s, Apply(applied)).Next?
    ensures var (t, more) := DoAct(rd, s, Apply(applied)).value; LoopInv(rd, t, start, hs + more)
  {
    InvParts(s.node, start, hs);
    ApplyKeeps(s.node, applied, start, hs);
    ApplyLoopOK(rd, s, applied);
    hide Inv, LoopOK, Pointers, AdvanceApply;
    assert hs + [] == hs;
  }

  // ----------------------------------------------------------- the advance

  lemma CursorMoves(rd: Reading, s: Loop, commitSince: nat)
    requires LoopOK(rd, s)
    ensures LoopOK(rd, s.(node := s.node.(commitSince := commitSince)))
  {
    hide SavedOK, Bare, PersistedIsSaved, Stable;
  }

  lemma CheckedOK(rd: Reading, s: Loop)
    requires LoopOK(rd, s) && !s.node.outstanding && (s.messages ==> s.role == Leader)
    requires s.prevHard.term == s.term && s.prevHard.vote == s.vote && s.prevHard.commit <= s.node.log.committed
    ensures Checked(s).Next? && LoopOK(rd, Checked(s).value) && Checked(s).value.node == s.node
  {
    hide SavedOK, NumbersOK, Bare, PersistedIsSaved, CandidateOK;
  }

  /** Acknowledged: the node stores nothing any more and is as the Ready saw it. */
  ghost predicate AsReady(s: Loop) {
    && !s.node.outstanding && !s.node.log.pending && (s.messages ==> s.role == Leader)
    && s.prevHard.term == s.term && s.prevHard.vote == s.vote && s.prevHard.commit <= s.node.log.committed
  }

  lemma AcknowledgeKeeps(rd: Reading, s: Loop, start: nat, hs: seq<Handed>)
    requires LoopInv(rd, s, start, hs) && s.node.outstanding
    ensures NodeOK(s.node) && Acknowledge(s).Next?
    ensures LoopInv(rd, Acknowledge(s).value, start, hs) && AsReady(Acknowledge(s).value)
  {
    InvParts(s.node, start, hs);
    OutstandingParts(s.node, start, hs);
    CommitReadyIs(s.node);
    AcknowledgedOK(rd, s);
    CommitReadyKeeps(s.node, start, hs);
    hide Inv, CommitReady, SavedOK, Bare, PersistedIsSaved, CandidateOK, Pointers;
  }

  /** What the application keeps to in the advance it keeps to in the report in its middle. */
  lemma ReportAllowed(s: Loop, stored: Option<nat>, raised: nat, sent: bool, max: Option<nat>)
    requires NodeOK(s.node) && s.node.log.first >= 1 && OutstandingOK(s.node) && MayAct(s, AdvanceAll(stored, raised, sent, max))
    ensures Acknowledge(s).Next?
    ensures var a := Acknowledge(s).value;
            && a.node.log.first >= 1 && MayAct(a, Persist(a.node.maxNumber, stored)) && raised <= Last(a.node.log)
            && (sent ==> a.role == Leader)
  {
    CommitReadyIs(s.node);
    hide CommitReady, Pointers, Honest, Upto, LastSaved;
  }

  lemma ReportKeeps(rd: Reading, a: Loop, stored: Option<nat>, start: nat, hs: seq<Handed>)
    requires LoopInv(rd, a, start, hs) && AsReady(a) && a.node.log.first >= 1 && MayAct(a, Persist(a.node.maxNumber, stored))
    ensures NodeOK(a.node) && ReportAll(a, stored).Next?
    ensures var b := ReportAll(a, stored).value;
            LoopInv(rd, b, start, hs) && AsReady(b) && b.role == a.role && b.node.log.first >= 1 && Last(b.node.log) == Last(a.node.log)
  {
    InvParts(a.node, start, hs);
    OutstandingParts(a.node, start, hs);
    hide Inv, OnPersistReady, LoopOK, Pointers, MayAct, Upto, LastSnap, LastSaved;
    OnPersistReadyIs(a.node, a.node.maxNumber, stored);
    PersistKeepsLoop(rd, a, a.node.maxNumber, stored, start, hs);
  }

  lemma RaiseKeeps(rd: Reading, s: Loop, raised: nat, start: nat, hs: seq<Handed>)
    requires LoopInv(rd, s, start, hs) && AsReady(s) && s.node.log.first >= 1 && raised <= Last(s.node.log)
    ensures NodeOK(s.node) && Raise(s, raised).Next?
    ensures LoopInv(rd, Raise(s, raised).value, start, hs) && AsReady(Raise(s, raised).value) && Raise(s, raised).value.role == s.role
  {
    InvParts(s.node, start, hs);
    CommitsOn(rd, s.node.log, raised);
    LeavesUnstored(rd, s.node.log, CommitToOp(raised));
    LogActKeeps(rd, s, CommitToOp(raised), s.role, start, hs);
    hide Inv, LoopOK, Pointers;
  }

  lemma SentKeeps(rd: Reading, s: Loop, sent: bool, start: nat, hs: seq<Handed>)
    requires LoopInv(rd, s, start, hs) && AsReady(s) && (sent ==> s.role == Leader)
    ensures LoopInv(rd, s.(messages := s.messages || sent), start, hs) && AsReady(s.(messages := s.messages || sent))
  {
    hide Inv, LoopOK;
    TurnOK(rd, s, 0, 0);
    if !(s.messages || sent) {
      assert s.(messages := s.messages || sent) == s;
    }
  }

  lemma HandOutKeeps(rd: Reading, s: Loop, max: Option<nat>, start: nat, hs: seq<Handed>)
    requires LoopInv(rd, s, start, hs) && AsReady(s)
    ensures NodeOK(s.node) && HandOut(s, max).Next?
    ensures var (t, more) := HandOut(s, max).value; LoopInv(rd, t, start, hs + more)
  {
    InvParts(s.node, start, hs);
    hide Inv, LoopOK, Pointers, GenLight, Checked;
    PointersParts(s.node.log);
    LightKeeps(s.node, max, start, hs);
    LightGrows(s.node, max);
    var (m, es) := GenLight(s.node, max).value;
    CursorMoves(rd, s, m.commitSince);
    CheckedOK(rd, s.(node := m));
  }

  lemma AdvanceAllKeeps(rd: Reading, s: Loop, stored: Option<nat>, raised: nat, sent: bool, max: Option<nat>, start: nat, hs: seq<Handed>)
    requires LoopInv(rd, s, start, hs) && s.node.log.first >= 1 && MayAct(s, AdvanceAll(stored, raised, sent, max))
    ensures NodeOK(s.node) && AdvanceOn(s, stored, raised, sent, max).Next?
    ensures var (t, more) := AdvanceOn(s, stored, raised, sent, max).value; LoopInv(rd, t, start, hs + more)
  {
    InvParts(s.node, start, hs);
    OutstandingParts(s.node, start, hs);
    ReportAllowed(s, stored, raised, sent, max);
    MayAdvance(s, stored, raised, sent, max);
    hide LoopInv, NodeOK, MayAct, Acknowledge, ReportAll, Raise, HandOut, AsReady;
    AcknowledgeKeeps(rd, s, start, hs);
    var a := Acknowledge(s).value;
    ReportKeeps(rd, a, stored, start, hs);
    var b := ReportAll(a, stored).value;
    RaiseKeeps(rd, b, raised, start, hs);
    var c := Raise(b, raised).value;
    SentKeeps(rd, c, sent, start, hs);
    HandOutKeeps(rd, c.(messages := c.messages || sent), max, start, hs);
  }

  lemma MayAdvance(s: Loop, stored: Option<nat>, raised: nat, sent: bool, max: Option<nat>)
    requires s.node.log.first >= 1 && MayAct(s, AdvanceAll(stored, raised, sent, max))
    ensures s.node.outstanding
  {
  }

  // ------------------------------------------------------------------ runs

  /** The acts that can stop a node, and when. */
  ghost predicate Stops(rd: Reading, s: Loop, a: Act)
    requires NodeOK(s.node) && s.node.log.first >= 1
  {
    match a
    case Take(op) => Step(rd, s.node.log, op).Panic?
    // no report has named the end of the log yet, or the written reset guard left persisted beyond it
    case Elected(_) => !s.covered || s.node.log.persisted > Last(s.node.log)
    case Alone(_, _) => s.node.log.persisted != Last(s.node.log)
    case TakeReady(_) => s.early && BecameLeader(s) && !Bare(s.node.records)
    case _ => false
  }

  lemma LogActs(rd: Reading, s: Loop, a: Act, start: nat, hs: seq<Handed>)
    requires LoopInv(rd, s, start, hs) && NodeOK(s.node) && s.node.log.first >= 1 && MayAct(s, a)
    requires a.Take? || a.Propose? || a.Commit?
    ensures DoAct(rd, s, a).Panic? <==> Stops(rd, s, a)
    ensures DoAct(rd, s, a).Next? ==> LoopInv(rd, DoAct(rd, s, a).value.0, start, hs + DoAct(rd, s, a).value.1)
  {
    assert hs + [] == hs;
    hide LoopInv, Step, Enabled, Pointers;
    var op := if a.Take? then a.op else if a.Propose? then ProposeOp(a.ents) else CommitToOp(a.to);
    if a.Propose? {
      ProposesOn(rd, s.node.log, a.ents);
    } else if a.Commit? {
      CommitsOn(rd, s.node.log, a.to);
    }
    if Step(rd, s.node.log, op).Next? {
      LogActKeeps(rd, s, op, if a.Take? then Follower else s.role, start, hs);
    }
  }

  lemma RoleActs(rd: Reading, s: Loop, a: Act, start: nat, hs: seq<Handed>)
    requires LoopInv(rd, s, start, hs) && NodeOK(s.node) && s.node.log.first >= 1 && MayAct(s, a)
    requires a.Campaign? || a.Turn? || a.Send? || a.Store? || a.Elected? || a.Alone?
    ensures DoAct(rd, s, a).Panic? <==> Stops(rd, s, a)
    ensures DoAct(rd, s, a).Next? ==> LoopInv(rd, DoAct(rd, s, a).value.0, start, hs + DoAct(rd, s, a).value.1)
  {
    hide Inv, LoopOK, Lead, Enabled, Pointers, Bare;
    assert hs + [] == hs;
    match a
    case Campaign(id) => CampaignOK(rd, s, id);
    case Turn(term, vote) => TurnOK(rd, s, term, vote);
    case Send => TurnOK(rd, s, 0, 0);
    case Store(number) => StoreOK(rd, s, number);
    case Elected(noop) =>
      ReadyToLead(rd, s, noop);
      LeadStops(rd, s, noop, s.reported < s.campaign);
      if s.node.log.persisted == Last(s.node.log) {
        LeadKeeps(rd, s, noop, s.reported < s.campaign, s.term, s.vote, start, hs);
        assert s.(term := s.term, vote := s.vote) == s;
      }
    case Alone(id, noop) =>
      LeadStops(rd, s.(term := s.term + 1, vote := id), noop, true);
      if s.node.log.persisted == Last(s.node.log) {
        LeadKeeps(rd, s, noop, true, s.term + 1, id, start, hs);
      }
  }

  lemma StoreOK(rd: Reading, s: Loop, number: nat)
    requires LoopOK(rd, s) && s.stored <= number <= s.node.maxNumber
    ensures LoopOK(rd, s.(stored := number))
  {
    hide SavedOK, NumbersOK, Bare, PersistedIsSaved, CandidateOK;
  }

  lemma LeadStops(rd: Reading, s: Loop, noop: Entry, early: bool)
    requires NodeOK(s.node) && s.node.log.first >= 1
    ensures s.node.log.persisted != Last(s.node.log) ==> Lead(rd, s, noop, early).Panic?
  {
  }

  lemma FreshIsBare(rd: Reading, s: Loop)
    requires LoopOK(rd, s)
    ensures BecameLeader(s) && !s.node.outstanding && !s.early ==> Bare(s.node.records)
  {
  }

  lemma ReadyStops(s: Loop, max: Option<nat>)
    requires NodeOK(s.node) && BecameLeader(s) && !Bare(s.node.records)
    ensures TakeOn(s, max).Panic?
  {
    hide Opening, Bare;
  }

  lemma TakeReadyActs(rd: Reading, s: Loop, max: Option<nat>, start: nat, hs: seq<Handed>)
    requires LoopInv(rd, s, start, hs) && NodeOK(s.node) && s.node.log.first >= 1 && MayAct(s, TakeReady(max))
    ensures TakeOn(s, max).Panic? <==> Stops(rd, s, TakeReady(max))
    ensures TakeOn(s, max).Next? ==> LoopInv(rd, TakeOn(s, max).value.0, start, hs + TakeOn(s, max).value.1)
  {
    FreshIsBare(rd, s);
    hide LoopInv, TakeOn, Bare, BecameLeader, Pointers;
    if BecameLeader(s) && !Bare(s.node.records) {
      ReadyStops(s, max);
    } else {
      TakeReadyKeeps(rd, s, max, start, hs);
    }
  }

  lemma ReadyActs(rd: Reading, s: Loop, a: Act, start: nat, hs: seq<Handed>)
    requires LoopInv(rd, s, start, hs) && NodeOK(s.node) && s.node.log.first >= 1 && MayAct(s, a)
    requires a.TakeReady? || a.AdvanceAsync? || a.AdvanceAll? || a.Persist? || a.Apply? || a.Drop?
    ensures DoAct(rd, s, a).Panic? <==> Stops(rd, s, a)
    ensures DoAct(rd, s, a).Next? ==> LoopInv(rd, DoAct(rd, s, a).value.0, start, hs + DoAct(rd, s, a).value.1)
  {
    hide LoopInv, Acknowledge, AdvanceOn, TakeOn, PersistOn, Bare, BecameLeader, Pointers, Honest, LastSaved, Upto, CommitReady, Handle;
    match a
    case TakeReady(max) => TakeReadyActs(rd, s, max, start, hs);
    case AdvanceAsync =>
      AcknowledgeKeeps(rd, s, start, hs);
      assert hs + [] == hs;
    case AdvanceAll(stored, raised, sent, max) => AdvanceAllKeeps(rd, s, stored, raised, sent, max, start, hs);
    case Persist(number, stored) =>
      PersistKeepsLoop(rd, s, number, stored, start, hs);
      assert hs + [] == hs;
    case Apply(applied) => ApplyKeepsLoop(rd, s, applied, start, hs);
    case Drop(idx) => DropKeeps(rd, s, idx, start, hs);
  }

  lemma ActKeeps(rd: Reading, s: Loop, a: Act, start: nat, hs: seq<Handed>)
    requires LoopInv(rd, s, start, hs)
    ensures NodeOK(s.node) && s.node.log.first >= 1
    ensures MayAct(s, a) ==> (DoAct(rd, s, a).Panic? <==> Stops(rd, s, a))
    ensures MayAct(s, a) && DoAct(rd, s, a).Next? ==> LoopInv(rd, DoAct(rd, s, a).value.0, start, hs + DoAct(rd, s, a).value.1)
  {
    InvParts(s.node, start, hs);
    hide LoopInv, DoAct, MayAct, Stops, Pointers;
    if MayAct(s, a) {
      if a.Take? || a.Propose? || a.Commit? {
        LogActs(rd, s, a, start, hs);
      } else if a.Campaign? || a.Turn? || a.Send? || a.Store? || a.Elected? || a.Alone? {
        RoleActs(rd, s, a, start, hs);
      } else {
        ReadyActs(rd, s, a, start, hs);
      }
    }
  }

  /** What `RawNode::new` starts with, on the log of a store and the hard state saved with it. */
  function Started(l: Log, applied: nat, term: nat, vote: nat): Loop {
    var hard := HardState(term, vote, l.committed);
    Loop(Boot(l, applied), Follower, term, vote, false, 0, 0, 0, true, false, Follower, hard, Follower, hard)
  }

  ghost predicate Startable(l: Log, applied: nat) {
    Bootable(l, applied) && l.persisted == Last(l) && l.offset == Last(l) + 1
  }

  lemma StartedOK(rd: Reading, l: Log, applied: nat, term: nat, vote: nat)
    requires Startable(l, applied)
    ensures LoopInv(rd, Started(l, applied, term, vote), Max(applied, l.first - 1), [])
  {
    BootOK(l, applied);
    hide Inv;
  }

  /** The loop and everything handed over after the first `k` acts; acts nobody may take do nothing. */
  ghost function LoopRun(rd: Reading, l: Log, applied: nat, term: nat, vote: nat, acts: seq<Act>, k: nat): (r: Outcome<(Loop, seq<Handed>)>)
    requires Startable(l, applied) && k <= |acts|
    ensures r.Next? ==> LoopInv(rd, r.value.0, Max(applied, l.first - 1), r.value.1)
    decreases k
  {
    var start := Max(applied, l.first - 1);
    if k == 0 then StartedOK(rd, l, applied, term, vote); Next((Started(l, applied, term, vote), []))
    else
      match LoopRun(rd, l, applied, term, vote, acts, k - 1)
      case Panic => Panic
      case Next((s, hs)) =>
        ActKeeps(rd, s, acts[k - 1], start, hs);
        if !MayAct(s, acts[k - 1]) then Next((s, hs))
        else
          match DoAct(rd, s, acts[k - 1])
          case Panic => Panic
          case Next((t, more)) => Next((t, hs + more))
  }

  /**
    What the comments of `become_leader` and `ready` claim, over every run. When the answers to its stored vote
    requests elect a candidate, nothing of its log waits to be stored, but it is persisted to its end exactly
    if a report has named that end. The claim holds once the Ready of the campaign is reported: then the log
    is persisted, and the records left name nothing. Before that the last record that names anything may be
    unreported and name the end of the log. The reset guard as written can also leave the persisted index
    beyond the log.
   */
  lemma ElectedIsSaved(rd: Reading, l: Log, applied: nat, term: nat, vote: nat, acts: seq<Act>, k: nat, noop: Entry)
    requires Startable(l, applied) && k <= |acts| && LoopRun(rd, l, applied, term, vote, acts, k).Next?
    requires MayAct(LoopRun(rd, l, applied, term, vote, acts, k).value.0, Elected(noop))
    ensures var s := LoopRun(rd, l, applied, term, vote, acts, k).value.0;
            var n := s.node;
            && n.log.offset == Last(n.log) + 1 && !n.log.pending
            && (n.log.persisted >= Last(n.log) <==> s.covered)
            && (!s.covered ==> s.reported < s.campaign && NamesEnd(n.log, Newest(n.records)))
            && (s.campaign <= s.reported ==> s.covered && Bare(n.records))
            && (rd.resetGuard ==> n.log.persisted <= Last(n.log))
  {
    hide LoopRun;
    var (s, hs) := LoopRun(rd, l, applied, term, vote, acts, k).value;
    InvParts(s.node, Max(applied, l.first - 1), hs);
    StableEnd(s.node.log);
    ReadyToLead(rd, s, noop);
    hide LoopInv, Bare, MayAct;
  }

  lemma StableEnd(l: Log)
    requires Pointers(l)
    ensures Stable(l) ==> l.offset == Last(l) + 1
  {
  }

  /**
    Over every run, exactly these acts can stop the process: an append or snapshot that the log itself
    refuses; an election by answers before any report has named the end of the log, or, with the reset guard
    as written, while the persisted index is beyond it; a sole voter's election with an unsaved log; and the
    first `Ready` of a leader elected before the Ready of its campaign was reported, if a record left over
    names something. An application that reports a stored Ready before it passes on the answers to its vote
    requests avoids all but the first and the sole voter's. The assertions and fatals of `commit_ready` and
    `on_persist_ready`, and the three checks that end `advance_append`, never fail.
   */
  lemma LoopStopsExactly(rd: Reading, l: Log, applied: nat, term: nat, vote: nat, acts: seq<Act>, k: nat, a: Act)
    requires Startable(l, applied) && k <= |acts| && LoopRun(rd, l, applied, term, vote, acts, k).Next?
    requires MayAct(LoopRun(rd, l, applied, term, vote, acts, k).value.0, a)
    ensures var s := LoopRun(rd, l, applied, term, vote, acts, k).value.0;
            && (DoAct(rd, s, a).Panic? <==> Stops(rd, s, a))
            && (rd.resetGuard && a.Elected? ==> (DoAct(rd, s, a).Panic? <==> !s.covered))
            && (rd.resetGuard && a.Elected? && s.campaign <= s.reported ==> DoAct(rd, s, a).Next?)
  {
    hide LoopRun, DoAct, MayAct, Stops, LoopInv;
    var (s, hs) := LoopRun(rd, l, applied, term, vote, acts, k).value;
    ActKeeps(rd, s, a, Max(applied, l.first - 1), hs);
    if a.Elected? {
      ElectedIsSaved(rd, l, applied, term, vote, acts, k, a.noop);
      ElectionStops(rd, s, a);
    }
  }

  lemma ElectionStops(rd: Reading, s: Loop, a: Act)
    requires NodeOK(s.node) && s.node.log.first >= 1 && a.Elected?
    ensures Stops(rd, s, a) <==> !s.covered || s.node.log.persisted > Last(s.node.log)
  {
  }

  /** And the application is still handed one gap-free sequence of the committed entries. */
  lemma LoopExactlyOnce(rd: Reading, l: Log, applied: nat, term: nat, vote: nat, acts: seq<Act>, k: nat, i: nat)
    requires Startable(l, applied) && k <= |acts| && LoopRun(rd, l, applied, term, vote, acts, k).Next?
    requires i < |LoopRun(rd, l, applied, term, vote, acts, k).value.1|
    ensures var (s, hs) := LoopRun(rd, l, applied, term, vote, acts, k).value;
            var before := if i == 0 then Max(applied, l.first - 1) else IndexOf(hs[i - 1]);
            match hs[i]
            case Jump(index) => before <= index
            case Deliver(e) =>
              && e.index == before + 1 && e.index <= s.node.log.committed
              && (1 <= s.node.log.first <= e.index ==> At(s.node.log, e.index) == e)
  {
    var (s, hs) := LoopRun(rd, l, applied, term, vote, acts, k).value;
    assert InOrderAt(Max(applied, l.first - 1), hs, i);
    if hs[i].Deliver? {
      assert IsCommitted(s.node.log, hs[i].e);
    }
    hide LoopRun, LoopOK;
  }
}
