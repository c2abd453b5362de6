/** Runs of the `Ready` loop that do end in a failed assertion. */
module ReadyLoopStops {
  import opened Common
  import opened LogSpec
  import opened Delivery
  import opened ReadyLoop
  import ReadyLoopWritten

  function E(index: nat, term: nat): LogSpec.Entry {
    LogSpec.Entry(index, term, "", "", 0)
  }

  /** The first `k` acts lead to `s`, from a log opened in term 1, with nothing handed out. */
  ghost predicate Reaches(rd: Reading, l: Log, acts: seq<Act>, k: nat, s: Loop) {
    k <= |acts| && Startable(l, 0) && LoopRun(rd, l, 0, 1, 0, acts, k) == Next((s, []))
  }

  lemma Starts(rd: Reading, l: Log, acts: seq<Act>)
    requires Startable(l, 0)
    ensures Reaches(rd, l, acts, 0, Started(l, 0, 1, 0))
  {
    hide LoopInv;
  }

  /** One act anybody may take, with nothing handed out. */
  ghost predicate Acts(rd: Reading, s: Loop, a: Act, t: Loop) {
    && NodeOK(s.node) && s.node.log.first >= 1 && MayAct(s, a)
    && DoAct(rd, s, a) == Next((t, []))
  }

  /** An act that may be taken, and stops the process. */
  ghost predicate Fails(rd: Reading, s: Loop, a: Act) {
    NodeOK(s.node) && s.node.log.first >= 1 && MayAct(s, a) && DoAct(rd, s, a).Panic?
  }

  lemma Moves(rd: Reading, l: Log, acts: seq<Act>, k: nat, s: Loop, t: Loop)
    requires k < |acts| && Reaches(rd, l, acts, k, s) && Acts(rd, s, acts[k], t)
    ensures Reaches(rd, l, acts, k + 1, t)
  {
    hide MayAct, DoAct, LoopInv, NodeOK;
    ActKeeps(rd, s, acts[k], Max(0, l.first - 1), []);
    var none: seq<Handed> := [];
    assert none + none == none;
  }

  // ----------------------------- the reset guard as written, and an election

  const WRITTEN_GUARD: Reading := Reading(true, false)

  const TWO_SAVED: Log := Log(1, Some(0), [E(1, 1), E(2, 1)], 0, 2, 0, 3, false)
  const ONE_REPLACED: Log := TWO_SAVED.(entries := [E(1, 2)], offset := 1)

  const FIRST: HardState := HardState(1, 0, 0)
  const SECOND: HardState := HardState(2, 1, 0)

  const REPLACED: seq<Act> := [
    Take(MaybeAppendOp(0, 0, 0, [E(1, 2)])), Campaign(1), TakeReady(None), AdvanceAsync, Store(1), Persist(1, Some(2))]

  const G0: Loop := Started(TWO_SAVED, 0, 1, 0)
  const G1: Loop := G0.(node := G0.node.(log := ONE_REPLACED))
  const G2: Loop := G1.(role := Candidate, term := 2, vote := 1, campaign := 1, messages := true)
  const G3: Loop := G2.(node := Node(ONE_REPLACED, 0, 1, [Record(1, Some((1, 2)), None)], true), messages := false,
                        readyRole := Candidate, readyHard := SECOND)
  const G4: Loop := G3.(node := Node(ONE_REPLACED.(offset := 2), 0, 1, [Record(1, Some((1, 2)), None)], false),
                        prevRole := Candidate, prevHard := SECOND)
  const G5: Loop := G4.(stored := 1)
  const G6: Loop := G5.(node := Node(ONE_REPLACED.(offset := 2), 0, 1, [], false), reported := 1)

  lemma Replaces(rd: Reading, l: Log, t: nat)
    requires WellFormed(l) && l.first == 1 && l.committed == 0 && rd.findConflict && t > 0
    requires l.entries == [] || l.entries[0].term != t
    ensures MaybeAppend(rd, l, 0, 0, 0, [E(1, t)]).Next?
    ensures MaybeAppend(rd, l, 0, 0, 0, [E(1, t)]).value.0 ==
            l.(entries := [E(1, t)], offset := Min(l.offset, 1), persisted := ResetPersisted(rd.resetGuard, l.persisted, 1))
  {
    var ents := [E(1, t)];
    assert ents[0..] == ents;
    assert FindConflict(true, l, ents) == 1;
    assert l.entries[..0] + ents == ents;
  }

  lemma NothingNext(l: Log, since: nat, max: Option<nat>)
    requires l.first == 1 && l.committed == 0 && l.committed <= Last(l)
    ensures NextEntries(l, since, max) == [] && !HasNextEntries(l, since)
  {
  }

  function R(number: nat, term: nat): Record {
    Record(number, Some((1, term)), None)
  }

  /** A Ready that shows one new entry and hands nothing out. */
  lemma ShowsOne(l: Log, number: nat, records: seq<Record>, t: nat)
    requires Pointers(l) && l.first == 1 && l.entries == [E(1, t)] && l.offset == 1 && !l.pending && l.committed == 0
    ensures Ready(Node(l, 0, number, records, false), false, None) == Next((Node(l, 0, number + 1, records + [R(number + 1, t)], true), []))
  {
    NothingNext(l, 0, None);
    hide NextEntries, HasNextEntries, Pointers;
    var nobody: seq<Handed> := [];
    assert nobody + Delivered([]) == nobody;
  }

  lemma TakesOne(rd: Reading, l: Log, t: nat)
    requires Pointers(l) && l.first == 1 && l.committed == 0 && rd.findConflict && t > 0
    requires l.entries == [] || l.entries[0].term != t
    ensures var op := MaybeAppendOp(0, 0, 0, [E(1, t)]);
            && Enabled(l, op)
            && Step(rd, l, op) == Next(l.(entries := [E(1, t)], offset := Min(l.offset, 1), persisted := ResetPersisted(rd.resetGuard, l.persisted, 1)))
  {
    Replaces(rd, l, t);
    hide MaybeAppend, Pointers;
  }

  /** A follower whose first entry is replaced, or written. */
  lemma TakesAct(rd: Reading, s: Loop, t: nat)
    requires Pointers(s.node.log) && s.node.log.first == 1 && s.node.log.committed == 0 && rd.findConflict && t > 0
    requires s.node.log.entries == [] || s.node.log.entries[0].term != t
    requires s.role == Follower && !s.node.outstanding
    ensures var l := s.node.log;
            Acts(rd, s, Take(MaybeAppendOp(0, 0, 0, [E(1, t)])),
                 s.(node := s.node.(log := l.(entries := [E(1, t)], offset := Min(l.offset, 1), persisted := ResetPersisted(rd.resetGuard, l.persisted, 1)))))
  {
    hide Step, Enabled, Pointers, ResetPersisted;
    TakesOne(rd, s.node.log, t);
  }

  lemma GuardTake()
    ensures Startable(TWO_SAVED, 0) && Acts(WRITTEN_GUARD, G0, REPLACED[0], G1)
  {
    assert Pointers(TWO_SAVED);
    hide Acts;
    TakesAct(WRITTEN_GUARD, G0, 2);
  }

  lemma GuardCampaign()
    ensures Acts(WRITTEN_GUARD, G1, REPLACED[1], G2)
  {
  }

  lemma GuardReady()
    ensures Acts(WRITTEN_GUARD, G2, REPLACED[2], G3)
  {
    ShowsOne(ONE_REPLACED, 0, [], 2);
    var none: seq<Record> := [];
    assert none + [R(1, 2)] == [Record(1, Some((1, 2)), None)];
    hide Ready;
  }

  lemma GuardAsync()
    ensures Acts(WRITTEN_GUARD, G3, REPLACED[3], G4)
  {
  }

  lemma GuardStore()
    ensures Acts(WRITTEN_GUARD, G4, REPLACED[4], G5)
  {
  }

  lemma GuardPersist()
    ensures Acts(WRITTEN_GUARD, G5, REPLACED[5], G6)
  {
    var rs := G5.node.records;
    assert Upto(rs[1..], 1) == 0;
    assert rs[..1] == rs && rs[..1][..0] == [];
    assert LastSaved(rs) == (1, 2) && LastSnap(rs) == 0;
  }

  lemma GuardElected()
    ensures Fails(WRITTEN_GUARD, G6, Elected(E(2, 2)))
  {
  }

  lemma GuardRun()
    ensures Reaches(WRITTEN_GUARD, TWO_SAVED, REPLACED, 6, G6)
  {
    hide Reaches, Acts, Startable;
    GuardTake();
    GuardCampaign();
    GuardReady();
    GuardAsync();
    GuardStore();
    GuardPersist();
    Starts(WRITTEN_GUARD, TWO_SAVED, REPLACED);
    Moves(WRITTEN_GUARD, TWO_SAVED, REPLACED, 0, G0, G1);
    Moves(WRITTEN_GUARD, TWO_SAVED, REPLACED, 1, G1, G2);
    Moves(WRITTEN_GUARD, TWO_SAVED, REPLACED, 2, G2, G3);
    Moves(WRITTEN_GUARD, TWO_SAVED, REPLACED, 3, G3, G4);
    Moves(WRITTEN_GUARD, TWO_SAVED, REPLACED, 4, G4, G5);
    Moves(WRITTEN_GUARD, TWO_SAVED, REPLACED, 5, G5, G6);
  }

  /**
    With the reset guard as written, a replaced entry leaves the persisted index beyond the log; the node
    campaigns, its requests are stored and reported, the answers elect it, and its assertion fails.
   */
  lemma WrittenGuardStopsLeader()
    ensures Reaches(WRITTEN_GUARD, TWO_SAVED, REPLACED, 6, G6) && Fails(WRITTEN_GUARD, G6, Elected(E(2, 2)))
  {
    GuardRun();
    GuardElected();
  }

  /** Its first act is an append that the guard misses. */
  lemma ReplacementIsMissed()
    ensures ReadyLoopWritten.MissesAt(true, G0, REPLACED[0])
  {
    assert FindConflict(true, TWO_SAVED, [E(1, 2)]) == 1;
    hide FindConflict;
  }

  // ------------------------------- records left over, and a sole voter's win

  const INTENDED: Reading := Reading(true, true)

  const NOTHING: Log := Log(1, Some(0), [], 0, 0, 0, 1, false)

  /** The same index is written three times; the first report already persists what the third one wrote. */
  const REWRITTEN: seq<Act> := [
    Take(MaybeAppendOp(0, 0, 0, [E(1, 1)])), TakeReady(None), AdvanceAsync,
    Take(MaybeAppendOp(0, 0, 0, [E(1, 2)])), TakeReady(None), AdvanceAsync,
    Take(MaybeAppendOp(0, 0, 0, [E(1, 1)])), TakeReady(None), AdvanceAsync,
    Store(1), Persist(1, Some(1)), Alone(1, E(2, 2))]

  function Holding(l: Log, number: nat, records: seq<Record>, outstanding: bool, covered: bool): Loop {
    Started(NOTHING, 0, 1, 0).(node := Node(l, 0, number, records, outstanding), covered := covered)
  }

  /** The entry of term `t` at index 1, stored or not. */
  function One(t: nat, stored: bool): Log {
    NOTHING.(entries := [E(1, t)], offset := if stored then 2 else 1)
  }

  /** The log is empty, or stores another term than `t`. */
  predicate StoresOther(l: Log, t: nat) {
    l == NOTHING || (l.entries != [] && l.entries[0].term != t && l == One(l.entries[0].term, true))
  }

  lemma OneOK(t: nat, stored: bool)
    ensures Pointers(One(t, stored)) && Pointers(NOTHING)
  {
  }

  lemma Written(l: Log, number: nat, records: seq<Record>, t: nat, covered: bool)
    requires t > 0 && StoresOther(l, t)
    ensures Acts(INTENDED, Holding(l, number, records, false, covered), Take(MaybeAppendOp(0, 0, 0, [E(1, t)])),
                 Holding(One(t, false), number, records, false, covered))
  {
    hide Acts, Pointers;
    OneOK(0, true);
    if l != NOTHING {
      OneOK(l.entries[0].term, true);
    }
    TakesAct(INTENDED, Holding(l, number, records, false, covered), t);
  }

  lemma Shown(t: nat, number: nat, records: seq<Record>, covered: bool)
    ensures Acts(INTENDED, Holding(One(t, false), number, records, false, covered), TakeReady(None),
                 Holding(One(t, false), number + 1, records + [R(number + 1, t)], true, covered))
  {
    OneOK(t, false);
    ShowsOne(One(t, false), number, records, t);
    hide Ready, Pointers;
  }

  lemma Stored(t: nat, number: nat, records: seq<Record>, covered: bool)
    ensures Acts(INTENDED, Holding(One(t, false), number, records + [R(number, t)], true, covered), AdvanceAsync,
                 Holding(One(t, true), number, records + [R(number, t)], false, false))
  {
    OneOK(t, false);
    hide Pointers;
  }

  predicate IsRound(acts: seq<Act>, k: nat, t: nat) {
    k + 2 < |acts| && acts[k] == Take(MaybeAppendOp(0, 0, 0, [E(1, t)])) && acts[k + 1] == TakeReady(None) && acts[k + 2] == AdvanceAsync
  }

  /** Three acts in a row. */
  lemma MovesThrice(acts: seq<Act>, k: nat, s: Loop, t: Loop, u: Loop, v: Loop, m: nat)
    requires k + 2 < |acts| && m == k + 3
    requires Acts(INTENDED, s, acts[k], t) && Acts(INTENDED, t, acts[k + 1], u) && Acts(INTENDED, u, acts[k + 2], v)
    requires Reaches(INTENDED, NOTHING, acts, k, s)
    ensures Reaches(INTENDED, NOTHING, acts, m, v)
  {
    hide Reaches, Acts;
    Moves(INTENDED, NOTHING, acts, k, s, t);
    Moves(INTENDED, NOTHING, acts, k + 1, t, u);
    Moves(INTENDED, NOTHING, acts, k + 2, u, v);
  }

  /** One round: an entry is written, shown in a Ready and stored. */
  lemma Round(acts: seq<Act>, k: nat, l: Log, number: nat, records: seq<Record>, t: nat, m: nat, v: Loop, covered: bool)
    requires m == k + 3 && v == Holding(One(t, true), number + 1, records + [R(number + 1, t)], false, false)
    requires t > 0 && IsRound(acts, k, t) && StoresOther(l, t)
    requires Reaches(INTENDED, NOTHING, acts, k, Holding(l, number, records, false, covered))
    ensures Reaches(INTENDED, NOTHING, acts, m, v)
  {
    hide Reaches, Holding, One, R, StoresOther, Acts;
    Written(l, number, records, t, covered);
    Shown(t, number, records, covered);
    Stored(t, number + 1, records, covered);
    MovesThrice(acts, k, Holding(l, number, records, false, covered), Holding(One(t, false), number, records, false, covered),
                Holding(One(t, false), number + 1, records + [R(number + 1, t)], true, covered), v, m);
  }

  lemma StartOfRun(acts: seq<Act>)
    ensures Reaches(INTENDED, NOTHING, acts, 0, Holding(NOTHING, 0, [], false, true))
  {
    hide Reaches;
    OneOK(0, true);
    Starts(INTENDED, NOTHING, acts);
  }

  lemma IsThreeRounds()
    ensures IsRound(REWRITTEN, 0, 1) && IsRound(REWRITTEN, 3, 2) && IsRound(REWRITTEN, 6, 1)
  {
  }

  lemma OtherStored()
    ensures StoresOther(NOTHING, 1) && StoresOther(One(1, true), 2) && StoresOther(One(2, true), 1)
  {
  }

  lemma ThreeRounds(acts: seq<Act>)
    requires IsRound(acts, 0, 1) && IsRound(acts, 3, 2) && IsRound(acts, 6, 1)
    ensures Reaches(INTENDED, NOTHING, acts, 9, Holding(One(1, true), 3, [R(1, 1), R(2, 2), R(3, 1)], false, false))
  {
    hide Reaches, Holding, One, R, StoresOther, IsRound;
    StartOfRun(acts);
    OtherStored();
    var one, two, three := [R(1, 1)], [R(1, 1), R(2, 2)], [R(1, 1), R(2, 2), R(3, 1)];
    assert [] + [R(1, 1)] == one && one + [R(2, 2)] == two && two + [R(3, 1)] == three;
    Round(acts, 0, NOTHING, 0, [], 1, 3, Holding(One(1, true), 1, one, false, false), true);
    Round(acts, 3, One(1, true), 1, one, 2, 6, Holding(One(2, true), 2, two, false, false), false);
    Round(acts, 6, One(2, true), 2, two, 1, 9, Holding(One(1, true), 3, three, false, false), false);
  }

  const LEFT_OVER: seq<Record> := [R(2, 2), R(3, 1)]

  /** The first report is of an entry that the log holds again. */
  const PERSISTED: Loop := Holding(One(1, true).(persisted := 1), 3, LEFT_OVER, false, true).(stored := 1, reported := 1)

  const ALL_SHOWN: Loop := Holding(One(1, true), 3, [R(1, 1), R(2, 2), R(3, 1)], false, false)

  lemma FirstStored()
    ensures Acts(INTENDED, ALL_SHOWN, Store(1), ALL_SHOWN.(stored := 1))
  {
    OneOK(1, true);
    hide Pointers;
  }

  lemma Reported()
    ensures Acts(INTENDED, ALL_SHOWN.(stored := 1), Persist(1, Some(1)), PERSISTED)
  {
    OneOK(1, true);
    var rs := [R(1, 1), R(2, 2), R(3, 1)];
    assert Upto(rs[1..], 1) == 0 && rs[1..] == LEFT_OVER;
    assert rs[..1] == [R(1, 1)] && [R(1, 1)][..0] == [];
    assert LastSaved(rs[..1]) == (1, 1) && LastSnap(rs[..1]) == 0;
    hide Pointers;
  }

  const ELECTED_ALONE: Loop :=
    PERSISTED.(role := Leader, term := 2, vote := 1, messages := true, early := true,
               node := PERSISTED.node.(log := PERSISTED.node.log.(entries := [E(1, 1), E(2, 2)])))

  lemma WonAlone()
    ensures Acts(INTENDED, PERSISTED, Alone(1, E(2, 2)), ELECTED_ALONE)
  {
    assert [E(1, 1)][..1] + [E(2, 2)] == [E(1, 1), E(2, 2)];
  }

  lemma WholeRun()
    ensures Reaches(INTENDED, NOTHING, REWRITTEN, 12, ELECTED_ALONE)
  {
    hide Reaches, Acts, Holding, One, R;
    IsThreeRounds();
    ThreeRounds(REWRITTEN);
    FirstStored();
    Reported();
    WonAlone();
    Moves(INTENDED, NOTHING, REWRITTEN, 9, ALL_SHOWN, ALL_SHOWN.(stored := 1));
    Moves(INTENDED, NOTHING, REWRITTEN, 10, ALL_SHOWN.(stored := 1), PERSISTED);
    Moves(INTENDED, NOTHING, REWRITTEN, 11, PERSISTED, ELECTED_ALONE);
  }

  lemma LastReady()
    ensures Fails(INTENDED, ELECTED_ALONE, TakeReady(None))
  {
    assert LEFT_OVER[0].lastEntry != None;
  }

  /**
    A sole voter wins at once, with its log persisted as its assertion wants, while records of entries it
    has replaced are still waiting: its first `Ready` as a leader fails the drain assertion.
   */
  lemma SoleVoterStopsInReady()
    ensures Reaches(INTENDED, NOTHING, REWRITTEN, 12, ELECTED_ALONE) && Fails(INTENDED, ELECTED_ALONE, TakeReady(None))
  {
    WholeRun();
    LastReady();
  }

  // --------------------------------- an election before the Ready is reported

  /** A follower takes an entry, campaigns, and stores the Ready with both. */
  const UNREPORTED: seq<Act> := [
    Take(MaybeAppendOp(0, 0, 0, [E(1, 1)])), Campaign(1), TakeReady(None), AdvanceAsync, Store(1)]

  const U1: Loop := Holding(One(1, false), 0, [], false, true)
  const U2: Loop := U1.(role := Candidate, term := 2, vote := 1, campaign := 1, messages := true)
  const U3: Loop := U2.(node := Node(One(1, false), 0, 1, [R(1, 1)], true), messages := false, readyRole := Candidate, readyHard := SECOND)
  const U4: Loop := U3.(node := Node(One(1, true), 0, 1, [R(1, 1)], false), prevRole := Candidate, prevHard := SECOND, covered := false)
  const U5: Loop := U4.(stored := 1)

  lemma EarlyTake()
    ensures Acts(INTENDED, Holding(NOTHING, 0, [], false, true), UNREPORTED[0], U1)
  {
    hide Acts;
    Written(NOTHING, 0, [], 1, true);
  }

  lemma EarlyCampaign()
    ensures Acts(INTENDED, U1, UNREPORTED[1], U2)
  {
    OneOK(1, false);
    hide Pointers;
  }

  lemma ReadyAct(s: Loop, n: Node)
    requires NodeOK(s.node) && s.node.log.first >= 1 && !s.node.outstanding && s.role == Candidate
    requires Ready(s.node, false, None) == Next((n, []))
    ensures Acts(INTENDED, s, TakeReady(None),
                 s.(node := n, readyRole := s.role, readyHard := CurrentHard(s), messages := false))
  {
    hide Ready, Pointers;
  }

  lemma EarlyReady()
    ensures Acts(INTENDED, U2, UNREPORTED[2], U3)
  {
    hide Acts, Ready, Pointers;
    OneOK(1, false);
    ShowsOne(One(1, false), 0, [], 1);
    var none: seq<Record> := [];
    assert none + [R(1, 1)] == [R(1, 1)];
    ReadyAct(U2, U3.node);
  }

  lemma EarlyAsync()
    ensures Acts(INTENDED, U3, UNREPORTED[3], U4) && Acts(INTENDED, U4, UNREPORTED[4], U5)
  {
    OneOK(1, false);
    OneOK(1, true);
    hide Pointers;
  }

  lemma EarlyRun()
    ensures Reaches(INTENDED, NOTHING, UNREPORTED, 5, U5)
  {
    hide Reaches, Acts, Holding, One, R;
    StartOfRun(UNREPORTED);
    EarlyTake();
    EarlyCampaign();
    EarlyReady();
    EarlyAsync();
    Moves(INTENDED, NOTHING, UNREPORTED, 0, Holding(NOTHING, 0, [], false, true), U1);
    Moves(INTENDED, NOTHING, UNREPORTED, 1, U1, U2);
    Moves(INTENDED, NOTHING, UNREPORTED, 2, U2, U3);
    Moves(INTENDED, NOTHING, UNREPORTED, 3, U3, U4);
    Moves(INTENDED, NOTHING, UNREPORTED, 4, U4, U5);
  }

  lemma EarlyFails()
    ensures Fails(INTENDED, U5, Elected(E(2, 2)))
  {
    OneOK(1, true);
    hide Pointers;
  }

  /**
    The Ready of a campaign is stored and its requests answered before it is reported as persisted: the
    election fails the assertion of `become_leader`, with both guards as documented.
   */
  lemma UnreportedStopsLeader()
    ensures Reaches(INTENDED, NOTHING, UNREPORTED, 5, U5) && Fails(INTENDED, U5, Elected(E(2, 2)))
  {
    EarlyRun();
    EarlyFails();
  }
}
