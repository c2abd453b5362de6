/** The cluster model's log and the two-layer log agree on every append to an uncompacted log. */
module LogBridge {
  import opened Common
  import R = Raft
  import L = LogSpec

  /** An entry as the cluster model sees it: its index is its position. */
  function Flat(e: L.Entry, conf: L.Entry -> bool): R.Entry {
    R.Entry(e.term, conf(e), e.data)
  }

  function Flattened(es: seq<L.Entry>, conf: L.Entry -> bool): R.Log {
    seq(|es|, i requires 0 <= i < |es| => Flat(es[i], conf))
  }

  ghost predicate Uncompacted(l: L.Log) {
    L.Pointers(l) && l.first == 1 && !l.pending
  }

  lemma TermsAgree(l: L.Log, conf: L.Entry -> bool, i: nat)
    requires Uncompacted(l)
    ensures L.Term(l, i) == Some(R.TermAt(Flattened(l.entries, conf), i))
  {
  }

  lemma {:induction false} ConflictsAgree(documented: bool, l: L.Log, conf: L.Entry -> bool, idx: nat, ents: seq<L.Entry>)
    requires Uncompacted(l) && L.Continuous(ents, idx + 1)
    ensures L.FindConflict(documented, l, ents) ==
            R.FindConflict(documented, Flattened(l.entries, conf), idx, Flattened(ents, conf))
    decreases |ents|
  {
    if ents != [] {
      TermsAgree(l, conf, idx + 1);
      assert L.Continuous(ents[1..], idx + 2);
      assert Flattened(ents, conf)[1..] == Flattened(ents[1..], conf);
      ConflictsAgree(documented, l, conf, idx + 1, ents[1..]);
    }
  }

  lemma SplicesAgree(l: L.Log, conf: L.Entry -> bool, conflict: nat, idx: nat, ents: seq<L.Entry>)
    requires Uncompacted(l) && L.Continuous(ents, idx + 1) && idx < conflict <= idx + |ents| && conflict <= |l.entries| + 1
    ensures ents[conflict - (idx + 1)..] != [] && ents[conflict - (idx + 1)..][0].index == conflict
    ensures Flattened(L.Spliced(l, ents[conflict - (idx + 1)..]).entries, conf) ==
            Flattened(l.entries, conf)[..conflict - 1] + Flattened(ents, conf)[conflict - (idx + 1)..]
  {
  }

  lemma MergesAgree(rd: L.Reading, l: L.Log, conf: L.Entry -> bool, idx: nat, ents: seq<L.Entry>)
    requires Uncompacted(l) && L.Continuous(ents, idx + 1)
    ensures R.MergedLog(Flattened(l.entries, conf), l.committed, idx, Flattened(ents, conf), L.FindConflict(rd.findConflict, l, ents)) ==
            match L.MergedIfNeeded(rd, l, idx, ents) case Panic => None case Next(m) => Some(Flattened(m.entries, conf))
  {
    L.ConflictIndex(rd.findConflict, l, ents, idx + 1);
    var c := L.FindConflict(rd.findConflict, l, ents);
    if c != 0 {
      MergesAgreeAt(rd, l, conf, idx, ents, c);
    }
    hide L.Merged, L.FindConflict, L.WellFormed, L.Continuous, Flattened, R.MergedLog;
  }

  lemma MergesAgreeAt(rd: L.Reading, l: L.Log, conf: L.Entry -> bool, idx: nat, ents: seq<L.Entry>, c: nat)
    requires Uncompacted(l) && L.Continuous(ents, idx + 1) && idx < c <= idx + |ents|
    ensures ents[c - (idx + 1)..] != [] && ents[c - (idx + 1)..][0].index == c
    ensures R.MergedLog(Flattened(l.entries, conf), l.committed, idx, Flattened(ents, conf), c) ==
            match L.Merged(rd, l, c, ents[c - (idx + 1)..]) case Panic => None case Next(m) => Some(Flattened(m.entries, conf))
  {
    assert |Flattened(ents, conf)| == |ents| && |Flattened(l.entries, conf)| == |l.entries|;
    var tail := ents[c - (idx + 1)..];
    assert tail[0].index == c;
    MergedIs(rd, l, c, tail);
    if l.committed < c <= |l.entries| + 1 {
      SplicesAgree(l, conf, c, idx, ents);
    }
    hide L.Merged, L.Spliced, L.WellFormed, L.Continuous, Flattened;
  }

  lemma MergedIs(rd: L.Reading, l: L.Log, c: nat, tail: seq<L.Entry>)
    requires Uncompacted(l) && c >= 1 && tail != [] && tail[0].index == c
    ensures L.Merged(rd, l, c, tail).Panic? <==> c <= l.committed || c > |l.entries| + 1
    ensures L.Merged(rd, l, c, tail).Next? ==>
              L.Merged(rd, l, c, tail).value.committed == l.committed
              && L.Merged(rd, l, c, tail).value.entries == L.Spliced(l, tail).entries
  {
  }

  lemma LengthsAgree(rd: L.Reading, l: L.Log, conf: L.Entry -> bool, idx: nat, ents: seq<L.Entry>)
    requires Uncompacted(l) && L.Continuous(ents, idx + 1)
    ensures L.MergedIfNeeded(rd, l, idx, ents).Next? ==>
              var m := L.MergedIfNeeded(rd, l, idx, ents).value;
              m.first == 1 && m.committed == l.committed && L.Last(m) == |Flattened(m.entries, conf)|
  {
    hide L.FindConflict;
  }

  /** What became of an append, seen flat. */
  function Seen(r: L.Outcome<(L.Log, L.Appended)>, conf: L.Entry -> bool): R.Append {
    match r
    case Panic => R.Fatal
    case Next((m, Rejected)) => R.Rejected
    case Next((m, Accepted(_, last))) => R.Appended(Flattened(m.entries, conf), m.committed, last)
  }

  lemma LayeredAppendIs(rd: L.Reading, l: L.Log, conf: L.Entry -> bool, idx: nat, term: nat, commit: nat, ents: seq<L.Entry>)
    requires Uncompacted(l) && L.Continuous(ents, idx + 1)
    ensures Seen(L.MaybeAppend(rd, l, idx, term, commit, ents), conf) ==
            if L.Term(l, idx) != Some(term) then R.Rejected
            else
              match L.MergedIfNeeded(rd, l, idx, ents)
              case Panic => R.Fatal
              case Next(m) => R.Committing(Flattened(m.entries, conf), m.committed, Min(commit, idx + |ents|), idx + |ents|)
  {
    LengthsAgree(rd, l, conf, idx, ents);
    L.ConflictIndex(rd.findConflict, l, ents, idx + 1);
    hide L.FindConflict, L.Term, L.MergedIfNeeded, Flattened;
  }

  lemma FlatSettled(documented: bool, l: L.Log, conf: L.Entry -> bool, idx: nat, term: nat, commit: nat, ents: seq<L.Entry>)
    requires Uncompacted(l) && L.Continuous(ents, idx + 1)
    ensures R.MaybeAppend(documented, Flattened(l.entries, conf), l.committed, idx, term, Flattened(ents, conf), commit) ==
            R.Settled(L.Term(l, idx) == Some(term),
                    R.MergedLog(Flattened(l.entries, conf), l.committed, idx, Flattened(ents, conf), L.FindConflict(documented, l, ents)),
                    l.committed, Min(commit, idx + |ents|), idx + |ents|)
  {
    hide R.MaybeAppend, R.FindConflict, R.TermAt, L.FindConflict, L.Term, L.WellFormed, L.Continuous, L.Pointers, R.MergedLog, R.Settled;
    assert |Flattened(ents, conf)| == |ents|;
    hide Flattened;
    TermsAgree(l, conf, idx);
    ConflictsAgree(documented, l, conf, idx, ents);
    var f, g, c := Flattened(l.entries, conf), Flattened(ents, conf), L.FindConflict(documented, l, ents);
    R.AppendSteps(documented, f, l.committed, idx, term, g, commit, c);
  }

  lemma LayeredSettled(rd: L.Reading, l: L.Log, conf: L.Entry -> bool, idx: nat, term: nat, commit: nat, ents: seq<L.Entry>)
    requires Uncompacted(l) && L.Continuous(ents, idx + 1)
    ensures Seen(L.MaybeAppend(rd, l, idx, term, commit, ents), conf) ==
            R.Settled(L.Term(l, idx) == Some(term),
                    match L.MergedIfNeeded(rd, l, idx, ents) case Panic => None case Next(m) => Some(Flattened(m.entries, conf)),
                    l.committed, Min(commit, idx + |ents|), idx + |ents|)
  {
    LayeredAppendIs(rd, l, conf, idx, term, commit, ents);
    LengthsAgree(rd, l, conf, idx, ents);
    hide L.MaybeAppend, L.MergedIfNeeded, L.Term, R.Committing, Flattened, Seen, L.WellFormed, L.Continuous;
  }

  /** `maybe_append` has the same outcome, log and committed index in both models. */
  lemma AppendsAgree(rd: L.Reading, l: L.Log, conf: L.Entry -> bool, idx: nat, term: nat, commit: nat, ents: seq<L.Entry>)
    requires Uncompacted(l) && L.Continuous(ents, idx + 1)
    ensures Seen(L.MaybeAppend(rd, l, idx, term, commit, ents), conf) ==
            R.MaybeAppend(rd.findConflict, Flattened(l.entries, conf), l.committed, idx, term, Flattened(ents, conf), commit)
  {
    MergesAgree(rd, l, conf, idx, ents);
    FlatSettled(rd.findConflict, l, conf, idx, term, commit, ents);
    LayeredSettled(rd, l, conf, idx, term, commit, ents);
    hide *;
  }
}
