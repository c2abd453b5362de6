/** Adding entries to an append message that is still waiting to be sent. */
module Batching {
  import opened Common
  import opened LogSpec

  datatype Message =
    | App(to: nat, index: nat, logTerm: nat, entries: seq<Entry>, commit: nat)
    | Other(to: nat)

  /** The entries of the message go on with `ents`; always, if either is empty. */
  predicate IsContinuousEnts(m: Message, ents: seq<Entry>)
    requires m.App?
  {
    m.entries != [] && ents != [] ==> m.entries[|m.entries| - 1].index + 1 == ents[0].index
  }

  /** Whether the guard lets `ents` join the message; as written it is the other way round. */
  predicate Joins(intended: bool, m: Message, ents: seq<Entry>)
    requires m.App?
  {
    ents == [] || IsContinuousEnts(m, ents) == intended
  }

  function Extended(m: Message, ents: seq<Entry>, committed: nat): Message
    requires m.App?
  {
    m.(entries := m.entries + ents, commit := committed)
  }

  /** The position of the first append message for `to`, the number of messages if there is none. */
  function FirstFor(msgs: seq<Message>, to: nat): (k: nat)
    ensures k <= |msgs|
    ensures forall i :: 0 <= i < k ==> !(msgs[i].App? && msgs[i].to == to)
    ensures k < |msgs| ==> msgs[k].App? && msgs[k].to == to
  {
    if msgs == [] || (msgs[0].App? && msgs[0].to == to) then 0 else 1 + FirstFor(msgs[1..], to)
  }

  lemma {:induction false} FirstForIs(msgs: seq<Message>, to: nat, k: nat)
    requires k <= |msgs| && forall i :: 0 <= i < k ==> !(msgs[i].App? && msgs[i].to == to)
    requires k < |msgs| ==> msgs[k].App? && msgs[k].to == to
    ensures FirstFor(msgs, to) == k
  {
    if msgs != [] && k > 0 {
      assert !(msgs[0].App? && msgs[0].to == to);
      FirstForIs(msgs[1..], to, k - 1);
    }
  }

  /**
    `try_batching`: the first waiting append for the receiver takes the entries, if the guard lets it, and
    the present commit index. `sent` is the last index sent, by which the receiver's progress moves.
   */
  method TryBatching(intended: bool, to: nat, msgs: array<Message>, ents: seq<Entry>, committed: nat)
      returns (batched: bool, sent: Option<nat>)
    modifies msgs
    ensures var k := FirstFor(old(msgs[..]), to);
            && (batched <==> k < msgs.Length && Joins(intended, old(msgs[..])[k], ents))
            && msgs[..] == (if batched then old(msgs[..])[k := Extended(old(msgs[..])[k], ents, committed)] else old(msgs[..]))
            && sent == if batched && ents != [] then Some(ents[|ents| - 1].index) else None
  {
    ghost var before := msgs[..];
    for i := 0 to msgs.Length
      invariant msgs[..] == before
      invariant forall j :: 0 <= j < i ==> !(before[j].App? && before[j].to == to)
    {
      if msgs[i].App? && msgs[i].to == to {
        FirstForIs(before, to, i);
        sent := None;
        if ents != [] {
          if IsContinuousEnts(msgs[i], ents) != intended {
            return false, None;
          }
          msgs[i] := msgs[i].(entries := msgs[i].entries + ents);
          sent := Some(msgs[i].entries[|msgs[i].entries| - 1].index);
        }
        msgs[i] := msgs[i].(commit := committed);
        assert msgs[i] == Extended(before[i], ents, committed) by {
          assert before[i].entries + [] == before[i].entries;
        }
        return true, sent;
      }
    }
    FirstForIs(before, to, |before|);
    return false, None;
  }

  // -------------------------------------------------------------- meaning

  /** The entries are those of the log right after the index the message is anchored at. */
  predicate IsStretch(log: seq<Entry>, m: Message)
    requires m.App?
  {
    m.index + |m.entries| <= |log| && m.entries == log[m.index..m.index + |m.entries|]
  }

  lemma Concatenated(log: seq<Entry>, a: nat, b: nat, c: nat)
    requires a <= b <= c <= |log|
    ensures log[a..b] + log[b..c] == log[a..c]
  {
  }

  lemma StretchIndex(log: seq<Entry>, m: Message, j: nat)
    requires Continuous(log, 1) && m.App? && IsStretch(log, m) && j < |m.entries|
    ensures m.entries[j].index == m.index + j + 1
  {
    assert m.entries[j] == log[m.index + j];
  }

  /** A message of the log stays one exactly if what joins it starts where it ends. */
  lemma ExtendedIsStretch(log: seq<Entry>, m: Message, n: nat, ents: seq<Entry>, committed: nat)
    requires Continuous(log, 1) && m.App? && IsStretch(log, m)
    requires ents != [] && n + |ents| <= |log| && ents == log[n..n + |ents|]
    ensures IsStretch(log, Extended(m, ents, committed)) <==> n == m.index + |m.entries|
  {
    var end := m.index + |m.entries|;
    var e := Extended(m, ents, committed);
    assert ents[0] == log[n] && e.entries[|m.entries|] == ents[0];
    if n == end {
      Concatenated(log, m.index, end, end + |ents|);
    }
    if IsStretch(log, e) {
      StretchIndex(log, e, |m.entries|);
    }
  }

  /**
    With the intended guard a waiting message that takes the entries from the receiver's next index on, `n`
    of them before it, is still a stretch of the leader's log, except that an empty message takes any
    entries: it is one exactly if it carried entries already or is anchored right before the next index.
    With the guard as written whatever joins a message tears it: exactly the entries that do not follow join.
   */
  lemma BatchIsStretch(intended: bool, log: seq<Entry>, m: Message, n: nat, ents: seq<Entry>, committed: nat)
    requires Continuous(log, 1) && m.App? && IsStretch(log, m)
    requires ents != [] && n + |ents| <= |log| && ents == log[n..n + |ents|]
    requires Joins(intended, m, ents)
    ensures IsStretch(log, Extended(m, ents, committed)) <==> intended && (m.entries != [] || n == m.index)
  {
    ExtendedIsStretch(log, m, n, ents, committed);
    assert ents[0] == log[n];
    if m.entries != [] {
      assert m.entries[|m.entries| - 1] == log[m.index + |m.entries| - 1];
    }
  }

  /** With the intended guard exactly what follows the message's entries may join it, or anything if it has none; as written exactly the rest. */
  lemma JoinsExactly(log: seq<Entry>, m: Message, n: nat, ents: seq<Entry>)
    requires Continuous(log, 1) && m.App? && IsStretch(log, m)
    requires ents != [] && n + |ents| <= |log| && ents == log[n..n + |ents|]
    ensures Joins(true, m, ents) <==> m.entries == [] || n == m.index + |m.entries|
    ensures Joins(false, m, ents) <==> !Joins(true, m, ents)
  {
    assert ents[0] == log[n];
    if m.entries != [] {
      assert m.entries[|m.entries| - 1] == log[m.index + |m.entries| - 1];
    }
  }

  /** Two entries wait for a follower; its next index is set back to 1 and the message takes the first entry again. */
  lemma WrittenTears()
    ensures var a, b := Entry(1, 1, "", "", 0), Entry(2, 1, "", "", 0);
            var m := App(2, 0, 0, [a, b], 0);
            && IsStretch([a, b], m) && Joins(false, m, [a])
            && Extended(m, [a], 0).entries == [a, b, a] && !Continuous([a, b, a], 1)
  {
    var a, b := Entry(1, 1, "", "", 0), Entry(2, 1, "", "", 0);
    assert [a, b, a][2].index == 1;
  }

  /**
    With the intended guard: an empty message, anchored at the end of a log of two entries, waits for a
    follower; its next index is set back to 1 before it leaves, and the message takes the first entry, which
    now seems to follow the second.
   */
  method IntendedTears() returns (m: Message)
    ensures var a, b := Entry(1, 1, "", "", 0), Entry(2, 1, "", "", 0);
            && IsStretch([a, b], App(2, 2, 1, [], 0))
            && m == App(2, 2, 1, [a], 0) && !IsStretch([a, b], m)
  {
    var a := Entry(1, 1, "", "", 0);
    var msgs := new Message[][App(2, 2, 1, [], 0)];
    assert msgs[..] == [App(2, 2, 1, [], 0)];
    FirstForIs(msgs[..], 2, 0);
    var batched, sent := TryBatching(true, 2, msgs, [a], 0);
    m := msgs[..][0];
    var none: seq<Entry> := [];
    assert none + [a] == [a];
  }
}
