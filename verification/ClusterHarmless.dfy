/**
  When `find_conflict` as written does no harm. It differs from the documented search on exactly one kind
  of append: one whose entries the follower holds already, with more of its log behind them, which it then
  drops. A run without such a delivery is the documented run, event by event, and as safe.
 */
module ClusterHarmless {
  import opened Common
  import opened Quorum
  import opened Raft
  import opened Cluster
  import opened ClusterBase
  import opened ClusterStored
  import opened ClusterSteps
  import opened ClusterEvents
  import opened ClusterHidden
  import opened ClusterRuns
  import opened ClusterSafety
  import opened ClusterSafetySteps
  import opened ClusterSafetyEvents
  import opened ClusterSafetyRuns
  import opened ClusterWritten

  // ----------------------------------------------------------- one append

  /** There is nothing to append, or some entry is new, or the log ends with the entries. */
  predicate Harmless(log: Log, index: nat, ents: Log) {
    ents == [] || FirstConflict(log, index, ents) != 0 || |log| <= index + |ents|
  }

  /** Entries have terms, and where their terms are those of the log they are its entries. */
  predicate Agreeing(log: Log, index: nat, ents: Log) {
    forall j :: 0 <= j < |ents| ==> AgreeingAt(log, index, ents, j)
  }

  predicate AgreeingAt(log: Log, index: nat, ents: Log, j: nat)
    requires j < |ents|
  {
    ents[j].term > 0 && (index + j < |log| && log[index + j].term == ents[j].term ==> log[index + j] == ents[j])
  }

  lemma HeldAt(log: Log, index: nat, ents: Log, j: nat)
    requires Agreeing(log, index, ents) && j < |ents|
    requires var c := FirstConflict(log, index, ents); c == 0 || index + j + 1 < c
    ensures index + j < |log| && log[index + j] == ents[j]
  {
    assert AgreeingAt(log, index, ents, j);
    BeforeConflict(log, index, ents, index + j + 1);
  }

  /** Below the first conflict the entries are those of the log. */
  lemma HeldBefore(log: Log, index: nat, ents: Log, k: nat)
    requires Agreeing(log, index, ents) && 0 < k <= |ents|
    requires var c := FirstConflict(log, index, ents); c == 0 || index + k < c
    ensures index + k <= |log| && log[index..index + k] == ents[..k]
  {
    hide Agreeing, FirstConflict;
    HeldAt(log, index, ents, k - 1);
    forall j | 0 <= j < k
      ensures log[index..index + k][j] == ents[..k][j]
    {
      HeldAt(log, index, ents, j);
    }
  }

  /** Replacing the log from the anchor on gives the same as replacing it from the conflict on. */
  lemma SplicedFromAnchor(log: Log, index: nat, ents: Log, c: nat)
    requires index < c <= index + |ents| && index <= c - 1 <= |log| && log[index..c - 1] == ents[..c - 1 - index]
    ensures log[..index] + ents == log[..c - 1] + ents[c - (index + 1)..]
  {
    assert log[..c - 1] == log[..index] + log[index..c - 1];
    assert ents == ents[..c - 1 - index] + ents[c - (index + 1)..];
  }

  function Merged(documented: bool, log: Log, committed: nat, index: nat, ents: Log): Option<Log> {
    MergedLog(log, committed, index, ents, FindConflict(documented, log, index, ents))
  }

  /** The two merges agree exactly on the harmless appends. */
  lemma MergesAgreeExactly(log: Log, committed: nat, index: nat, ents: Log)
    requires committed <= index && Agreeing(log, index, ents) && (index <= |log| || ents == [])
    ensures Merged(false, log, committed, index, ents) == Merged(true, log, committed, index, ents)
            <==> Harmless(log, index, ents)
  {
    if ents != [] {
      var c := FirstConflict(log, index, ents);
      assert ents[0..] == ents;
      if c == 0 {
        HeldBefore(log, index, ents, |ents|);
        assert log[index..index + |ents|] == ents;
        if |log| <= index + |ents| {
          assert log[..index] + ents == log;
        } else {
          assert |log[..index] + ents| != |log|;
        }
      } else {
        if c - 1 == index {
          assert log[index..index] == ents[..0];
        } else {
          HeldBefore(log, index, ents, c - 1 - index);
        }
        SplicedFromAnchor(log, index, ents, c);
      }
    }
  }

  /** An append that is not harmless drops what follows its entries. */
  lemma MergedTwice(log: Log, committed: nat, index: nat, ents: Log, to: nat, last: nat)
    requires committed <= index && to <= index + |ents| && !Harmless(log, index, ents)
    ensures Settled(true, Merged(false, log, committed, index, ents), committed, to, last) !=
            Settled(true, Merged(true, log, committed, index, ents), committed, to, last)
  {
    hide FirstConflict;
    assert |log[..index] + ents| < |log|;
  }

  /** Beyond the end of the log every entry is a conflict, and both readings see it. */
  lemma MergedBeyond(log: Log, committed: nat, index: nat, ents: Log)
    requires Agreeing(log, index, ents) && index > |log| && ents != []
    ensures Harmless(log, index, ents) && Merged(false, log, committed, index, ents) == Merged(true, log, committed, index, ents)
  {
    assert AgreeingAt(log, index, ents, 0);
    assert FirstConflict(log, index, ents) == index + 1;
  }

  /** And so do the two appends, once the anchor matches. */
  lemma AppendsAgreeExactly(log: Log, committed: nat, index: nat, logTerm: nat, ents: Log, commit: nat)
    requires committed <= index && Agreeing(log, index, ents)
    ensures MaybeAppend(false, log, committed, index, logTerm, ents, commit) == MaybeAppend(true, log, committed, index, logTerm, ents, commit)
            <==> TermAt(log, index) != logTerm || Harmless(log, index, ents)
  {
    hide MaybeAppend, TermAt, Harmless, Agreeing, Committing, MergedLog, FindConflict;
    AppendSteps(false, log, committed, index, logTerm, ents, commit, FindConflict(false, log, index, ents));
    AppendSteps(true, log, committed, index, logTerm, ents, commit, FindConflict(true, log, index, ents));
    if index <= |log| || ents == [] {
      MergesAgreeExactly(log, committed, index, ents);
      if !Harmless(log, index, ents) {
        MergedTwice(log, committed, index, ents, Min(commit, index + |ents|), index + |ents|);
      }
    } else {
      MergedBeyond(log, committed, index, ents);
    }
  }

  // ------------------------------------------------------------- one step

  /** The entries of an append message agree with any log of the cluster in this sense. */
  lemma MessageAgrees(cfg: Settings, h: History, log: Log, m: Message)
    requires HistoryOK(cfg, h) && LogOK(h, log) && m.App? && MessageOK(h, m)
    ensures Agreeing(log, m.index, m.entries)
  {
    hide HistoryOK, LogOK;
    var r := h.reigns[m.term].log;
    ReignLogOK(cfg, h, m.term);
    AllPositive(cfg, h, r);
    forall j | 0 <= j < |m.entries|
      ensures AgreeingAt(log, m.index, m.entries, j)
    {
      assert m.entries[j] == r[m.index + j];
      var k := m.index + j + 1;
      if k <= |log| && log[k - 1].term == r[k - 1].term {
        SamePrefix(h, log, r, k);
        assert log[..k][k - 1] == r[..k][k - 1];
      }
    }
  }

  /** The message gets as far as the conflict search. */
  predicate Taken(n: Node, m: Message)
    requires m.App?
  {
    && m.term >= n.term && (m.term == n.term ==> n.role != Leader)
    && n.committed <= m.index && TermAt(n.log, m.index) == m.logTerm
  }

  /** The delivery with which the two readings part, as can be seen before it happens. */
  predicate Forgets(n: Node, m: Message) {
    m.App? && Taken(n, m) && !Harmless(n.log, m.index, m.entries)
  }

  function Reading(cfg: Settings, documented: bool): Settings {
    cfg.(documented := documented)
  }

  lemma HandlersAgreeExactly(cfg: Settings, id: nat, n: Node, m: Message)
    requires m.App? && n.role == Follower && Agreeing(n.log, m.index, m.entries)
    ensures Stored(HandleAppend(Reading(cfg, false), id, n, m)) == Stored(HandleAppend(Reading(cfg, true), id, n, m))
            <==> n.committed > m.index || TermAt(n.log, m.index) != m.logTerm || Harmless(n.log, m.index, m.entries)
  {
    hide MaybeAppend, FindConflict, FindConflictByTerm, ResetPersisted, TermAt, Harmless, Agreeing;
    if n.committed <= m.index {
      AppendsAgreeExactly(n.log, n.committed, m.index, m.logTerm, m.entries, m.commit);
      LastIndex(false, n.log, n.committed, m.index, m.logTerm, m.entries, m.commit);
      LastIndex(true, n.log, n.committed, m.index, m.logTerm, m.entries, m.commit);
    }
  }

  lemma LastIndex(documented: bool, log: Log, committed: nat, index: nat, logTerm: nat, ents: Log, commit: nat)
    ensures var a := MaybeAppend(documented, log, committed, index, logTerm, ents, commit);
            && (a.Rejected? <==> TermAt(log, index) != logTerm)
            && (a.Appended? ==> a.last == index + |ents|)
  {
    hide FindConflict, TermAt;
  }

  /** One step, with the state stored before the reply, is the same under both readings exactly if it forgets nothing. */
  lemma StepsAgreeExactly(cfg: Settings, h: History, id: nat, n: Node, m: Message)
    requires HistoryOK(cfg, h) && LogOK(h, n.log) && MessageOK(h, m)
    ensures Serve(Reading(cfg, false), id, n, m) == Serve(Reading(cfg, true), id, n, m) <==> !Forgets(n, m)
  {
    PositiveTerm(h, m);
    if m.App? {
      MessageAgrees(cfg, h, n.log, m);
      hide HistoryOK, NodeOK, MessageOK, Agreeing, Serve, Forgets;
      AppendStepsAgree(cfg, id, n, m);
    } else {
      OtherSteps(cfg, id, n, m);
    }
  }

  lemma AppendStepsAgree(cfg: Settings, id: nat, n: Node, m: Message)
    requires m.App? && m.term > 0 && Agreeing(n.log, m.index, m.entries)
    ensures Serve(Reading(cfg, false), id, n, m) == Serve(Reading(cfg, true), id, n, m) <==> !Forgets(n, m)
  {
    hide Harmless, Agreeing, TermAt, HandleAppend, Stored;
    var f := CatchUp(id, n, m);
    if m.term >= n.term && f.role != Leader {
      var g := if f.role == Candidate then BecomeFollower(id, f, m.term, m.from) else f.(leaderId := m.from);
      assert g.log == n.log && g.committed == n.committed;
      HandlersAgreeExactly(cfg, id, g, m);
    }
  }

  lemma CommitsAgree(cfg: Settings, n: Node)
    ensures LeaderCommit(Reading(cfg, false), n) == LeaderCommit(Reading(cfg, true), n)
  {
    SameAckMap(cfg, n);
    hide AckMap, JointIndex, MaybeCommit;
  }

  lemma SameAckMap(cfg: Settings, n: Node)
    ensures AckMap(Reading(cfg, false), n) == AckMap(Reading(cfg, true), n)
  {
    assert Voters(Reading(cfg, false)) == Voters(Reading(cfg, true));
  }

  lemma VotesAgree(cfg: Settings, id: nat, n: Node, m: Message)
    requires m.Vote?
    ensures HandleVote(Reading(cfg, false), id, n, m) == HandleVote(Reading(cfg, true), id, n, m)
  {
    hide UpToDate, CommitByVote;
  }

  lemma ResponsesAgree(cfg: Settings, id: nat, n: Node, m: Message)
    ensures m.AppResp? ==> HandleAppendResponse(Reading(cfg, false), n, m) == HandleAppendResponse(Reading(cfg, true), n, m)
    ensures m.VoteResp? ==> HandleVoteResponse(Reading(cfg, false), id, n, m) == HandleVoteResponse(Reading(cfg, true), id, n, m)
  {
    hide LeaderCommit, CommitByVote, JointVote, BecomeLeader;
    if m.AppResp? {
      CommitsAgree(cfg, n.(matched := n.matched[m.from := m.index]));
    }
  }

  /** Only appends search for a conflict. */
  lemma OtherSteps(cfg: Settings, id: nat, n: Node, m: Message)
    requires !m.App?
    ensures Step(Reading(cfg, false), id, n, m) == Step(Reading(cfg, true), id, n, m)
  {
    hide HandleVote, HandleAppend, HandleAppendResponse, HandleVoteResponse, HandleHeartbeat, CatchUp, MaybeCommit;
    var c := if m.term == 0 then n else CatchUp(id, n, m);
    if m.Vote? {
      VotesAgree(cfg, id, c, m);
    }
    ResponsesAgree(cfg, id, c, m);
  }

  // -------------------------------------------------------------- one event

  /** The event is a delivery that forgets. */
  predicate ForgetsAt(s: State, e: Event) {
    e.Deliver? && Enabled(s, e) && Forgets(s.nodes[e.m.to], e.m)
  }

  lemma RequestsAgree(cfg: Settings, id: nat, c: Node, pre: bool)
    ensures VoteRequests(Reading(cfg, false), id, c, pre) == VoteRequests(Reading(cfg, true), id, c, pre)
  {
    assert Voters(Reading(cfg, false)) == Voters(Reading(cfg, true));
    assert Priority(Reading(cfg, false), id) == Priority(Reading(cfg, true), id);
    hide Voters, Priority;
    var w, d := VoteRequests(Reading(cfg, false), id, c, pre), VoteRequests(Reading(cfg, true), id, c, pre);
    forall m ensures m in w <==> m in d {}
  }

  lemma CampaignsAgree(cfg: Settings, id: nat, n: Node)
    ensures Campaign(Reading(cfg, false), id, n) == Campaign(Reading(cfg, true), id, n)
  {
    hide JointVote, BecomeLeader, BecomeCandidate;
  }

  lemma PersistsAgree(cfg: Settings, id: nat, n: Node, upTo: nat)
    ensures OnPersist(Reading(cfg, false), id, n, upTo) == OnPersist(Reading(cfg, true), id, n, upTo)
  {
    hide LeaderCommit;
    CommitsAgree(cfg, n.(persisted := upTo, saved := HardState(n.term, n.vote), matched := n.matched[id := upTo]));
  }

  lemma ForgottenAppend(log: Log, committed: nat, index: nat, logTerm: nat, ents: Log, commit: nat)
    requires committed <= index && TermAt(log, index) == logTerm && !Harmless(log, index, ents)
    ensures var w, d := MaybeAppend(false, log, committed, index, logTerm, ents, commit), MaybeAppend(true, log, committed, index, logTerm, ents, commit);
            w.Appended? && d.Appended? && |w.log| < |d.log| && d.log == log
  {
    hide FirstConflict, TermAt;
    assert |log[..index] + ents| == index + |ents|;
  }

  /** What is forgotten is missing from the log. */
  lemma ForgottenShows(cfg: Settings, id: nat, n: Node, m: Message)
    requires Forgets(n, m) && m.term > 0
    ensures var w, d := Serve(Reading(cfg, false), id, n, m), Serve(Reading(cfg, true), id, n, m);
            w.Next? && d.Next? && |w.node.log| < |d.node.log| && d.node.log == n.log
  {
    hide Harmless, TermAt, MaybeAppend, FindConflict, ResetPersisted;
    ForgottenAppend(n.log, n.committed, m.index, m.logTerm, m.entries, m.commit);
  }

  /** A history that knows the node a message reaches, and the message. */
  lemma KnownHandler(cfg: Settings, s: State, h: History, m: Message) returns (g: History)
    requires cfg.voters.incoming != {} && Full(cfg, s, h) && Enabled(s, Deliver(m))
    ensures HistoryOK(cfg, g) && LogOK(g, s.nodes[m.to].log) && MessageOK(g, m)
  {
    hide HistoryOK, NodeOK, MessageOK, Hidden, Backed, Reveal;
    var id := m.to;
    if Hidden(s.nodes[id]) {
      g := Reveal(h, id, s.nodes[id]);
      RevealKeeps(cfg, s, h, id);
      RevealedIs(cfg, s, h, id);
      OfficialOK(cfg, Put(s, id, Revealed(s.nodes[id])), g, id);
      PersistedBound(g, id, Revealed(s.nodes[id]));
      assert m in Public(Put(s, id, Revealed(s.nodes[id]))).msgs;
    } else {
      g := h;
      OfficialOK(cfg, s, h, id);
      PersistedBound(h, id, s.nodes[id]);
      assert m in Public(s).msgs;
    }
  }

  /** One event leads to the same state under both readings exactly if it forgets nothing. */
  lemma EventsAgreeExactly(cfg: Settings, s: State, h: History, e: Event)
    requires cfg.voters.incoming != {} && Full(cfg, s, h)
    ensures Apply(Reading(cfg, false), s, e) == Apply(Reading(cfg, true), s, e) <==> !ForgetsAt(s, e)
  {
    hide HistoryOK, LogOK, MessageOK, Full, Serve, Campaign, OnPersist, Forgets, VoteRequests, AppendMessage, Reboot, Image, Stamp;
    if Enabled(s, e) {
      match e
      case Deliver(m) =>
        var g := KnownHandler(cfg, s, h, m);
        StepsAgreeExactly(cfg, g, m.to, s.nodes[m.to], m);
        if Forgets(s.nodes[m.to], m) {
          PositiveTerm(g, m);
          ForgottenShows(cfg, m.to, s.nodes[m.to], m);
          assert Apply(Reading(cfg, false), s, e).nodes[m.to] != Apply(Reading(cfg, true), s, e).nodes[m.to];
        }
      case Hup(id, pre) =>
        CampaignsAgree(cfg, id, s.nodes[id]);
        var o := Campaign(Reading(cfg, true), id, s.nodes[id]);
        if o.Next? {
          RequestsAgree(cfg, id, o.node, pre);
        }
      case Persist(id, upTo) => PersistsAgree(cfg, id, s.nodes[id], upTo);
      case _ =>
    }
  }

  // ------------------------------------------------------------------ runs

  /** No delivery among the first `k` events forgets anything. */
  ghost predicate NothingForgotten(cfg: Settings, ids: set<nat>, es: seq<Event>, k: nat)
    requires k <= |es|
  {
    forall j :: 0 <= j < k ==> !ForgetsAt(After(cfg, ids, es, j), es[j])
  }

  lemma {:induction false} RunsAgree(cfg: Settings, ids: set<nat>, es: seq<Event>, k: nat)
    requires GoodCluster(cfg, ids) && k <= |es| && Discreet(Reading(cfg, false), ids, es, k) && NothingForgotten(Reading(cfg, false), ids, es, k)
    ensures After(Reading(cfg, false), ids, es, k) == After(Reading(cfg, true), ids, es, k)
  {
    hide Apply, Full, ForgetsAt, Chronicle, Leaks;
    if k > 0 {
      Sooner(Reading(cfg, false), ids, es, k - 1, k);
      RunsAgree(cfg, ids, es, k - 1);
      FullAlways(Reading(cfg, false), ids, es, k - 1);
      var s, h := After(Reading(cfg, false), ids, es, k - 1), HistoryAfter(Reading(cfg, false), ids, es, k - 1);
      EventsAgreeExactly(Reading(cfg, false), s, h, es[k - 1]);
    }
  }

  lemma ApartAfter(cfg: Settings, ids: set<nat>, es: seq<Event>, j: nat)
    requires GoodCluster(cfg, ids) && j < |es| && Discreet(Reading(cfg, false), ids, es, j) && ForgetsAt(After(Reading(cfg, false), ids, es, j), es[j])
    ensures After(Reading(cfg, false), ids, es, j) != After(Reading(cfg, true), ids, es, j)
         || After(Reading(cfg, false), ids, es, j + 1) != After(Reading(cfg, true), ids, es, j + 1)
  {
    hide Apply, Full, ForgetsAt, Chronicle, Leaks;
    FullAlways(Reading(cfg, false), ids, es, j);
    var s, h := After(Reading(cfg, false), ids, es, j), HistoryAfter(Reading(cfg, false), ids, es, j);
    EventsAgreeExactly(Reading(cfg, false), s, h, es[j]);
  }

  /**
    A run of the code as written is the documented run, state by state, exactly as long as no delivery
    forgets anything; whether one does can be seen from the follower's log and the message.
   */
  lemma RunsAgreeExactly(cfg: Settings, ids: set<nat>, es: seq<Event>, k: nat)
    requires GoodCluster(cfg, ids) && k <= |es| && Discreet(Reading(cfg, false), ids, es, k)
    ensures NothingForgotten(Reading(cfg, false), ids, es, k) <==>
            forall j :: 0 <= j <= k ==> After(Reading(cfg, false), ids, es, j) == After(Reading(cfg, true), ids, es, j)
  {
    hide After, ForgetsAt, Leaks;
    if NothingForgotten(Reading(cfg, false), ids, es, k) {
      forall j | 0 <= j <= k
        ensures After(Reading(cfg, false), ids, es, j) == After(Reading(cfg, true), ids, es, j)
      {
        Sooner(Reading(cfg, false), ids, es, j, k);
        RunsAgree(cfg, ids, es, j);
      }
    } else {
      var j :| 0 <= j < k && ForgetsAt(After(Reading(cfg, false), ids, es, j), es[j]);
      Sooner(Reading(cfg, false), ids, es, j, k);
      ApartAfter(cfg, ids, es, j);
    }
  }

  /** A run of the code as written that is the documented one. */
  ghost predicate SameRun(cfg: Settings, ids: set<nat>, es: seq<Event>, k: nat)
    requires k <= |es|
  {
    Discreet(Reading(cfg, false), ids, es, k) && NothingForgotten(Reading(cfg, false), ids, es, k)
  }

  lemma NodesAgree(cfg: Settings, ids: set<nat>, es: seq<Event>, j: nat, k: nat, a: nat)
    requires GoodCluster(cfg, ids) && j <= k <= |es| && a in ids && SameRun(cfg, ids, es, k)
    ensures NodeAfter(Reading(cfg, false), ids, es, j, a) == NodeAfter(Reading(cfg, true), ids, es, j, a)
  {
    hide Leaks, ForgetsAt;
    Sooner(Reading(cfg, false), ids, es, j, k);
    RunsAgree(cfg, ids, es, j);
    hide After;
  }

  /** The documented run is discreet as well. */
  lemma DiscreetAgrees(cfg: Settings, ids: set<nat>, es: seq<Event>, k: nat)
    requires GoodCluster(cfg, ids) && k <= |es| && SameRun(cfg, ids, es, k)
    ensures Discreet(Reading(cfg, true), ids, es, k)
  {
    hide Leaks, ForgetsAt, After;
    forall j | 0 <= j < k
      ensures !Leaks(After(Reading(cfg, true), ids, es, j), es[j])
    {
      Sooner(Reading(cfg, false), ids, es, j, k);
      RunsAgree(cfg, ids, es, j);
    }
  }

  /** State-machine safety of the code as written: it holds of every run in which nothing is forgotten. */
  lemma WrittenStateMachineSafety(cfg: Settings, ids: set<nat>, es: seq<Event>, j: nat, k: nat, a: nat, b: nat, i: nat)
    requires GoodCluster(cfg, ids) && j <= k <= |es| && a in ids && b in ids && SameRun(cfg, ids, es, k)
    requires i < NodeAfter(Reading(cfg, false), ids, es, j, a).committed && i < NodeAfter(Reading(cfg, false), ids, es, k, b).committed
    ensures var x, y := NodeAfter(Reading(cfg, false), ids, es, j, a).log, NodeAfter(Reading(cfg, false), ids, es, k, b).log;
            i < |x| && i < |y| && x[i] == y[i]
  {
    hide NodeAfter, SameRun;
    NodesAgree(cfg, ids, es, j, k, a);
    NodesAgree(cfg, ids, es, k, k, b);
    DiscreetAgrees(cfg, ids, es, k);
    StateMachineSafety(Reading(cfg, true), ids, es, j, k, a, b, i);
  }

  /** And so does leader completeness. */
  lemma WrittenLeaderCompleteness(cfg: Settings, ids: set<nat>, es: seq<Event>, j: nat, k: nat, a: nat, b: nat)
    requires GoodCluster(cfg, ids) && j <= |es| && k <= |es| && a in ids && b in ids
    requires SameRun(cfg, ids, es, if j <= k then k else j)
    requires var x, y := NodeAfter(Reading(cfg, false), ids, es, j, a), NodeAfter(Reading(cfg, false), ids, es, k, b);
             && x.role == Leader && y.role == Leader && x.term < y.term
             && x.committed > 0 && TermAt(x.log, x.committed) == x.term
             && (j <= k || y.saved.term == y.term)
    ensures var x, y := NodeAfter(Reading(cfg, false), ids, es, j, a), NodeAfter(Reading(cfg, false), ids, es, k, b);
            AgreesUpTo(x.log, y.log, x.committed)
  {
    hide NodeAfter, SameRun;
    NodesAgree(cfg, ids, es, j, if j <= k then k else j, a);
    NodesAgree(cfg, ids, es, k, if j <= k then k else j, b);
    DiscreetAgrees(cfg, ids, es, if j <= k then k else j);
    LeaderCompleteness(Reading(cfg, true), ids, es, j, k, a, b);
  }

  /** A forgetting delivery itself stops nobody, so up to and including it the exception is the documented one. */
  lemma WrittenNeverPanics(cfg: Settings, ids: set<nat>, es: seq<Event>, k: nat, m: Message)
    requires GoodCluster(cfg, ids) && k <= |es| && SameRun(cfg, ids, es, k)
    requires Enabled(After(Reading(cfg, false), ids, es, k), Deliver(m))
    ensures var n := After(Reading(cfg, false), ids, es, k).nodes[m.to];
            Step(Reading(cfg, false), m.to, n, m).Panic? <==> m.Vote? && m.pre && n.term == 0 && !Grants(cfg, m.to, n, m)
  {
    hide Step, HandleVote, Discreet, NothingForgotten, After, HistoryOK, LogOK, MessageOK, Forgets, UpToDate, Full;
    DiscreetAgrees(cfg, ids, es, k);
    RunsAgree(cfg, ids, es, k);
    var s, h := After(Reading(cfg, true), ids, es, k), HistoryAfter(Reading(cfg, true), ids, es, k);
    var n := s.nodes[m.to];
    NeverPanics(Reading(cfg, true), ids, es, k, m);
    FullAlways(Reading(cfg, true), ids, es, k);
    var g := KnownHandler(Reading(cfg, true), s, h, m);
    StepsAgreeExactly(Reading(cfg, true), g, m.to, n, m);
    if Forgets(n, m) {
      PositiveTerm(g, m);
      ForgottenShows(cfg, m.to, n, m);
    }
  }

  // --------------------------------------------------------------- the run

  /** The tenth event of the run that breaks safety is such a delivery; the append before it was not. */
  lemma TenthForgets()
    ensures ForgetsAt(At(9), SCHEDULE[9]) && !ForgetsAt(At(6), SCHEDULE[6])
  {
    FirstTerm();
    FirstCommit();
    hide At;
    assert FirstConflict(B2.log, 0, SHORT.entries) == 0;
    assert FirstConflict(B1.log, 0, LONG.entries) == 1;
  }
}
