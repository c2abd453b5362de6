/** A Raft node in its own form: an object whose handlers update its fields, proved against the node functions. */
module RaftNode {
  import opened Common
  import opened Quorum
  import opened Raft
  import opened Commit

  class RaftNode {
    const id: nat
    const cfg: Settings
    var term: nat
    var vote: nat
    var role: Role
    var leaderId: nat
    var log: Log
    var committed: nat
    var persisted: nat
    var votes: Votes
    var matched: map<nat, nat>
    var saved: HardState // stored by the application, not by the methods here

    function Abs(): Node
      reads this
    {
      Node(term, vote, role, leaderId, log, committed, persisted, votes, matched, saved)
    }

    constructor (id: nat, cfg: Settings)
      ensures this.id == id && this.cfg == cfg
      ensures Abs() == Node(0, INVALID_ID, Follower, INVALID_ID, [], 0, 0, map[], map[], HardState(0, INVALID_ID))
    {
      this.id, this.cfg := id, cfg;
      term, vote, role, leaderId := 0, INVALID_ID, Follower, INVALID_ID;
      log, committed, persisted := [], 0, 0;
      votes, matched, saved := map[], map[], HardState(0, INVALID_ID);
    }

    // ------------------------------------------------------------------ log

    method FindConflict(index: nat, ents: Log) returns (c: nat)
      ensures c == Raft.FindConflict(cfg.documented, log, index, ents)
    {
      for i := 0 to |ents|
        invariant Raft.FindConflict(cfg.documented, log, index, ents) ==
                  Raft.FindConflict(cfg.documented, log, index + i, ents[i..])
      {
        assert ents[i..][1..] == ents[i + 1..];
        if !cfg.documented {
          return index + i + 1;
        }
        if TermAt(log, index + i + 1) != ents[i].term {
          return index + i + 1;
        }
      }
      c := 0;
    }

    method FindConflictByTerm(index: nat, t: nat) returns (i: nat, found: nat)
      ensures (i, found) == Raft.FindConflictByTerm(log, index, t)
    {
      i := index;
      while TermAt(log, i) > t
        invariant Raft.FindConflictByTerm(log, index, t) == Raft.FindConflictByTerm(log, i, t)
        decreases i
      {
        i := i - 1;
      }
      found := TermAt(log, i);
    }

    /** `maybe_append`, up to the report of the last new index. */
    method MaybeAppend(index: nat, logTerm: nat, ents: Log, commit: nat) returns (r: Append)
      modifies this`log, this`committed, this`persisted
      ensures r == Raft.MaybeAppend(cfg.documented, old(log), old(committed), index, logTerm, ents, commit)
      ensures r.Appended? ==> log == r.log && committed == r.committed
      ensures r.Appended? ==> persisted == ResetPersisted(cfg.resetGuard, old(persisted), Raft.FindConflict(cfg.documented, old(log), index, ents))
      ensures r.Rejected? ==> log == old(log) && committed == old(committed) && persisted == old(persisted)
    {
      hide TermAt, Raft.FindConflict, Raft.MaybeAppend;
      AppendSteps(cfg.documented, log, committed, index, logTerm, ents, commit, Raft.FindConflict(cfg.documented, log, index, ents));
      if TermAt(log, index) != logTerm {
        return Rejected;
      }
      var conflict := FindConflict(index, ents);
      if conflict != 0 {
        if conflict <= committed || conflict - 1 > |log| {
          return Fatal;
        }
        Splice(conflict, index, ents);
        if persisted > conflict + (if cfg.resetGuard then -1 else 1) {
          persisted := conflict - 1;
        }
      }
      var last := index + |ents|;
      var ok := CommitTo(Min(commit, last));
      r := if ok then Appended(log, committed, last) else Fatal;
    }

    /** `ents` start at `index + 1`; those from the conflict on replace the log from there. */
    method Splice(conflict: nat, index: nat, ents: Log)
      requires index < conflict <= index + |ents| && conflict - 1 <= |log|
      modifies this`log
      ensures log == old(log)[..conflict - 1] + ents[conflict - (index + 1)..]
    {
      log := log[..conflict - 1] + ents[conflict - (index + 1)..];
    }

    /** Never lowers the commit index; fails beyond the end of the log. */
    method CommitTo(to: nat) returns (ok: bool)
      modifies this`committed
      ensures ok <==> to <= old(committed) || to <= |log|
      ensures ok ==> committed == if old(committed) >= to then old(committed) else to
    {
      if committed < to {
        if to > |log| {
          return false;
        }
        committed := to;
      }
      ok := true;
    }

    method MaybeCommitAt(index: nat, t: nat)
      modifies this`committed
      ensures Abs() == Raft.MaybeCommit(old(Abs()), index, t)
    {
      if index > committed && TermAt(log, index) == t {
        committed := index;
      }
    }

    // ---------------------------------------------------------- role changes

    method Reset(t: nat)
      modifies this
      ensures Abs() == Raft.Reset(id, old(Abs()), t)
    {
      if term != t {
        term := t;
        vote := INVALID_ID;
      }
      leaderId := INVALID_ID;
      votes := map[];
      matched := map[];
      matched := matched[id := persisted];
    }

    method BecomeFollower(t: nat, leader: nat)
      modifies this
      ensures Abs() == Raft.BecomeFollower(id, old(Abs()), t, leader)
    {
      Reset(t);
      leaderId := leader;
      role := Follower;
    }

    /** Fails its assertion in a leader. */
    method BecomeCandidate() returns (ok: bool)
      modifies this
      ensures ok <==> old(role) != Leader
      ensures Abs() == if ok then Raft.BecomeCandidate(id, old(Abs())) else old(Abs())
    {
      if role == Leader {
        return false;
      }
      Reset(term + 1);
      vote := id;
      role := Candidate;
      ok := true;
    }

    /** Fails its assertions in a follower, and unless the whole log is persisted. */
    method BecomeLeader() returns (ok: bool)
      modifies this
      ensures match Raft.BecomeLeader(id, old(Abs())) case Panic => !ok case Next(n, _) => ok && Abs() == n
    {
      if role == Follower {
        return false;
      }
      Reset(term);
      leaderId := id;
      role := Leader;
      if persisted != |log| {
        return false;
      }
      log := log + [Entry(term, false, NOOP)];
      ok := true;
    }

    // ---------------------------------------------------------------- commit

    /** Commits what a quorum has matched, if it is of the current term. */
    method MaybeCommit()
      modifies this`committed
      ensures Abs() == LeaderCommit(cfg, old(Abs()))
      ensures cfg.voters.incoming != {} && Indexed(Abs()) && Ascending(log, term) ==> CommitsAsHeld(cfg, old(committed), Abs())
    {
      if cfg.voters.incoming != {} && Indexed(Abs()) && Ascending(log, term) {
        CountsAt(cfg, Abs());
      }
      var index, _ := JointCommittedIndex(cfg.voters, cfg.groupCommit, AckMap(cfg, Abs()));
      MaybeCommitAt(index, term);
    }

    method MaybeCommitByVote(commit: nat, commitTerm: nat)
      modifies this
      ensures Abs() == CommitByVote(id, old(Abs()), commit, commitTerm)
    {
      if commit == 0 || commitTerm == 0 || commit <= committed || role == Leader {
        return;
      }
      var lastCommit := committed;
      MaybeCommitAt(commit, commitTerm);
      if committed == lastCommit || role != Candidate {
        return;
      }
      var pending := NumPendingConf(log[lastCommit..committed]);
      if pending != 0 {
        BecomeFollower(term, INVALID_ID);
      }
    }

    method NumPendingConf(ents: Log) returns (n: nat)
      ensures n == |set i | 0 <= i < |ents| && ents[i].conf|
      ensures n != 0 <==> HasConf(ents)
    {
      n := 0;
      ghost var found: set<int> := {};
      for i := 0 to |ents|
        invariant found == set j | 0 <= j < i && ents[j].conf
        invariant n == |found|
      {
        if ents[i].conf {
          n := n + 1;
          found := found + {i};
        }
      }
      if HasConf(ents) {
        var k :| 0 <= k < |ents| && ents[k].conf;
        assert k in found;
      } else {
        assert found == {};
      }
    }

    // -------------------------------------------------------------- handlers

    /** The vote part of `step`. */
    method OnVote(m: Message) returns (ok: bool, reply: Reply)
      requires m.Vote?
      modifies this
      ensures match HandleVote(cfg, id, old(Abs()), m) case Panic => !ok case Next(n, r) => ok && Abs() == n && reply == r
    {
      reply := Silent;
      var canVote := vote == m.from || (vote == INVALID_ID && leaderId == INVALID_ID) || (m.pre && m.term > term);
      if canVote && UpToDate(log, m.index, m.logTerm) && (m.index > |log| || Priority(cfg, id) <= m.priority) {
        if m.term == 0 {
          return false, reply;
        }
        reply := Send(VoteResp(m.pre, id, m.from, m.term, false, 0, 0));
        if !m.pre {
          vote := m.from;
        }
      } else {
        if term == 0 {
          return false, reply;
        }
        reply := Send(VoteResp(m.pre, id, m.from, term, true, committed, TermAt(log, committed)));
        MaybeCommitByVote(m.commit, m.commitTerm);
      }
      ok := true;
    }

    method OnAppend(m: Message) returns (ok: bool, reply: Reply)
      requires m.App?
      modifies this
      ensures match HandleAppend(cfg, id, old(Abs()), m) case Panic => !ok case Next(n, r) => ok && Abs() == n && reply == r
    {
      hide Raft.MaybeAppend, Raft.FindConflictByTerm, TermAt;
      ok, reply := true, Silent;
      if m.index < committed {
        reply := Send(AppResp(id, m.from, term, false, committed, 0, 0, committed));
        return;
      }
      var appended := MaybeAppend(m.index, m.logTerm, m.entries, m.commit);
      match appended {
        case Fatal => ok := false;
        case Rejected =>
          var hint, hintTerm := FindConflictByTerm(Min(m.index, |log|), m.logTerm);
          reply := Send(AppResp(id, m.from, term, true, m.index, hint, hintTerm, committed));
        case Appended(_, _, last) =>
          reply := Send(AppResp(id, m.from, term, false, last, 0, 0, committed));
      }
    }

    method OnHeartbeat(m: Message) returns (ok: bool, reply: Reply)
      requires m.Heartbeat?
      modifies this`committed
      ensures match HandleHeartbeat(id, old(Abs()), m) case Panic => !ok case Next(n, r) => ok && Abs() == n && reply == r
    {
      ok, reply := true, Silent;
      if committed < m.commit {
        if |log| < m.commit {
          return false, reply;
        }
        committed := m.commit;
      }
      reply := Send(HeartbeatResp(id, m.from, term, committed));
    }

    method OnAppendResponse(m: Message)
      requires m.AppResp?
      modifies this
      ensures Abs() == HandleAppendResponse(cfg, old(Abs()), m)
    {
      if m.reject || m.index <= Matched(Abs(), m.from) {
        return;
      }
      matched := matched[m.from := m.index];
      MaybeCommit();
    }

    /** `poll`, and what a candidate does with its result. */
    method OnVoteResponse(m: Message) returns (ok: bool)
      requires m.VoteResp?
      modifies this
      ensures match HandleVoteResponse(cfg, id, old(Abs()), m) case Panic => !ok case Next(n, _) => ok && Abs() == n
    {
      ok := true;
      var tally := RecordVote(votes, m.from, !m.reject);
      var r := CountJointVotes(cfg.voters, tally);
      match r {
        case Won => ok := BecomeLeader();
        case Lost =>
          BecomeFollower(term, INVALID_ID);
          MaybeCommitByVote(m.commit, m.commitTerm);
        case Pending =>
          votes := tally;
          MaybeCommitByVote(m.commit, m.commitTerm);
      }
    }

    method ByRole(m: Message) returns (ok: bool, reply: Reply)
      modifies this
      ensures match StepByRole(cfg, id, old(Abs()), m) case Panic => !ok case Next(n, r) => ok && Abs() == n && reply == r
    {
      ok, reply := true, Silent;
      if m.Vote? {
        ok, reply := OnVote(m);
        return;
      }
      match role {
        case Leader =>
          if m.AppResp? {
            OnAppendResponse(m);
          }
        case Candidate =>
          if m.App? {
            BecomeFollower(m.term, m.from);
            ok, reply := OnAppend(m);
          } else if m.Heartbeat? {
            BecomeFollower(m.term, m.from);
            ok, reply := OnHeartbeat(m);
          } else if m.VoteResp? && !m.pre {
            ok := OnVoteResponse(m);
          }
        case Follower =>
          if m.App? {
            leaderId := m.from;
            ok, reply := OnAppend(m);
          } else if m.Heartbeat? {
            leaderId := m.from;
            ok, reply := OnHeartbeat(m);
          } else if m.ReadIndexResp? {
            MaybeCommitAt(m.index, m.term);
          }
      }
    }

    /** `step` for a message from the network. */
    method Receive(m: Message) returns (ok: bool, reply: Reply)
      modifies this
      ensures match Step(cfg, id, old(Abs()), m) case Panic => !ok case Next(n, r) => ok && Abs() == n && reply == r
    {
      ok, reply := true, Silent;
      if 0 < m.term < term {
        if cfg.guardTerm && (m.Heartbeat? || m.App?) {
          reply := Send(AppResp(id, m.from, term, false, 0, 0, 0, 0));
        } else if m.Vote? && m.pre {
          reply := Send(VoteResp(true, id, m.from, term, true, 0, 0));
        }
        return;
      }
      if m.term > term && !(m.Vote? && m.pre) && !(m.VoteResp? && m.pre && !m.reject) {
        BecomeFollower(m.term, if m.App? || m.Heartbeat? then m.from else INVALID_ID);
      }
      ok, reply := ByRole(m);
    }

    /** `campaign`, before its vote requests leave. */
    method Campaign() returns (ok: bool)
      modifies this
      ensures match Raft.Campaign(cfg, id, old(Abs())) case Panic => !ok case Next(n, _) => ok && Abs() == n
    {
      if role == Leader {
        return true;
      }
      ok := BecomeCandidate();
      var own := map[id := true];
      var r := CountJointVotes(cfg.voters, own);
      if r == Won {
        ok := BecomeLeader();
      } else {
        votes := own;
      }
    }
  }
}
