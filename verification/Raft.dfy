/** One Raft node: how its durable and volatile fields answer a message. */
module Raft {
  import opened Common
  import opened Quorum

  const INVALID_ID: nat := 0

  datatype Role = Follower | Candidate | Leader

  /** A log entry; the entry at position `i` of a log has index `i + 1`. */
  datatype Entry = Entry(term: nat, conf: bool, data: string)

  type Log = seq<Entry>

  /**
    What the cluster is configured with: the fixed voters, the commit groups, the
    options of each node, and which readings of `find_conflict` and of the guard that resets `persisted` are
    in force.
   */
  datatype Settings = Settings(
    voters: JointConfig,
    groupCommit: bool, groups: map<nat, nat>,
    guardTerm: bool, // check_quorum || pre_vote
    priority: map<nat, nat>,
    documented: bool,
    resetGuard: bool)

  /** The part of the hard state that must not be forgotten. */
  datatype HardState = HardState(term: nat, vote: nat)

  /** `saved` is what the application has stored of term and vote; no handler reads or writes it. */
  datatype Node = Node(
    term: nat, vote: nat, role: Role, leaderId: nat,
    log: Log, committed: nat, persisted: nat,
    votes: Votes, matched: map<nat, nat>, saved: HardState)

  datatype Message =
    | Vote(pre: bool, from: nat, to: nat, term: nat, index: nat, logTerm: nat, commit: nat, commitTerm: nat, priority: nat)
    | VoteResp(pre: bool, from: nat, to: nat, term: nat, reject: bool, commit: nat, commitTerm: nat)
    | App(from: nat, to: nat, term: nat, index: nat, logTerm: nat, entries: Log, commit: nat)
    | AppResp(from: nat, to: nat, term: nat, reject: bool, index: nat, rejectHint: nat, logTerm: nat, commit: nat)
    | Heartbeat(from: nat, to: nat, term: nat, commit: nat)
    | HeartbeatResp(from: nat, to: nat, term: nat, commit: nat)
    | ReadIndexResp(from: nat, to: nat, term: nat, index: nat)

  /** A handler either stops the process (`fatal!`, `assert!`) or gives the new node and its reply. */
  datatype Outcome = Panic | Next(node: Node, reply: Reply)

  datatype Reply = Silent | Send(m: Message)

  // ------------------------------------------------------------------ log

  function TermAt(log: Log, i: nat): nat {
    if i == 0 || i > |log| then 0 else log[i - 1].term
  }

  function LastTerm(log: Log): nat {
    TermAt(log, |log|)
  }

  predicate UpToDate(log: Log, index: nat, term: nat) {
    term > LastTerm(log) || (term == LastTerm(log) && index >= |log|)
  }

  /** The first index after `index` at which `ents` differ from the log, 0 if there is none. */
  function FirstConflict(log: Log, index: nat, ents: Log): (c: nat)
    ensures c == 0 || index < c <= index + |ents|
    decreases |ents|
  {
    if ents == [] then 0
    else if TermAt(log, index + 1) != ents[0].term then index + 1
    else FirstConflict(log, index + 1, ents[1..])
  }

  /** `find_conflict`: as documented, or as written, where the loop returns in its first round. */
  function FindConflict(documented: bool, log: Log, index: nat, ents: Log): (c: nat)
    ensures c == 0 || index < c <= index + |ents|
  {
    if documented then FirstConflict(log, index, ents)
    else if ents == [] then 0
    else index + 1
  }

  function FindConflictByTerm(log: Log, index: nat, term: nat): (nat, nat) {
    if TermAt(log, index) > term then FindConflictByTerm(log, index - 1, term)
    else (index, TermAt(log, index))
  }

  datatype Append = Rejected | Fatal | Appended(log: Log, committed: nat, last: nat)

  function MaybeAppend(documented: bool, log: Log, committed: nat, index: nat, logTerm: nat, ents: Log, commit: nat): Append {
    if TermAt(log, index) != logTerm then Rejected
    else
      var conflict := FindConflict(documented, log, index, ents);
      if conflict != 0 && (conflict <= committed || conflict - 1 > |log|) then Fatal
      else
        var log' := if conflict == 0 then log else log[..conflict - 1] + ents[conflict - (index + 1)..];
        var last := index + |ents|;
        var to := Min(commit, last);
        if committed >= to then Appended(log', committed, last)
        else if to > |log'| then Fatal
        else Appended(log', to, last)
  }

  /** What an append leaves of the persisted index: as documented it falls below the conflict, as written only from two above. */
  function ResetPersisted(documented: bool, persisted: nat, conflict: nat): nat {
    if conflict != 0 && persisted > conflict + (if documented then -1 else 1) then conflict - 1 else persisted
  }

  /** The merge alone: the entries from the conflict on replace the log from there; nothing if it stops the process. */
  function MergedLog(log: Log, committed: nat, index: nat, ents: Log, conflict: nat): Option<Log> {
    if conflict == 0 then Some(log)
    else if conflict <= committed || conflict - 1 > |log| || conflict <= index || conflict > index + |ents| then None
    else Some(log[..conflict - 1] + ents[conflict - (index + 1)..])
  }

  /** The commit step that ends an append. */
  function Committing(log: Log, committed: nat, to: nat, last: nat): Append {
    if committed >= to then Appended(log, committed, last)
    else if to > |log| then Fatal
    else Appended(log, to, last)
  }

  /** What an append comes to once the term and the merge are settled. */
  function Settled(termsMatch: bool, merged: Option<Log>, committed: nat, to: nat, last: nat): Append {
    if !termsMatch then Rejected
    else match merged case None => Fatal case Some(log) => Committing(log, committed, to, last)
  }

  /** An append is its three steps, whatever conflict the search finds. */
  lemma AppendSteps(documented: bool, log: Log, committed: nat, index: nat, term: nat, ents: Log, commit: nat, conflict: nat)
    requires conflict == FindConflict(documented, log, index, ents)
    ensures MaybeAppend(documented, log, committed, index, term, ents, commit) ==
            Settled(TermAt(log, index) == term, MergedLog(log, committed, index, ents, conflict),
                    committed, Min(commit, index + |ents|), index + |ents|)
  {
    hide FindConflict, TermAt;
  }

  // ----------------------------------------------------------- role changes

  function Matched(n: Node, id: nat): nat {
    if id in n.matched then n.matched[id] else 0
  }

  function Reset(id: nat, n: Node, term: nat): Node {
    n.(term := term,
       vote := if n.term != term then INVALID_ID else n.vote,
       leaderId := INVALID_ID,
       votes := map[],
       matched := map[id := n.persisted])
  }

  function BecomeFollower(id: nat, n: Node, term: nat, leader: nat): Node {
    Reset(id, n, term).(leaderId := leader, role := Follower)
  }

  function BecomeCandidate(id: nat, n: Node): Node {
    Reset(id, n, n.term + 1).(vote := id, role := Candidate)
  }

  const NOOP: string := ""

  /** `become_leader`, whose assertions want no follower and the whole log persisted. */
  function BecomeLeader(id: nat, n: Node): Outcome {
    if n.role == Follower || n.persisted != |n.log| then Panic
    else Next(Reset(id, n, n.term).(leaderId := id, role := Leader, log := n.log + [Entry(n.term, false, NOOP)]), Silent)
  }

  // ----------------------------------------------------------------- commit

  /** `RaftLog::maybe_commit`. */
  function MaybeCommit(n: Node, index: nat, term: nat): Node {
    if index > n.committed && TermAt(n.log, index) == term then n.(committed := index) else n
  }

  function Group(cfg: Settings, id: nat): nat {
    if id in cfg.groups then cfg.groups[id] else 0
  }

  function Voters(cfg: Settings): set<nat> {
    cfg.voters.incoming + cfg.voters.outgoing
  }

  function AckMap(cfg: Settings, n: Node): AckIndexer {
    map v | v in Voters(cfg) :: Index(Matched(n, v), Group(cfg, v))
  }

  /** `Raft::maybe_commit`: commit what a quorum has matched, if it is of the current term. */
  ghost function LeaderCommit(cfg: Settings, n: Node): Node {
    MaybeCommit(n, JointIndex(cfg.voters, cfg.groupCommit, AckMap(cfg, n)), n.term)
  }

  predicate HasConf(ents: Log) {
    exists i :: 0 <= i < |ents| && ents[i].conf
  }

  /** `maybe_commit_by_vote`: take the commit index of a vote message, and step down on a configuration change. */
  function CommitByVote(id: nat, n: Node, commit: nat, commitTerm: nat): Node {
    if commit == 0 || commitTerm == 0 || commit <= n.committed || n.role == Leader then n
    else
      var n' := MaybeCommit(n, commit, commitTerm);
      if n'.committed == n.committed || n.role != Candidate then n'
      else if HasConf(n.log[n.committed..n'.committed]) then
        BecomeFollower(id, n', n'.term, INVALID_ID)
      else n'
  }

  // ------------------------------------------------------------------- step

  function Priority(cfg: Settings, id: nat): nat {
    if id in cfg.priority then cfg.priority[id] else 0
  }

  /** A vote is granted once a term, to a log that is up to date and, unless longer, of no lower priority. */
  predicate Grants(cfg: Settings, id: nat, n: Node, m: Message)
    requires m.Vote?
  {
    var canVote := n.vote == m.from || (n.vote == INVALID_ID && n.leaderId == INVALID_ID) || (m.pre && m.term > n.term);
    canVote && UpToDate(n.log, m.index, m.logTerm) && (m.index > |n.log| || Priority(cfg, id) <= m.priority)
  }

  function HandleVote(cfg: Settings, id: nat, n: Node, m: Message): Outcome
    requires m.Vote?
  {
    if Grants(cfg, id, n, m) then
      var resp := VoteResp(m.pre, id, m.from, m.term, false, 0, 0);
      if m.term == 0 then Panic
      else Next(n.(vote := if m.pre then n.vote else m.from), Send(resp))
    else if n.term == 0 then Panic // a vote response needs a term
    else
      var resp := VoteResp(m.pre, id, m.from, n.term, true, n.committed, TermAt(n.log, n.committed));
      Next(CommitByVote(id, n, m.commit, m.commitTerm), Send(resp))
  }

  function HandleAppend(cfg: Settings, id: nat, n: Node, m: Message): Outcome
    requires m.App?
  {
    if m.index < n.committed then
      Next(n, Send(AppResp(id, m.from, n.term, false, n.committed, 0, 0, n.committed)))
    else
      match MaybeAppend(cfg.documented, n.log, n.committed, m.index, m.logTerm, m.entries, m.commit)
      case Fatal => Panic
      case Rejected =>
        var (hint, hintTerm) := FindConflictByTerm(n.log, Min(m.index, |n.log|), m.logTerm);
        Next(n, Send(AppResp(id, m.from, n.term, true, m.index, hint, hintTerm, n.committed)))
      case Appended(log, committed, last) =>
        var conflict := FindConflict(cfg.documented, n.log, m.index, m.entries);
        Next(n.(log := log, committed := committed, persisted := ResetPersisted(cfg.resetGuard, n.persisted, conflict)),
             Send(AppResp(id, m.from, n.term, false, last, 0, 0, committed)))
  }

  function HandleHeartbeat(id: nat, n: Node, m: Message): Outcome
    requires m.Heartbeat?
  {
    if n.committed >= m.commit then Next(n, Send(HeartbeatResp(id, m.from, n.term, n.committed)))
    else if |n.log| < m.commit then Panic
    else Next(n.(committed := m.commit), Send(HeartbeatResp(id, m.from, n.term, m.commit)))
  }

  ghost function HandleAppendResponse(cfg: Settings, n: Node, m: Message): Node
    requires m.AppResp?
  {
    if m.reject || m.index <= Matched(n, m.from) then n
    else LeaderCommit(cfg, n.(matched := n.matched[m.from := m.index]))
  }

  /** `poll` and what follows it in `step_candidate`. */
  function HandleVoteResponse(cfg: Settings, id: nat, n: Node, m: Message): Outcome
    requires m.VoteResp?
  {
    var votes := RecordVote(n.votes, m.from, !m.reject);
    match JointVote(cfg.voters, votes)
    case Won => BecomeLeader(id, n)
    case Lost => Next(CommitByVote(id, BecomeFollower(id, n, n.term, INVALID_ID), m.commit, m.commitTerm), Silent)
    case Pending => Next(CommitByVote(id, n.(votes := votes), m.commit, m.commitTerm), Silent)
  }

  ghost function StepByRole(cfg: Settings, id: nat, n: Node, m: Message): Outcome {
    if m.Vote? then HandleVote(cfg, id, n, m)
    else
      match n.role
      case Leader =>
        if m.AppResp? then Next(HandleAppendResponse(cfg, n, m), Silent) else Next(n, Silent)
      case Candidate =>
        if m.App? then HandleAppend(cfg, id, BecomeFollower(id, n, m.term, m.from), m)
        else if m.Heartbeat? then HandleHeartbeat(id, BecomeFollower(id, n, m.term, m.from), m)
        else if m.VoteResp? && !m.pre then HandleVoteResponse(cfg, id, n, m)
        else Next(n, Silent)
      case Follower =>
        if m.App? then HandleAppend(cfg, id, n.(leaderId := m.from), m)
        else if m.Heartbeat? then HandleHeartbeat(id, n.(leaderId := m.from), m)
        else if m.ReadIndexResp? then Next(MaybeCommit(n, m.index, m.term), Silent)
        else Next(n, Silent)
  }

  /** The term part of `step`: catch up with a later term unless the message is a pre-vote in the future. */
  function CatchUp(id: nat, n: Node, m: Message): Node {
    if m.term <= n.term || (m.Vote? && m.pre) || (m.VoteResp? && m.pre && !m.reject) then n
    else BecomeFollower(id, n, m.term, if m.App? || m.Heartbeat? then m.from else INVALID_ID)
  }

  ghost function Step(cfg: Settings, id: nat, n: Node, m: Message): Outcome {
    if 0 < m.term < n.term then
      if cfg.guardTerm && (m.Heartbeat? || m.App?) then Next(n, Send(AppResp(id, m.from, n.term, false, 0, 0, 0, 0)))
      else if m.Vote? && m.pre then Next(n, Send(VoteResp(true, id, m.from, n.term, true, 0, 0)))
      else Next(n, Silent)
    else StepByRole(cfg, id, if m.term == 0 then n else CatchUp(id, n, m), m)
  }

  /** `campaign`. A node that is a quorum by itself leads at once; any other asks for votes. */
  function Campaign(cfg: Settings, id: nat, n: Node): Outcome {
    var votes := map[id := true];
    if n.role == Leader then Next(n, Silent)
    else if JointVote(cfg.voters, votes) == Won then BecomeLeader(id, BecomeCandidate(id, n))
    else Next(BecomeCandidate(id, n).(votes := votes), Silent)
  }

  /** What a candidate that has not won yet asks of the other voters. */
  function VoteRequests(cfg: Settings, id: nat, c: Node, pre: bool): set<Message> {
    if c.role != Candidate then {}
    else
      set v | v in Voters(cfg) && v != id ::
        Vote(pre, id, v, if pre then c.term + 1 else c.term, |c.log|, LastTerm(c.log),
             c.committed, TermAt(c.log, c.committed), Priority(cfg, id))
  }

  /** Entries proposed to a leader get its term and the next indexes. */
  function Stamp(term: nat, es: Log): (r: Log)
    ensures |r| == |es| && forall i :: 0 <= i < |es| ==> r[i] == es[i].(term := term)
  {
    seq(|es|, i requires 0 <= i < |es| => es[i].(term := term))
  }

  /** The append message for a follower whose next index is `index + 1`, carrying `count` entries. */
  function AppendMessage(id: nat, n: Node, to: nat, index: nat, count: nat): Message
    requires index + count <= |n.log| || count == 0
  {
    App(id, to, n.term, index, TermAt(n.log, index),
        if index + count <= |n.log| then n.log[index..index + count] else [], n.committed)
  }
}
