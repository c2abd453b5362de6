/**
  A cluster of Raft nodes and the messages in flight between them. Messages are
  never removed from the set, so they may arrive late, out of order, many times
  or not at all. A node that does not lead stores its log, term and vote before
  a message of it leaves; a leader's messages do not wait for that. A crash may
  lose whatever was not stored.
 */
module Cluster {
  import opened Common
  import opened Quorum
  import opened Raft

  datatype State = State(nodes: map<nat, Node>, msgs: set<Message>)

  datatype Event =
    | Deliver(m: Message)
    | Hup(id: nat, pre: bool)
    | Propose(id: nat, es: Log)
    | SendAppend(id: nat, to: nat, index: nat, count: nat)
    | SendHeartbeat(id: nat, to: nat)
    | SendReadIndex(id: nat, to: nat, index: nat)
    | Save(id: nat)
    | Persist(id: nat, upTo: nat)
    | StepDown(id: nat)
    | Restart(id: nat, keep: nat, commit: nat)
    | Lose(id: nat, commit: nat)

  const FRESH: Node := Node(0, INVALID_ID, Follower, INVALID_ID, [], 0, 0, map[], map[], HardState(0, INVALID_ID))

  function Start(ids: set<nat>): State {
    State(map id | id in ids :: FRESH, {})
  }

  function Put(s: State, id: nat, n: Node): State {
    s.(nodes := s.nodes[id := n])
  }

  function Post(s: State, ms: set<Message>): State {
    s.(msgs := s.msgs + ms)
  }

  function Replies(r: Reply): set<Message> {
    match r case Silent => {} case Send(m) => {m}
  }

  /** Whether the event can happen; one that cannot leaves the state alone. */
  predicate Enabled(s: State, e: Event) {
    match e
    case Deliver(m) => m in s.msgs && m.to in s.nodes
    case Hup(id, _) => id in s.nodes
    case Propose(id, es) => id in s.nodes && s.nodes[id].role == Leader
    case SendAppend(id, to, index, count) =>
      && id in s.nodes && s.nodes[id].role == Leader && to != id
      // the next index of a follower never passes both the log and what it has acknowledged
      && (index <= |s.nodes[id].log| || index <= Matched(s.nodes[id], to))
      && (index + count <= |s.nodes[id].log| || count == 0)
    case SendHeartbeat(id, to) => id in s.nodes && s.nodes[id].role == Leader && to != id
    case SendReadIndex(id, to, index) =>
      && id in s.nodes && s.nodes[id].role == Leader
      && 0 < index <= s.nodes[id].committed && TermAt(s.nodes[id].log, index) == s.nodes[id].term
    case Save(id) => id in s.nodes
    case Persist(id, upTo) => id in s.nodes && s.nodes[id].persisted < upTo <= |s.nodes[id].log|
    case StepDown(id) => id in s.nodes && s.nodes[id].role == Leader
    case Restart(id, keep, commit) =>
      && id in s.nodes && s.nodes[id].persisted <= keep <= |s.nodes[id].log|
      // the commit index need not be saved, so it may come back lower or not at all
      && commit <= Min(s.nodes[id].committed, keep)
    case Lose(id, commit) => id in s.nodes && commit <= Min(s.nodes[id].committed, s.nodes[id].persisted)
  }

  /** The application stores the log, term and vote, and reports it. */
  function Saving(n: Node): Node {
    n.(persisted := |n.log|, saved := HardState(n.term, n.vote))
  }

  /** The reply of a node that does not lead leaves when its state is stored. */
  function Stored(o: Outcome): Outcome {
    match o
    case Panic => Panic
    case Next(n, reply) => if reply.Send? && n.role != Leader then Next(Saving(n), reply) else o
  }

  ghost function Serve(cfg: Settings, id: nat, n: Node, m: Message): Outcome {
    Stored(Step(cfg, id, n, m))
  }

  /** The entries up to an index, and with them the hard state, are stored and reported: a leader counts them as matched. */
  ghost function OnPersist(cfg: Settings, id: nat, n: Node, upTo: nat): Node {
    var n' := n.(persisted := upTo, saved := HardState(n.term, n.vote));
    if n.role == Leader && Matched(n, id) < upTo then LeaderCommit(cfg, n'.(matched := n.matched[id := upTo])) else n'
  }

  /** A crash after the latest hard state was stored, and the log as far as `keep`: the node comes back as a follower. */
  function Reboot(id: nat, n: Node, keep: nat, commit: nat): Node
    requires keep <= |n.log|
  {
    BecomeFollower(id, n.(log := n.log[..keep], persisted := keep, committed := commit, saved := HardState(n.term, n.vote)),
                   n.term, INVALID_ID)
  }

  /** The log as far as it is stored. */
  function StoredLog(n: Node): Log {
    n.log[..Min(n.persisted, |n.log|)]
  }

  /** What a node comes back as if a crash leaves it only what was stored. */
  function Image(id: nat, n: Node): Node {
    var log := StoredLog(n);
    Node(n.saved.term, n.saved.vote, Follower, INVALID_ID, log, 0, |log|, map[], map[id := |log|], n.saved)
  }

  ghost function Apply(cfg: Settings, s: State, e: Event): State {
    if !Enabled(s, e) then s
    else
      match e
      case Deliver(m) =>
        (match Serve(cfg, m.to, s.nodes[m.to], m)
         case Panic => s
         case Next(n, reply) => Post(Put(s, m.to, n), Replies(reply)))
      case Hup(id, pre) =>
        (match Campaign(cfg, id, s.nodes[id])
         case Panic => s
         case Next(n, _) =>
           if s.nodes[id].role == Leader then s
           else Post(Put(s, id, if n.role == Leader then n else Saving(n)), VoteRequests(cfg, id, n, pre)))
      case Propose(id, es) =>
        Put(s, id, s.nodes[id].(log := s.nodes[id].log + Stamp(s.nodes[id].term, es)))
      case SendAppend(id, to, index, count) => Post(s, {AppendMessage(id, s.nodes[id], to, index, count)})
      case SendHeartbeat(id, to) =>
        Post(s, {Heartbeat(id, to, s.nodes[id].term, Min(Matched(s.nodes[id], to), s.nodes[id].committed))})
      case SendReadIndex(id, to, index) => Post(s, {ReadIndexResp(id, to, s.nodes[id].term, index)})
      case Save(id) => Put(s, id, Revealed(s.nodes[id]))
      case Persist(id, upTo) => Put(s, id, OnPersist(cfg, id, s.nodes[id], upTo))
      case StepDown(id) => Put(s, id, BecomeFollower(id, s.nodes[id], s.nodes[id].term, INVALID_ID))
      case Restart(id, keep, commit) => Put(s, id, Reboot(id, s.nodes[id], keep, commit))
      case Lose(id, commit) => Put(s, id, Image(id, s.nodes[id]).(committed := commit))
  }

  /** The state after the first `k` events of a schedule. */
  ghost function After(cfg: Settings, ids: set<nat>, es: seq<Event>, k: nat): State
    requires k <= |es|
  {
    if k == 0 then Start(ids) else Apply(cfg, After(cfg, ids, es, k - 1), es[k - 1])
  }

  // ----------------------------------------------------- unsaved leaders

  /**
    A leader that sends an append, a heartbeat or a read index before its term is stored. Only a node that
    is a quorum by itself can: any other has stored its term with its vote requests.
   */
  predicate Leaks(s: State, e: Event) {
    && (e.SendAppend? || e.SendHeartbeat? || e.SendReadIndex?) && Enabled(s, e)
    && s.nodes[e.id].saved.term != s.nodes[e.id].term
  }

  /** What an application can keep to: none of the first `k` events leaks. */
  ghost predicate Discreet(cfg: Settings, ids: set<nat>, es: seq<Event>, k: nat)
    requires k <= |es|
  {
    forall j :: 0 <= j < k ==> !Leaks(After(cfg, ids, es, j), es[j])
  }

  /** The log ends in a term that is not stored: nobody else knows of that term's leader. */
  predicate Hidden(n: Node) {
    LastTerm(n.log) > n.saved.term
  }

  // -------------------------------------------------------------- history

  /** An election: who won term by which votes, where its log stood, and its log ever since. */
  datatype Reign = Reign(leader: nat, voters: set<nat>, base: nat, log: Log, at: nat)

  /** A vote: for whom, and the voter's log when it was cast. */
  datatype Ballot = Ballot(candidate: nat, log: Log)

  /** What happened so far; no step reads it. */
  datatype History = History(
    reigns: map<nat, Reign>,
    ballots: map<(nat, nat), Ballot>,
    acks: map<(nat, nat), nat>)

  function Cast(h: History, p: nat, term: nat, candidate: nat, log: Log): History {
    if (p, term) in h.ballots then h else h.(ballots := h.ballots[(p, term) := Ballot(candidate, log)])
  }

  function Elect(h: History, term: nat, leader: nat, voters: set<nat>, base: nat, log: Log): History {
    h.(reigns := h.reigns[term := Reign(leader, voters, base, log, |h.reigns|)])
  }

  function Extend(h: History, term: nat, log: Log): History {
    if term in h.reigns then h.(reigns := h.reigns[term := h.reigns[term].(log := log)]) else h
  }

  function AckOf(h: History, p: nat, term: nat): nat {
    if (p, term) in h.acks then h.acks[(p, term)] else 0
  }

  function Ack(h: History, p: nat, term: nat, k: nat): History {
    if term !in h.reigns || k <= AckOf(h, p, term) then h else h.(acks := h.acks[(p, term) := k])
  }

  function TrackReply(h: History, id: nat, n: Node, n': Node, m: Message, r: Reply): History {
    match r
    case Silent =>
      if n'.role == Leader && n.role != Leader && m.VoteResp? then
        Ack(Elect(h, n'.term, id, YesIds(RecordVote(n.votes, m.from, !m.reject)), |n.log|, n'.log), id, n'.term, |n.log|)
      else h
    case Send(a) =>
      if a.VoteResp? && !a.pre && !a.reject then Cast(h, id, a.term, a.to, n'.log)
      else if a.AppResp? && !a.reject then Ack(h, id, a.term, a.index)
      else h
  }

  /** What an event of a node whose term is stored adds. */
  ghost function Track(cfg: Settings, s: State, h: History, e: Event): History {
    if !Enabled(s, e) then h
    else
      match e
      case Deliver(m) =>
        (match Serve(cfg, m.to, s.nodes[m.to], m)
         case Panic => h
         case Next(n, reply) => TrackReply(h, m.to, s.nodes[m.to], n, m, reply))
      case Hup(id, pre) =>
        (match Campaign(cfg, id, s.nodes[id])
         case Panic => h
         case Next(n', _) =>
           if n'.role == Leader then h // an election by its own vote is not known before it is stored
           else Cast(h, id, n'.term, id, n'.log))
      case Propose(id, es) => Extend(h, s.nodes[id].term, s.nodes[id].log + Stamp(s.nodes[id].term, es))
      case Persist(id, upTo) => if s.nodes[id].role == Leader then Ack(h, id, s.nodes[id].term, upTo) else h
      case _ => h
  }

  const EMPTY: History := History(map[], map[], map[])

  /** Storing the hard state of a node makes known that it was elected by its own vote, and what it proposed since. */
  function Reveal(h: History, id: nat, n: Node): History {
    var t, base := LastTerm(n.log), StoredLog(n);
    var elected := Elect(Cast(h, id, t, id, base), t, id, {id}, |base|, base + [Entry(t, false, NOOP)]);
    Extend(Ack(elected, id, t, |base|), t, n.log)
  }

  function Revealed(n: Node): Node {
    n.(saved := HardState(n.term, n.vote))
  }

  function Actor(e: Event): nat {
    match e
    case Deliver(m) => m.to
    case Hup(id, _) => id
    case Propose(id, _) => id
    case SendAppend(id, _, _, _) => id
    case SendHeartbeat(id, _) => id
    case SendReadIndex(id, _, _) => id
    case Save(id) => id
    case Persist(id, _) => id
    case StepDown(id) => id
    case Restart(id, _, _) => id
    case Lose(id, _) => id
  }

  /** Whether the hard state is stored in the event. */
  ghost predicate Saves(cfg: Settings, s: State, e: Event)
    requires Actor(e) in s.nodes
  {
    match e
    case Deliver(m) =>
      var o := Step(cfg, m.to, s.nodes[m.to], m);
      o.Next? && o.reply.Send? && o.node.role != Leader
    case Hup(id, _) =>
      var o := Campaign(cfg, id, s.nodes[id]);
      o.Next? && o.node.role != Leader
    case _ => e.Save? || e.Persist? || e.Restart?
  }

  /** What an event adds to the history. */
  ghost function Chronicle(cfg: Settings, s: State, h: History, e: Event): History {
    if !Enabled(s, e) then h
    else
      var id := Actor(e);
      var n := s.nodes[id];
      if !Hidden(n) then Track(cfg, s, h, e)
      else if Saves(cfg, s, e) then Track(cfg, Put(s, id, Revealed(n)), Reveal(h, id, n), e)
      else h
  }

  ghost function HistoryAfter(cfg: Settings, ids: set<nat>, es: seq<Event>, k: nat): History
    requires k <= |es|
  {
    if k == 0 then EMPTY
    else Chronicle(cfg, After(cfg, ids, es, k - 1), HistoryAfter(cfg, ids, es, k - 1), es[k - 1])
  }
}
