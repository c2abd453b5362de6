/** What the handlers of a node achieve, case by case, whatever its state. */
module Handlers {
  import opened Common
  import opened Quorum
  import opened Raft
  import opened Cluster
  import opened ClusterStored

  /** A message of a later term that the node does not take up: a pre-vote, or the grant of one. */
  predicate LooksAhead(m: Message) {
    (m.Vote? && m.pre) || (m.VoteResp? && m.pre && !m.reject)
  }

  /** After any message the node is in the later of the two terms, unless the message only looks ahead; in an earlier one nothing happens to it. */
  lemma TermTaken(cfg: Settings, id: nat, n: Node, m: Message)
    requires m.term > 0
    ensures var o := Step(cfg, id, n, m);
            o.Next? ==> && o.node.term == (if LooksAhead(m) then n.term else Max(n.term, m.term))
                        && (m.term < n.term ==> o.node == n)
  {
    hide StepByRole, CatchUp;
    if m.term >= n.term {
      var f := CatchUp(id, n, m);
      CaughtUp(id, n, m);
      ByRoleTerm(cfg, id, f, m);
    }
  }

  lemma CaughtUp(id: nat, n: Node, m: Message)
    requires m.term >= n.term
    ensures CatchUp(id, n, m).term == if LooksAhead(m) then n.term else m.term
    ensures m.term > n.term && !LooksAhead(m) ==>
              CatchUp(id, n, m) == BecomeFollower(id, n, m.term, if m.App? || m.Heartbeat? then m.from else INVALID_ID)
  {
  }

  lemma ByRoleTerm(cfg: Settings, id: nat, n: Node, m: Message)
    requires m.App? || m.Heartbeat? ==> m.term == n.term
    ensures var o := StepByRole(cfg, id, n, m); o.Next? ==> o.node.term == n.term
  {
    hide MaybeAppend, FindConflict, FindConflictByTerm, UpToDate, HasConf, JointVote, TermAt, LeaderCommit;
    LeaderCommitIs(cfg, n.(matched := n.matched[m.from := if m.AppResp? then m.index else 0]));
  }

  /** The node takes the sender for its leader: it is not one itself in that term. */
  predicate Follows(n: Node, m: Message) {
    m.term > n.term || (m.term == n.term && n.role != Leader)
  }

  /** A heartbeat makes the node follow its sender and raises the commit index to what it names, if the log reaches that far. */
  lemma HeartbeatFollowed(cfg: Settings, id: nat, n: Node, m: Message)
    requires m.Heartbeat? && m.term > 0 && Follows(n, m)
    ensures var o := Step(cfg, id, n, m);
            && (o.Panic? <==> m.commit > Max(n.committed, |n.log|))
            && (o.Next? ==> && o.node.role == Follower && o.node.leaderId == m.from && o.node.log == n.log
                            && o.node.committed == Max(n.committed, m.commit)
                            && o.reply == Send(HeartbeatResp(id, m.from, m.term, o.node.committed)))
  {
  }

  /**
    Whether a leader of the past is told: with the check of terms switched on, the answer to its append or
    heartbeat makes it a follower of the later term; otherwise it hears nothing.
   */
  lemma StaleLeaderStepsDown(cfg: Settings, id: nat, n: Node, leader: Node, m: Message)
    requires (m.App? || m.Heartbeat?) && 0 < m.term == leader.term < n.term && leader.role == Leader
    ensures var o := Step(cfg, id, n, m);
            && o.Next? && o.node == n && (o.reply.Send? <==> cfg.guardTerm)
            && (o.reply.Send? ==>
                  && o.reply.m.to == m.from
                  && var l := Step(cfg, m.from, leader, o.reply.m);
                     l.Next? && l.node.role == Follower && l.node.term == n.term && l.node.log == leader.log)
  {
  }

  /** A follower takes the index of a read it had asked for as its commit index, if its entry there is of the leader's term. */
  lemma ReadIndexCommits(cfg: Settings, id: nat, n: Node, m: Message)
    requires m.ReadIndexResp? && n.role == Follower && 0 < m.term == n.term
    ensures var o := Step(cfg, id, n, m);
            o.Next? && o.node == n.(committed :=
              if n.committed < m.index <= |n.log| && n.log[m.index - 1].term == m.term then m.index else n.committed)
  {
  }

  /** What comes of an append: refused, acknowledged as already committed, or taken with the commit index it brings. */
  predicate AppendResult(id: nat, n: Node, m: Message, n': Node, reply: Reply)
    requires m.App?
  {
    && reply.Send? && reply.m.AppResp? && reply.m.from == id && reply.m.to == m.from && reply.m.commit == n'.committed
    && (reply.m.reject <==> m.index >= n.committed && TermAt(n.log, m.index) != m.logTerm)
    && (if m.index >= n.committed && TermAt(n.log, m.index) == m.logTerm
        then n'.committed == Max(n.committed, Min(m.commit, m.index + |m.entries|)) && reply.m.index == m.index + |m.entries|
        else n'.log == n.log && n'.committed == n.committed && reply.m.index == Max(m.index, n.committed))
  }

  lemma AppendHandled(cfg: Settings, id: nat, n: Node, m: Message)
    requires m.App?
    ensures var o := HandleAppend(cfg, id, n, m);
            o.Next? ==> AppendResult(id, n, m, o.node, o.reply) && o.node.role == n.role && o.node.leaderId == n.leaderId
                        && o.node.term == n.term == o.reply.m.term
  {
    hide TermAt, FindConflict, FindConflictByTerm, ResetPersisted;
  }

  /** An append makes the node follow its sender; what it has committed then is the most of what it had and what the message brings. */
  lemma AppendFollowed(cfg: Settings, id: nat, n: Node, m: Message)
    requires m.App? && m.term > 0 && Follows(n, m)
    ensures var o := Step(cfg, id, n, m);
            o.Next? ==> AppendResult(id, n, m, o.node, o.reply) && o.node.role == Follower && o.node.leaderId == m.from
                        && o.node.term == m.term == o.reply.m.term
  {
    hide TermAt, HandleAppend;
    var f := CatchUp(id, n, m);
    AppendHandled(cfg, id, BecomeFollower(id, f, m.term, m.from), m);
    AppendHandled(cfg, id, f.(leaderId := m.from), m);
  }

  /** An answer to a candidate's request, in its term. */
  predicate Answers(n: Node, m: Message) {
    m.VoteResp? && !m.pre && n.role == Candidate && m.term == n.term > 0
  }

  lemma TermWithin(log: Log, i: nat)
    ensures TermAt(log, i) > 0 ==> 0 < i <= |log|
  {
  }

  /** A membership change lies between the commit index and what it rises to. */
  predicate CommitsChange(n: Node, to: nat) {
    n.committed < to <= |n.log| && HasConf(n.log[n.committed..to])
  }

  /**
    A candidate leads exactly once the answers so far, the first of each voter, make a quorum, and gives up
    exactly if they rule one out, or if the answer commits a membership change; otherwise it goes on counting.
   */
  lemma AnswerCounts(cfg: Settings, id: nat, n: Node, m: Message)
    requires Answers(n, m) && n.persisted == |n.log|
    ensures var o := Step(cfg, id, n, m);
            var votes := RecordVote(n.votes, m.from, !m.reject);
            var open := YesIds(votes) + Missing(Voters(cfg), votes);
            && o.Next? && o.node.term == n.term && o.node.vote == n.vote
            && (o.node.role == Leader <==> HasQuorum(cfg.voters, YesIds(votes)))
            && (o.node.role == Leader ==> o.node.log == n.log + [Entry(n.term, false, NOOP)] && o.node.leaderId == id)
            && (!HasQuorum(cfg.voters, open) ==> o.node.role == Follower)
            && (HasQuorum(cfg.voters, open) && o.node.role == Follower ==> CommitsChange(n, o.node.committed))
            && (o.node.role == Candidate ==> o.node.votes == votes)
  {
    hide HasQuorum, JointVote, HandleAppend, HandleVote, HandleHeartbeat, HandleAppendResponse, TermAt, HasConf, YesIds, Missing;
    var votes := RecordVote(n.votes, m.from, !m.reject);
    TermWithin(n.log, m.commit);
    WonIsMajority(cfg.voters, votes);
    HasQuorumIsMajority(cfg.voters, YesIds(votes));
    LostIsHopeless(cfg.voters, votes);
  }

  /**
    What the commit index of a vote message does to a node that does not lead: it takes it if its log has that
    entry in that term, and a candidate that thereby commits a membership change stands down.
   */
  lemma VoteCommits(id: nat, n: Node, commit: nat, commitTerm: nat)
    requires n.role != Leader
    ensures var m := CommitByVote(id, n, commit, commitTerm);
            var taken := n.committed < commit <= |n.log| && commitTerm > 0 && n.log[commit - 1].term == commitTerm;
            && m.committed == (if taken then commit else n.committed) && m.log == n.log && m.term == n.term && m.vote == n.vote
            && m.role == (if taken && n.role == Candidate && (exists i :: n.committed <= i < commit && n.log[i].conf) then Follower else n.role)
  {
    if n.committed < commit <= |n.log| {
      var newly := n.log[n.committed..commit];
      assert forall i :: 0 <= i < |newly| ==> newly[i] == n.log[n.committed + i];
      if i :| n.committed <= i < commit && n.log[i].conf {
        assert newly[i - n.committed].conf;
      }
    }
  }

  /** A campaign begins a term, with the node's own vote, and goes on with its log as it is; a node that leads does not campaign. */
  lemma CampaignBegins(cfg: Settings, id: nat, n: Node)
    ensures var o := Campaign(cfg, id, n);
            if n.role == Leader then o == Next(n, Silent)
            else
              o.Next? ==>
                && o.node.term == n.term + 1 && o.node.vote == id && o.node.committed == n.committed
                && (o.node.role == Leader <==> HasQuorum(cfg.voters, {id}))
                && (o.node.role == Leader ==> o.node.log == n.log + [Entry(n.term + 1, false, NOOP)])
                && (o.node.role != Leader ==> o.node.role == Candidate && o.node.log == n.log && o.node.votes == map[id := true])
  {
    hide JointVote, HasQuorum;
    AloneWins(cfg, id);
  }
}
