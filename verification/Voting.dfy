/** When a vote is due: logs can always be compared, and the best one is refused by nobody. */
module Voting {
  import opened Common
  import opened Quorum
  import opened Raft

  /** `b` is at least as up to date as `a`: who has `a` may vote for who has `b`. */
  predicate Reaches(a: Log, b: Log) {
    UpToDate(a, |b|, LastTerm(b))
  }

  /** Of two logs one is always at least as up to date as the other, and both are only if they end alike. */
  lemma LogsCompare(a: Log, b: Log)
    ensures Reaches(a, b) || Reaches(b, a)
    ensures Reaches(a, b) && Reaches(b, a) <==> |a| == |b| && LastTerm(a) == LastTerm(b)
  {
    hide LastTerm;
  }

  lemma ReachesTrans(a: Log, b: Log, c: Log)
    requires Reaches(a, b) && Reaches(b, c)
    ensures Reaches(a, c)
  {
    hide LastTerm;
  }

  /** The later last term wins whatever the lengths; with equal last terms the longer log does. */
  lemma LaterWins(a: Log, b: Log)
    ensures LastTerm(a) < LastTerm(b) ==> Reaches(a, b) && !Reaches(b, a)
    ensures LastTerm(a) == LastTerm(b) && |a| < |b| ==> Reaches(a, b) && !Reaches(b, a)
  {
    hide LastTerm;
  }

  /** Any collection of logs has one that all the others reach. */
  lemma {:induction false} BestLog(logs: map<nat, Log>) returns (best: nat)
    requires logs != map[]
    ensures best in logs && forall v :: v in logs ==> Reaches(logs[v], logs[best])
    decreases |logs|
  {
    hide Reaches;
    var v :| v in logs;
    var rest := logs - {v};
    LogsCompare(logs[v], logs[v]);
    assert forall w :: w in logs ==> w == v || (w in rest && rest[w] == logs[w]);
    if rest == map[] {
      best := v;
    } else {
      best := BestLog(rest);
      var other := best;
      LogsCompare(logs[v], logs[other]);
      if !Reaches(logs[v], logs[other]) {
        best := v;
        forall w | w in logs
          ensures Reaches(logs[w], logs[v])
        {
          if w != v {
            ReachesTrans(logs[w], logs[other], logs[v]);
          }
        }
      }
    }
  }

  // ------------------------------------------------------------- requests

  /** The vote of the request's term is still to be had, or is the candidate's already. */
  predicate VoteIsFree(n: Node, m: Message)
    requires m.Vote?
  {
    m.term > n.term || n.vote == m.from || (n.vote == INVALID_ID && n.leaderId == INVALID_ID)
  }

  /** The node gives way: to a longer log at any priority, else to no lower one. */
  predicate GivesWay(cfg: Settings, id: nat, n: Node, m: Message)
    requires m.Vote?
  {
    m.index > |n.log| || Priority(cfg, id) <= m.priority
  }

  /**
    A request of no earlier term is granted exactly if the vote is free, the candidate's log is at least as
    up to date, and the node gives way to it. A granted vote is recorded in the term of the request; a granted
    pre-vote changes nothing.
   */
  lemma GrantsExactly(cfg: Settings, id: nat, n: Node, m: Message)
    requires m.Vote? && m.term >= n.term && m.term > 0
    ensures var o := Step(cfg, id, n, m);
            var granted := VoteIsFree(n, m) && UpToDate(n.log, m.index, m.logTerm) && GivesWay(cfg, id, n, m);
            && (o.Next? && o.reply == Send(VoteResp(m.pre, id, m.from, m.term, false, 0, 0)) <==> granted)
            && (granted && m.pre ==> o.node == n)
            && (granted && !m.pre ==> o.node.term == m.term && o.node.vote == m.from && o.node.log == n.log && o.node.committed == n.committed)
  {
    hide UpToDate, CommitByVote, TermAt;
  }

  /** Whoever has the best log of a set of nodes gets the vote of each of them in any later term, if none outranks it. */
  lemma BestIsGranted(cfg: Settings, nodes: map<nat, Node>) returns (best: nat)
    requires nodes != map[]
    ensures best in nodes
    ensures forall v, term, commit, commitTerm, priority ::
              v in nodes && term > nodes[v].term && Priority(cfg, v) <= priority ==>
                var m := Vote(false, best, v, term, |nodes[best].log|, LastTerm(nodes[best].log), commit, commitTerm, priority);
                var o := Step(cfg, v, nodes[v], m);
                o.Next? && o.reply == Send(VoteResp(false, v, best, term, false, 0, 0)) && o.node.vote == best && o.node.term == term
  {
    var logs := map v | v in nodes :: nodes[v].log;
    assert logs.Keys == nodes.Keys;
    best := BestLog(logs);
    forall v, term: nat, commit, commitTerm, priority | v in nodes && term > nodes[v].term && Priority(cfg, v) <= priority
      ensures var m := Vote(false, best, v, term, |nodes[best].log|, LastTerm(nodes[best].log), commit, commitTerm, priority);
              var o := Step(cfg, v, nodes[v], m);
              o.Next? && o.reply == Send(VoteResp(false, v, best, term, false, 0, 0)) && o.node.vote == best && o.node.term == term
    {
      hide Step, Priority, LastTerm, UpToDate;
      assert Reaches(logs[v], logs[best]);
      GrantsExactly(cfg, v, nodes[v], Vote(false, best, v, term, |nodes[best].log|, LastTerm(nodes[best].log), commit, commitTerm, priority));
    }
  }
}
