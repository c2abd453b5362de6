/**
  State-machine safety for the documented `find_conflict`: what acknowledgements
  promise, why later leaders hold committed entries, and why committed prefixes agree.
 */
module ClusterSafety {
  import opened Quorum
  import opened Raft
  import opened Cluster
  import opened ClusterBase
  import opened ClusterSteps

  // ------------------------------------------------------------ invariants

  /** The log has, at index `k`, an entry of term `t`. */
  predicate Held(log: Log, t: nat, k: nat) {
    0 < k <= |log| && log[k - 1].term == t
  }

  /** A leader of a later term than `t`, elected before `limit`, lacks entry `k` of `t`. */
  ghost predicate Dropped(h: History, t: nat, k: nat, limit: nat) {
    exists w :: w in h.reigns && w > t && h.reigns[w].at < limit && !Held(h.reigns[w].log, t, k)
  }

  /** What `p` acknowledged in term `t` is still in `log`, unless the term had already failed. */
  ghost predicate Remembers(h: History, log: Log, p: nat, t: nat, limit: nat) {
    t in h.reigns ==> forall k: nat :: h.reigns[t].base < k <= AckOf(h, p, t) ==> Held(log, t, k) || Dropped(h, t, k, limit)
  }

  /** A ballot that decided its election was cast before it; others are only known to be in the past. */
  ghost function Limit(h: History, p: nat, u: nat): nat {
    if u in h.reigns && p in h.reigns[u].voters then h.reigns[u].at else |h.reigns|
  }

  ghost predicate BallotRemembers(h: History, p: nat, u: nat)
    requires (p, u) in h.ballots
  {
    forall t: nat :: t < u ==> Remembers(h, h.ballots[(p, u)].log, p, t, Limit(h, p, u))
  }

  ghost function Ackers(cfg: Settings, h: History, t: nat, k: nat): set<nat> {
    set p | p in Voters(cfg) && AckOf(h, p, t) >= k
  }

  /** Entry `k`, of term `t` itself, was acknowledged in that term by a quorum. */
  ghost predicate CommittedAt(cfg: Settings, h: History, t: nat, k: nat) {
    && t in h.reigns && h.reigns[t].base < k <= |h.reigns[t].log|
    && HasQuorum(cfg.voters, Ackers(cfg, h, t, k))
  }

  ghost predicate CommittedBy(cfg: Settings, h: History, log: Log, t: nat, k: nat) {
    CommittedAt(cfg, h, t, k) && |log| <= k && log == h.reigns[t].log[..|log|]
  }

  /** `log` is a prefix of some quorum-acknowledged prefix. */
  ghost predicate CommittedLog(cfg: Settings, h: History, log: Log) {
    log == [] || exists t, k :: CommittedBy(cfg, h, log, t, k)
  }

  /** The prefix of length `c` that ends in term `t` is committed. */
  ghost predicate CommittedTerm(cfg: Settings, h: History, c: nat, t: nat) {
    t in h.reigns && Held(h.reigns[t].log, t, c) && CommittedLog(cfg, h, h.reigns[t].log[..c])
  }

  /** A committed log departs from what the leader of `t` had right after position `d`: nothing further of it can be committed. */
  ghost predicate Broken(cfg: Settings, h: History, t: nat, d: nat) {
    && t in h.reigns && d < |h.reigns[t].log|
    && exists l :: DepartsAt(cfg, h, l, h.reigns[t].log, d)
  }

  ghost predicate DepartsAt(cfg: Settings, h: History, l: Log, r: Log, d: nat)
    requires d < |r|
  {
    CommittedLog(cfg, h, l) && d < |l| && l[d] != r[d]
  }

  /** Of the acknowledgement `c` in term `t` the first `d` entries are durable, and they are all that can still count. */
  ghost predicate AckKept(cfg: Settings, h: History, log: Log, persisted: nat, t: nat, c: nat, d: nat) {
    && t in h.reigns && d <= c && d <= persisted <= |log|
    && AgreesUpTo(log, h.reigns[t].log, d)
    && (d == c || Broken(cfg, h, t, d))
  }

  /**
    What `n` acknowledged in its current term is durable and of its leader's log, as far as that log can
    still be committed. It may be less than the number acknowledged: a reply that names a commit index can
    reach past the leader's log, and a crash may lose that commit index again.
   */
  ghost predicate CurrentAck(cfg: Settings, h: History, p: nat, n: Node) {
    var c := AckOf(h, p, n.term);
    c > 0 ==> exists d: nat :: AckKept(cfg, h, n.log, n.persisted, n.term, c, d)
  }

  predicate AgreesUpTo(a: Log, b: Log, k: nat) {
    k <= |a| && k <= |b| && a[..k] == b[..k]
  }

  ghost predicate AcksOK(h: History, p: nat, n: Node) {
    && (forall t :: (p, t) in h.acks ==> t <= n.term)
    && (n.persisted <= |n.log| ==> forall t: nat :: Remembers(h, n.log[..n.persisted], p, t, |h.reigns|))
  }

  ghost predicate LeaderSafe(cfg: Settings, h: History, n: Node) {
    n.role == Leader ==>
      && (forall q :: Matched(n, q) <= AckOf(h, q, n.term))
      && n.term in h.reigns
      && (n.committed > h.reigns[n.term].base ==> CommittedAt(cfg, h, n.term, n.committed))
  }

  ghost predicate CommitSafe(cfg: Settings, h: History, n: Node) {
    n.committed <= |n.log| && CommittedLog(cfg, h, n.log[..n.committed])
  }

  ghost predicate NodeSafe(cfg: Settings, h: History, p: nat, n: Node) {
    AcksOK(h, p, n) && CurrentAck(cfg, h, p, n) && CommitSafe(cfg, h, n) && LeaderSafe(cfg, h, n)
  }

  ghost predicate LeaderCommitKnown(cfg: Settings, h: History, t: nat, c: nat) {
    t in h.reigns && c <= |h.reigns[t].log| && CommittedLog(cfg, h, h.reigns[t].log[..c])
  }

  ghost predicate MessageSafe(cfg: Settings, h: History, m: Message) {
    match m
    case App(_, to, term, index, logTerm, _, commit) =>
      LeaderCommitKnown(cfg, h, term, commit) && (logTerm == 0 && index > 0 ==> index <= AckOf(h, to, term))
    case AppResp(from, _, term, reject, index, _, _, _) => !reject ==> index <= AckOf(h, from, term)
    case Heartbeat(_, to, term, commit) => LeaderCommitKnown(cfg, h, term, commit) && commit <= AckOf(h, to, term)
    case Vote(_, _, _, _, _, _, commit, commitTerm, _) => commit != 0 && commitTerm != 0 ==> CommittedTerm(cfg, h, commit, commitTerm)
    case VoteResp(_, _, _, _, _, commit, commitTerm) => commit != 0 && commitTerm != 0 ==> CommittedTerm(cfg, h, commit, commitTerm)
    case ReadIndexResp(_, _, term, index) => CommittedTerm(cfg, h, index, term)
    case HeartbeatResp(_, _, _, _) => true
  }

  ghost predicate BallotsRemember(h: History) {
    forall p, u :: (p, u) in h.ballots ==> BallotRemembers(h, p, u)
  }

  ghost predicate AcksKnown(h: History) {
    forall p, t :: (p, t) in h.acks ==> t in h.reigns
  }

  ghost predicate HistorySafe(cfg: Settings, h: History) {
    HistoryOK(cfg, h) && BallotsRemember(h) && AcksKnown(h)
  }

  ghost predicate SafeInv(cfg: Settings, s: State, h: History) {
    && BaseInv(cfg, s, h) && HistorySafe(cfg, h)
    && (forall p :: p in s.nodes ==> NodeSafe(cfg, h, p, s.nodes[p]))
    && (forall m :: m in s.msgs ==> MessageSafe(cfg, h, m))
  }

  // -------------------------------------------------- leader completeness

  /** A voter of `u` that had acknowledged entry `k` of `t` either held it or knew of a failed term. */
  lemma VoterHeld(cfg: Settings, h: History, t: nat, k: nat, u: nat) returns (p: nat)
    requires cfg.voters.incoming != {} && HistoryOK(cfg, h) && BallotsRemember(h)
    requires CommittedAt(cfg, h, t, k) && u in h.reigns && u > t
    ensures Voted(h, p, u, h.reigns[u].leader)
    ensures Held(h.ballots[(p, u)].log, t, k) || Dropped(h, t, k, h.reigns[u].at)
  {
    hide HasQuorum, Dropped, Held;
    assert ReignOK(cfg, h, u);
    p := QuorumsMeet(cfg.voters, Ackers(cfg, h, t, k), h.reigns[u].voters);
    assert Voted(h, p, u, h.reigns[u].leader);
    assert BallotRemembers(h, p, u);
    assert Remembers(h, h.ballots[(p, u)].log, p, t, Limit(h, p, u));
  }

  /** The log with which the winner of `u` campaigned. */
  ghost function Campaigned(h: History, u: nat): Log
    requires u in h.reigns && h.reigns[u].base <= |h.reigns[u].log|
  {
    h.reigns[u].log[..h.reigns[u].base]
  }

  lemma CampaignedFacts(cfg: Settings, h: History, u: nat, p: nat)
    requires HistoryOK(cfg, h) && u in h.reigns && Voted(h, p, u, h.reigns[u].leader)
    ensures h.reigns[u].base < |h.reigns[u].log|
    ensures var y, x := Campaigned(h, u), h.ballots[(p, u)].log;
            && LogOK(h, x) && LogOK(h, y) && UpToDate(x, |y|, LastTerm(y))
            && (|y| > 0 ==> OlderReign(h, LastTerm(y), u))
  {
    assert ReignOK(cfg, h, u) && BallotOK(h, p, u);
    PrefixOK(h, h.reigns[u].log, h.reigns[u].base);
  }

  /** The winner of `u` was at least as up to date as a voter that held the entry. */
  lemma WinnerHeld(cfg: Settings, h: History, t: nat, k: nat, u: nat, p: nat)
    requires HistoryOK(cfg, h) && u in h.reigns && Voted(h, p, u, h.reigns[u].leader)
    requires Held(h.ballots[(p, u)].log, t, k)
    requires forall w :: w in h.reigns && w > t && h.reigns[w].at < h.reigns[u].at ==> Held(h.reigns[w].log, t, k)
    ensures Held(h.reigns[u].log, t, k)
  {
    hide HistoryOK, LogOK;
    CampaignedFacts(cfg, h, u, p);
    var y, x := Campaigned(h, u), h.ballots[(p, u)].log;
    Sorted(cfg, h, x, k - 1, |x| - 1);
    assert |y| > 0;
    if LastTerm(y) == LastTerm(x) {
      LastPosition(cfg, h, x, y, LastTerm(y));
      SamePrefix(h, y, x, |x|);
      assert y[..|x|][k - 1] == x[..|x|][k - 1];
    } else {
      OlderHeld(cfg, h, y, t, k, LastTerm(y));
    }
  }

  lemma LastPosition(cfg: Settings, h: History, x: Log, y: Log, w: nat)
    requires HistoryOK(cfg, h) && LogOK(h, x) && LogOK(h, y)
    requires 0 < |x| <= |y| && LastTerm(x) == w == LastTerm(y)
    ensures x[|x| - 1].term == y[|x| - 1].term
  {
    assert EntryOK(h, x, |x| - 1) && EntryOK(h, y, |y| - 1);
    var r := h.reigns[w].log;
    assert x[|x| - 1] == r[..|x|][|x| - 1] == r[|x| - 1];
    assert y[..|y|][|x| - 1] == r[..|y|][|x| - 1];
  }

  /** A log that ends in a later term than `t`, whose leader held entry `k` of `t`, holds it too. */
  lemma OlderHeld(cfg: Settings, h: History, y: Log, t: nat, k: nat, w: nat)
    requires HistoryOK(cfg, h) && LogOK(h, y) && |y| > 0 && LastTerm(y) == w > t
    requires w in h.reigns && Held(h.reigns[w].log, t, k)
    ensures Held(y, t, k)
  {
    hide ReignOK, BallotOK;
    assert EntryOK(h, y, |y| - 1);
    var r := h.reigns[w].log;
    assert y == y[..|y|];
    assert r[|y| - 1] == r[..|y|][|y| - 1] == y[|y| - 1];
    if k > |y| {
      ReignLogOK(cfg, h, w);
      Sorted(cfg, h, r, |y| - 1, k - 1);
    }
    assert y[k - 1] == r[..|y|][k - 1] == r[k - 1];
  }

  /** Leader completeness: whoever is elected for a later term holds a quorum-acknowledged entry. */
  lemma {:induction false} Complete(cfg: Settings, h: History, t: nat, k: nat, u: nat)
    requires cfg.voters.incoming != {} && HistoryOK(cfg, h) && BallotsRemember(h)
    requires CommittedAt(cfg, h, t, k) && u in h.reigns && u > t
    ensures Held(h.reigns[u].log, t, k)
    decreases h.reigns[u].at
  {
    hide HistoryOK, BallotsRemember, CommittedAt;
    forall w | w in h.reigns && w > t && h.reigns[w].at < h.reigns[u].at
      ensures Held(h.reigns[w].log, t, k)
    {
      Complete(cfg, h, t, k, w);
    }
    var p := VoterHeld(cfg, h, t, k, u);
    WinnerHeld(cfg, h, t, k, u, p);
  }

  /** The log of a later leader starts with every committed prefix of earlier terms. */
  lemma CompletePrefix(cfg: Settings, h: History, log: Log, t: nat, k: nat, u: nat)
    requires cfg.voters.incoming != {} && HistoryOK(cfg, h) && BallotsRemember(h)
    requires CommittedBy(cfg, h, log, t, k) && u in h.reigns && u >= t
    ensures |log| <= k && AgreesUpTo(log, h.reigns[u].log, |log|)
    ensures AgreesUpTo(h.reigns[t].log, h.reigns[u].log, k)
  {
    hide HistoryOK, BallotsRemember, HasQuorum;
    if u > t {
      Complete(cfg, h, t, k, u);
      ReignLogOK(cfg, h, t);
      ReignLogOK(cfg, h, u);
      OwnTerm(cfg, h, t, k);
      SamePrefix(h, h.reigns[t].log, h.reigns[u].log, k);
    }
    var n := |log|;
    assert h.reigns[t].log[..k][..n] == h.reigns[t].log[..n];
    assert h.reigns[u].log[..k][..n] == h.reigns[u].log[..n];
    assert log[..n] == log;
  }

  lemma OwnTerm(cfg: Settings, h: History, t: nat, k: nat)
    requires HistoryOK(cfg, h) && t in h.reigns && h.reigns[t].base < k <= |h.reigns[t].log|
    ensures h.reigns[t].log[k - 1].term == t
  {
    assert ReignOK(cfg, h, t);
  }

  /** Any two committed prefixes agree as far as both go. */
  lemma CommittedAgree(cfg: Settings, h: History, a: Log, b: Log, i: nat)
    requires cfg.voters.incoming != {} && HistoryOK(cfg, h) && BallotsRemember(h)
    requires CommittedLog(cfg, h, a) && CommittedLog(cfg, h, b) && i < |a| && i < |b|
    ensures a[i] == b[i]
  {
    hide HistoryOK, BallotsRemember, CommittedBy;
    var t, k :| CommittedBy(cfg, h, a, t, k);
    var u, l :| CommittedBy(cfg, h, b, u, l);
    CommittedTerms(cfg, h, a, t, k);
    CommittedTerms(cfg, h, b, u, l);
    if t <= u {
      CompletePrefix(cfg, h, a, t, k, u);
      CompletePrefix(cfg, h, b, u, l, u);
      AgreeAt(a, b, h.reigns[u].log, i);
    } else {
      CompletePrefix(cfg, h, b, u, l, t);
      CompletePrefix(cfg, h, a, t, k, t);
      AgreeAt(a, b, h.reigns[t].log, i);
    }
  }

  lemma CommittedTerms(cfg: Settings, h: History, log: Log, t: nat, k: nat)
    requires CommittedBy(cfg, h, log, t, k)
    ensures t in h.reigns
  {
    hide HasQuorum;
  }

  lemma AgreeAt(a: Log, b: Log, c: Log, i: nat)
    requires AgreesUpTo(a, c, |a|) && AgreesUpTo(b, c, |b|) && i < |a| && i < |b|
    ensures a[i] == b[i]
  {
    assert a[..|a|][i] == c[..|a|][i] && b[..|b|][i] == c[..|b|][i];
  }

  lemma CommittedPrefix(cfg: Settings, h: History, log: Log, n: nat)
    requires CommittedLog(cfg, h, log) && n <= |log|
    ensures CommittedLog(cfg, h, log[..n])
  {
    hide CommittedAt;
    if n > 0 {
      var t, k :| CommittedBy(cfg, h, log, t, k);
      CommittedShorter(cfg, h, log, n, t, k);
    }
  }

  lemma CommittedShorter(cfg: Settings, h: History, log: Log, n: nat, t: nat, k: nat)
    requires CommittedBy(cfg, h, log, t, k) && n <= |log|
    ensures CommittedBy(cfg, h, log[..n], t, k)
  {
    hide HasQuorum;
    assert h.reigns[t].log[..|log|][..n] == h.reigns[t].log[..n];
  }
}
