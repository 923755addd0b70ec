/**
 The history of an execution: which elections were won, which votes were cast and how much of each leader's
 log every server has held. It is kept beside the state only for the proofs. Everything a protocol step needs
 to know about the past is a property of this record, and leader completeness follows from it alone.
 */
module RaftHistory {
  import opened RaftOps

  /** A vote: the candidate, the voter's log when it voted, and the last term whose leader had written that log. */
  datatype Ballot = Ballot(cand: Id, log: Log, sync: nat)

  /** A won election: the leader, its log when it won, its log now, and the votes that made it leader. */
  datatype Election = Election(leader: Id, start: Log, log: Log, votes: map<Id, Ballot>)

  datatype History = History(
    elections: map<nat, Election>,
    ballots: map<(nat, Id), Ballot>,
    accepted: map<(nat, Id), nat>,
    sync: map<Id, nat>)

  predicate UpToDate(cand: Log, voter: Log) {
    || LastTerm(cand) > LastTerm(voter)
    || (LastTerm(cand) == LastTerm(voter) && |cand| >= |voter|)
  }

  /** Entry `k` was written by the leader of its own term, and everything before it came from that leader too. */
  ghost predicate Anchored(h: History, log: Log, k: nat)
    requires k < |log|
  {
    var t := log[k].term;
    t in h.elections && |h.elections[t].start| <= k < |h.elections[t].log| && log[..k + 1] <= h.elections[t].log
  }

  ghost predicate LogOk(h: History, log: Log) {
    forall k {:trigger Anchored(h, log, k)} :: 0 <= k < |log| ==> Anchored(h, log, k)
  }

  /** The log was copied whole from the leader of term `t` at some moment of its leadership. */
  ghost predicate CopiedFrom(h: History, t: nat, log: Log) {
    t in h.elections && h.elections[t].start <= log <= h.elections[t].log
  }

  ghost predicate Written(h: History, sync: nat, log: Log) {
    if sync == 0 then log == [] else CopiedFrom(h, sync, log)
  }

  /** Of the terms before `t`, voter `v` accepted nothing after `b.sync`, and from that term exactly its log. */
  ghost predicate BallotOk(n: nat, h: History, t: nat, v: Id, b: Ballot) {
    && v in ServerSet(n)
    && b.sync <= t
    && Written(h, b.sync, b.log)
    && forall u: nat :: u < t && (u, v) in h.accepted ==>
         u <= b.sync && (u == b.sync ==> h.accepted[(u, v)] == |b.log|)
  }

  ghost predicate ElectionOk(n: nat, h: History, t: nat)
    requires t in h.elections
  {
    var e := h.elections[t];
    && 1 <= t
    && e.leader in ServerSet(n)
    && e.start <= e.log
    && (forall k {:trigger Anchored(h, e.start, k)} :: 0 <= k < |e.start| ==> Anchored(h, e.start, k))
    && (forall k :: 0 <= k < |e.start| ==> e.start[k].term < t)
    && (forall k :: |e.start| <= k < |e.log| ==> e.log[k].term == t)
    && IsQuorum(n, e.votes.Keys)
    && (forall v {:trigger VoteOk(n, h, t, v, e)} :: v in e.votes ==> VoteOk(n, h, t, v, e))
  }

  /** A vote that counted: cast for the leader, by a server whose log was no newer, before the leader wrote to it. */
  ghost predicate VoteOk(n: nat, h: History, t: nat, v: Id, e: Election)
    requires v in e.votes
  {
    && BallotOk(n, h, t, v, e.votes[v])
    && e.votes[v].sync < t
    && e.votes[v].cand == e.leader
    && (t, v) in h.ballots && h.ballots[(t, v)].cand == e.leader
    && UpToDate(e.start, e.votes[v].log)
  }

  ghost predicate ElectionsOk(n: nat, h: History) {
    forall t: nat {:trigger ElectionOk(n, h, t)} :: t in h.elections ==> ElectionOk(n, h, t)
  }

  ghost predicate AcceptanceOk(n: nat, h: History, t: nat, v: Id)
    requires (t, v) in h.accepted
  {
    v in ServerSet(n) && t in h.elections && h.accepted[(t, v)] <= |h.elections[t].log|
  }

  ghost predicate AcceptedOk(n: nat, h: History) {
    forall t: nat, v: Id {:trigger AcceptanceOk(n, h, t, v)} :: (t, v) in h.accepted ==> AcceptanceOk(n, h, t, v)
  }

  ghost predicate BallotsOk(n: nat, h: History) {
    forall t: nat, v: Id {:trigger BallotOk(n, h, t, v, h.ballots[(t, v)])} ::
      (t, v) in h.ballots ==> BallotOk(n, h, t, v, h.ballots[(t, v)])
  }

  ghost predicate HistoryOk(n: nat, h: History) {
    ElectionsOk(n, h) && AcceptedOk(n, h) && BallotsOk(n, h)
  }

  /** The first `m` entries of the leader of term `t` are on a quorum, and the last of them is its own. */
  ghost predicate Committed(n: nat, h: History, t: nat, m: nat) {
    && t in h.elections
    && 0 < m <= |h.elections[t].log|
    && h.elections[t].log[m - 1].term == t
    && exists q: set<Id> :: q <= ServerSet(n) && IsQuorum(n, q) && AcceptedBy(h, t, m, q)
  }

  ghost predicate AcceptedBy(h: History, t: nat, m: nat, q: set<Id>) {
    forall k :: k in q ==> (t, k) in h.accepted && h.accepted[(t, k)] >= m
  }

  /** The log lies within what a leader of some term up to `s` committed. */
  ghost predicate CommittedLog(n: nat, h: History, s: nat, log: Log) {
    log == [] || exists t: nat, m: nat {:trigger Committed(n, h, t, m)} :: t <= s && Committed(n, h, t, m) && log <= h.elections[t].log[..m]
  }

  // ----- logs

  lemma CopiedLogOk(n: nat, h: History, t: nat, log: Log)
    requires ElectionsOk(n, h) && CopiedFrom(h, t, log)
    ensures LogOk(h, log)
    ensures forall k :: 0 <= k < |log| ==> log[k].term <= t
    ensures forall k :: 0 <= k < |log| ==> (log[k].term == t <==> |h.elections[t].start| <= k)
  {
    assert ElectionOk(n, h, t);
    var e := h.elections[t];
    forall k | 0 <= k < |log|
      ensures Anchored(h, log, k) && log[k].term <= t && (log[k].term == t <==> |e.start| <= k)
    {
      assert log[k] == e.log[k];
      if k < |e.start| {
        assert Anchored(h, e.start, k);
        assert log[..k + 1] == e.start[..k + 1];
      }
    }
  }

  lemma WrittenLogOk(n: nat, h: History, sync: nat, log: Log)
    requires ElectionsOk(n, h) && Written(h, sync, log)
    ensures LogOk(h, log)
    ensures forall k :: 0 <= k < |log| ==> log[k].term <= sync
  {
    if sync != 0 {
      CopiedLogOk(n, h, sync, log);
    }
  }

  lemma TermsMonotone(n: nat, h: History, log: Log, i: nat, j: nat)
    requires ElectionsOk(n, h) && LogOk(h, log) && i <= j < |log|
    ensures log[i].term <= log[j].term
  {
    assert Anchored(h, log, j);
    var t := log[j].term;
    assert ElectionOk(n, h, t);
    assert log[..j + 1][i] == h.elections[t].log[i];
    var e := h.elections[t];
    if i < |e.start| {
      assert Anchored(h, e.start, i);
    }
  }

  /** Log matching: logs that agree on the term at one index agree on everything up to it. */
  lemma LogsMatch(h: History, a: Log, b: Log, k: nat)
    requires LogOk(h, a) && LogOk(h, b)
    requires k < |a| && k < |b| && a[k].term == b[k].term
    ensures a[..k + 1] == b[..k + 1]
  {
    assert Anchored(h, a, k) && Anchored(h, b, k);
  }

  // ----- leader completeness

  /**
   What one leader committed, every later leader started from. The induction is on the later term: a voter
   common to both quorums held the committed entries when it voted, either straight from the leader of `t`
   or through a leader in between, and the election's up-to-date check carries them to the new leader.
   */
  lemma {:induction false} LeaderCompleteness(n: nat, h: History, t: nat, m: nat, t': nat)
    requires HistoryOk(n, h) && Committed(n, h, t, m)
    requires t' in h.elections && t < t'
    ensures h.elections[t].log[..m] <= h.elections[t'].start
    decreases t'
  {
    var p := h.elections[t].log[..m];
    var e := h.elections[t'];
    assert ElectionOk(n, h, t') && ElectionOk(n, h, t);
    var q :| q <= ServerSet(n) && IsQuorum(n, q) && AcceptedBy(h, t, m, q);
    assert e.votes.Keys <= ServerSet(n) by {
      forall v | v in e.votes.Keys ensures v in ServerSet(n) {
        assert VoteOk(n, h, t', v, e);
      }
    }
    var k := QuorumsIntersect(n, q, e.votes.Keys);
    var b := e.votes[k];
    assert VoteOk(n, h, t', k, e);
    assert (t, k) in h.accepted && h.accepted[(t, k)] >= m;
    assert t <= b.sync < t' && CopiedFrom(h, b.sync, b.log);
    if b.sync != t {
      LeaderCompleteness(n, h, t, m, b.sync);
    }
    assert p <= b.log;
    CarriedByUpToDateLog(n, h, t, m, t', b);
  }

  lemma {:induction false} CarriedByUpToDateLog(n: nat, h: History, t: nat, m: nat, t': nat, b: Ballot)
    requires HistoryOk(n, h) && Committed(n, h, t, m)
    requires t' in h.elections && t <= b.sync < t'
    requires CopiedFrom(h, b.sync, b.log) && UpToDate(h.elections[t'].start, b.log)
    requires h.elections[t].log[..m] <= b.log
    ensures h.elections[t].log[..m] <= h.elections[t'].start
    decreases t', 0
  {
    var start := h.elections[t'].start;
    LastTermAtLeast(n, h, t, m, b);
    var u := LastTerm(start);
    StartIsFromItsLastTerm(n, h, t');
    if u == t {
      assert h.elections[t].log[..m] <= start;
    } else {
      LeaderCompleteness(n, h, t, m, u);
      PrefixesOfOneLog(h.elections[t].log[..m], start, h.elections[u].log);
    }
  }

  lemma LastTermAtLeast(n: nat, h: History, t: nat, m: nat, b: Ballot)
    requires ElectionsOk(n, h) && Committed(n, h, t, m)
    requires CopiedFrom(h, b.sync, b.log) && h.elections[t].log[..m] <= b.log
    ensures |b.log| >= m && LastTerm(b.log) >= t >= 1
  {
    assert ElectionOk(n, h, t);
    assert h.elections[t].log[..m][m - 1] == b.log[m - 1];
    LastTermIsGreatest(n, h, b.sync, b.log, m - 1);
  }

  lemma LastTermIsGreatest(n: nat, h: History, t: nat, log: Log, k: nat)
    requires ElectionsOk(n, h) && CopiedFrom(h, t, log) && k < |log|
    ensures log[k].term <= LastTerm(log)
  {
    CopiedLogOk(n, h, t, log);
    TermsMonotone(n, h, log, k, |log| - 1);
  }

  /** A leader's starting log is a log of the leader of its own last term, reaching beyond where that one started. */
  lemma StartIsFromItsLastTerm(n: nat, h: History, t: nat)
    requires ElectionsOk(n, h) && t in h.elections && h.elections[t].start != []
    ensures var start := h.elections[t].start; var u := LastTerm(start);
            && u < t && u in h.elections
            && |h.elections[u].start| < |start| && start <= h.elections[u].log
            && h.elections[u].start <= h.elections[u].log
  {
    var start := h.elections[t].start;
    assert ElectionOk(n, h, t);
    assert Anchored(h, start, |start| - 1);
    assert start[..|start| - 1 + 1] == start;
    assert ElectionOk(n, h, LastTerm(start));
  }

  /** Every committed log up to term `t` is a prefix of the leader of term `t`; one from an earlier term, of its start. */
  lemma CommittedIsInLeader(n: nat, h: History, s: nat, log: Log, t: nat)
    requires HistoryOk(n, h) && CommittedLog(n, h, s, log)
    requires t in h.elections && s <= t
    ensures log <= h.elections[t].log
    ensures s < t ==> log <= h.elections[t].start
  {
    assert ElectionOk(n, h, t);
    if log != [] {
      var u: nat, m: nat :| u <= s && Committed(n, h, u, m) && log <= h.elections[u].log[..m];
      if u < t {
        LeaderCompleteness(n, h, u, m, t);
      }
    }
  }

  /** State machine safety: of any two committed logs one extends the other. */
  lemma CommittedLogsAgree(n: nat, h: History, s: nat, a: Log, s': nat, b: Log)
    requires HistoryOk(n, h) && CommittedLog(n, h, s, a) && CommittedLog(n, h, s', b)
    ensures a <= b || b <= a
  {
    if a != [] && b != [] {
      var u: nat, m: nat :| u <= s && Committed(n, h, u, m) && a <= h.elections[u].log[..m];
      var u': nat, m': nat :| u' <= s' && Committed(n, h, u', m') && b <= h.elections[u'].log[..m'];
      var t := if u <= u' then u' else u;
      assert CommittedLog(n, h, u, a) && CommittedLog(n, h, u', b);
      CommittedIsInLeader(n, h, u, a, t);
      CommittedIsInLeader(n, h, u', b, t);
      PrefixesOfOneLog(a, b, h.elections[t].log);
    }
  }

  lemma PrefixesOfOneLog(a: Log, b: Log, c: Log)
    requires a <= c && b <= c
    ensures |a| <= |b| ==> a <= b
    ensures |b| <= |a| ==> b <= a
  {
  }
}
