/** The four ways the history grows, and what each of them keeps. */
module RaftHistorySteps {
  import opened RaftOps
  import opened RaftHistory

  /** A later history: elections keep their beginnings and their logs grow; acceptance grows. */
  ghost predicate Grows(h: History, h': History) {
    && (forall t: nat {:trigger ElectionGrows(h, h', t)} :: t in h.elections ==> ElectionGrows(h, h', t))
    && (forall t: nat, v: Id {:trigger AcceptanceGrows(h, h', t, v)} :: (t, v) in h.accepted ==> AcceptanceGrows(h, h', t, v))
  }

  ghost predicate ElectionGrows(h: History, h': History, t: nat)
    requires t in h.elections
  {
    && t in h'.elections
    && h'.elections[t].leader == h.elections[t].leader
    && h'.elections[t].start == h.elections[t].start
    && h'.elections[t].votes == h.elections[t].votes
    && h.elections[t].log <= h'.elections[t].log
  }

  ghost predicate AcceptanceGrows(h: History, h': History, t: nat, v: Id)
    requires (t, v) in h.accepted
  {
    (t, v) in h'.accepted && h.accepted[(t, v)] <= h'.accepted[(t, v)]
  }

  lemma GrowsTransitive(h: History, h': History, h'': History)
    requires Grows(h, h') && Grows(h', h'')
    ensures Grows(h, h'')
  {
    forall t: nat | t in h.elections ensures ElectionGrows(h, h'', t) {
      assert ElectionGrows(h, h', t) && ElectionGrows(h', h'', t);
    }
    forall t: nat, v: Id | (t, v) in h.accepted ensures AcceptanceGrows(h, h'', t, v) {
      assert AcceptanceGrows(h, h', t, v) && AcceptanceGrows(h', h'', t, v);
    }
  }

  // ----- what survives growth

  lemma AnchoredGrows(h: History, h': History, log: Log, k: nat)
    requires Grows(h, h') && k < |log| && Anchored(h, log, k)
    ensures Anchored(h', log, k)
  {
    assert ElectionGrows(h, h', log[k].term);
  }

  lemma WrittenGrows(h: History, h': History, sync: nat, log: Log)
    requires Grows(h, h') && Written(h, sync, log)
    ensures Written(h', sync, log)
  {
    if sync != 0 {
      assert ElectionGrows(h, h', sync);
    }
  }

  lemma CommittedGrows(n: nat, h: History, h': History, t: nat, m: nat)
    requires Grows(h, h') && Committed(n, h, t, m)
    ensures Committed(n, h', t, m) && h'.elections[t].log[..m] == h.elections[t].log[..m]
  {
    assert ElectionGrows(h, h', t);
    var q: set<Id> :| q <= ServerSet(n) && IsQuorum(n, q) && AcceptedBy(h, t, m, q);
    assert AcceptedBy(h', t, m, q) by {
      forall k | k in q ensures (t, k) in h'.accepted && h'.accepted[(t, k)] >= m {
        assert AcceptanceGrows(h, h', t, k);
      }
    }
  }

  lemma CommittedLogGrows(n: nat, h: History, h': History, s: nat, log: Log)
    requires Grows(h, h') && CommittedLog(n, h, s, log)
    ensures CommittedLog(n, h', s, log)
  {
    if log != [] {
      var t: nat, m: nat :| t <= s && Committed(n, h, t, m) && log <= h.elections[t].log[..m];
      CommittedGrows(n, h, h', t, m);
    }
  }

  /** Outside `(t, v)` the record of what was accepted is the same. */
  ghost predicate AcceptedSameBut(h: History, h': History, t: nat, v: Id) {
    forall u: nat, w: Id {:trigger (u, w) in h'.accepted} :: (u, w) != (t, v) ==>
      ((u, w) in h'.accepted <==> (u, w) in h.accepted) &&
      ((u, w) in h.accepted ==> h'.accepted[(u, w)] == h.accepted[(u, w)])
  }

  lemma BallotStable(n: nat, h: History, h': History, t: nat, v: Id, b: Ballot, u: nat, w: Id)
    requires Grows(h, h') && AcceptedSameBut(h, h', u, w)
    requires BallotOk(n, h, t, v, b) && (v == w ==> t <= u)
    ensures BallotOk(n, h', t, v, b)
  {
    WrittenGrows(h, h', b.sync, b.log);
  }

  lemma ElectionStable(n: nat, h: History, h': History, t: nat, u: nat, w: Id)
    requires Grows(h, h') && AcceptedSameBut(h, h', u, w)
    requires t in h.elections && ElectionOk(n, h, t)
    requires t in h'.elections && h'.elections[t] == h.elections[t]
    requires forall v: Id :: (t, v) in h.ballots ==> (t, v) in h'.ballots && h'.ballots[(t, v)].cand == h.ballots[(t, v)].cand
    requires (t, w) in h.ballots ==> t <= u
    ensures ElectionOk(n, h', t)
  {
    var e := h.elections[t];
    forall k | 0 <= k < |e.start| ensures Anchored(h', e.start, k) {
      assert Anchored(h, e.start, k);
      AnchoredGrows(h, h', e.start, k);
    }
    forall v | v in e.votes ensures VoteOk(n, h', t, v, e) {
      assert VoteOk(n, h, t, v, e);
      BallotStable(n, h, h', t, v, e.votes[v], u, w);
    }
  }

  // ----- the four steps

  function AddBallot(h: History, t: nat, v: Id, b: Ballot): History {
    h.(ballots := h.ballots[(t, v) := b])
  }

  lemma AddBallotOk(n: nat, h: History, t: nat, v: Id, b: Ballot)
    requires HistoryOk(n, h) && BallotOk(n, h, t, v, b)
    requires (t, v) in h.ballots ==> h.ballots[(t, v)].cand == b.cand
    ensures var h' := AddBallot(h, t, v, b); HistoryOk(n, h') && Grows(h, h')
  {
    var h' := AddBallot(h, t, v, b);
    assert Grows(h, h');
    forall u: nat | u in h'.elections ensures ElectionOk(n, h', u) {
      assert ElectionOk(n, h, u);
      ElectionStable(n, h, h', u, u, 0);
    }
    forall u: nat, w: Id | (u, w) in h'.ballots ensures BallotOk(n, h', u, w, h'.ballots[(u, w)]) {
      if (u, w) != (t, v) {
        assert BallotOk(n, h, u, w, h.ballots[(u, w)]);
      }
      BallotStable(n, h, h', u, w, h'.ballots[(u, w)], u, 0);
    }
    forall u: nat, w: Id | (u, w) in h'.accepted ensures AcceptanceOk(n, h', u, w) {
      assert AcceptanceOk(n, h, u, w);
    }
  }

  function Accept(h: History, t: nat, i: Id, k: nat): History {
    h.(accepted := h.accepted[(t, i) := k], sync := h.sync[i := t])
  }

  lemma AcceptOk(n: nat, h: History, t: nat, i: Id, k: nat)
    requires HistoryOk(n, h) && i in ServerSet(n)
    requires t in h.elections && k <= |h.elections[t].log|
    requires (t, i) in h.accepted ==> h.accepted[(t, i)] <= k
    requires forall u: nat :: (u, i) in h.ballots ==> u <= t
    ensures var h' := Accept(h, t, i, k); HistoryOk(n, h') && Grows(h, h')
  {
    var h' := Accept(h, t, i, k);
    assert Grows(h, h') && AcceptedSameBut(h, h', t, i);
    forall u: nat | u in h'.elections ensures ElectionOk(n, h', u) {
      assert ElectionOk(n, h, u);
      ElectionStable(n, h, h', u, t, i);
    }
    forall u: nat, w: Id | (u, w) in h'.ballots ensures BallotOk(n, h', u, w, h'.ballots[(u, w)]) {
      assert BallotOk(n, h, u, w, h.ballots[(u, w)]);
      BallotStable(n, h, h', u, w, h'.ballots[(u, w)], t, i);
    }
    forall u: nat, w: Id | (u, w) in h'.accepted ensures AcceptanceOk(n, h', u, w) {
      if (u, w) != (t, i) {
        assert AcceptanceOk(n, h, u, w);
      }
    }
  }

  function ExtendLeader(h: History, t: nat, log: Log): History
    requires t in h.elections
  {
    h.(elections := h.elections[t := h.elections[t].(log := log)])
  }

  lemma ExtendLeaderOk(n: nat, h: History, t: nat, entry: Entry)
    requires HistoryOk(n, h) && t in h.elections && entry.term == t
    ensures var h' := ExtendLeader(h, t, h.elections[t].log + [entry]); HistoryOk(n, h') && Grows(h, h')
  {
    var h' := ExtendLeader(h, t, h.elections[t].log + [entry]);
    assert Grows(h, h') by {
      forall u: nat | u in h.elections ensures ElectionGrows(h, h', u) {}
    }
    forall u: nat | u in h'.elections ensures ElectionOk(n, h', u) {
      assert ElectionOk(n, h, u);
      var e := h.elections[u];
      var e' := h'.elections[u];
      forall k | 0 <= k < |e.start| ensures Anchored(h', e'.start, k) {
        assert Anchored(h, e.start, k);
        AnchoredGrows(h, h', e.start, k);
      }
      forall v | v in e'.votes ensures VoteOk(n, h', u, v, e') {
        assert VoteOk(n, h, u, v, e);
        BallotStable(n, h, h', u, v, e.votes[v], u, 0);
      }
    }
    forall u: nat, w: Id | (u, w) in h'.ballots ensures BallotOk(n, h', u, w, h'.ballots[(u, w)]) {
      assert BallotOk(n, h, u, w, h.ballots[(u, w)]);
      BallotStable(n, h, h', u, w, h'.ballots[(u, w)], u, 0);
    }
    forall u: nat, w: Id | (u, w) in h'.accepted ensures AcceptanceOk(n, h', u, w) {
      assert AcceptanceOk(n, h, u, w);
    }
  }

  function Elect(h: History, t: nat, e: Election): History {
    h.(elections := h.elections[t := e])
  }

  ghost predicate CanElect(n: nat, h: History, t: nat, e: Election) {
    && 1 <= t && t !in h.elections
    && e.leader in ServerSet(n)
    && e.log == e.start
    && LogOk(h, e.start)
    && (forall k :: 0 <= k < |e.start| ==> e.start[k].term < t)
    && IsQuorum(n, e.votes.Keys)
    && (forall v {:trigger VoteOk(n, h, t, v, e)} :: v in e.votes ==> VoteOk(n, h, t, v, e))
  }

  lemma ElectOk(n: nat, h: History, t: nat, e: Election)
    requires HistoryOk(n, h) && CanElect(n, h, t, e)
    ensures var h' := Elect(h, t, e); HistoryOk(n, h') && Grows(h, h')
  {
    var h' := Elect(h, t, e);
    assert Grows(h, h');
    forall u: nat | u in h'.elections ensures ElectionOk(n, h', u) {
      if u == t {
        NewElectionOk(n, h, h', t, e);
      } else {
        assert ElectionOk(n, h, u);
        ElectionStable(n, h, h', u, u, 0);
      }
    }
    forall u: nat, w: Id | (u, w) in h'.ballots ensures BallotOk(n, h', u, w, h'.ballots[(u, w)]) {
      assert BallotOk(n, h, u, w, h.ballots[(u, w)]);
      BallotStable(n, h, h', u, w, h'.ballots[(u, w)], u, 0);
    }
    forall u: nat, w: Id | (u, w) in h'.accepted ensures AcceptanceOk(n, h', u, w) {
      assert AcceptanceOk(n, h, u, w);
    }
  }

  lemma NewElectionOk(n: nat, h: History, h': History, t: nat, e: Election)
    requires CanElect(n, h, t, e) && h' == Elect(h, t, e) && Grows(h, h')
    ensures ElectionOk(n, h', t)
  {
    forall k | 0 <= k < |e.start| ensures Anchored(h', e.start, k) {
      assert Anchored(h, e.start, k);
      AnchoredGrows(h, h', e.start, k);
    }
    forall v | v in e.votes ensures VoteOk(n, h', t, v, e) {
      assert VoteOk(n, h, t, v, e);
      BallotStable(n, h, h', t, v, e.votes[v], t, 0);
    }
  }
}
