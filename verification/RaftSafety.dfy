/** What holds in every execution of the cluster, stated on its states alone. */
module RaftSafety {
  import opened RaftOps
  import opened RaftServer
  import opened RaftSystem
  import opened RaftHistory
  import opened RaftHistorySteps
  import opened RaftInvariant
  import opened RaftFrame
  import opened RaftActions
  import opened RaftSections
  import opened RaftCounting
  import opened RaftPreservation

  ghost function HistoryAt(c: Config, r: Run, k: nat): History
    requires IsRun(c, r) && k < |r.states|
  {
    if k == 0 then InitHistory(c)
    else assert StepAt(c, r, k - 1); NextHistory(c, r.states[k - 1], HistoryAt(c, r, k - 1), r.steps[k - 1])
  }

  lemma {:induction false} RunKeepsInv(c: Config, r: Run, k: nat)
    requires IsRun(c, r) && k < |r.states|
    ensures Inv(c, r.states[k], HistoryAt(c, r, k))
  {
    if k == 0 {
      InitInv(c, r.states[0]);
    } else {
      RunKeepsInv(c, r, k - 1);
      assert StepAt(c, r, k - 1);
      StepKeepsInv(c, r.states[k - 1], HistoryAt(c, r, k - 1), r.steps[k - 1]);
    }
  }

  lemma {:induction false} RunGrows(c: Config, r: Run, p: nat, q: nat)
    requires IsRun(c, r) && p <= q < |r.states|
    ensures Grows(HistoryAt(c, r, p), HistoryAt(c, r, q))
    decreases q
  {
    if p == q {
      Reflexive(HistoryAt(c, r, p), 0);
    } else {
      RunGrows(c, r, p, q - 1);
      RunKeepsInv(c, r, q - 1);
      assert StepAt(c, r, q - 1);
      StepKeepsInv(c, r.states[q - 1], HistoryAt(c, r, q - 1), r.steps[q - 1]);
      GrowsTransitive(HistoryAt(c, r, p), HistoryAt(c, r, q - 1), HistoryAt(c, r, q));
    }
  }

  /** Server `i` in state `k`, with everything known about it in the history of a later state. */
  lemma ServerAt(c: Config, r: Run, k: nat, q: nat, i: Id)
    requires IsRun(c, r) && k <= q < |r.states| && i in r.states[k].servers
    ensures var sv := r.states[k].servers[i];
            var h := HistoryAt(c, r, q);
            && HistoryOk(c.n, h)
            && ServerInv(c, HistoryAt(c, r, k), i, sv)
            && Grows(HistoryAt(c, r, k), h)
            && LogOk(h, sv.log)
            && (exists s: nat :: s <= sv.currentTerm && CommittedLog(c.n, h, s, sv.log[..sv.commitIndex]))
            && (sv.role == Leader ==>
                  && sv.currentTerm in h.elections && h.elections[sv.currentTerm].leader == i
                  && h.elections[sv.currentTerm].start <= sv.log <= h.elections[sv.currentTerm].log)
  {
    var sv := r.states[k].servers[i];
    var h0, h := HistoryAt(c, r, k), HistoryAt(c, r, q);
    RunKeepsInv(c, r, k);
    RunKeepsInv(c, r, q);
    RunGrows(c, r, k, q);
    assert ServerInv(c, h0, i, sv);
    LogAt(c.n, h0, h, i, sv);
    CommitAt(c.n, h0, h, i, sv);
    if sv.role == Leader {
      LeaderAt(c.n, h0, h, i, sv);
    }
  }

  lemma LogAt(n: nat, h0: History, h: History, i: Id, sv: Server)
    requires HistoryOk(n, h0) && HistoryOk(n, h) && Grows(h0, h) && i in h0.sync && LogInv(h0, i, sv)
    ensures LogOk(h, sv.log)
  {
    WrittenGrows(h0, h, h0.sync[i], sv.log);
    WrittenLogOk(n, h, h0.sync[i], sv.log);
  }

  lemma CommitAt(n: nat, h0: History, h: History, i: Id, sv: Server)
    requires Grows(h0, h) && i in h0.sync && LogInv(h0, i, sv) && RoleInv(n, h0, i, sv) && CommitInv(n, h0, i, sv)
    requires sv.commitIndex <= |sv.log|
    ensures exists s: nat :: s <= sv.currentTerm && CommittedLog(n, h, s, sv.log[..sv.commitIndex])
  {
    assert Target(sv, sv.commitIndex);
    CommittedLogGrows(n, h0, h, h0.sync[i], sv.log[..sv.commitIndex]);
  }

  lemma LeaderAt(n: nat, h0: History, h: History, i: Id, sv: Server)
    requires HistoryOk(n, h0) && Grows(h0, h) && i in h0.sync && LeaderInv(h0, i, sv)
    ensures sv.currentTerm in h.elections && h.elections[sv.currentTerm].leader == i
    ensures h.elections[sv.currentTerm].start <= sv.log <= h.elections[sv.currentTerm].log
  {
    assert ElectionGrows(h0, h, sv.currentTerm);
    assert ElectionOk(n, h0, sv.currentTerm);
  }

  function Later(p: nat, q: nat): nat {
    if p <= q then q else p
  }

  /** Election safety: no term has two leaders, at one moment or at two. */
  lemma ElectionSafety(c: Config, r: Run, p: nat, a: Id, q: nat, b: Id)
    requires IsRun(c, r) && p < |r.states| && q < |r.states|
    requires a in r.states[p].servers && b in r.states[q].servers
    requires r.states[p].servers[a].role == Leader && r.states[q].servers[b].role == Leader
    requires r.states[p].servers[a].currentTerm == r.states[q].servers[b].currentTerm
    ensures a == b
  {
    ServerAt(c, r, p, Later(p, q), a);
    ServerAt(c, r, q, Later(p, q), b);
  }

  /** Log matching, between any two logs of the execution. */
  lemma LogMatching(c: Config, r: Run, p: nat, a: Id, q: nat, b: Id, k: nat)
    requires IsRun(c, r) && p < |r.states| && q < |r.states|
    requires a in r.states[p].servers && b in r.states[q].servers
    requires k < |r.states[p].servers[a].log| && k < |r.states[q].servers[b].log|
    requires r.states[p].servers[a].log[k].term == r.states[q].servers[b].log[k].term
    ensures r.states[p].servers[a].log[..k + 1] == r.states[q].servers[b].log[..k + 1]
  {
    ServerAt(c, r, p, Later(p, q), a);
    ServerAt(c, r, q, Later(p, q), b);
    LogsMatch(HistoryAt(c, r, Later(p, q)), r.states[p].servers[a].log, r.states[q].servers[b].log, k);
  }

  /** Terms along a log never fall and stay within the server's own. */
  lemma LogTermsOrdered(c: Config, r: Run, k: nat, i: Id, x: nat, y: nat)
    requires IsRun(c, r) && k < |r.states| && i in r.states[k].servers
    requires x <= y < |r.states[k].servers[i].log|
    ensures var sv := r.states[k].servers[i]; sv.log[x].term <= sv.log[y].term <= sv.currentTerm
  {
    var sv := r.states[k].servers[i];
    var h := HistoryAt(c, r, k);
    ServerAt(c, r, k, k, i);
    TermsMonotone(c.n, h, sv.log, x, y);
    WrittenLogOk(c.n, h, h.sync[i], sv.log);
  }

  /** State machine safety: what two servers have committed, at any two moments, is the same as far as both go. */
  lemma StateMachineSafety(c: Config, r: Run, p: nat, a: Id, q: nat, b: Id)
    requires IsRun(c, r) && p < |r.states| && q < |r.states|
    requires a in r.states[p].servers && b in r.states[q].servers
    ensures var x, y := r.states[p].servers[a], r.states[q].servers[b];
            && x.commitIndex <= |x.log| && y.commitIndex <= |y.log|
            && (x.commitIndex <= y.commitIndex ==> x.log[..x.commitIndex] <= y.log[..y.commitIndex])
            && (y.commitIndex <= x.commitIndex ==> y.log[..y.commitIndex] <= x.log[..x.commitIndex])
  {
    var x, y := r.states[p].servers[a], r.states[q].servers[b];
    var h := HistoryAt(c, r, Later(p, q));
    ServerAt(c, r, p, Later(p, q), a);
    ServerAt(c, r, q, Later(p, q), b);
    var s: nat :| s <= x.currentTerm && CommittedLog(c.n, h, s, x.log[..x.commitIndex]);
    var s': nat :| s' <= y.currentTerm && CommittedLog(c.n, h, s', y.log[..y.commitIndex]);
    CommittedLogsAgree(c.n, h, s, x.log[..x.commitIndex], s', y.log[..y.commitIndex]);
  }

  /** Leader completeness: every leader of the same term later on, and of any later term, has what is committed. */
  lemma LeadersHoldCommitted(c: Config, r: Run, p: nat, a: Id, q: nat, b: Id)
    requires IsRun(c, r) && p < |r.states| && q < |r.states|
    requires a in r.states[p].servers && b in r.states[q].servers
    requires r.states[q].servers[b].role == Leader
    requires var ta, tb := r.states[p].servers[a].currentTerm, r.states[q].servers[b].currentTerm;
             (p <= q && ta <= tb) || ta < tb
    ensures var x := r.states[p].servers[a];
            x.commitIndex <= |x.log| && x.log[..x.commitIndex] <= r.states[q].servers[b].log
  {
    var x, y := r.states[p].servers[a], r.states[q].servers[b];
    ServerAt(c, r, p, Later(p, q), a);
    ServerAt(c, r, q, Later(p, q), b);
    var h := HistoryAt(c, r, Later(p, q));
    var s: nat :| s <= x.currentTerm && CommittedLog(c.n, h, s, x.log[..x.commitIndex]);
    CommittedIsInLeader(c.n, h, s, x.log[..x.commitIndex], y.currentTerm);
    if p <= q {
      LeaderLogNow(c, r, q, b);
    }
  }

  lemma LeaderLogNow(c: Config, r: Run, q: nat, b: Id)
    requires IsRun(c, r) && q < |r.states| && b in r.states[q].servers && r.states[q].servers[b].role == Leader
    ensures var y := r.states[q].servers[b];
            y.currentTerm in HistoryAt(c, r, q).elections && HistoryAt(c, r, q).elections[y.currentTerm].log == y.log
  {
    RunKeepsInv(c, r, q);
    assert ServerInv(c, HistoryAt(c, r, q), b, r.states[q].servers[b]);
  }

  /** No assertion of the protocol fails and no lookup is out of range, in any execution. */
  lemma NothingFails(c: Config, r: Run, k: nat, i: Id)
    requires IsRun(c, r) && k < |r.states| && i in r.states[k].servers
    ensures !r.states[k].servers[i].failed
  {
    StoreAt(c, r, k, i);
  }

  /** A leader keeps 1 <= nextIndex <= Len(log) + 1 for every server. */
  lemma LeaderIndicesInRange(c: Config, r: Run, k: nat, i: Id, j: Id)
    requires IsRun(c, r) && k < |r.states| && i in r.states[k].servers && j in ServerSet(c.n)
    requires r.states[k].servers[i].role == Leader
    ensures var sv := r.states[k].servers[i];
            j in sv.nextIndex && j in sv.matchIndex && 1 <= sv.nextIndex[j] <= |sv.log| + 1 && sv.matchIndex[j] <= |sv.log|
  {
    var sv := r.states[k].servers[i];
    var h := HistoryAt(c, r, k);
    ServerAt(c, r, k, k, i);
    assert MatchInv(h, sv, j);
    if sv.matchIndex[j] != 0 {
      assert AcceptanceOk(c.n, h, sv.currentTerm, j);
    }
  }

  /**
   When a leader looks for a new commit index it finds the greatest index of its own term that a quorum has
   acknowledged, if that is above its commit index, and otherwise stays where it is.
   */
  lemma LeaderAdvancesExactly(c: Config, r: Run, k: nat, i: Id, x: nat)
    requires IsRun(c, r) && k < |r.states| && i in r.states[k].servers && CanAdvanceCommit(r.states[k].servers[i])
    ensures var sv := r.states[k].servers[i];
            var to := AdvanceCommit(c, i, sv).sv.newCommitIndex;
            && (to == sv.commitIndex || OwnAndAgreed(c, i, sv, to))
            && sv.commitIndex <= to
            && (OwnAndAgreed(c, i, sv, x) ==> x <= to)
  {
    var sv, h := r.states[k].servers[i], HistoryAt(c, r, k);
    RunKeepsInv(c, r, k);
    assert ServerInv(c, h, i, sv);
    GreatestOwnIndex(c, h, i, sv, x);
    AdvanceOutcome(c, h, i, sv);
  }

  lemma AdvanceOutcome(c: Config, h: History, i: Id, sv: Server)
    requires HistoryOk(c.n, h) && ServerInv(c, h, i, sv) && sv.role == Leader
    ensures var most := FindMaxAgreeIndex(c.n, sv.log, i, sv.matchIndex);
            AdvanceCommit(c, i, sv).sv.newCommitIndex ==
              if most != NIL && most <= |sv.log| && sv.log[most - 1].term == sv.currentTerm then most else sv.commitIndex
    ensures sv.commitIndex <= AdvanceCommit(c, i, sv).sv.newCommitIndex
  {
    AgreedNotBelowCommit(c, h, i, sv);
  }

  /** If any index of the leader's own term is agreed, the greatest agreed index is of that term, since terms never fall. */
  lemma GreatestOwnIndex(c: Config, h: History, i: Id, sv: Server, x: nat)
    requires ElectionsOk(c.n, h) && i in h.sync && LogInv(h, i, sv)
    ensures var most := FindMaxAgreeIndex(c.n, sv.log, i, sv.matchIndex);
            && most <= |sv.log| && (most != NIL ==> Agreed(c.n, i, sv.matchIndex, most))
            && (OwnAndAgreed(c, i, sv, x) ==> x <= most && sv.log[most - 1].term == sv.currentTerm)
  {
    var most := FindMaxAgreeIndex(c.n, sv.log, i, sv.matchIndex);
    FindMaxAgreeIndexIsGreatest(c.n, i, sv.matchIndex, |sv.log|);
    if OwnAndAgreed(c, i, sv, x) {
      WrittenLogOk(c.n, h, h.sync[i], sv.log);
      TermsMonotone(c.n, h, sv.log, x - 1, most - 1);
    }
  }

  predicate OwnAndAgreed(c: Config, i: Id, sv: Server, x: nat) {
    0 < x <= |sv.log| && sv.log[x - 1].term == sv.currentTerm && Agreed(c.n, i, sv.matchIndex, x)
  }

  // ----- acknowledged prefixes

  /** An acknowledgement still on its way to its leader. */
  predicate Acknowledged(s: State, j: Id, i: Id, t: nat, k: nat) {
    AppendReply(t, true, k, j, i) in Stream(s, Chan(HandlerProc, j, i))
  }

  lemma AcknowledgementRecorded(c: Config, r: Run, p: nat, j: Id, i: Id, t: nat, k: nat)
    requires IsRun(c, r) && p < |r.states| && Acknowledged(r.states[p], j, i, t, k)
    ensures var h := HistoryAt(c, r, p);
            t in h.elections && h.elections[t].leader == i && (t, j) in h.accepted && k <= h.accepted[(t, j)]
  {
    RunKeepsInv(c, r, p);
    var ch := Chan(HandlerProc, j, i);
    var h := HistoryAt(c, r, p);
    assert ChanInv(c, r.states[p], h, ch);
    var st := Stream(r.states[p], ch);
    var x :| 0 <= x < |st| && st[x] == AppendReply(t, true, k, j, i);
    assert MessageOk(c.n, h, r.states[p].servers[j], r.states[p].servers[i], st[x]);
  }

  /** What was acknowledged stays recorded: the follower has held that much of the log of the leader of term `t`. */
  lemma AcknowledgementKept(c: Config, r: Run, p: nat, q: nat, j: Id, i: Id, t: nat, k: nat)
    requires IsRun(c, r) && p <= q < |r.states| && Acknowledged(r.states[p], j, i, t, k)
    ensures var h := HistoryAt(c, r, q);
            && t in h.elections && h.elections[t].leader == i
            && (t, j) in h.accepted && k <= h.accepted[(t, j)] <= |h.elections[t].log|
  {
    var h0, h := HistoryAt(c, r, p), HistoryAt(c, r, q);
    AcknowledgementRecorded(c, r, p, j, i, t, k);
    RunGrows(c, r, p, q);
    RunKeepsInv(c, r, q);
    assert ElectionGrows(h0, h, t) && AcceptanceGrows(h0, h, t, j);
    assert AcceptanceOk(c.n, h, t, j);
  }

  /** The log of a follower that is still in the term of its acknowledgement. */
  lemma AcknowledgedLog(c: Config, r: Run, p: nat, q: nat, z: nat, j: Id, i: Id, t: nat, k: nat)
    requires IsRun(c, r) && p <= q <= z < |r.states| && j in r.states[q].servers
    requires Acknowledged(r.states[p], j, i, t, k) && r.states[q].servers[j].currentTerm == t
    ensures t in HistoryAt(c, r, z).elections
    ensures k <= |r.states[q].servers[j].log| && r.states[q].servers[j].log <= HistoryAt(c, r, z).elections[t].log
  {
    var h := HistoryAt(c, r, q);
    AcknowledgementKept(c, r, p, q, j, i, t, k);
    ServerAt(c, r, q, q, j);
    HeldInTerm(c.n, h, j, r.states[q].servers[j], t, k);
    RunGrows(c, r, q, z);
    assert ElectionGrows(h, HistoryAt(c, r, z), t);
  }

  /**
   Once a follower has acknowledged `k` entries in term `t` it keeps those very entries for as long as it stays in
   that term, whether or not their leader still leads, although every later append cuts its log unconditionally.
   */
  lemma AcknowledgedIsDurable(c: Config, r: Run, p: nat, q: nat, q': nat, j: Id, i: Id, t: nat, k: nat)
    requires IsRun(c, r) && p <= q <= q' < |r.states| && j in r.states[q].servers && j in r.states[q'].servers
    requires Acknowledged(r.states[p], j, i, t, k)
    requires r.states[q].servers[j].currentTerm == t && r.states[q'].servers[j].currentTerm == t
    ensures var x, x' := r.states[q].servers[j], r.states[q'].servers[j];
            k <= |x.log| && k <= |x'.log| && x.log[..k] == x'.log[..k]
  {
    AcknowledgedLog(c, r, p, q, q', j, i, t, k);
    AcknowledgedLog(c, r, p, q', q', j, i, t, k);
  }

  /**
   They are entries of the leader of that term: whoever leads term `t` at any moment `u` of the run is the one the
   acknowledgement went to, its log and the follower's extend one another, and from the acknowledgement on it has
   those `k` entries too.
   */
  lemma AcknowledgedIsLeaders(c: Config, r: Run, p: nat, q: nat, u: nat, j: Id, i: Id, l: Id, t: nat, k: nat)
    requires IsRun(c, r) && p <= q < |r.states| && u < |r.states| && j in r.states[q].servers && l in r.states[u].servers
    requires Acknowledged(r.states[p], j, i, t, k) && r.states[q].servers[j].currentTerm == t
    requires r.states[u].servers[l].role == Leader && r.states[u].servers[l].currentTerm == t
    ensures l == i
    ensures var x, y := r.states[q].servers[j], r.states[u].servers[l];
            && k <= |x.log| && (x.log <= y.log || y.log <= x.log)
            && (p <= u ==> k <= |y.log| && x.log[..k] == y.log[..k])
  {
    var z := Later(q, u);
    AcknowledgedLog(c, r, p, q, z, j, i, t, k);
    AcknowledgementKept(c, r, p, z, j, i, t, k);
    ServerAt(c, r, u, z, l);
    PrefixesOfOneLog(r.states[q].servers[j].log, r.states[u].servers[l].log, HistoryAt(c, r, z).elections[t].log);
    if p <= u {
      AcknowledgementKept(c, r, p, u, j, i, t, k);
      LeaderLogNow(c, r, u, l);
    }
  }

  lemma HeldInTerm(n: nat, h: History, j: Id, sv: Server, t: nat, k: nat)
    requires HistoryOk(n, h) && j in h.sync && LogInv(h, j, sv) && sv.currentTerm == t
    requires (t, j) in h.accepted && k <= h.accepted[(t, j)]
    ensures t in h.elections && k <= |sv.log| && sv.log <= h.elections[t].log
  {
    assert AcceptanceOk(n, h, t, j);
  }

  // ----- what a leader counts

  lemma CountStep(c: Config, s: State, h: History, step: Step, i: Id, j: Id)
    requires Inv(c, s, h) && Enabled(c, s, step) && i in s.servers && j in ServerSet(c.n)
    requires i in Do(c, s, step).servers && Do(c, s, step).servers[i].role == Leader
    ensures var x, y := s.servers[i], Do(c, s, step).servers[i];
            && j in y.matchIndex
            && (y.matchIndex[j] == 0 || SameCount(x, y, j) || Acknowledged(s, j, i, y.currentTerm, y.matchIndex[j]))
  {
    hide Body, RunAction, Do, HistoryOk, StoreInv, CommitInv, LogInv, ChansInv;
    assert ServerInv(c, h, i, s.servers[i]) && HeldInv(i, s.servers[i]);
    ServersAfterStep(c, s, step, i);
    if step.Section? && step.i == i {
      MatchIndexMoves(c, i, s.servers[i], step.act, j);
      if step.act.HandleAct? {
        AcknowledgementInHand(s, i, j);
      }
    }
  }

  /** A leader counts for another server only what that one has acknowledged to it in its term. */
  lemma {:induction false} MatchIndexWasAcknowledged(c: Config, r: Run, q: nat, i: Id, j: Id)
    requires IsRun(c, r) && q < |r.states| && i in r.states[q].servers && j in ServerSet(c.n)
    requires r.states[q].servers[i].role == Leader
    ensures var y := r.states[q].servers[i];
            && j in y.matchIndex
            && (y.matchIndex[j] > 0 ==>
                  exists p: nat :: p <= q && Acknowledged(r.states[p], j, i, y.currentTerm, y.matchIndex[j]))
    decreases q
  {
    hide ServerInv, Do, ChansInv, HistoryOk, Acknowledged, Inv;
    if q > 0 {
      assert StepAt(c, r, q - 1);
      var s := r.states[q - 1];
      RunKeepsInv(c, r, q - 1);
      SameServers(c, s, HistoryAt(c, r, q - 1), r.steps[q - 1], i);
      CountStep(c, s, HistoryAt(c, r, q - 1), r.steps[q - 1], i, j);
      if SameCount(s.servers[i], r.states[q].servers[i], j) {
        MatchIndexWasAcknowledged(c, r, q - 1, i, j);
      }
    }
  }

  lemma SameServers(c: Config, s: State, h: History, step: Step, i: Id)
    requires Inv(c, s, h) && Enabled(c, s, step) && i in Do(c, s, step).servers
    ensures i in s.servers
  {
    hide RunAction;
  }

  /** An acknowledgement its leader is handling is on its stream. */
  lemma AcknowledgementInHand(s: State, i: Id, j: Id)
    requires i in s.servers && HeldInv(i, s.servers[i]) && s.servers[i].m.Some?
    ensures var m := s.servers[i].m.value;
            m.AppendReply? && m.msuccess && m.msource == j ==> Acknowledged(s, j, i, m.mterm, m.mmatchIndex)
  {
    var m := s.servers[i].m.value;
    if m.AppendReply? && m.msuccess && m.msource == j {
      assert Stream(s, Chan(HandlerProc, j, i))[0] == m;
    }
  }

  /**
   So what a leader counts for a follower the follower holds of its log, then and for as long as it stays in the
   leader's term.
   */
  lemma MatchIndexIsHeld(c: Config, r: Run, q: nat, q': nat, i: Id, j: Id)
    requires IsRun(c, r) && q <= q' < |r.states| && i in r.states[q].servers && j in r.states[q'].servers
    requires r.states[q].servers[i].role == Leader
    requires r.states[q'].servers[j].currentTerm == r.states[q].servers[i].currentTerm
    ensures var y, x := r.states[q].servers[i], r.states[q'].servers[j];
            j in y.matchIndex && var k := y.matchIndex[j]; k <= |x.log| && k <= |y.log| && x.log[..k] == y.log[..k]
  {
    var y := r.states[q].servers[i];
    RunKeepsInv(c, r, q');
    MatchIndexWasAcknowledged(c, r, q, i, j);
    if y.matchIndex[j] > 0 {
      var p: nat :| p <= q && Acknowledged(r.states[p], j, i, y.currentTerm, y.matchIndex[j]);
      AcknowledgedIsLeaders(c, r, p, q', q, j, i, i, y.currentTerm, y.matchIndex[j]);
    }
  }

  // ----- the applied state

  lemma {:induction false} IndicesNeverFall(c: Config, r: Run, p: nat, q: nat, i: Id)
    requires IsRun(c, r) && p <= q < |r.states| && i in r.states[p].servers
    ensures i in r.states[q].servers
    ensures r.states[p].servers[i].commitIndex <= r.states[q].servers[i].commitIndex
    ensures r.states[p].servers[i].currentTerm <= r.states[q].servers[i].currentTerm
    decreases q
  {
    hide Inv, Do, Enabled, Init;
    if p < q {
      IndicesNeverFall(c, r, p, q - 1, i);
      RunKeepsInv(c, r, q - 1);
      assert StepAt(c, r, q - 1);
      StepNeverLowers(c, r.states[q - 1], HistoryAt(c, r, q - 1), r.steps[q - 1], i);
    }
  }

  /** A section changes the server it is of; the other steps change only the message in hand. */
  lemma ServersAfterStep(c: Config, s: State, step: Step, i: Id)
    requires Enabled(c, s, step) && i in s.servers
    ensures var s' := Do(c, s, step);
            && i in s'.servers
            && s'.servers[i] ==
                 if step.Section? && step.i == i then RunAction(c, i, s.servers[i], step.act).sv
                 else s.servers[i].(m := s'.servers[i].m, failed := s'.servers[i].failed)
  {
    hide RunAction, Body;
    match step
    case Section(j, act) =>
    case Receive(ch) => assert i != ch.dst ==> Do(c, s, step).servers[i] == s.servers[i];
    case ReceiveClient(dst, _, _) => assert i != dst ==> Do(c, s, step).servers[i] == s.servers[i];
    case Lose(_, _) =>
  }

  lemma StepNeverLowers(c: Config, s: State, h: History, step: Step, i: Id)
    requires Inv(c, s, h) && Enabled(c, s, step) && i in s.servers
    ensures var s' := Do(c, s, step);
            && i in s'.servers
            && s.servers[i].commitIndex <= s'.servers[i].commitIndex
            && s.servers[i].currentTerm <= s'.servers[i].currentTerm
  {
    ServersAfterStep(c, s, step, i);
    if step.Section? && step.i == i {
      SectionNeverLowers(c, s, h, i, step.act);
    }
  }

  lemma SectionNeverLowers(c: Config, s: State, h: History, i: Id, act: Action)
    requires Inv(c, s, h) && i in s.servers && ActionEnabled(c, i, s.servers[i], act)
    ensures var sv' := RunAction(c, i, s.servers[i], act).sv;
            s.servers[i].commitIndex <= sv'.commitIndex && s.servers[i].currentTerm <= sv'.currentTerm
  {
    SectionOk(c, s, h, i, act);
    assert Advances(s.servers[i], Body(c, i, s.servers[i], act).sv);
  }

  lemma StoreAt(c: Config, r: Run, k: nat, i: Id)
    requires IsRun(c, r) && k < |r.states| && i in r.states[k].servers
    ensures StoreInv(c, r.states[k].servers[i])
  {
    RunKeepsInv(c, r, k);
    assert ServerInv(c, HistoryAt(c, r, k), i, r.states[k].servers[i]);
  }

  /** Both apply paths refine one replay: whichever process applied, the store is what the committed commands leave. */
  lemma StoreIsReplayOfCommitted(c: Config, r: Run, k: nat, i: Id)
    requires IsRun(c, r) && k < |r.states| && i in r.states[k].servers
    ensures var sv := r.states[k].servers[i];
            && sv.commitIndex <= |sv.log|
            && (!c.modular ==> (sv.sm, sv.smDomain) == Replay(Commands(sv.log[..sv.commitIndex])) && sv.plog == sv.log)
            && (c.modular ==> sv.acct == Commands(sv.log[..sv.commitIndex]))
  {
    StoreAt(c, r, k, i);
  }

  /** Servers that have applied equally far hold the same store. */
  lemma StoresAgree(c: Config, r: Run, p: nat, a: Id, q: nat, b: Id)
    requires IsRun(c, r) && p < |r.states| && q < |r.states| && !c.modular
    requires a in r.states[p].servers && b in r.states[q].servers
    requires r.states[p].servers[a].commitIndex == r.states[q].servers[b].commitIndex
    ensures r.states[p].servers[a].sm == r.states[q].servers[b].sm
    ensures r.states[p].servers[a].smDomain == r.states[q].servers[b].smDomain
  {
    StoreIsReplayOfCommitted(c, r, p, a);
    StoreIsReplayOfCommitted(c, r, q, b);
    StateMachineSafety(c, r, p, a, q, b);
    var u, v := r.states[p].servers[a], r.states[q].servers[b];
    assert u.log[..u.commitIndex] == v.log[..v.commitIndex];
    assert (u.sm, u.smDomain) == (v.sm, v.smDomain);
  }

  /** Two success responses for one log position are the same, whichever servers gave them and whenever. */
  lemma RepliesAgree(c: Config, r: Run, p: nat, a: Id, q: nat, b: Id, x: Reply, y: Reply)
    requires IsRun(c, r) && p < |r.states| && q < |r.states|
    requires a in r.states[p].servers && b in r.states[q].servers
    requires x in r.states[p].servers[a].replies && y in r.states[q].servers[b].replies && x.index == y.index
    ensures x == y
  {
    var u, v := r.states[p].servers[a], r.states[q].servers[b];
    ReplyGiven(c, r, p, a, x);
    ReplyGiven(c, r, q, b, y);
    StateMachineSafety(c, r, p, a, q, b);
    RepliesFromAgreeingLogs(u.log, u.commitIndex, v.log, v.commitIndex, x.index);
  }

  lemma ReplyGiven(c: Config, r: Run, p: nat, a: Id, x: Reply)
    requires IsRun(c, r) && p < |r.states| && a in r.states[p].servers && x in r.states[p].servers[a].replies
    ensures var sv := r.states[p].servers[a];
            sv.commitIndex <= |sv.log| && 1 <= x.index <= sv.commitIndex && x == ReplyFor(sv.log, x.index)
  {
    StoreAt(c, r, p, a);
    assert RepliesInv(r.states[p].servers[a]);
  }

  lemma RepliesFromAgreeingLogs(a: Log, x: nat, b: Log, y: nat, k: nat)
    requires 1 <= k <= x <= |a| && k <= y <= |b|
    requires a[..x] <= b[..y] || b[..y] <= a[..x]
    ensures ReplyFor(a, k) == ReplyFor(b, k)
  {
    assert a[..k] == a[..x][..k] && b[..k] == b[..y][..k];
    assert a[..k] == b[..k];
    assert a[k - 1] == a[..k][k - 1] && b[k - 1] == b[..k][k - 1];
  }

  // ----- real time

  /** In step `q` the leader `b` takes in the command of a client, as the next entry of its log. */
  predicate TakesCommand(c: Config, r: Run, q: nat, b: Id, cmd: Command, client: int)
    requires IsRun(c, r) && q < |r.steps|
  {
    && b in r.states[q].servers
    && r.states[q].servers[b].role == Leader
    && r.states[q].servers[b].m == Some(ClientRequest(cmd, client))
    && r.steps[q].Section? && r.steps[q].i == b && r.steps[q].act.HandleAct?
  }

  /** Server `d` has committed at `index` the entry that was next in the log of server `b`. */
  predicate CommittedAsNext(d: Server, b: Server, index: nat) {
    && |b.log| + 1 == index <= d.commitIndex <= |d.log|
    && d.log[index - 1].term == b.currentTerm
  }

  lemma TakenEntry(c: Config, r: Run, q: nat, b: Id, cmd: Command, client: int)
    requires IsRun(c, r) && q < |r.steps| && TakesCommand(c, r, q, b, cmd, client)
    ensures b in r.states[q + 1].servers
    ensures var y, y' := r.states[q].servers[b], r.states[q + 1].servers[b];
            && y'.role == Leader && y'.currentTerm == y.currentTerm
            && y'.log == y.log + [Entry(y.currentTerm, cmd, client)]
  {
    assert StepAt(c, r, q);
    ServersAfterStep(c, r.states[q], r.steps[q], b);
  }

  /** Any entry of a leader's term anywhere is in its log already. */
  lemma LeaderWroteIt(c: Config, r: Run, p: nat, a: Id, q: nat, b: Id, k: nat)
    requires IsRun(c, r) && p <= q < |r.states| && a in r.states[p].servers && b in r.states[q].servers
    requires r.states[q].servers[b].role == Leader && k < |r.states[p].servers[a].log|
    requires r.states[p].servers[a].log[k].term == r.states[q].servers[b].currentTerm
    ensures k < |r.states[q].servers[b].log|
  {
    ServerAt(c, r, p, q, a);
    LeaderLogNow(c, r, q, b);
    assert Anchored(HistoryAt(c, r, q), r.states[p].servers[a].log, k);
  }

  /**
   Commands are committed in real-time order: what a leader takes in at step `q` is committed, if ever, behind
   everything any server had committed by then. The entry at its index is the command taken in.
   */
  lemma CommitsFollowRealTime(c: Config, r: Run, p: nat, a: Id, q: nat, b: Id, cmd: Command, client: int, u: nat, d: Id)
    requires IsRun(c, r) && p <= q < u < |r.states| && a in r.states[p].servers && d in r.states[u].servers
    requires TakesCommand(c, r, q, b, cmd, client)
    requires CommittedAsNext(r.states[u].servers[d], r.states[q].servers[b], |r.states[q].servers[b].log| + 1)
    ensures var y := r.states[q].servers[b];
            && r.states[p].servers[a].commitIndex <= |y.log|
            && r.states[u].servers[d].log[|y.log|] == Entry(y.currentTerm, cmd, client)
  {
    hide Do, StoreInv, LogInv, CommittedLog, ServerInv;
    var x, y, w := r.states[p].servers[a], r.states[q].servers[b], r.states[u].servers[d];
    var k := |y.log|;
    StateMachineSafety(c, r, p, a, u, d);
    TakenEntry(c, r, q, b, cmd, client);
    if k < x.commitIndex {
      assert x.log[..x.commitIndex][k] == w.log[..w.commitIndex][k];
      LeaderWroteIt(c, r, p, a, q, b, k);
    }
    LogMatching(c, r, u, d, q + 1, b, k);
    assert w.log[..k + 1][k] == r.states[q + 1].servers[b].log[..k + 1][k];
  }

  /**
   Responses are given in real-time order: a command taken in after the response at index `x.index` was given is
   answered for a greater index, and as the command it is. With RepliesAgree and ReplyGiven, by which a response reads
   the replay of the commands up to its index, every execution is linearizable in the order of the log.
   */
  lemma RepliesFollowRealTime(c: Config, r: Run, p: nat, a: Id, x: Reply, q: nat, b: Id, cmd: Command, client: int,
                              u: nat, d: Id, y: Reply)
    requires IsRun(c, r) && p <= q < u < |r.states| && a in r.states[p].servers && d in r.states[u].servers
    requires x in r.states[p].servers[a].replies && y in r.states[u].servers[d].replies
    requires TakesCommand(c, r, q, b, cmd, client)
    requires CommittedAsNext(r.states[u].servers[d], r.states[q].servers[b], y.index)
    ensures x.index < y.index
    ensures y.client == client && y.kind == cmd.kind && y.idx == cmd.idx && y.key == cmd.key
  {
    CommitsFollowRealTime(c, r, p, a, q, b, cmd, client, u, d);
    ReplyGiven(c, r, p, a, x);
    ReplyGiven(c, r, u, d, y);
  }

  // ----- the composed system

  /** The accept channel only grows, and any two servers' channels agree as far as both go. */
  lemma AcceptChannelsAgree(c: Config, r: Run, p: nat, a: Id, q: nat, b: Id)
    requires IsRun(c, r) && p < |r.states| && q < |r.states| && c.modular
    requires a in r.states[p].servers && b in r.states[q].servers
    ensures var x, y := r.states[p].servers[a].acct, r.states[q].servers[b].acct;
            && (|x| <= |y| ==> x <= y) && (|y| <= |x| ==> y <= x)
            && (a == b && p <= q ==> x <= y)
  {
    var u, v := r.states[p].servers[a], r.states[q].servers[b];
    StoreIsReplayOfCommitted(c, r, p, a);
    StoreIsReplayOfCommitted(c, r, q, b);
    StateMachineSafety(c, r, p, a, q, b);
    if u.commitIndex <= v.commitIndex {
      assert u.log[..u.commitIndex] == v.log[..v.commitIndex][..u.commitIndex];
      CommandsPrefix(v.log[..v.commitIndex], u.commitIndex);
    } else {
      assert v.log[..v.commitIndex] == u.log[..u.commitIndex][..v.commitIndex];
      CommandsPrefix(u.log[..u.commitIndex], v.commitIndex);
    }
    if a == b && p <= q {
      IndicesNeverFall(c, r, p, q, a);
    }
  }

  /** Key-value servers that consumed equally many accepts hold the same store, and it is the replay of that many commands. */
  lemma KeyValueServersAgree(c: Config, r: Run, p: nat, a: Id, q: nat, b: Id)
    requires IsRun(c, r) && p < |r.states| && q < |r.states| && c.modular
    requires a in r.states[p].servers && b in r.states[q].servers
    requires r.states[p].servers[a].consumed == r.states[q].servers[b].consumed
    ensures var u, v := r.states[p].servers[a], r.states[q].servers[b];
            && u.kvSm == v.kvSm && u.kvDomain == v.kvDomain
            && u.consumed <= u.commitIndex <= |u.log|
            && (u.kvSm, u.kvDomain) == Replay(Commands(u.log[..u.consumed]))
  {
    var u, v := r.states[p].servers[a], r.states[q].servers[b];
    StoreAt(c, r, p, a);
    StoreAt(c, r, q, b);
    AcceptChannelsAgree(c, r, p, a, q, b);
    assert u.acct[..u.consumed] == v.acct[..v.consumed];
    CommandsPrefix(u.log[..u.commitIndex], u.consumed);
    assert u.log[..u.commitIndex][..u.consumed] == u.log[..u.consumed];
  }

  // ----- messages on their way

  /** An append on its way carries a piece of a log of its leader, so it matches every server's log too. */
  lemma AppendsMatchLogs(c: Config, r: Run, k: nat, m: Message, src: Id, dst: Id, b: Id, x: nat)
    requires IsRun(c, r) && k < |r.states| && b in r.states[k].servers
    requires m.AppendEntries? && m in Stream(r.states[k], Chan(AppendProc, src, dst))
    requires x < |m.mentries| && m.mprevLogIndex + x < |r.states[k].servers[b].log|
    requires m.mentries[x].term == r.states[k].servers[b].log[m.mprevLogIndex + x].term
    ensures m.mentries[..x + 1] == r.states[k].servers[b].log[m.mprevLogIndex..m.mprevLogIndex + x + 1]
    ensures m.mprevLogIndex > 0 ==> m.mprevLogTerm == r.states[k].servers[b].log[m.mprevLogIndex - 1].term
  {
    var s, h := r.states[k], HistoryAt(c, r, k);
    var ch := Chan(AppendProc, src, dst);
    RunKeepsInv(c, r, k);
    assert ChanInv(c, s, h, ch);
    var at :| 0 <= at < |Stream(s, ch)| && Stream(s, ch)[at] == m;
    assert MessageOk(c.n, h, s.servers[src], s.servers[dst], Stream(s, ch)[at]);
    ServerAt(c, r, k, k, b);
    SegmentMatches(c.n, h, m, s.servers[b].log, x);
  }

  lemma SegmentMatches(n: nat, h: History, m: Message, log: Log, x: nat)
    requires HistoryOk(n, h) && m.AppendEntries? && AppendOk(n, h, m) && LogOk(h, log)
    requires x < |m.mentries| && m.mprevLogIndex + x < |log| && m.mentries[x].term == log[m.mprevLogIndex + x].term
    ensures m.mentries[..x + 1] == log[m.mprevLogIndex..m.mprevLogIndex + x + 1]
    ensures m.mprevLogIndex > 0 ==> m.mprevLogTerm == log[m.mprevLogIndex - 1].term
  {
    assert ElectionOk(n, h, m.mterm);
    var leaderLog := h.elections[m.mterm].log;
    var k := m.mprevLogIndex + x;
    CopiedLogOk(n, h, m.mterm, leaderLog);
    assert leaderLog[k] == m.mentries[x];
    LogsMatch(h, leaderLog, log, k);
    assert m.mentries[..x + 1] == leaderLog[..k + 1][m.mprevLogIndex..];
    assert log[m.mprevLogIndex..k + 1] == log[..k + 1][m.mprevLogIndex..];
    assert m.mprevLogIndex > 0 ==> leaderLog[..k + 1][m.mprevLogIndex - 1] == log[..k + 1][m.mprevLogIndex - 1];
  }
}
