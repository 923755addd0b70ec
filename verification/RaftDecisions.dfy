/**
 What a server decides, stated without the words of the handlers: when it votes, when it takes an append, how a leader
 finds the entries a follower is missing, and what a client is told.
 */
module RaftDecisions {
  import opened RaftOps
  import opened RaftServer
  import opened RaftSystem
  import opened RaftHistory
  import opened RaftHistorySteps
  import opened RaftInvariant
  import opened RaftActions
  import opened RaftSections
  import opened RaftAppend
  import opened RaftPreservation
  import opened RaftSafety

  // ----- votes

  /** The request speaks for the log. */
  predicate SpeaksFor(m: Message, cand: Log) {
    m.RequestVote? && m.mlastLogTerm == LastTerm(cand) && m.mlastLogIndex == |cand|
  }

  /**
   A vote is given exactly to a candidate of the current term or a later one whose log is no older than the voter's,
   and in the current term only if the voter has not voted for another.
   */
  lemma VoteGivenExactly(i: Id, sv: Server, m: Message, send: bool, cand: Log)
    requires SpeaksFor(m, cand)
    ensures var e := HandleRequestVote(i, sv, m, send);
            var granted :=
              && m.mterm >= sv.currentTerm && UpToDate(cand, sv.log)
              && (m.mterm > sv.currentTerm || sv.votedFor in {NIL, m.msource});
            && e.sv.currentTerm == (if m.mterm > sv.currentTerm then m.mterm else sv.currentTerm)
            && (granted ==> e.sv.votedFor == m.msource)
            && (!granted ==> e.sv.votedFor == if m.mterm > sv.currentTerm then NIL else sv.votedFor)
            && e.out == (if send then Some(VoteReply(e.sv.currentTerm, granted, i, m.msource)) else None)
            && e.sv.log == sv.log && e.sv.commitIndex == sv.commitIndex
  {
  }

  /** Of any two logs one is good enough for the other, and every log is good enough for itself. */
  lemma OneLogIsGoodEnough(a: Log, b: Log)
    ensures UpToDate(a, b) || UpToDate(b, a)
    ensures UpToDate(a, a)
  {
  }

  /** The requester asks every other server, in its term and for its log as they are now. */
  lemma EveryServerIsAsked(c: Config, i: Id, sv: Server)
    requires 0 < sv.rvIdx
    ensures var e := RequestVoteStep(c, i, sv, true);
            && (e.out.Some? <==> sv.rvIdx in ServerSet(c.n) && sv.rvIdx != i)
            && (e.out.Some? ==>
                  var m := e.out.value;
                  SpeaksFor(m, sv.log) && m.mterm == sv.currentTerm && m.msource == i && m.mdest == sv.rvIdx)
            && e.sv.rvIdx == if sv.rvIdx <= c.n then sv.rvIdx + 1 else 0
  {
  }

  // ----- appends

  /** The receiver is in no later term and holds what comes before the entries just as the leader does. */
  predicate Fits(sv: Server, m: Message, leaderLog: Log) {
    && m.AppendEntries? && m.mprevLogIndex <= |sv.log| && m.mprevLogIndex <= |leaderLog|
    && m.mterm >= sv.currentTerm && sv.log[..m.mprevLogIndex] == leaderLog[..m.mprevLogIndex]
  }

  /** What an append does to its receiver. In the composed system the other advancer is told how far to apply. */
  predicate Taken(c: Config, sv: Server, sv': Server, m: Message, sent: Log)
    requires m.AppendEntries?
  {
    && sv'.currentTerm == m.mterm && sv'.role == Follower && sv'.leader == m.msource && sv'.log == sent
    && (if c.modular then sv'.commitIndex == sv.commitIndex && sv'.fAdvCommitIdxCh == sv.fAdvCommitIdxCh + [m.mcommitIndex]
        else sv'.commitIndex == if m.mcommitIndex > sv.commitIndex then m.mcommitIndex else sv.commitIndex)
  }

  predicate Refused(sv: Server, sv': Server, m: Message)
    requires m.AppendEntries?
  {
    && sv'.currentTerm == (if m.mterm > sv.currentTerm then m.mterm else sv.currentTerm)
    && sv'.log == sv.log && sv'.commitIndex == sv.commitIndex && sv'.fAdvCommitIdxCh == sv.fAdvCommitIdxCh
  }

  lemma AppendDecision(c: Config, h: History, i: Id, sv: Server, m: Message, send: bool)
    requires Good(c, h, i, sv)
    requires m.AppendEntries? && AppendOk(c.n, h, m) && m.msource != i && m.mdest == i
    ensures var e := HandleAppendEntries(c, i, sv, m, send);
            var sent := SentLog(h, m);
            && (if Fits(sv, m, sent) then Taken(c, sv, e.sv, m, sent) else Refused(sv, e.sv, m))
            && e.out == if send then Some(AppendReply(e.sv.currentTerm, Fits(sv, m, sent), if Fits(sv, m, sent) then |sent| else 0, i, m.msource))
                        else None
  {
    hide ActionOk, AcceptEntries, StoreInv;
    var sv1 := StepDown(sv, m);
    StepDownOk(c, h, i, sv, m);
    StepDownFields(sv, m);
    AppendCases(c, i, sv, m, send);
    FitsExactly(c, h, i, sv1, m);
    if m.mterm == sv1.currentTerm && LogOK(sv1.log, m) {
      AcceptFields(c, i, sv1, m, send);
    }
  }

  lemma StepDownFields(sv: Server, m: Message)
    requires m.AppendEntries?
    ensures var sv' := StepDown(sv, m);
            && sv'.currentTerm == (if m.mterm > sv.currentTerm then m.mterm else sv.currentTerm)
            && sv'.log == sv.log && sv'.commitIndex == sv.commitIndex && sv'.fAdvCommitIdxCh == sv.fAdvCommitIdxCh
            && (m.mterm >= sv.currentTerm ==> sv'.leader == m.msource)
  {
  }

  /** The check on one entry is a check on all before it. */
  lemma FitsExactly(c: Config, h: History, i: Id, sv: Server, m: Message)
    requires Good(c, h, i, sv) && m.AppendEntries? && AppendOk(c.n, h, m)
    ensures LogOK(sv.log, m) <==> m.mprevLogIndex <= |sv.log| && sv.log[..m.mprevLogIndex] == SentLog(h, m)[..m.mprevLogIndex]
    ensures LogOK(sv.log, m) ==> sv.log[..m.mprevLogIndex] + m.mentries == SentLog(h, m)
  {
    var sent, prev := SentLog(h, m), m.mprevLogIndex;
    if LogOK(sv.log, m) {
      AcceptedLogIsLeaders(c.n, h, h.sync[i], sv.log, m);
      assert (sv.log[..prev] + m.mentries)[..prev] == sv.log[..prev];
    }
    if 0 < prev <= |sv.log| && sv.log[..prev] == sent[..prev] {
      assert sv.log[..prev][prev - 1] == sent[..prev][prev - 1];
    }
  }

  lemma AcceptFields(c: Config, i: Id, sv: Server, m: Message, send: bool)
    requires m.AppendEntries? && LogOK(sv.log, m) && m.mprevLogIndex <= |sv.log| && m.mcommitIndex <= Extent(m)
    requires StoreInv(c, sv)
    ensures var e := AcceptEntries(c, i, sv, m, send);
            && e.sv.log == sv.log[..m.mprevLogIndex] + m.mentries
            && e.sv.currentTerm == sv.currentTerm && e.sv.role == sv.role && e.sv.leader == sv.leader
            && (if c.modular then e.sv.commitIndex == sv.commitIndex && e.sv.fAdvCommitIdxCh == sv.fAdvCommitIdxCh + [m.mcommitIndex]
                else e.sv.commitIndex == if m.mcommitIndex > sv.commitIndex then m.mcommitIndex else sv.commitIndex)
            && e.out == (if send then Some(AppendReply(sv.currentTerm, true, Extent(m), i, m.msource)) else None)
  {
    hide PopAndConcat, ApplyLog;
    PopAndConcatOutcome(sv.plog, |sv.log| - m.mprevLogIndex, m.mentries);
  }

  /** In step `k` server `i` handles the append. */
  predicate HandlesAppend(c: Config, r: Run, k: nat, i: Id, m: Message)
    requires IsRun(c, r) && k < |r.steps|
  {
    && m.AppendEntries? && i in r.states[k].servers && r.states[k].servers[i].m == Some(m)
    && r.steps[k].Section? && r.steps[k].i == i && r.steps[k].act.HandleAct?
  }

  /**
   In every run an append is taken exactly if its receiver is in no later term and holds everything before the entries
   just as the leader of the append's term does, in whatever state `u` that one has what it sent. Then the receiver's
   log is the leader's up to there and it learns how far to apply; otherwise its log stays. The answer says which.
   */
  lemma AppendTakenExactly(c: Config, r: Run, k: nat, i: Id, m: Message, u: nat, l: Id)
    requires IsRun(c, r) && k < |r.steps| && HandlesAppend(c, r, k, i, m)
    requires u < |r.states| && l in r.states[u].servers
    requires r.states[u].servers[l].role == Leader && r.states[u].servers[l].currentTerm == m.mterm
    requires Extent(m) <= |r.states[u].servers[l].log|
    ensures i in r.states[k + 1].servers
    ensures var x, x', y := r.states[k].servers[i], r.states[k + 1].servers[i], r.states[u].servers[l];
            var sent := y.log[..Extent(m)];
            && l == m.msource
            && (if Fits(x, m, y.log) then Taken(c, x, x', m, sent) else Refused(x, x', m))
            && HandleMsg(c, i, x, true).out == Some(AppendReply(x'.currentTerm, Fits(x, m, y.log), if Fits(x, m, y.log) then |sent| else 0, i, l))
  {
    hide Good, Body, Fits, Taken, Refused, HandleAppendEntries, HistoryOk;
    var x, y, send := r.states[k].servers[i], r.states[u].servers[l], r.steps[k].act.send;
    AppendInHand(c, r, k, i, m);
    var h := HistoryAt(c, r, k);
    AppendDecision(c, h, i, x, m, send);
    AppendDecision(c, h, i, x, m, true);
    SentIsLeaders(c, r, k, u, l, m);
    FitsAlike(x, m, SentLog(h, m), y.log);
    HandledState(c, r, k, i);
    DecisionAnyMessage(c, x, HandleAppendEntries(c, i, x, m, send).sv, m, SentLog(h, m));
    SameDecision(c, i, x, m, send);
  }

  lemma SameDecision(c: Config, i: Id, sv: Server, m: Message, send: bool)
    requires m.AppendEntries?
    ensures HandleAppendEntries(c, i, sv, m, send).sv == HandleAppendEntries(c, i, sv, m, true).sv
  {
    hide PopAndConcat, ApplyLog, LogOK, StepDown;
  }

  lemma DecisionAnyMessage(c: Config, sv: Server, sv': Server, m: Message, sent: Log)
    requires m.AppendEntries?
    ensures Taken(c, sv, sv', m, sent) <==> Taken(c, sv, sv'.(m := None), m, sent)
    ensures Refused(sv, sv', m) <==> Refused(sv, sv'.(m := None), m)
  {
  }

  lemma HandledState(c: Config, r: Run, k: nat, i: Id)
    requires IsRun(c, r) && k < |r.steps| && i in r.states[k].servers && r.states[k].servers[i].m.Some?
    requires r.steps[k].Section? && r.steps[k].i == i && r.steps[k].act.HandleAct?
    ensures i in r.states[k + 1].servers
    ensures r.states[k + 1].servers[i] == HandleMsg(c, i, r.states[k].servers[i], r.steps[k].act.send).sv.(m := None)
  {
    assert StepAt(c, r, k);
    ServersAfterStep(c, r.states[k], r.steps[k], i);
  }

  lemma AppendInHand(c: Config, r: Run, k: nat, i: Id, m: Message)
    requires IsRun(c, r) && k < |r.steps| && HandlesAppend(c, r, k, i, m)
    ensures var h := HistoryAt(c, r, k);
            Good(c, h, i, r.states[k].servers[i]) && AppendOk(c.n, h, m) && m.msource != i && m.mdest == i
  {
    RunKeepsInv(c, r, k);
    var s, h := r.states[k], HistoryAt(c, r, k);
    assert ServerInv(c, h, i, s.servers[i]) && SupportInv(h, i, s.servers[i]) && HeldInv(i, s.servers[i]);
    HeldMessage(c, s, h, i);
  }

  lemma FitsAlike(sv: Server, m: Message, sent: Log, leaderLog: Log)
    requires m.AppendEntries? && sent <= leaderLog && m.mprevLogIndex <= |sent|
    ensures Fits(sv, m, sent) <==> Fits(sv, m, leaderLog)
  {
    assert sent[..m.mprevLogIndex] == leaderLog[..m.mprevLogIndex];
  }

  lemma SentIsLeaders(c: Config, r: Run, k: nat, u: nat, l: Id, m: Message)
    requires IsRun(c, r) && k < |r.states| && u < |r.states| && l in r.states[u].servers
    requires m.AppendEntries? && AppendOk(c.n, HistoryAt(c, r, k), m)
    requires r.states[u].servers[l].role == Leader && r.states[u].servers[l].currentTerm == m.mterm
    requires Extent(m) <= |r.states[u].servers[l].log|
    ensures l == m.msource && r.states[u].servers[l].log[..Extent(m)] == SentLog(HistoryAt(c, r, k), m)
  {
    var z := Later(k, u);
    RunGrows(c, r, k, z);
    ServerAt(c, r, u, z, l);
    assert ElectionGrows(HistoryAt(c, r, k), HistoryAt(c, r, z), m.mterm);
    var log := HistoryAt(c, r, z).elections[m.mterm].log;
    assert r.states[u].servers[l].log[..Extent(m)] == log[..Extent(m)] == SentLog(HistoryAt(c, r, k), m);
  }

  // ----- how a leader finds what a follower is missing

  /** The leader after `k` refusals by one server. */
  function AfterRefusals(sv: Server, m: Message, k: nat): Server
    requires m.AppendReply?
  {
    if k == 0 then sv else HandleAppendReply(AfterRefusals(sv, m, k - 1), m)
  }

  /**
   Every refusal takes the next index one back, down to 1, where an append has nothing before its entries and so fits
   every follower. Nothing else moves.
   */
  lemma {:induction false} RefusalsReachTheStart(i: Id, sv: Server, m: Message, k: nat)
    requires m.AppendReply? && !m.msuccess && m.mterm == sv.currentTerm
    requires m.msource in sv.nextIndex && 1 <= sv.nextIndex[m.msource] <= |sv.log| + 1
    ensures var j := m.msource;
            var sv' := AfterRefusals(sv, m, k);
            && sv' == sv.(nextIndex := sv'.nextIndex)
            && j in sv'.nextIndex && sv'.nextIndex[j] == Max(sv.nextIndex[j] - k, 1)
            && (forall x :: x in sv.nextIndex && x != j ==> x in sv'.nextIndex && sv'.nextIndex[x] == sv.nextIndex[x])
            && var append := AppendMessage(i, sv'.(aeIdx := j));
               && append.mprevLogIndex + 1 == sv'.nextIndex[j]
               && append.mentries == sv.log[append.mprevLogIndex..] && Extent(append) == |sv.log|
               && append.mcommitIndex == sv.commitIndex
  {
    if k > 0 {
      RefusalsReachTheStart(i, sv, m, k - 1);
      OneRefusal(AfterRefusals(sv, m, k - 1), m);
    }
  }

  lemma OneRefusal(sv: Server, m: Message)
    requires m.AppendReply? && !m.msuccess && m.mterm == sv.currentTerm && m.msource in sv.nextIndex
    ensures HandleAppendReply(sv, m) == sv.(nextIndex := sv.nextIndex[m.msource := Max(sv.nextIndex[m.msource] - 1, 1)])
  {
  }

  /** An acknowledgement moves both indices to what was acknowledged: the next append starts right behind it. */
  lemma AcknowledgementMoves(i: Id, sv: Server, m: Message)
    requires m.AppendReply? && m.msuccess && m.mterm == sv.currentTerm && m.mmatchIndex <= |sv.log|
    ensures var j := m.msource;
            var sv' := HandleAppendReply(sv, m);
            && j in sv'.matchIndex && j in sv'.nextIndex
            && sv'.matchIndex[j] == m.mmatchIndex && sv'.role == sv.role && sv'.log == sv.log
            && AppendInRange(sv'.(aeIdx := j))
            && AppendMessage(i, sv'.(aeIdx := j)).mprevLogIndex == m.mmatchIndex
  {
  }

  /** A new leader begins at the end of its log: its first append to any server carries nothing and asks about the last entry. */
  lemma FirstAppendIsEmpty(c: Config, i: Id, sv: Server, j: Id)
    requires sv.becomeLeaderCh > 0 && j in ServerSet(c.n)
    ensures var sv' := BecomeLeader(c, i, sv);
            && AppendInRange(sv'.(aeIdx := j))
            && var m := AppendMessage(i, sv'.(aeIdx := j));
               m.mentries == [] && m.mprevLogIndex == |sv.log| && m.mprevLogTerm == LastTerm(sv.log) && m.mterm == sv.currentTerm
  {
  }

  /** A leader's round sends to every other server in turn what that one is missing, and a server that does not lead stops. */
  lemma EveryServerIsSent(c: Config, i: Id, sv: Server)
    requires 0 < sv.aeIdx && (sv.role == Leader && sv.aeIdx <= c.n ==> AppendInRange(sv))
    ensures var e := AppendEntriesStep(c, i, sv, true);
            && (e.out.Some? <==> sv.role == Leader && sv.aeIdx in ServerSet(c.n) && sv.aeIdx != i)
            && (e.out.Some? ==>
                  var m := e.out.value;
                  && m.AppendEntries? && m.mterm == sv.currentTerm && m.msource == i && m.mdest == sv.aeIdx
                  && m.mprevLogIndex + 1 == sv.nextIndex[sv.aeIdx] && Extent(m) == |sv.log|)
            && e.sv == sv.(aeIdx := if sv.role == Leader && sv.aeIdx <= c.n then sv.aeIdx + 1 else 0)
  {
  }

  // ----- what a client is told

  /**
   A response answers the command at its index of the log, and reads what that command and those before it put last:
   the value of the last put to the key, or that there is none.
   */
  lemma ReplyReadsLastPut(c: Config, r: Run, p: nat, a: Id, x: Reply)
    requires IsRun(c, r) && p < |r.states| && a in r.states[p].servers && x in r.states[p].servers[a].replies
    ensures var sv := r.states[p].servers[a];
            && 1 <= x.index <= sv.commitIndex <= |sv.log|
            && var entry := sv.log[x.index - 1];
               && x.client == entry.client && x.kind == entry.cmd.kind && x.idx == entry.cmd.idx && x.key == entry.cmd.key
               && ReadsAs(Commands(sv.log[..x.index]), x.key, x.value)
  {
    var sv := r.states[p].servers[a];
    ReplyGiven(c, r, p, a, x);
    ReplayReadsLastPut(Commands(sv.log[..x.index]), x.key);
  }

  /** The store of every server reads so for the commands it has applied; so does that of a key-value server for those it took. */
  lemma StoreReadsLastPut(c: Config, r: Run, p: nat, a: Id, key: string)
    requires IsRun(c, r) && p < |r.states| && a in r.states[p].servers
    ensures var sv := r.states[p].servers[a];
            && sv.consumed <= |sv.acct| && sv.commitIndex <= |sv.log|
            && (!c.modular ==> ReadsAs(Commands(sv.log[..sv.commitIndex]), key, Lookup(sv.sm, key))
                               && (key in sv.smDomain <==> key in sv.sm))
            && (c.modular ==> sv.consumed <= sv.commitIndex
                              && ReadsAs(Commands(sv.log[..sv.consumed]), key, Lookup(sv.kvSm, key))
                              && (key in sv.kvDomain <==> key in sv.kvSm))
  {
    var sv := r.states[p].servers[a];
    StoreAt(c, r, p, a);
    if c.modular {
      KeyValueServersAgree(c, r, p, a, p, a);
      ReplayReadsLastPut(Commands(sv.log[..sv.consumed]), key);
    } else {
      ReplayReadsLastPut(Commands(sv.log[..sv.commitIndex]), key);
    }
  }

  /** One more entry is applied and its client answered; in the composed system the accept channel gets it instead. */
  predicate AppliesOne(c: Config, sv: Server, sv': Server) {
    && sv'.commitIndex == sv.commitIndex + 1 && sv'.applying && sv'.log == sv.log
    && (if c.modular then |sv'.acct| == |sv.acct| + 1 && sv'.replies == sv.replies
        else |sv'.replies| == |sv.replies| + 1 && sv.replies <= sv'.replies && sv'.replies[|sv.replies|].index == sv'.commitIndex)
  }

  predicate AppliesNothing(sv: Server, sv': Server) {
    && sv'.commitIndex == sv.commitIndex && !sv'.applying && sv'.log == sv.log
    && sv'.replies == sv.replies && sv'.acct == sv.acct
  }

  /** Each round of applyLoop applies one entry while its target is ahead, whatever the role, and then ends. */
  lemma AppliedIsAnswered(c: Config, r: Run, k: nat, i: Id)
    requires IsRun(c, r) && k < |r.steps| && r.steps[k] == Section(i, ApplyAct) && i in r.states[k].servers
    ensures i in r.states[k + 1].servers
    ensures var x, x' := r.states[k].servers[i], r.states[k + 1].servers[i];
            if x.commitIndex < x.newCommitIndex then AppliesOne(c, x, x') else AppliesNothing(x, x')
  {
    hide Body, RunAction, ApplyStep, AppliesOne, AppliesNothing;
    assert StepAt(c, r, k);
    var sv := r.states[k].servers[i];
    ServersAfterStep(c, r.states[k], r.steps[k], i);
    NothingFails(c, r, k + 1, i);
    ApplySection(c, i, sv);
    OneApplication(c, sv);
  }

  lemma ApplySection(c: Config, i: Id, sv: Server)
    requires sv.applying
    ensures var x, sv' := ApplyStep(c, sv).sv, RunAction(c, i, sv, ApplyAct).sv;
            && sv'.failed == x.failed
            && (AppliesOne(c, sv, x) <==> AppliesOne(c, sv, sv')) && (AppliesNothing(sv, x) <==> AppliesNothing(sv, sv'))
  {
    hide ApplyStep;
  }

  lemma OneApplication(c: Config, sv: Server)
    requires !ApplyStep(c, sv).sv.failed && sv.applying
    ensures var sv' := ApplyStep(c, sv).sv;
            if sv.commitIndex < sv.newCommitIndex then AppliesOne(c, sv, sv') else AppliesNothing(sv, sv')
  {
    hide ApplyCommand;
  }
}
