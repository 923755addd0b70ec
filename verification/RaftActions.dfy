/** What a critical section must achieve, and the sections that leave log, role and term alone. */
module RaftActions {
  import opened RaftOps
  import opened RaftServer
  import opened RaftSystem
  import opened RaftHistory
  import opened RaftHistorySteps
  import opened RaftInvariant
  import opened RaftFrame

  /** The history after a section of server `i` that took it from `sv` on. */
  function Record(c: Config, h: History, i: Id, sv: Server, act: Action): History
    requires ActionEnabled(c, i, sv, act)
  {
    if i !in h.sync then h
    else
      match act
      case HandleAct(_) => RecordHandled(c, h, i, sv, sv.m.value)
      case TimeoutAct => AddBallot(h, sv.currentTerm + 1, i, Ballot(i, sv.log, h.sync[i]))
      case BecomeLeaderAct => RecordElection(h, i, sv)
      case _ => h
  }

  function RecordHandled(c: Config, h: History, i: Id, sv: Server, m: Message): History
    requires i in h.sync
  {
    match m
    case RequestVote(t, _, _, j, _) =>
      if HandleRequestVote(i, sv, m, true).out == Some(VoteReply(t, true, i, j))
      then AddBallot(h, t, i, Ballot(j, sv.log, h.sync[i])) else h
    case AppendEntries(t, _, _, _, _, j, _) =>
      if HandleAppendEntries(c, i, sv, m, true).out == Some(AppendReply(t, true, Extent(m), i, j))
      then Accept(h, t, i, Extent(m)) else h
    case ClientRequest(cmd, client) =>
      if sv.role == Leader && sv.currentTerm in h.elections then
        var log := HandleClientRequest(c, sv, cmd, client).log;
        Accept(ExtendLeader(h, sv.currentTerm, log), sv.currentTerm, i, |log|)
      else h
    case _ => h
  }

  function RecordElection(h: History, i: Id, sv: Server): History {
    var t := sv.currentTerm;
    var votes := map v | v in sv.votesGranted && (t, v) in h.ballots :: h.ballots[(t, v)];
    Accept(Elect(h, t, Election(i, sv.log, sv.log, votes)), t, i, |sv.log|)
  }

  /** A message the section sends: it says no more than the history, and no less than anything sent before. */
  ghost predicate OutOk(n: nat, h: History, i: Id, sv: Server, m: Message) {
    match m
    case RequestVote(_, _, _, src, dst) => src == i && dst in ServerSet(n) && dst != i && RequestOk(sv, m)
    case VoteReply(t, granted, src, dst) =>
      src == i && dst in ServerSet(n) && dst != i && (granted ==> GrantedBy(h, t, i, dst))
    case AppendEntries(t, _, _, _, _, src, dst) =>
      src == i && dst in ServerSet(n) && dst != i && AppendOk(n, h, m) && Extent(m) == |h.elections[t].log|
    case AppendReply(t, ok, k, src, dst) =>
      src == i && dst in ServerSet(n) && dst != i && ReplyOk(h, m) && (ok ==> k == h.accepted[(t, i)])
    case ClientRequest(_, _) => false
  }

  /** Messages still on their way to the server stay good for it; `head` is the one it has just handled. */
  ghost predicate ReceiverOk(n: nat, h: History, h': History, i: Id, sv: Server, sv': Server, head: Option<Message>) {
    && (forall m: Message {:trigger NotShrinking(h', m)} ::
          m.AppendEntries? && m.mdest == i && m.msource != i && AppendOk(n, h, m) && NotShrinking(h, m) &&
          (head.Some? && ChanOf(head.value) == ChanOf(m) ==> InOrder(head.value, m)) ==>
          NotShrinking(h', m))
    && (forall m: Message {:trigger NotCounted(sv', m)} ::
          m.AppendReply? && m.mdest == i && m.msource != i && m.msource in ServerSet(n) && ReplyOk(h, m) && NotCounted(sv, m) &&
          (head.Some? && ChanOf(head.value) == ChanOf(m) ==> InOrder(head.value, m)) ==>
          NotCounted(sv', m))
  }

  /** A vote recorded by this section answers the request at hand. */
  ghost predicate NewVotes(h: History, h': History, i: Id, head: Option<Message>) {
    forall t: nat, j: Id {:trigger GrantedBy(h', t, i, j)} :: GrantedBy(h', t, i, j) && j != i ==>
      || (GrantedBy(h, t, i, j) && h'.ballots[(t, i)] == h.ballots[(t, i)])
      || (head.Some? && Answers(head.value, t, j, h'.ballots[(t, i)].log))
  }

  predicate Answers(m: Message, t: nat, j: Id, voter: Log) {
    && m.RequestVote? && m.mterm == t && m.msource == j
    && (m.mlastLogTerm > LastTerm(voter) || (m.mlastLogTerm == LastTerm(voter) && m.mlastLogIndex >= |voter|))
  }

  ghost predicate ActionOk(c: Config, h: History, h': History, i: Id, sv: Server, sv': Server,
                           head: Option<Message>)
  {
    && HistoryOk(c.n, h')
    && OnlyActor(h, h', i)
    && ServerInv(c, h', i, sv')
    && SupportInv(h', i, sv')
    && Advances(sv, sv')
    && NewVotes(h, h', i, head)
    && ReceiverOk(c.n, h, h', i, sv, sv', head)
  }

  ghost predicate SendsOk(n: nat, h: History, i: Id, e: Effect) {
    e.out.Some? ==> OutOk(n, h, i, e.sv, e.out.value)
  }

  // ----- sections that change neither log, role, term nor votes

  predicate SameCore(sv: Server, sv': Server) {
    && sv'.role == sv.role && sv'.currentTerm == sv.currentTerm && sv'.votedFor == sv.votedFor
    && sv'.log == sv.log && sv'.nextIndex == sv.nextIndex && sv'.matchIndex == sv.matchIndex
    && sv'.votesGranted == sv.votesGranted
  }

  lemma Quiet(c: Config, h: History, i: Id, sv: Server, sv': Server)
    requires HistoryOk(c.n, h) && ServerInv(c, h, i, sv) && SupportInv(h, i, sv)
    requires SameCore(sv, sv') && CommitInv(c.n, h, i, sv') && StoreInv(c, sv') && sv.commitIndex <= sv'.commitIndex
    ensures ActionOk(c, h, h, i, sv, sv', None)
  {
    assert OnlyActor(h, h, i) by {
      forall t: nat | t in h.elections ensures ElectionGrows(h, h, t) {}
    }
    assert IndexInv(c.n, h, sv') by {
      if sv.role == Leader {
        forall j | j in ServerSet(c.n) ensures MatchInv(h, sv', j) {
          assert MatchInv(h, sv, j);
        }
      }
    }
  }

  /** The targets and the applied state are as before. */
  predicate SameStore(sv: Server, sv': Server) {
    && sv'.commitIndex == sv.commitIndex && sv'.newCommitIndex == sv.newCommitIndex && sv'.fTarget == sv.fTarget
    && sv'.fAdvCommitIdxCh == sv.fAdvCommitIdxCh
    && sv'.plog == sv.plog && sv'.sm == sv.sm && sv'.smDomain == sv.smDomain && sv'.replies == sv.replies
    && sv'.acct == sv.acct && sv'.consumed == sv.consumed && sv'.kvSm == sv.kvSm && sv'.kvDomain == sv.kvDomain
    && sv'.failed == sv.failed
  }

  lemma QuietStore(c: Config, h: History, i: Id, sv: Server, sv': Server)
    requires HistoryOk(c.n, h) && ServerInv(c, h, i, sv) && SupportInv(h, i, sv)
    requires SameCore(sv, sv') && SameStore(sv, sv')
    ensures ActionOk(c, h, h, i, sv, sv', None)
  {
    SameTargets(c.n, h, i, sv, sv');
    Quiet(c, h, i, sv, sv');
  }

  lemma SameTargets(n: nat, h: History, i: Id, sv: Server, sv': Server)
    requires i in h.sync && RoleInv(n, h, i, sv) && CommitInv(n, h, i, sv)
    requires SameCore(sv, sv')
    requires forall x: nat :: Target(sv', x) ==> Target(sv, x)
    ensures CommitInv(n, h, i, sv')
  {
    forall x: nat | Target(sv', x)
      ensures SafeIndex(n, h, h.sync[i], sv'.log, x) && (sv'.role == Leader ==> LeaderIndex(n, h, i, sv', x))
    {
      assert Target(sv, x);
      if sv.role == Leader {
        assert LeaderIndex(n, h, i, sv, x);
      }
    }
  }

  // ----- the vote requester's loop

  lemma RequestVoteStepOk(c: Config, h: History, i: Id, sv: Server, send: bool)
    requires HistoryOk(c.n, h) && ServerInv(c, h, i, sv) && SupportInv(h, i, sv) && sv.rvIdx > 0
    ensures var e := RequestVoteStep(c, i, sv, send); ActionOk(c, h, h, i, sv, e.sv, None) && SendsOk(c.n, h, i, e)
  {
    RequestSendOk(c, h, i, sv, send);
    if sv.rvIdx <= c.n {
      QuietStore(c, h, i, sv, sv.(rvIdx := sv.rvIdx + 1));
    } else {
      QuietStore(c, h, i, sv, sv.(rvIdx := 0));
    }
  }

  lemma RequestSendOk(c: Config, h: History, i: Id, sv: Server, send: bool)
    requires sv.rvIdx > 0
    ensures SendsOk(c.n, h, i, RequestVoteStep(c, i, sv, send))
  {
  }

  // ----- the append sender's loop

  /** With the index in range the step moves on and, while it leads, may send its log from there. */
  lemma AppendStepOutcome(c: Config, i: Id, sv: Server, send: bool)
    requires sv.role == Leader && sv.aeIdx <= c.n ==> AppendInRange(sv)
    ensures var e := AppendEntriesStep(c, i, sv, send);
            && e.sv == sv.(aeIdx := e.sv.aeIdx)
            && (e.out.Some? ==>
                  sv.role == Leader && sv.aeIdx <= c.n && sv.aeIdx != i && AppendInRange(sv) && e.out.value == AppendMessage(i, sv))
  {
  }

  lemma AppendEntriesStepOk(c: Config, h: History, i: Id, sv: Server, send: bool)
    requires HistoryOk(c.n, h) && ServerInv(c, h, i, sv) && SupportInv(h, i, sv) && sv.aeIdx > 0
    ensures var e := AppendEntriesStep(c, i, sv, send); ActionOk(c, h, h, i, sv, e.sv, None) && SendsOk(c.n, h, i, e)
  {
    hide ElectionsOk, OnlyActor, ReceiverOk, ActionOk, AppendEntriesStep;
    var e := AppendEntriesStep(c, i, sv, send);
    if sv.role == Leader && sv.aeIdx <= c.n {
      assert MatchInv(h, sv, sv.aeIdx);
    }
    AppendStepOutcome(c, i, sv, send);
    QuietStore(c, h, i, sv, sv.(aeIdx := e.sv.aeIdx));
    if e.out.Some? {
      AppendSendOk(c.n, h, i, sv, e.out.value);
    }
  }

  /** A leader sends a cut of its log that reaches its end. */
  lemma AppendSendOk(n: nat, h: History, i: Id, sv: Server, m: Message)
    requires ElectionsOk(n, h) && i in h.sync && LeaderInv(h, i, sv) && CommitInv(n, h, i, sv)
    requires m.AppendEntries? && m.msource == i && m.mterm == sv.currentTerm && m.mcommitIndex == sv.commitIndex
    requires m.mprevLogIndex <= |sv.log| && m.mentries == sv.log[m.mprevLogIndex..]
    requires m.mprevLogIndex > 0 ==> m.mprevLogTerm == sv.log[m.mprevLogIndex - 1].term
    ensures AppendOk(n, h, m) && Extent(m) == |h.elections[m.mterm].log|
  {
    assert ElectionOk(n, h, sv.currentTerm);
    assert Target(sv, sv.commitIndex);
    assert m.mentries == sv.log[m.mprevLogIndex..Extent(m)];
  }

  // ----- the commit advancer

  lemma AgreeShrinks(n: nat, i: Id, matchIndex: map<Id, nat>, x: nat, y: nat)
    requires x <= y && Agreed(n, i, matchIndex, y)
    ensures Agreed(n, i, matchIndex, x)
  {
    SubsetSize(Agree(n, i, matchIndex, y), Agree(n, i, matchIndex, x));
  }

  /** A quorum of acknowledgements in the leader's own term commits. */
  lemma AgreedIsCommitted(c: Config, h: History, i: Id, sv: Server, k: nat)
    requires ServerInv(c, h, i, sv) && sv.role == Leader && i in ServerSet(c.n)
    requires 0 < k <= |sv.log| && sv.log[k - 1].term == sv.currentTerm
    requires Agreed(c.n, i, sv.matchIndex, k)
    ensures Committed(c.n, h, sv.currentTerm, k)
  {
    var q := Agree(c.n, i, sv.matchIndex, k);
    forall j | j in q ensures (sv.currentTerm, j) in h.accepted && h.accepted[(sv.currentTerm, j)] >= k {
      if j != i {
        assert MatchInv(h, sv, j);
      }
    }
    assert AcceptedBy(h, sv.currentTerm, k, q);
    assert q <= ServerSet(c.n);
  }

  /** The advancer's assertion: a newly agreed index of the leader's own term is never below the commit index. */
  lemma AgreedNotBelowCommit(c: Config, h: History, i: Id, sv: Server)
    requires HistoryOk(c.n, h) && ServerInv(c, h, i, sv) && sv.role == Leader
    ensures var k := FindMaxAgreeIndex(c.n, sv.log, i, sv.matchIndex);
            k <= |sv.log| && (k != NIL && sv.log[k - 1].term == sv.currentTerm ==> sv.commitIndex <= k)
  {
    var k := FindMaxAgreeIndex(c.n, sv.log, i, sv.matchIndex);
    FindMaxAgreeIndexIsGreatest(c.n, i, sv.matchIndex, |sv.log|);
    assert ElectionOk(c.n, h, sv.currentTerm);
    assert Target(sv, sv.commitIndex) && LeaderIndex(c.n, h, i, sv, sv.commitIndex);
    var start := h.elections[sv.currentTerm].start;
    assert 0 < k <= |start| ==> start[k - 1] == sv.log[k - 1];
    assert k < sv.commitIndex ==> !Agreed(c.n, i, sv.matchIndex, sv.commitIndex);
  }

  lemma NewTargetOk(c: Config, h: History, i: Id, sv: Server, k: nat)
    requires HistoryOk(c.n, h) && ServerInv(c, h, i, sv) && sv.role == Leader && i in ServerSet(c.n)
    requires 0 < k <= |sv.log| && sv.log[k - 1].term == sv.currentTerm
    requires Agreed(c.n, i, sv.matchIndex, k)
    ensures SafeIndex(c.n, h, h.sync[i], sv.log, k) && LeaderIndex(c.n, h, i, sv, k)
  {
    AgreedIsCommitted(c, h, i, sv, k);
  }

  lemma AdvanceCommitOk(c: Config, h: History, i: Id, sv: Server)
    requires HistoryOk(c.n, h) && ServerInv(c, h, i, sv) && SupportInv(h, i, sv) && CanAdvanceCommit(sv)
    requires i in ServerSet(c.n)
    ensures var e := AdvanceCommit(c, i, sv); ActionOk(c, h, h, i, sv, e.sv, None) && SendsOk(c.n, h, i, e)
  {
    hide ActionOk, VoteInv, StoreInv, SupportInv, IndexInv, ElectionsOk;
    var k := FindMaxAgreeIndex(c.n, sv.log, i, sv.matchIndex);
    AgreedNotBelowCommit(c, h, i, sv);
    FindMaxAgreeIndexIsGreatest(c.n, i, sv.matchIndex, |sv.log|);
    var n := if k != NIL && sv.log[k - 1].term == sv.currentTerm then k else sv.commitIndex;
    if n != sv.commitIndex {
      NewTargetOk(c, h, i, sv, n);
    }
    SetNewCommitIndex(c.n, h, i, sv, n);
    AdvancedTo(c, h, i, sv, n);
  }

  lemma AdvancedTo(c: Config, h: History, i: Id, sv: Server, n: nat)
    requires HistoryOk(c.n, h) && ServerInv(c, h, i, sv) && SupportInv(h, i, sv)
    requires CommitInv(c.n, h, i, sv.(newCommitIndex := n, applying := true))
    ensures ActionOk(c, h, h, i, sv, sv.(newCommitIndex := n, applying := true), None)
  {
    Quiet(c, h, i, sv, sv.(newCommitIndex := n, applying := true));
  }

  lemma SetNewCommitIndex(n: nat, h: History, i: Id, sv: Server, k: nat)
    requires i in h.sync && RoleInv(n, h, i, sv) && CommitInv(n, h, i, sv) && sv.role == Leader
    requires k == sv.commitIndex || (SafeIndex(n, h, h.sync[i], sv.log, k) && LeaderIndex(n, h, i, sv, k))
    ensures CommitInv(n, h, i, sv.(newCommitIndex := k, applying := true))
  {
    var sv' := sv.(newCommitIndex := k, applying := true);
    assert Target(sv, sv.commitIndex);
    forall x: nat | Target(sv', x) ensures SafeIndex(n, h, h.sync[i], sv'.log, x) && LeaderIndex(n, h, i, sv', x) {
      if x != k {
        assert Target(sv, x);
      }
      assert LeaderIndex(n, h, i, sv, x);
    }
  }

  lemma CommittedPrefix(n: nat, h: History, s: nat, log: Log, x: nat, y: nat)
    requires x <= y <= |log| && CommittedLog(n, h, s, log[..y])
    ensures CommittedLog(n, h, s, log[..x])
  {
    if log[..y] != [] && x > 0 {
      var t: nat, m: nat :| t <= s && Committed(n, h, t, m) && log[..y] <= h.elections[t].log[..m];
      assert log[..x] <= log[..y];
    }
  }

  /** Applying the entry after the commit index, on the way to a target. */
  lemma ApplyNextOk(c: Config, h: History, i: Id, sv: Server, target: nat)
    requires HistoryOk(c.n, h) && ServerInv(c, h, i, sv) && SupportInv(h, i, sv)
    requires Target(sv, target) && sv.commitIndex < target
    ensures var e := ApplyNext(c, sv); ActionOk(c, h, h, i, sv, e.sv, None) && SendsOk(c.n, h, i, e)
  {
    var e := ApplyNext(c, sv);
    var k := sv.commitIndex + 1;
    assert SafeIndex(c.n, h, h.sync[i], sv.log, target);
    ApplyNextStore(c, sv);
    CommittedPrefix(c.n, h, h.sync[i], sv.log, k, target);
    if sv.role == Leader {
      assert LeaderIndex(c.n, h, i, sv, target);
      if Agreed(c.n, i, sv.matchIndex, target) {
        AgreeShrinks(c.n, i, sv.matchIndex, k, target);
      }
    }
    forall x: nat | Target(e.sv, x)
      ensures SafeIndex(c.n, h, h.sync[i], e.sv.log, x) && (sv.role == Leader ==> LeaderIndex(c.n, h, i, e.sv, x))
    {
      assert x == k || Target(sv, x);
      if sv.role == Leader && x != k {
        assert LeaderIndex(c.n, h, i, sv, x);
      }
    }
    Quiet(c, h, i, sv, e.sv);
  }

  lemma {:induction false} ReplayDomain(cmds: seq<Command>)
    ensures Replay(cmds).0.Keys == Replay(cmds).1
  {
    if cmds != [] {
      ReplayDomain(cmds[..|cmds| - 1]);
    }
  }

  lemma ApplyNextStore(c: Config, sv: Server)
    requires StoreInv(c, sv) && sv.commitIndex < |sv.log|
    ensures StoreInv(c, ApplyNext(c, sv).sv) && ApplyNext(c, sv).sv.commitIndex == sv.commitIndex + 1
    ensures ApplyNext(c, sv).out == None && SameCore(sv, ApplyNext(c, sv).sv)
    ensures var sv' := ApplyNext(c, sv).sv;
            sv'.newCommitIndex == sv.newCommitIndex && sv'.fTarget == sv.fTarget && sv'.fAdvCommitIdxCh == sv.fAdvCommitIdxCh
  {
    var k := sv.commitIndex;
    if c.modular {
      assert Commands(sv.log[..k + 1]) == Commands(sv.log[..k]) + [sv.log[k].cmd];
      var acct' := ApplyNext(c, sv).sv.acct;
      assert acct'[..sv.consumed] == sv.acct[..sv.consumed];
    } else {
      ReplayStep(sv.log, k);
      ReplayDomain(Commands(sv.log[..k + 1]));
      ReplyAppended(sv, ApplyNext(c, sv).sv);
    }
  }

  lemma ReplyAppended(sv: Server, sv': Server)
    requires RepliesInv(sv) && sv.commitIndex < |sv.log| && sv'.log == sv.log
    requires sv'.commitIndex == sv.commitIndex + 1
    requires sv'.replies == sv.replies + [ReplyFor(sv.log, sv.commitIndex + 1)]
    ensures RepliesInv(sv')
  {
  }

  lemma ApplyStepOk(c: Config, h: History, i: Id, sv: Server)
    requires HistoryOk(c.n, h) && ServerInv(c, h, i, sv) && SupportInv(h, i, sv)
    ensures var e := ApplyStep(c, sv); ActionOk(c, h, h, i, sv, e.sv, None) && SendsOk(c.n, h, i, e)
  {
    if sv.commitIndex < sv.newCommitIndex {
      ApplyNextOk(c, h, i, sv, sv.newCommitIndex);
    } else {
      QuietStore(c, h, i, sv, ApplyStep(c, sv).sv);
    }
  }

  lemma FollowerApplyStepOk(c: Config, h: History, i: Id, sv: Server)
    requires HistoryOk(c.n, h) && ServerInv(c, h, i, sv) && SupportInv(h, i, sv)
    ensures var e := FollowerApplyStep(c, sv); ActionOk(c, h, h, i, sv, e.sv, None) && SendsOk(c.n, h, i, e)
  {
    if sv.commitIndex < sv.fTarget {
      ApplyNextOk(c, h, i, sv, sv.fTarget);
    } else {
      QuietStore(c, h, i, sv, FollowerApplyStep(c, sv).sv);
    }
  }

  lemma ReceiveTargetOk(c: Config, h: History, i: Id, sv: Server)
    requires HistoryOk(c.n, h) && ServerInv(c, h, i, sv) && SupportInv(h, i, sv) && CanReceiveTarget(c, sv)
    ensures ActionOk(c, h, h, i, sv, ReceiveTarget(sv), None)
  {
    var sv' := ReceiveTarget(sv);
    assert forall x: nat :: Target(sv', x) ==> Target(sv, x);
    SameTargets(c.n, h, i, sv, sv');
    Quiet(c, h, i, sv, sv');
  }

  lemma ConsumeOk(c: Config, h: History, i: Id, sv: Server)
    requires HistoryOk(c.n, h) && ServerInv(c, h, i, sv) && SupportInv(h, i, sv) && CanConsume(c, sv)
    ensures ActionOk(c, h, h, i, sv, Consume(sv), None)
  {
    var sv' := Consume(sv);
    assert sv.acct[..sv.consumed + 1][..sv.consumed] == sv.acct[..sv.consumed];
    SameTargets(c.n, h, i, sv, sv');
    Quiet(c, h, i, sv, sv');
  }
}
