/** Replication: a server accepts a leader's entries, a leader counts the answers and takes new commands. */
module RaftAppend {
  import opened RaftOps
  import opened RaftServer
  import opened RaftSystem
  import opened RaftHistory
  import opened RaftHistorySteps
  import opened RaftInvariant
  import opened RaftFrame
  import opened RaftActions
  import opened RaftSections

  /** The leader's log up to where an append reaches: all of its log when it sent it. */
  function SentLog(h: History, m: Message): Log
    requires m.AppendEntries? && m.mterm in h.elections && Extent(m) <= |h.elections[m.mterm].log|
  {
    h.elections[m.mterm].log[..Extent(m)]
  }

  /**
   The unconditional cut is harmless: the check on the previous entry makes the kept part the leader's own,
   so the follower's new log is exactly the log the leader had when it sent the message.
   */
  lemma AcceptedLogIsLeaders(n: nat, h: History, sync: nat, log: Log, m: Message)
    requires ElectionsOk(n, h) && Written(h, sync, log)
    requires m.AppendEntries? && AppendOk(n, h, m) && LogOK(log, m)
    ensures m.mprevLogIndex <= |log| && log[..m.mprevLogIndex] + m.mentries == SentLog(h, m)
    ensures CopiedFrom(h, m.mterm, SentLog(h, m))
  {
    assert ElectionOk(n, h, m.mterm);
    var leaderLog := h.elections[m.mterm].log;
    var prev := m.mprevLogIndex;
    if prev > 0 {
      WrittenLogOk(n, h, sync, log);
      CopiedLogOk(n, h, m.mterm, leaderLog);
      LogsMatch(h, log, leaderLog, prev - 1);
      assert log[..prev] == leaderLog[..prev];
    }
    assert leaderLog[..prev] + leaderLog[prev..Extent(m)] == leaderLog[..Extent(m)];
  }

  /** Every index a server may apply up to keeps its entries when the log is replaced by a leader's. */
  lemma TargetSurvives(n: nat, h: History, i: Id, sv: Server, m: Message, x: nat)
    requires HistoryOk(n, h) && i in h.sync && LogInv(h, i, sv)
    requires m.AppendEntries? && AppendOk(n, h, m) && NotShrinking(h, m) && m.mterm == sv.currentTerm && m.mdest == i
    requires SafeIndex(n, h, h.sync[i], sv.log, x)
    ensures x <= Extent(m) && SentLog(h, m)[..x] == sv.log[..x]
  {
    assert ElectionOk(n, h, m.mterm);
    var leaderLog := h.elections[m.mterm].log;
    if h.sync[i] == m.mterm {
      assert |sv.log| <= Extent(m) && sv.log <= leaderLog;
    } else {
      CommittedIsInLeader(n, h, h.sync[i], sv.log[..x], m.mterm);
    }
  }

  // ----- the applied state when the log is replaced

  /** What accepting does to the variables the applied state is made of. */
  lemma AcceptStores(c: Config, sv: Server, m: Message)
    requires m.AppendEntries? && LogOK(sv.log, m) && m.mprevLogIndex <= |sv.log|
    requires m.mcommitIndex <= m.mprevLogIndex + |m.mentries| && (!c.modular ==> sv.plog == sv.log)
    ensures var sv' := AcceptEntries(c, m.mdest, sv, m, true).sv;
            && sv'.log == sv.log[..m.mprevLogIndex] + m.mentries
            && sv'.replies == sv.replies && sv'.acct == sv.acct && sv'.consumed == sv.consumed
            && sv'.kvSm == sv.kvSm && sv'.kvDomain == sv.kvDomain && sv'.failed == sv.failed
            && (if c.modular then sv'.commitIndex == sv.commitIndex
                else
                  && sv'.plog == sv'.log && sv'.commitIndex == Max(sv.commitIndex, m.mcommitIndex)
                  && (sv'.sm, sv'.smDomain) == ApplyLog(sv'.log, sv.commitIndex + 1, m.mcommitIndex, sv.sm, sv.smDomain))
  {
    hide PopAndConcat, ApplyLog;
    PopAndConcatOutcome(sv.plog, |sv.log| - m.mprevLogIndex, m.mentries);
  }

  lemma StoreAfterAccept(c: Config, sv: Server, m: Message, log: Log)
    requires StoreInv(c, sv) && m.AppendEntries? && m.mprevLogIndex <= |sv.log|
    requires log == sv.log[..m.mprevLogIndex] + m.mentries && m.mcommitIndex <= |log|
    requires sv.commitIndex <= |log| && log[..sv.commitIndex] == sv.log[..sv.commitIndex]
    requires LogOK(sv.log, m)
    ensures StoreInv(c, AcceptEntries(c, m.mdest, sv, m, true).sv)
  {
    hide AcceptEntries;
    AcceptStores(c, sv, m);
    var sv' := AcceptEntries(c, m.mdest, sv, m, true).sv;
    if c.modular {
      assert Commands(log[..sv.commitIndex]) == Commands(sv.log[..sv.commitIndex]);
    } else {
      FollowerReplays(log, sv.commitIndex, m.mcommitIndex);
    }
    RepliesSurvive(sv, sv');
  }

  lemma FollowerReplays(log: Log, from: nat, to: nat)
    requires from <= |log| && to <= |log|
    ensures var r := Replay(Commands(log[..from]));
            var up := if to > from then to else from;
            ApplyLog(log, from + 1, to, r.0, r.1) == Replay(Commands(log[..up]))
  {
    if from <= to {
      ApplyLogContinuesReplay(log, from + 1, to);
    }
  }

  lemma RepliesSurvive(sv: Server, sv': Server)
    requires RepliesInv(sv) && sv'.replies == sv.replies && sv.commitIndex <= sv'.commitIndex
    requires sv.commitIndex <= |sv.log| && sv'.commitIndex <= |sv'.log| && sv.commitIndex <= |sv'.log|
    requires sv'.log[..sv.commitIndex] == sv.log[..sv.commitIndex]
    ensures RepliesInv(sv')
  {
    forall r | r in sv'.replies ensures 1 <= r.index <= sv'.commitIndex && r == ReplyFor(sv'.log, r.index) {
      assert sv'.log[..r.index] == sv'.log[..sv.commitIndex][..r.index];
      assert sv.log[..r.index] == sv.log[..sv.commitIndex][..r.index];
      assert sv'.log[r.index - 1] == sv'.log[..r.index][r.index - 1];
      assert sv.log[r.index - 1] == sv.log[..r.index][r.index - 1];
    }
  }

  // ----- handleMsg: an append

  lemma StepDownOk(c: Config, h: History, i: Id, sv: Server, m: Message)
    requires Good(c, h, i, sv)
    requires m.AppendEntries? && AppendOk(c.n, h, m) && m.msource != i
    ensures var sv' := StepDown(sv, m);
            && Good(c, h, i, sv') && Advances(sv, sv') && m.mterm <= sv'.currentTerm
            && (m.mterm == sv'.currentTerm ==> sv'.role == Follower)
            && (sv'.role == Leader ==> sv' == sv)
            && sv'.log == sv.log
  {
    var sv1 := UpdateTerm(sv, m.mterm);
    UpdateTermOk(c, h, i, sv, m.mterm);
    if m.mterm == sv1.currentTerm {
      NotLeaderOfTerm(c, h, i, sv1, m);
      StepDownIs(sv, m);
      BecomeFollower(c, h, i, sv1, StepDown(sv, m));
    }
  }

  lemma NotLeaderOfTerm(c: Config, h: History, i: Id, sv: Server, m: Message)
    requires Good(c, h, i, sv)
    requires m.AppendEntries? && AppendOk(c.n, h, m) && m.msource != i && m.mterm == sv.currentTerm
    ensures sv.role != Leader
  {
  }

  lemma StepDownIs(sv: Server, m: Message)
    requires m.AppendEntries? && UpdateTerm(sv, m.mterm).currentTerm == m.mterm && UpdateTerm(sv, m.mterm).role != Leader
    ensures StepDown(sv, m) == UpdateTerm(sv, m.mterm).(leader := m.msource, role := Follower)
  {
  }

  lemma BecomeFollower(c: Config, h: History, i: Id, sv: Server, sv': Server)
    requires Good(c, h, i, sv)
    requires sv' == sv.(leader := sv'.leader, role := Follower)
    requires sv.role != Leader
    ensures Good(c, h, i, sv')
  {
    Reflexive(h, i);
    TargetsGrow(c.n, h, h, i, sv, sv');
    forall t: nat, v: Id | GrantedBy(h, t, v, i) ensures Supported(sv', t, h.ballots[(t, v)].log) {}
  }

  /** The handler steps down, then accepts or refuses; with the sender as leader of its term it never fails. */
  lemma AppendCases(c: Config, i: Id, sv: Server, m: Message, send: bool)
    requires m.AppendEntries? && m.mterm <= StepDown(sv, m).currentTerm
    requires m.mterm == StepDown(sv, m).currentTerm ==> StepDown(sv, m).role == Follower
    ensures var sv1 := StepDown(sv, m);
            if m.mterm == sv1.currentTerm && LogOK(sv1.log, m)
            then HandleAppendEntries(c, i, sv, m, send) == AcceptEntries(c, i, sv1, m, send)
            else HandleAppendEntries(c, i, sv, m, send) ==
                   Send(send, sv1, AppendReply(sv1.currentTerm, false, 0, i, m.msource))
  {
  }

  lemma AppendEntriesOk(c: Config, h: History, i: Id, sv: Server, m: Message, send: bool)
    requires Good(c, h, i, sv)
    requires m.AppendEntries? && AppendOk(c.n, h, m) && NotShrinking(h, m)
    requires m.msource in ServerSet(c.n) && m.msource != i && m.mdest == i
    ensures var e := HandleAppendEntries(c, i, sv, m, send);
            var h' := RecordHandled(c, h, i, sv, m);
            ActionOk(c, h, h', i, sv, e.sv, Some(m)) && SendsOk(c.n, h', i, e)
  {
    hide OnlyActor, ReceiverOk, ActionOk, StoreInv, IndexInv, RoleInv, Written, AcceptEntries;
    var sv1 := StepDown(sv, m);
    StepDownOk(c, h, i, sv, m);
    AppendCases(c, i, sv, m, send);
    AppendCases(c, i, sv, m, true);
    if m.mterm == sv1.currentTerm && LogOK(sv1.log, m) {
      AcceptedLogIsLeaders(c.n, h, h.sync[i], sv1.log, m);
      AcceptOutcome(c, i, sv1, m, send);
      AcceptOutcome(c, i, sv1, m, true);
      AcceptEntriesOk(c, h, i, sv, sv1, m);
    } else {
      NoHistory(c, h, i, sv, sv1, Some(m));
    }
  }

  /** A step that records nothing and leaves the leader's counts alone. */
  lemma NoHistory(c: Config, h: History, i: Id, sv: Server, sv': Server, head: Option<Message>)
    requires Good(c, h, i, sv') && Advances(sv, sv')
    requires sv'.role == Leader ==>
               sv.role == Leader && sv.currentTerm == sv'.currentTerm && sv.matchIndex == sv'.matchIndex
    ensures ActionOk(c, h, h, i, sv, sv', head)
  {
    Reflexive(h, i);
    ReceiverSame(c.n, h, h, i, sv, sv', head);
  }

  lemma AcceptOutcome(c: Config, i: Id, sv: Server, m: Message, send: bool)
    requires m.AppendEntries? && LogOK(sv.log, m) && m.mprevLogIndex <= |sv.log| && m.mcommitIndex <= Extent(m)
    requires StoreInv(c, sv)
    ensures var e := AcceptEntries(c, i, sv, m, send);
            && e.sv == AcceptEntries(c, m.mdest, sv, m, true).sv
            && e.out == (if send then Some(AppendReply(sv.currentTerm, true, Extent(m), i, m.msource)) else None)
            && e.sv.log == sv.log[..m.mprevLogIndex] + m.mentries
            && sv.commitIndex <= e.sv.commitIndex
            && e.sv.role == sv.role && e.sv.currentTerm == sv.currentTerm && e.sv.votedFor == sv.votedFor
            && e.sv.votesGranted == sv.votesGranted && e.sv.nextIndex == sv.nextIndex && e.sv.matchIndex == sv.matchIndex
            && (forall x: nat :: Target(e.sv, x) ==> Target(sv, x) || x == m.mcommitIndex)
  {
    hide PopAndConcat, ApplyLog;
    PopAndConcatOutcome(sv.plog, |sv.log| - m.mprevLogIndex, m.mentries);
  }

  lemma AcceptEntriesOk(c: Config, h: History, i: Id, sv0: Server, sv: Server, m: Message)
    requires Good(c, h, i, sv) && Advances(sv0, sv)
    requires m.AppendEntries? && AppendOk(c.n, h, m) && NotShrinking(h, m)
    requires m.msource in ServerSet(c.n) && m.msource != i && m.mdest == i
    requires m.mterm == sv.currentTerm && sv.role == Follower && LogOK(sv.log, m)
    ensures var e := AcceptEntries(c, i, sv, m, true);
            var h' := Accept(h, m.mterm, i, Extent(m));
            ActionOk(c, h, h', i, sv0, e.sv, Some(m)) && SendsOk(c.n, h', i, e)
  {
    var sv' := AcceptEntries(c, i, sv, m, true).sv;
    var h' := Accept(h, m.mterm, i, Extent(m));
    AcceptedLogIsLeaders(c.n, h, h.sync[i], sv.log, m);
    AcceptOutcome(c, i, sv, m, true);
    AcceptRecorded(c.n, h, i, sv, m);
    AcceptServer(c, h, h', i, sv, sv', m);
    AcceptReceiver(c.n, h, i, sv0, sv', m);
    forall t: nat, v: Id | GrantedBy(h', t, v, i) ensures Supported(sv', t, h'.ballots[(t, v)].log) {
      assert GrantedBy(h, t, v, i);
    }
  }

  lemma AcceptRecorded(n: nat, h: History, i: Id, sv: Server, m: Message)
    requires HistoryOk(n, h) && i in ServerSet(n) && i in h.sync && LogInv(h, i, sv) && VoteInv(h, i, sv)
    requires m.AppendEntries? && AppendOk(n, h, m) && NotShrinking(h, m) && m.mdest == i && m.mterm == sv.currentTerm
    ensures var h' := Accept(h, m.mterm, i, Extent(m)); HistoryOk(n, h') && OnlyActor(h, h', i)
  {
    AcceptOk(n, h, m.mterm, i, Extent(m));
  }

  lemma AcceptServer(c: Config, h: History, h': History, i: Id, sv: Server, sv': Server, m: Message)
    requires Good(c, h, i, sv)
    requires m.AppendEntries? && AppendOk(c.n, h, m) && NotShrinking(h, m)
    requires h' == Accept(h, m.mterm, i, Extent(m)) && Grows(h, h')
    requires m.msource != i && m.mdest == i
    requires m.mterm == sv.currentTerm && sv.role == Follower && LogOK(sv.log, m) && m.mprevLogIndex <= |sv.log|
    requires sv' == AcceptEntries(c, i, sv, m, true).sv
    requires sv.log[..m.mprevLogIndex] + m.mentries == SentLog(h, m) && CopiedFrom(h, m.mterm, SentLog(h, m))
    ensures ServerInv(c, h', i, sv')
  {
    AcceptOutcome(c, i, sv, m, true);
    assert Target(sv, sv.commitIndex);
    TargetSurvives(c.n, h, i, sv, m, sv.commitIndex);
    StoreAfterAccept(c, sv, m, sv'.log);
    AcceptTargets(c.n, h, h', i, sv, sv', m);
    assert ElectionOk(c.n, h, m.mterm);
    AcceptLogVoteRole(c, h, h', i, sv, sv', m);
  }

  lemma AcceptLogVoteRole(c: Config, h: History, h': History, i: Id, sv: Server, sv': Server, m: Message)
    requires i in h.sync && LogInv(h, i, sv) && VoteInv(h, i, sv) && RoleInv(c.n, h, i, sv) && IndexInv(c.n, h, sv)
    requires m.AppendEntries? && h' == Accept(h, m.mterm, i, Extent(m))
    requires m.mterm == sv.currentTerm && sv.role == Follower && m.mterm in h.elections
    requires Extent(m) <= |h.elections[m.mterm].log| && sv'.log == SentLog(h, m) && CopiedFrom(h, m.mterm, SentLog(h, m))
    requires sv'.role == sv.role && sv'.currentTerm == sv.currentTerm && sv'.votedFor == sv.votedFor
    requires sv'.votesGranted == sv.votesGranted && sv'.nextIndex == sv.nextIndex && sv'.matchIndex == sv.matchIndex
    ensures LogInv(h', i, sv') && VoteInv(h', i, sv') && RoleInv(c.n, h', i, sv') && IndexInv(c.n, h', sv')
  {
  }

  lemma AcceptTargets(n: nat, h: History, h': History, i: Id, sv: Server, sv': Server, m: Message)
    requires HistoryOk(n, h) && i in h.sync && LogInv(h, i, sv)
    requires m.AppendEntries? && m.mterm == sv.currentTerm && m.mdest == i && sv.role == Follower && sv'.role == Follower
    requires CommitInv(n, h, i, sv)
    requires AppendOk(n, h, m) && NotShrinking(h, m)
    requires h' == Accept(h, m.mterm, i, Extent(m)) && Grows(h, h')
    requires sv'.log == SentLog(h, m)
    requires forall x: nat :: Target(sv', x) ==> Target(sv, x) || x == m.mcommitIndex
    ensures CommitInv(n, h', i, sv')
  {
    forall x: nat | Target(sv', x) ensures SafeIndex(n, h', h'.sync[i], sv'.log, x) {
      if Target(sv, x) {
        TargetSurvives(n, h, i, sv, m, x);
        CommittedLogGrows(n, h, h', h.sync[i], sv.log[..x]);
      } else {
        assert sv'.log[..x] == h.elections[m.mterm].log[..x];
        CommittedLogGrows(n, h, h', m.mterm, sv'.log[..x]);
      }
    }
  }

  /** FIFO: what the leader sent later reaches at least as far. */
  lemma AcceptReceiver(n: nat, h: History, i: Id, sv: Server, sv': Server, m: Message)
    requires m.AppendEntries? && AppendOk(n, h, m) && m.mdest == i
    requires sv'.role == Follower
    ensures ReceiverOk(n, h, Accept(h, m.mterm, i, Extent(m)), i, sv, sv', Some(m))
  {
    var h' := Accept(h, m.mterm, i, Extent(m));
    forall later: Message | later.AppendEntries? && later.mdest == i && AppendOk(n, h, later) && NotShrinking(h, later) &&
          (ChanOf(m) == ChanOf(later) ==> InOrder(m, later))
      ensures NotShrinking(h', later)
    {}
  }

  // ----- handleMsg: the answer to an append

  lemma AppendReplyOk(c: Config, h: History, i: Id, sv: Server, m: Message)
    requires Good(c, h, i, sv)
    requires m.AppendReply? && ReplyOk(h, m) && NotCounted(sv, m)
    requires m.msource in ServerSet(c.n) && m.msource != i && m.mdest == i
    ensures ActionOk(c, h, h, i, sv, HandleAppendReply(sv, m), Some(m))
  {
    var sv1 := UpdateTerm(sv, m.mterm);
    UpdateTermOk(c, h, i, sv, m.mterm);
    ReplyOutcome(sv, m, c.n, h);
    hide HandleAppendReply, UpdateTerm;
    if m.mterm < sv1.currentTerm {
      NoHistory(c, h, i, sv, sv1, Some(m));
    } else if m.msuccess {
      CountReply(c, h, i, sv1, m);
      CountReceiver(c.n, h, i, sv, sv1, m);
      Reflexive(h, i);
      CountedAction(c, h, i, sv, sv1, Counted(sv1, m.msource, m.mmatchIndex), m);
    } else {
      BackOff(c, h, i, sv1, BackedOff(sv1, m.msource), m.msource);
      NoHistory(c, h, i, sv, BackedOff(sv1, m.msource), Some(m));
    }
  }

  function BackedOff(sv: Server, j: Id): Server {
    sv.(nextIndex := if j in sv.nextIndex then sv.nextIndex[j := Max(sv.nextIndex[j] - 1, 1)] else sv.nextIndex)
  }

  lemma ReplyOutcome(sv: Server, m: Message, n: nat, h: History)
    requires m.AppendReply? && IndexInv(n, h, sv) && m.msource in ServerSet(n)
    ensures var sv1 := UpdateTerm(sv, m.mterm);
            && m.mterm <= sv1.currentTerm
            && m.msource in sv1.nextIndex
            && HandleAppendReply(sv, m) ==
                 if m.mterm < sv1.currentTerm then sv1
                 else if m.msuccess then Counted(sv1, m.msource, m.mmatchIndex)
                 else BackedOff(sv1, m.msource)
  {
  }

  lemma CountedAction(c: Config, h: History, i: Id, sv: Server, sv1: Server, sv': Server, m: Message)
    requires Good(c, h, i, sv') && OnlyActor(h, h, i) && Advances(sv, sv1)
    requires m.AppendReply? && sv' == Counted(sv1, m.msource, m.mmatchIndex)
    requires ReceiverOk(c.n, h, h, i, sv, sv', Some(m))
    ensures ActionOk(c, h, h, i, sv, sv', Some(m))
  {
  }

  function Counted(sv: Server, j: Id, k: nat): Server {
    sv.(nextIndex := sv.nextIndex[j := k + 1], matchIndex := sv.matchIndex[j := k])
  }

  /** Changing only what the leader knows of the others leaves the rest of the invariant alone. */
  lemma OnlyIndices(c: Config, h: History, i: Id, sv: Server, sv': Server)
    requires ServerInv(c, h, i, sv)
    requires sv' == sv.(nextIndex := sv'.nextIndex, matchIndex := sv'.matchIndex)
    ensures LogInv(h, i, sv') && VoteInv(h, i, sv') && RoleInv(c.n, h, i, sv') && StoreInv(c, sv')
  {
  }

  lemma SupportOnlyIndices(h: History, i: Id, sv: Server, sv': Server)
    requires SupportInv(h, i, sv)
    requires sv' == sv.(nextIndex := sv'.nextIndex, matchIndex := sv'.matchIndex)
    ensures SupportInv(h, i, sv')
  {
  }

  lemma CountReply(c: Config, h: History, i: Id, sv: Server, m: Message)
    requires Good(c, h, i, sv)
    requires m.AppendReply? && m.msuccess && ReplyOk(h, m) && NotCounted(sv, m) && m.mterm == sv.currentTerm
    requires m.msource in ServerSet(c.n)
    ensures Good(c, h, i, Counted(sv, m.msource, m.mmatchIndex))
  {
    var sv' := Counted(sv, m.msource, m.mmatchIndex);
    assert AcceptanceOk(c.n, h, m.mterm, m.msource);
    if sv.role == Leader {
      forall j | j in ServerSet(c.n) ensures MatchInv(h, sv', j) {
        assert MatchInv(h, sv, j);
      }
    }
    CountTargets(c.n, h, i, sv, sv', m);
    OnlyIndices(c, h, i, sv, sv');
    SupportOnlyIndices(h, i, sv, sv');
    hide LogInv, VoteInv, RoleInv, CommitInv, StoreInv, SupportInv;
  }

  lemma CountTargets(n: nat, h: History, i: Id, sv: Server, sv': Server, m: Message)
    requires i in h.sync && RoleInv(n, h, i, sv) && CommitInv(n, h, i, sv)
    requires m.AppendReply? && m.msuccess && NotCounted(sv, m) && m.mterm == sv.currentTerm
    requires sv' == Counted(sv, m.msource, m.mmatchIndex)
    ensures CommitInv(n, h, i, sv')
  {
    forall x: nat | Target(sv', x)
      ensures SafeIndex(n, h, h.sync[i], sv'.log, x) && (sv.role == Leader ==> LeaderIndex(n, h, i, sv', x))
    {
      assert Target(sv, x);
      if sv.role == Leader {
        assert LeaderIndex(n, h, i, sv, x);
        SubsetSize(Agree(n, i, sv.matchIndex, x), Agree(n, i, sv'.matchIndex, x));
      }
    }
  }

  /** FIFO: success replies still on the way are no older than the one just counted. */
  lemma CountReceiver(n: nat, h: History, i: Id, sv: Server, sv1: Server, m: Message)
    requires m.AppendReply? && m.msuccess && m.mdest == i && sv1.currentTerm == m.mterm
    requires sv1.role == Leader ==> sv1 == sv
    ensures ReceiverOk(n, h, h, i, sv, Counted(sv1, m.msource, m.mmatchIndex), Some(m))
  {
    var sv' := Counted(sv1, m.msource, m.mmatchIndex);
    forall later: Message | later.AppendReply? && later.mdest == i && NotCounted(sv, later) &&
          (ChanOf(m) == ChanOf(later) ==> InOrder(m, later))
      ensures NotCounted(sv', later)
    {}
  }

  lemma BackOff(c: Config, h: History, i: Id, sv: Server, sv': Server, j: Id)
    requires Good(c, h, i, sv) && j in ServerSet(c.n)
    requires sv' == BackedOff(sv, j)
    ensures Good(c, h, i, sv')
  {
    if sv.role == Leader {
      forall k | k in ServerSet(c.n) ensures MatchInv(h, sv', k) {
        assert MatchInv(h, sv, k);
      }
    }
    SameLogTargets(c.n, h, i, sv, sv');
    OnlyIndices(c, h, i, sv, sv');
    SupportOnlyIndices(h, i, sv, sv');
  }

  lemma SameLogTargets(n: nat, h: History, i: Id, sv: Server, sv': Server)
    requires i in h.sync && RoleInv(n, h, i, sv) && CommitInv(n, h, i, sv)
    requires sv' == sv.(nextIndex := sv'.nextIndex)
    ensures CommitInv(n, h, i, sv')
  {
    forall x: nat | Target(sv', x)
      ensures SafeIndex(n, h, h.sync[i], sv'.log, x) && (sv.role == Leader ==> LeaderIndex(n, h, i, sv', x))
    {
      assert Target(sv, x);
      if sv.role == Leader {
        assert LeaderIndex(n, h, i, sv, x);
      }
    }
  }

  // ----- handleMsg: a client's command

  lemma ClientRequestOk(c: Config, h: History, i: Id, sv: Server, cmd: Command, client: int)
    requires Good(c, h, i, sv)
    ensures var sv' := HandleClientRequest(c, sv, cmd, client);
            var m := ClientRequest(cmd, client);
            var h' := RecordHandled(c, h, i, sv, m);
            ActionOk(c, h, h', i, sv, sv', Some(m))
  {
    if sv.role == Leader {
      LeaderTakes(c, h, i, sv, Entry(sv.currentTerm, cmd, client), ClientRequest(cmd, client));
    } else {
      OthersTakeNothing(c, sv, cmd, client);
      NoHistory(c, h, i, sv, sv, Some(ClientRequest(cmd, client)));
    }
  }

  lemma OthersTakeNothing(c: Config, sv: Server, cmd: Command, client: int)
    requires sv.role != Leader
    ensures HandleClientRequest(c, sv, cmd, client) == sv
  {
  }

  function Taken(c: Config, sv: Server, entry: Entry): Server {
    sv.(log := sv.log + [entry], plog := if c.modular then sv.plog else sv.plog + [entry])
  }

  lemma LeaderTakes(c: Config, h: History, i: Id, sv: Server, entry: Entry, m: Message)
    requires Good(c, h, i, sv) && sv.role == Leader && entry.term == sv.currentTerm && m.ClientRequest?
    ensures var log := sv.log + [entry];
            var h' := Accept(ExtendLeader(h, sv.currentTerm, log), sv.currentTerm, i, |log|);
            ActionOk(c, h, h', i, sv, Taken(c, sv, entry), Some(m))
  {
    var log := sv.log + [entry];
    var sv' := Taken(c, sv, entry);
    var h1 := ExtendLeader(h, sv.currentTerm, log);
    var h' := Accept(h1, sv.currentTerm, i, |log|);
    ExtensionRecorded(c, h, i, sv, entry);
    LeaderTakesServer(c, h, h', i, sv, entry);
    forall t: nat, v: Id | GrantedBy(h', t, v, i) ensures Supported(sv', t, h'.ballots[(t, v)].log) {
      assert GrantedBy(h, t, v, i);
    }
    forall later: Message | later.AppendEntries? && later.mdest == i && later.msource != i && AppendOk(c.n, h, later) &&
            NotShrinking(h, later)
      ensures NotShrinking(h', later)
    {}
  }

  lemma ExtensionRecorded(c: Config, h: History, i: Id, sv: Server, entry: Entry)
    requires Good(c, h, i, sv) && sv.role == Leader && entry.term == sv.currentTerm
    ensures var log := sv.log + [entry];
            var h' := Accept(ExtendLeader(h, sv.currentTerm, log), sv.currentTerm, i, |log|);
            HistoryOk(c.n, h') && OnlyActor(h, h', i)
  {
    var t := sv.currentTerm;
    var log := sv.log + [entry];
    var h1 := ExtendLeader(h, t, log);
    ExtendLeaderOk(c.n, h, t, entry);
    AcceptOk(c.n, h1, t, i, |log|);
    assert OnlyActor(h, h1, i);
    OnlyActorTransitive(h, h1, Accept(h1, t, i, |log|), i);
  }

  lemma LeaderTakesServer(c: Config, h: History, h': History, i: Id, sv: Server, entry: Entry)
    requires Good(c, h, i, sv) && sv.role == Leader && entry.term == sv.currentTerm
    requires h' == Accept(ExtendLeader(h, sv.currentTerm, sv.log + [entry]), sv.currentTerm, i, |sv.log| + 1)
    requires Grows(h, h')
    ensures ServerInv(c, h', i, Taken(c, sv, entry))
  {
    var sv' := Taken(c, sv, entry);
    assert ElectionOk(c.n, h, sv.currentTerm);
    assert sv'.log[..sv.commitIndex] == sv.log[..sv.commitIndex];
    RepliesSurvive(sv, sv');
    LeaderTakesTargets(c.n, h, h', i, sv, sv', entry);
    LeaderTakesIndices(c.n, h, h', i, sv, sv', entry);
  }

  lemma LeaderTakesIndices(n: nat, h: History, h': History, i: Id, sv: Server, sv': Server, entry: Entry)
    requires i in h.sync && IndexInv(n, h, sv) && sv.role == Leader && sv.currentTerm in h.elections
    requires Grows(h, h')
    requires sv'.role == Leader && sv'.nextIndex == sv.nextIndex && sv'.matchIndex == sv.matchIndex
    requires sv'.currentTerm == sv.currentTerm && sv'.log == sv.log + [entry]
    ensures IndexInv(n, h', sv')
  {
    forall j | j in ServerSet(n) ensures MatchInv(h', sv', j) {
      assert MatchInv(h, sv, j);
      if sv.matchIndex[j] != 0 {
        assert AcceptanceGrows(h, h', sv.currentTerm, j);
      }
    }
  }

  lemma LeaderTakesTargets(n: nat, h: History, h': History, i: Id, sv: Server, sv': Server, entry: Entry)
    requires i in h.sync && RoleInv(n, h, i, sv) && CommitInv(n, h, i, sv) && sv.role == Leader
    requires Grows(h, h') && i in h'.sync && h'.sync[i] == h.sync[i]
    requires sv'.role == Leader && sv'.matchIndex == sv.matchIndex && sv'.currentTerm == sv.currentTerm
    requires sv'.log == sv.log + [entry]
    requires forall x: nat :: Target(sv', x) ==> Target(sv, x)
    requires sv.currentTerm in h'.elections
    ensures CommitInv(n, h', i, sv')
  {
    assert ElectionGrows(h, h', sv.currentTerm);
    forall x: nat | Target(sv', x)
      ensures SafeIndex(n, h', h'.sync[i], sv'.log, x) && LeaderIndex(n, h', i, sv', x)
    {
      assert Target(sv, x) && LeaderIndex(n, h, i, sv, x);
      assert sv'.log[..x] == sv.log[..x];
      CommittedLogGrows(n, h, h', h.sync[i], sv.log[..x]);
    }
  }
}
