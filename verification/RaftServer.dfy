/**
 One Raft server: the state its processes share, and each of their critical sections as a function on it.
 A section that would fail an assertion or a lookup of the source sets `failed`.
 */
module RaftServer {
  import opened RaftOps
  import PersistentLog

  datatype Role = Follower | Candidate | Leader

  /** `modular` selects the composed system: committed commands go to a channel read by a separate key-value server. */
  datatype Config = Config(n: nat, modular: bool)

  datatype Message =
    | RequestVote(mterm: nat, mlastLogTerm: nat, mlastLogIndex: nat, msource: Id, mdest: Id)
    | VoteReply(mterm: nat, mvoteGranted: bool, msource: Id, mdest: Id)
    | AppendEntries(mterm: nat, mprevLogIndex: nat, mprevLogTerm: nat, mentries: Log, mcommitIndex: nat,
                    msource: Id, mdest: Id)
    | AppendReply(mterm: nat, msuccess: bool, mmatchIndex: nat, msource: Id, mdest: Id)
    | ClientRequest(mcmd: Command, client: int)

  /** The success response to the command at position `index` of the log. */
  datatype Reply = Reply(index: nat, client: int, kind: Kind, idx: int, key: string, value: Option<string>)

  datatype Server = Server(
    role: Role,
    currentTerm: nat,
    votedFor: Id,
    leader: Id,
    log: Log,
    plog: Log,
    commitIndex: nat,
    nextIndex: map<Id, int>,
    matchIndex: map<Id, nat>,
    votesResponded: set<Id>,
    votesGranted: set<Id>,
    sm: Store,
    smDomain: set<string>,
    replies: seq<Reply>,
    becomeLeaderCh: nat,            // signals not yet consumed
    m: Option<Message>,             // the message between serverLoop and handleMsg
    rvIdx: nat,                     // requestVoteLoop's idx; 0 at serverRequestVoteLoop
    aeIdx: nat,                     // appendEntriesLoop's idx; 0 at serverAppendEntriesLoop
    applying: bool,                 // whether the commit advancer is at applyLoop
    newCommitIndex: nat,
    acct: seq<Command>,             // everything ever written to acctCh
    fAdvCommitIdxCh: seq<nat>,
    fApplying: bool,                // whether the follower's commit advancer is at acctLoop
    fTarget: nat,
    consumed: nat,                  // how much of acctCh the key-value server has read
    kvSm: Store,
    kvDomain: set<string>,
    failed: bool)

  function InitServer(c: Config): Server {
    Server(Follower, 1, NIL, NIL, [], [], 0,
           map j | j in ServerSet(c.n) :: 1, map j | j in ServerSet(c.n) :: 0, {}, {}, map[], {}, [],
           if c.n == 1 then 1 else 0, None, 0, 0, false, 0, [], [], false, 0, 0, map[], {}, false)
  }

  /** What a critical section does: the new server and the message it sends, if any. */
  datatype Effect = Effect(sv: Server, out: Option<Message>)

  function Fail(sv: Server): Effect {
    Effect(sv.(failed := true), None)
  }

  function Send(send: bool, sv: Server, msg: Message): Effect {
    Effect(sv, if send then Some(msg) else None)
  }

  /** A message from a later term makes the server a follower of that term. */
  function UpdateTerm(sv: Server, mterm: nat): Server {
    var newer := mterm > sv.currentTerm;
    sv.(currentTerm := if newer then mterm else sv.currentTerm,
        role := if newer then Follower else sv.role,
        votedFor := if newer then NIL else sv.votedFor,
        leader := if newer then NIL else sv.leader)
  }

  // ----- AServer

  /** serverLoop takes a message in and asserts that it is addressed to this server. */
  function Receive(i: Id, sv: Server, m: Message): Server {
    if m.ClientRequest? || m.mdest == i then sv.(m := Some(m)) else Fail(sv).sv
  }

  function HandleMsg(c: Config, i: Id, sv: Server, send: bool): Effect
    requires sv.m.Some?
  {
    match sv.m.value
    case RequestVote(_, _, _, _, _) => HandleRequestVote(i, sv, sv.m.value, send)
    case VoteReply(_, _, _, _) => Effect(HandleVoteReply(c, sv, sv.m.value), None)
    case AppendEntries(_, _, _, _, _, _, _) => HandleAppendEntries(c, i, sv, sv.m.value, send)
    case AppendReply(_, _, _, _, _) => Effect(HandleAppendReply(sv, sv.m.value), None)
    case ClientRequest(cmd, client) => Effect(HandleClientRequest(c, sv, cmd, client), None)
  }

  function HandleRequestVote(i: Id, sv0: Server, m: Message, send: bool): Effect
    requires m.RequestVote?
  {
    var sv := UpdateTerm(sv0, m.mterm);
    var j := m.msource;
    var logOK :=
      || m.mlastLogTerm > LastTerm(sv.log)
      || (m.mlastLogTerm == LastTerm(sv.log) && m.mlastLogIndex >= |sv.log|);
    var grant := m.mterm == sv.currentTerm && logOK && sv.votedFor in {NIL, j};
    Send(send, sv.(votedFor := if grant then j else sv.votedFor), VoteReply(sv.currentTerm, grant, i, j))
  }

  function HandleVoteReply(c: Config, sv0: Server, m: Message): Server
    requires m.VoteReply?
  {
    var sv := UpdateTerm(sv0, m.mterm);
    var current := m.mterm >= sv.currentTerm;
    var granted := current && m.mvoteGranted;
    var votes := if granted then sv.votesGranted + {m.msource} else sv.votesGranted;
    var elected := granted && sv.role == Candidate && IsQuorum(c.n, votes);
    sv.(votesResponded := if current then sv.votesResponded + {m.msource} else sv.votesResponded,
        votesGranted := votes,
        becomeLeaderCh := if elected then sv.becomeLeaderCh + 1 else sv.becomeLeaderCh)
  }

  predicate LogOK(log: Log, m: Message)
    requires m.AppendEntries?
  {
    || m.mprevLogIndex == 0
    || (0 < m.mprevLogIndex <= |log| && m.mprevLogTerm == log[m.mprevLogIndex - 1].term)
  }

  /** The sender leads the term of its message: a server of that term knows its leader and is no candidate any more. */
  function StepDown(sv0: Server, m: Message): Server
    requires m.AppendEntries?
  {
    var sv := UpdateTerm(sv0, m.mterm);
    var current := m.mterm == sv.currentTerm;
    sv.(leader := if current then m.msource else sv.leader,
        role := if current && sv.role == Candidate then Follower else sv.role)
  }

  function HandleAppendEntries(c: Config, i: Id, sv0: Server, m: Message, send: bool): Effect
    requires m.AppendEntries?
  {
    var logOK := LogOK(sv0.log, m);
    var sv := StepDown(sv0, m);
    if m.mterm < sv.currentTerm || (m.mterm == sv.currentTerm && sv.role == Follower && !logOK) then
      Send(send, sv, AppendReply(sv.currentTerm, false, 0, i, m.msource))
    else if !(m.mterm == sv.currentTerm && sv.role == Follower && logOK) then Fail(sv0)
    else AcceptEntries(c, i, sv, m, send)
  }

  /** Cuts the log after `mprevLogIndex`, whatever it held there, and appends the leader's entries. */
  function AcceptEntries(c: Config, i: Id, sv: Server, m: Message, send: bool): Effect
    requires m.AppendEntries? && LogOK(sv.log, m)
  {
    var log := sv.log[..m.mprevLogIndex] + m.mentries;
    var rewritten := PopAndConcat(sv.plog, |sv.log| - m.mprevLogIndex, m.mentries);
    if m.mcommitIndex > |log| || (!c.modular && rewritten.Panic?) then Fail(sv)
    else
      var r := if c.modular then (sv.sm, sv.smDomain) else ApplyLog(log, sv.commitIndex + 1, m.mcommitIndex, sv.sm, sv.smDomain);
      var sv' := sv.(
        log := log,
        plog := if c.modular then sv.plog else rewritten.list,
        sm := r.0, smDomain := r.1,
        commitIndex := if c.modular then sv.commitIndex else Max(sv.commitIndex, m.mcommitIndex),
        fAdvCommitIdxCh := if c.modular then sv.fAdvCommitIdxCh + [m.mcommitIndex] else sv.fAdvCommitIdxCh);
      Send(send, sv', AppendReply(sv'.currentTerm, true, m.mprevLogIndex + |m.mentries|, i, m.msource))
  }

  /** The handler's pop and concat commands to the persistent log, which panics if it has less to pop. */
  function PopAndConcat(plog: Log, cnt: nat, entries: Log): PersistentLog.Outcome<Entry> {
    PersistentLog.RunAll(plog, [PersistentLog.PopLast(cnt), PersistentLog.Concat(entries)])
  }

  lemma PopAndConcatOutcome(plog: Log, cnt: nat, entries: Log)
    ensures var o := PopAndConcat(plog, cnt, entries);
            && (o.Outcome? <==> cnt <= |plog|)
            && (o.Outcome? ==> o.list == plog[..|plog| - cnt] + entries)
  {
    var pop: PersistentLog.Cmd<Entry> := PersistentLog.PopLast(cnt);
    var concat := PersistentLog.Concat(entries);
    assert [pop, concat][..1] == [pop] && [pop][..0] == [];
    assert PersistentLog.RunAll(plog, [pop]) == PersistentLog.RunOne(PersistentLog.Outcome(plog, []), pop);
  }

  function HandleAppendReply(sv0: Server, m: Message): Server
    requires m.AppendReply?
  {
    var sv := UpdateTerm(sv0, m.mterm);
    var j := m.msource;
    var current := m.mterm >= sv.currentTerm;
    sv.(nextIndex :=
          if !current then sv.nextIndex
          else if m.msuccess then sv.nextIndex[j := m.mmatchIndex + 1]
          else if j in sv.nextIndex then sv.nextIndex[j := Max(sv.nextIndex[j] - 1, 1)]
          else sv.nextIndex,
        matchIndex := if current && m.msuccess then sv.matchIndex[j := m.mmatchIndex] else sv.matchIndex)
  }

  /** Only a leader takes the command; the answer of any other server does not change its state. */
  function HandleClientRequest(c: Config, sv: Server, cmd: Command, client: int): Server {
    var taken := if sv.role == Leader then [Entry(sv.currentTerm, cmd, client)] else [];
    sv.(log := sv.log + taken, plog := if c.modular then sv.plog else sv.plog + taken)
  }

  // ----- AServerRequestVote

  predicate CanTimeout(sv: Server) {
    sv.rvIdx == 0 && sv.role in {Follower, Candidate}
  }

  function Timeout(i: Id, sv: Server): Server {
    sv.(role := Candidate, currentTerm := sv.currentTerm + 1, votedFor := i, votesResponded := {i},
        votesGranted := {i}, leader := NIL, rvIdx := 1)
  }

  /** One round of requestVoteLoop. It reads the term and the log anew and does not look at the role. */
  function RequestVoteStep(c: Config, i: Id, sv: Server, send: bool): Effect {
    if sv.rvIdx <= c.n then
      Send(send && sv.rvIdx != i, sv.(rvIdx := sv.rvIdx + 1),
           RequestVote(sv.currentTerm, LastTerm(sv.log), |sv.log|, i, sv.rvIdx))
    else Effect(sv.(rvIdx := 0), None)
  }

  // ----- AServerAppendEntries

  predicate CanStartAppend(sv: Server) {
    sv.aeIdx == 0 && sv.role == Leader
  }

  /** The lookups of the loop's body stay within the index map and the log. */
  predicate AppendInRange(sv: Server) {
    sv.aeIdx in sv.nextIndex && 1 <= sv.nextIndex[sv.aeIdx] <= |sv.log| + 1
  }

  function AppendMessage(i: Id, sv: Server): Message
    requires AppendInRange(sv)
  {
    var prev := sv.nextIndex[sv.aeIdx] - 1;
    var prevTerm := if prev > 0 then sv.log[prev - 1].term else 0;
    AppendEntries(sv.currentTerm, prev, prevTerm, sv.log[prev..], sv.commitIndex, i, sv.aeIdx)
  }

  function AppendEntriesStep(c: Config, i: Id, sv: Server, send: bool): Effect {
    var looping := sv.role == Leader && sv.aeIdx <= c.n;
    var sv' := sv.(aeIdx := if looping then sv.aeIdx + 1 else 0);
    if !looping || sv.aeIdx == i then Effect(sv', None)
    else if !AppendInRange(sv) then Fail(sv)
    else Send(send, sv', AppendMessage(i, sv))
  }

  // ----- AServerAdvanceCommitIndex

  predicate CanAdvanceCommit(sv: Server) {
    !sv.applying && sv.role == Leader
  }

  function AdvanceCommit(c: Config, i: Id, sv: Server): Effect {
    var maxAgree := FindMaxAgreeIndex(c.n, sv.log, i, sv.matchIndex);
    var n :=
      if maxAgree != NIL && maxAgree <= |sv.log| && sv.log[maxAgree - 1].term == sv.currentTerm
      then maxAgree else sv.commitIndex;
    if n < sv.commitIndex then Fail(sv)
    else Effect(sv.(newCommitIndex := n, applying := true), None)
  }

  /** One round of applyLoop. It does not look at the role, so it goes on after the leader has stepped down. */
  function ApplyStep(c: Config, sv: Server): Effect {
    if sv.commitIndex < sv.newCommitIndex then ApplyNext(c, sv)
    else Effect(sv.(applying := false), None)
  }

  function ApplyNext(c: Config, sv: Server): Effect {
    if sv.commitIndex >= |sv.log| then Fail(sv)
    else
      var entry := sv.log[sv.commitIndex];
      var k := sv.commitIndex + 1;
      if c.modular then Effect(sv.(commitIndex := k, acct := sv.acct + [entry.cmd]), None)
      else
        var r := ApplyCommand(entry.cmd, sv.sm, sv.smDomain);
        if entry.cmd.key in r.1 && entry.cmd.key !in r.0 then Fail(sv)
        else
          Effect(sv.(commitIndex := k, sm := r.0, smDomain := r.1,
                     replies := sv.replies + [MakeReply(k, entry, r.0, r.1)]), None)
  }

  function MakeReply(k: nat, entry: Entry, sm: Store, smDomain: set<string>): Reply {
    var key := entry.cmd.key;
    Reply(k, entry.client, entry.cmd.kind, entry.cmd.idx, key,
          if key in smDomain && key in sm then Some(sm[key]) else None)
  }

  // ----- AServerFollowerAdvanceCommitIndex (composed system only)

  predicate CanReceiveTarget(c: Config, sv: Server) {
    c.modular && !sv.fApplying && sv.fAdvCommitIdxCh != []
  }

  function ReceiveTarget(sv: Server): Server
    requires sv.fAdvCommitIdxCh != []
  {
    sv.(fTarget := sv.fAdvCommitIdxCh[0], fAdvCommitIdxCh := sv.fAdvCommitIdxCh[1..], fApplying := true)
  }

  function FollowerApplyStep(c: Config, sv: Server): Effect {
    if sv.commitIndex < sv.fTarget then ApplyNext(c, sv)
    else Effect(sv.(fApplying := false), None)
  }

  // ----- AServerBecomeLeader

  predicate CanBecomeLeader(c: Config, sv: Server) {
    sv.becomeLeaderCh > 0 && sv.role == Candidate && IsQuorum(c.n, sv.votesGranted)
  }

  function BecomeLeader(c: Config, i: Id, sv: Server): Server
    requires sv.becomeLeaderCh > 0
  {
    sv.(role := Leader, nextIndex := map j | j in ServerSet(c.n) :: |sv.log| + 1,
        matchIndex := map j | j in ServerSet(c.n) :: 0, leader := i, becomeLeaderCh := sv.becomeLeaderCh - 1)
  }

  // ----- AServerAcct, the key-value server of the composed system

  predicate CanConsume(c: Config, sv: Server) {
    c.modular && sv.consumed < |sv.acct|
  }

  function Consume(sv: Server): Server
    requires sv.consumed < |sv.acct|
  {
    var r := ApplyCommand(sv.acct[sv.consumed], sv.kvSm, sv.kvDomain);
    sv.(consumed := sv.consumed + 1, kvSm := r.0, kvDomain := r.1)
  }
}
