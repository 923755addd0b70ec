/** The whole cluster: N servers, and one FIFO stream per sending process and destination. */
module RaftSystem {
  import opened RaftOps
  import opened RaftServer

  /** Which process of the sender a stream belongs to: each one holds its own connections. */
  datatype Proc = HandlerProc | VoteProc | AppendProc

  datatype Chan = Chan(proc: Proc, src: Id, dst: Id)

  datatype State = State(servers: map<Id, Server>, net: map<Chan, seq<Message>>)

  function Queue(net: map<Chan, seq<Message>>, ch: Chan): seq<Message> {
    if ch in net then net[ch] else []
  }

  /** The stream a message travels on; a client's request is on none of them. */
  function ChanOf(m: Message): Option<Chan> {
    match m
    case RequestVote(_, _, _, src, dst) => Some(Chan(VoteProc, src, dst))
    case VoteReply(_, _, src, dst) => Some(Chan(HandlerProc, src, dst))
    case AppendEntries(_, _, _, _, _, src, dst) => Some(Chan(AppendProc, src, dst))
    case AppendReply(_, _, _, src, dst) => Some(Chan(HandlerProc, src, dst))
    case ClientRequest(_, _) => None
  }

  function Post(net: map<Chan, seq<Message>>, out: Option<Message>): map<Chan, seq<Message>> {
    if out.Some? && ChanOf(out.value).Some? then
      var ch := ChanOf(out.value).value;
      net[ch := Queue(net, ch) + [out.value]]
    else net
  }

  datatype Action =
    | HandleAct(send: bool)
    | TimeoutAct
    | RequestVoteAct(send: bool)
    | StartAppendAct
    | AppendEntriesAct(send: bool)
    | AdvanceCommitAct
    | ApplyAct
    | BecomeLeaderAct
    | ReceiveTargetAct
    | FollowerApplyAct
    | ConsumeAct

  datatype Step =
    | Section(i: Id, act: Action)              // a critical section of server i
    | Receive(ch: Chan)                        // serverLoop reads the head of a stream
    | ReceiveClient(dst: Id, cmd: Command, client: int)
    | Lose(ch: Chan, k: nat)                   // the network drops a message; the others keep their order

  predicate ActionEnabled(c: Config, i: Id, sv: Server, act: Action) {
    match act
    case HandleAct(_) => sv.m.Some?
    case TimeoutAct => CanTimeout(sv)
    case RequestVoteAct(_) => sv.rvIdx > 0
    case StartAppendAct => CanStartAppend(sv)
    case AppendEntriesAct(_) => sv.aeIdx > 0
    case AdvanceCommitAct => CanAdvanceCommit(sv)
    case ApplyAct => sv.applying
    case BecomeLeaderAct => CanBecomeLeader(c, sv)
    case ReceiveTargetAct => CanReceiveTarget(c, sv)
    case FollowerApplyAct => sv.fApplying
    case ConsumeAct => CanConsume(c, sv)
  }

  /** handleMsg ends by going back to serverLoop; no other section touches the handler's message. */
  function RunAction(c: Config, i: Id, sv: Server, act: Action): Effect
    requires ActionEnabled(c, i, sv, act)
  {
    var e := Body(c, i, sv, act);
    e.(sv := e.sv.(m := if act.HandleAct? then None else sv.m))
  }

  function Body(c: Config, i: Id, sv: Server, act: Action): Effect
    requires ActionEnabled(c, i, sv, act)
  {
    match act
    case HandleAct(send) => HandleMsg(c, i, sv, send)
    case TimeoutAct => Effect(Timeout(i, sv), None)
    case RequestVoteAct(send) => RequestVoteStep(c, i, sv, send)
    case StartAppendAct => Effect(sv.(aeIdx := 1), None)
    case AppendEntriesAct(send) => AppendEntriesStep(c, i, sv, send)
    case AdvanceCommitAct => AdvanceCommit(c, i, sv)
    case ApplyAct => ApplyStep(c, sv)
    case BecomeLeaderAct => Effect(BecomeLeader(c, i, sv), None)
    case ReceiveTargetAct => Effect(ReceiveTarget(sv), None)
    case FollowerApplyAct => FollowerApplyStep(c, sv)
    case ConsumeAct => Effect(Consume(sv), None)
  }

  predicate Enabled(c: Config, s: State, step: Step) {
    match step
    case Section(i, act) => i in s.servers && ActionEnabled(c, i, s.servers[i], act)
    case Receive(ch) => ch.dst in s.servers && s.servers[ch.dst].m.None? && Queue(s.net, ch) != []
    case ReceiveClient(dst, _, _) => dst in s.servers && s.servers[dst].m.None?
    case Lose(ch, k) => k < |Queue(s.net, ch)|
  }

  function Do(c: Config, s: State, step: Step): State
    requires Enabled(c, s, step)
  {
    match step
    case Section(i, act) =>
      var e := RunAction(c, i, s.servers[i], act);
      State(s.servers[i := e.sv], Post(s.net, e.out))
    case Receive(ch) =>
      var q := Queue(s.net, ch);
      State(s.servers[ch.dst := RaftServer.Receive(ch.dst, s.servers[ch.dst], q[0])], s.net[ch := q[1..]])
    case ReceiveClient(dst, cmd, client) =>
      s.(servers := s.servers[dst := RaftServer.Receive(dst, s.servers[dst], ClientRequest(cmd, client))])
    case Lose(ch, k) =>
      var q := Queue(s.net, ch);
      s.(net := s.net[ch := q[..k] + q[k + 1..]])
  }

  predicate Init(c: Config, s: State) {
    s.servers == (map i | i in ServerSet(c.n) :: InitServer(c)) && s.net == map[]
  }

  /** An execution: `steps[k]` takes `states[k]` to `states[k+1]`. */
  datatype Run = Run(states: seq<State>, steps: seq<Step>)

  predicate IsRun(c: Config, r: Run) {
    && |r.states| == |r.steps| + 1
    && Init(c, r.states[0])
    && forall k: nat {:trigger StepAt(c, r, k)} :: k < |r.steps| ==> StepAt(c, r, k)
  }

  predicate StepAt(c: Config, r: Run, k: nat)
    requires k < |r.steps| && k + 1 < |r.states|
  {
    Enabled(c, r.states[k], r.steps[k]) && r.states[k + 1] == Do(c, r.states[k], r.steps[k])
  }
}
