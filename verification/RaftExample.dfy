/**
 The safety theorems are not empty: a cluster of three elects a leader, which commits a client's command, answers it and
 makes a follower apply it too, whatever the command and in both systems.
 */
module RaftExample {
  import opened RaftOps
  import opened RaftServer
  import opened RaftSystem

  // ----- building a run

  function Last(c: Config, r: Run): State
    requires IsRun(c, r)
  {
    r.states[|r.states| - 1]
  }

  lemma Extend(c: Config, r: Run, step: Step) returns (r': Run)
    requires IsRun(c, r) && Enabled(c, Last(c, r), step)
    ensures IsRun(c, r') && Last(c, r') == Do(c, Last(c, r), step)
  {
    r' := Run(r.states + [Do(c, Last(c, r), step)], r.steps + [step]);
    forall k: nat | k < |r'.steps| ensures StepAt(c, r', k) {
      if k < |r.steps| {
        assert StepAt(c, r, k);
      }
    }
  }

  /** What is on its way from server 1 to server 2, and back. */
  datatype Wires = Wires(votes: seq<Message>, appends: seq<Message>, back: seq<Message>)

  const VOTES := Chan(VoteProc, 1, 2)
  const APPENDS := Chan(AppendProc, 1, 2)
  const BACK := Chan(HandlerProc, 2, 1)

  /** Servers 1 and 2 are `a` and `b`; the third has done nothing yet. */
  predicate At(c: Config, s: State, a: Server, b: Server, w: Wires) {
    && s.servers == map[1 := a, 2 := b, 3 := InitServer(c)]
    && Queue(s.net, VOTES) == w.votes && Queue(s.net, APPENDS) == w.appends && Queue(s.net, BACK) == w.back
  }

  function Put1(w: Wires, out: Option<Message>): Wires {
    match out
    case None => w
    case Some(m) =>
      match ChanOf(m)
      case None => w
      case Some(ch) =>
        Wires(if ch == VOTES then w.votes + [m] else w.votes, if ch == APPENDS then w.appends + [m] else w.appends,
              if ch == BACK then w.back + [m] else w.back)
  }

  lemma OneMessage(m: Message)
    ensures var w := Wires([], [], []);
            && [m][1..] == []
            && (ChanOf(m) == Some(VOTES) ==> Put1(w, Some(m)) == w.(votes := [m]))
            && (ChanOf(m) == Some(APPENDS) ==> Put1(w, Some(m)) == w.(appends := [m]))
            && (ChanOf(m) == Some(BACK) ==> Put1(w, Some(m)) == w.(back := [m]))
  {
  }

  lemma Act1(c: Config, r: Run, a: Server, b: Server, w: Wires, act: Action) returns (r': Run)
    requires IsRun(c, r) && At(c, Last(c, r), a, b, w) && ActionEnabled(c, 1, a, act)
    ensures IsRun(c, r')
    ensures var e := RunAction(c, 1, a, act); At(c, Last(c, r'), e.sv, b, Put1(w, e.out))
  {
    hide RunAction;
    r' := Extend(c, r, Section(1, act));
  }

  lemma Act2(c: Config, r: Run, a: Server, b: Server, w: Wires, act: Action) returns (r': Run)
    requires IsRun(c, r) && At(c, Last(c, r), a, b, w) && ActionEnabled(c, 2, b, act)
    ensures IsRun(c, r')
    ensures var e := RunAction(c, 2, b, act); At(c, Last(c, r'), a, e.sv, Put1(w, e.out))
  {
    hide RunAction;
    r' := Extend(c, r, Section(2, act));
  }

  /** Server 1 takes in what server 2 has answered. */
  lemma Take1(c: Config, r: Run, a: Server, b: Server, w: Wires) returns (r': Run)
    requires IsRun(c, r) && At(c, Last(c, r), a, b, w) && a.m.None?
    requires w.back != [] && !w.back[0].ClientRequest? && w.back[0].mdest == 1
    ensures IsRun(c, r') && At(c, Last(c, r'), a.(m := Some(w.back[0])), b, w.(back := w.back[1..]))
  {
    r' := Extend(c, r, RaftSystem.Receive(BACK));
  }

  lemma TakeClient1(c: Config, r: Run, a: Server, b: Server, w: Wires, cmd: Command, client: int) returns (r': Run)
    requires IsRun(c, r) && At(c, Last(c, r), a, b, w) && a.m.None?
    ensures IsRun(c, r') && At(c, Last(c, r'), a.(m := Some(ClientRequest(cmd, client))), b, w)
  {
    r' := Extend(c, r, ReceiveClient(1, cmd, client));
  }

  /** Server 2 takes in a vote request, */
  lemma TakeVote2(c: Config, r: Run, a: Server, b: Server, w: Wires) returns (r': Run)
    requires IsRun(c, r) && At(c, Last(c, r), a, b, w) && b.m.None?
    requires w.votes != [] && !w.votes[0].ClientRequest? && w.votes[0].mdest == 2
    ensures IsRun(c, r') && At(c, Last(c, r'), a, b.(m := Some(w.votes[0])), w.(votes := w.votes[1..]))
  {
    r' := Extend(c, r, RaftSystem.Receive(VOTES));
  }

  /** or an append. */
  lemma TakeAppend2(c: Config, r: Run, a: Server, b: Server, w: Wires) returns (r': Run)
    requires IsRun(c, r) && At(c, Last(c, r), a, b, w) && b.m.None?
    requires w.appends != [] && !w.appends[0].ClientRequest? && w.appends[0].mdest == 2
    ensures IsRun(c, r') && At(c, Last(c, r'), a, b.(m := Some(w.appends[0])), w.(appends := w.appends[1..]))
  {
    r' := Extend(c, r, RaftSystem.Receive(APPENDS));
  }

  // ----- the election

  function Asking(c: Config): Server {
    InitServer(c).(role := Candidate, currentTerm := 2, votedFor := 1, votesResponded := {1}, votesGranted := {1}, rvIdx := 3)
  }

  function Voter(c: Config): Server {
    InitServer(c).(currentTerm := 2, votedFor := 1)
  }

  function Elected(c: Config): Server {
    Asking(c).(role := Leader, leader := 1, votesResponded := {1, 2}, votesGranted := {1, 2})
  }

  const REQUEST := RequestVote(2, 0, 0, 1, 2)
  const GRANT := VoteReply(2, true, 2, 1)

  lemma Asks(c: Config)
    requires c.n == 3
    ensures var a := InitServer(c).(role := Candidate, currentTerm := 2, votedFor := 1, votesResponded := {1}, votesGranted := {1}, rvIdx := 1);
            && ActionEnabled(c, 1, InitServer(c), TimeoutAct)
            && RunAction(c, 1, InitServer(c), TimeoutAct) == Effect(a, None)
            && RunAction(c, 1, a, RequestVoteAct(true)) == Effect(a.(rvIdx := 2), None)
            && RunAction(c, 1, a.(rvIdx := 2), RequestVoteAct(true)) == Effect(Asking(c), Some(REQUEST))
  {
  }

  lemma Votes(c: Config)
    requires c.n == 3
    ensures RunAction(c, 2, InitServer(c).(m := Some(REQUEST)), HandleAct(true)) == Effect(Voter(c), Some(GRANT))
  {
  }

  function Winning(c: Config): Server {
    Asking(c).(votesResponded := {1, 2}, votesGranted := {1, 2}, becomeLeaderCh := 1)
  }

  lemma Wins(c: Config)
    requires c.n == 3
    ensures RunAction(c, 1, Asking(c).(m := Some(GRANT)), HandleAct(true)) == Effect(Winning(c), None)
  {
    assert {1} + {2} == {1, 2} && |{1, 2}| == 2;
  }

  lemma Leads(c: Config)
    requires c.n == 3
    ensures ActionEnabled(c, 1, Winning(c), BecomeLeaderAct)
    ensures RunAction(c, 1, Winning(c), BecomeLeaderAct) == Effect(Elected(c), None)
  {
    assert |{1, 2}| == 2;
  }

  lemma Election(c: Config) returns (r: Run)
    requires c.n == 3
    ensures IsRun(c, r) && At(c, Last(c, r), Elected(c), Voter(c), Wires([], [], []))
  {
    hide At, Last, RunAction, ActionEnabled;
    Asks(c);
    Votes(c);
    Wins(c);
    Leads(c);
    var idle, w := InitServer(c), Wires([], [], []);
    OneMessage(REQUEST);
    OneMessage(GRANT);
    r := Start(c);
    r := Act1(c, r, idle, idle, w, TimeoutAct);
    var a := idle.(role := Candidate, currentTerm := 2, votedFor := 1, votesResponded := {1}, votesGranted := {1}, rvIdx := 1);
    EnabledAlways(c, a, REQUEST);
    r := Act1(c, r, a, idle, w, RequestVoteAct(true));
    r := Act1(c, r, a.(rvIdx := 2), idle, w, RequestVoteAct(true));
    r := TakeVote2(c, r, Asking(c), idle, w.(votes := [REQUEST]));
    EnabledAlways(c, idle, REQUEST);
    r := Act2(c, r, Asking(c), idle.(m := Some(REQUEST)), w, HandleAct(true));
    r := Take1(c, r, Asking(c), Voter(c), w.(back := [GRANT]));
    EnabledAlways(c, Asking(c), GRANT);
    r := Act1(c, r, Asking(c).(m := Some(GRANT)), Voter(c), w, HandleAct(true));
    r := Act1(c, r, Winning(c), Voter(c), w, BecomeLeaderAct);
  }

  lemma EnabledAlways(c: Config, sv: Server, m: Message)
    ensures ActionEnabled(c, 1, sv.(m := Some(m)), HandleAct(true)) && ActionEnabled(c, 2, sv.(m := Some(m)), HandleAct(true))
    ensures sv.rvIdx > 0 ==> ActionEnabled(c, 1, sv, RequestVoteAct(true)) && ActionEnabled(c, 1, sv.(rvIdx := 2), RequestVoteAct(true))
  {
  }

  lemma Start(c: Config) returns (r: Run)
    requires c.n == 3
    ensures IsRun(c, r) && At(c, Last(c, r), InitServer(c), InitServer(c), Wires([], [], []))
  {
    r := Run([State(map i | i in ServerSet(3) :: InitServer(c), map[])], []);
    assert Init(c, r.states[0]);
  }

  // ----- replication

  function Kept(c: Config, log: Log): Log {
    if c.modular then [] else log
  }

  function Leading(c: Config, e: Entry): Server {
    Elected(c).(log := [e], plog := Kept(c, [e]))
  }

  function Following(c: Config, e: Entry): Server {
    Voter(c).(leader := 1, log := [e], plog := Kept(c, [e]), fAdvCommitIdxCh := if c.modular then [0] else [])
  }

  function Counting(c: Config, e: Entry): Server {
    Leading(c, e).(aeIdx := 3, nextIndex := Elected(c).nextIndex[2 := 2], matchIndex := Elected(c).matchIndex[2 := 1])
  }

  function FirstAppend(e: Entry): Message {
    AppendEntries(2, 0, 0, [e], 0, 1, 2)
  }

  const ACK := AppendReply(2, true, 1, 2, 1)

  lemma Takes(c: Config, cmd: Command, client: int)
    requires c.n == 3
    ensures RunAction(c, 1, Elected(c).(m := Some(ClientRequest(cmd, client))), HandleAct(true))
              == Effect(Leading(c, Entry(2, cmd, client)), None)
  {
  }

  lemma StartsRound(c: Config, e: Entry)
    requires c.n == 3
    ensures var a := Leading(c, e);
            && ActionEnabled(c, 1, a, StartAppendAct)
            && RunAction(c, 1, a, StartAppendAct) == Effect(a.(aeIdx := 1), None)
            && ActionEnabled(c, 1, a.(aeIdx := 1), AppendEntriesAct(true))
            && RunAction(c, 1, a.(aeIdx := 1), AppendEntriesAct(true)) == Effect(a.(aeIdx := 2), None)
  {
  }

  lemma Sends(c: Config, e: Entry)
    requires c.n == 3
    ensures var a := Leading(c, e).(aeIdx := 2);
            && ActionEnabled(c, 1, a, AppendEntriesAct(true))
            && RunAction(c, 1, a, AppendEntriesAct(true)) == Effect(Leading(c, e).(aeIdx := 3), Some(FirstAppend(e)))
  {
    assert [e][0..] == [e];
  }

  lemma Accepts(c: Config, e: Entry)
    requires c.n == 3
    ensures RunAction(c, 2, Voter(c).(m := Some(FirstAppend(e))), HandleAct(true)) == Effect(Following(c, e), Some(ACK))
  {
    hide PopAndConcat;
    PopAndConcatOutcome([], 0, [e]);
    assert [] + [e] == [e];
  }

  lemma Counts(c: Config, e: Entry)
    requires c.n == 3
    ensures RunAction(c, 1, Leading(c, e).(aeIdx := 3, m := Some(ACK)), HandleAct(true)) == Effect(Counting(c, e), None)
  {
  }

  lemma Free(c: Config, e: Entry)
    ensures Elected(c).m == None && Leading(c, e).m == None && Voter(c).m == None && Following(c, e).m == None
  {
  }

  lemma Proposal(c: Config, cmd: Command, client: int) returns (r: Run)
    requires c.n == 3
    ensures var e := Entry(2, cmd, client);
            IsRun(c, r) && At(c, Last(c, r), Leading(c, e).(aeIdx := 3), Voter(c), Wires([], [FirstAppend(e)], []))
  {
    hide At, Last, RunAction, ActionEnabled, Elected, Leading, Voter;
    var e, w := Entry(2, cmd, client), Wires([], [], []);
    var a, b := Leading(c, e), Voter(c);
    Takes(c, cmd, client);
    StartsRound(c, e);
    Sends(c, e);
    Free(c, e);
    OneMessage(FirstAppend(e));
    r := Election(c);
    r := TakeClient1(c, r, Elected(c), b, w, cmd, client);
    EnabledAlways(c, Elected(c), ClientRequest(cmd, client));
    r := Act1(c, r, Elected(c).(m := Some(ClientRequest(cmd, client))), b, w, HandleAct(true));
    r := Act1(c, r, a, b, w, StartAppendAct);
    r := Act1(c, r, a.(aeIdx := 1), b, w, AppendEntriesAct(true));
    r := Act1(c, r, a.(aeIdx := 2), b, w, AppendEntriesAct(true));
  }

  lemma Replication(c: Config, cmd: Command, client: int) returns (r: Run)
    requires c.n == 3
    ensures var e := Entry(2, cmd, client); IsRun(c, r) && At(c, Last(c, r), Counting(c, e), Following(c, e), Wires([], [], []))
  {
    hide At, Last, RunAction, ActionEnabled, Leading, Voter, Following, Counting;
    var e, w := Entry(2, cmd, client), Wires([], [], []);
    var a, b := Leading(c, e).(aeIdx := 3), Voter(c);
    Accepts(c, e);
    Counts(c, e);
    Free(c, e);
    OneMessage(FirstAppend(e));
    OneMessage(ACK);
    r := Proposal(c, cmd, client);
    r := TakeAppend2(c, r, a, b, w.(appends := [FirstAppend(e)]));
    EnabledAlways(c, b, FirstAppend(e));
    r := Act2(c, r, a, b.(m := Some(FirstAppend(e))), w, HandleAct(true));
    r := Take1(c, r, a, Following(c, e), w.(back := [ACK]));
    EnabledAlways(c, a, ACK);
    r := Act1(c, r, a.(m := Some(ACK)), Following(c, e), w, HandleAct(true));
  }

  // ----- commitment

  /** What the command leaves in an empty store. */
  function Effected(e: Entry): (Store, set<string>) {
    ApplyCommand(e.cmd, map[], {})
  }

  function Committing(c: Config, e: Entry): Server {
    Counting(c, e).(newCommitIndex := 1, applying := true)
  }

  function Answered(c: Config, e: Entry): Server {
    var a := Committing(c, e).(commitIndex := 1);
    if c.modular then a.(acct := [e.cmd])
    else a.(sm := Effected(e).0, smDomain := Effected(e).1, replies := [MakeReply(1, e, Effected(e).0, Effected(e).1)])
  }

  lemma Commits(c: Config, e: Entry)
    requires c.n == 3 && e.term == 2
    ensures ActionEnabled(c, 1, Counting(c, e), AdvanceCommitAct)
    ensures RunAction(c, 1, Counting(c, e), AdvanceCommitAct) == Effect(Committing(c, e), None)
  {
    var a := Counting(c, e);
    assert Agree(3, 1, a.matchIndex, 1) == {1, 2} && |{1, 2}| == 2;
  }

  lemma Answers(c: Config, e: Entry)
    requires c.n == 3
    ensures ActionEnabled(c, 1, Committing(c, e), ApplyAct)
    ensures RunAction(c, 1, Committing(c, e), ApplyAct) == Effect(Answered(c, e), None)
  {
  }

  lemma Commitment(c: Config, cmd: Command, client: int) returns (r: Run)
    requires c.n == 3
    ensures var e := Entry(2, cmd, client); IsRun(c, r) && At(c, Last(c, r), Answered(c, e), Following(c, e), Wires([], [], []))
  {
    hide At, Last, RunAction, ActionEnabled;
    var e, w := Entry(2, cmd, client), Wires([], [], []);
    Commits(c, e);
    Answers(c, e);
    r := Replication(c, cmd, client);
    r := Act1(c, r, Counting(c, e), Following(c, e), w, AdvanceCommitAct);
    r := Act1(c, r, Committing(c, e), Following(c, e), w, ApplyAct);
  }

  // ----- the follower learns of it

  function SecondAppend(): Message {
    AppendEntries(2, 1, 2, [], 1, 1, 2)
  }

  /** The rest of the first round, and the next round as far as server 2. */
  lemma NextRound(c: Config, e: Entry)
    requires c.n == 3
    ensures var a := Answered(c, e);
            && ActionEnabled(c, 1, a, AppendEntriesAct(false))
            && RunAction(c, 1, a, AppendEntriesAct(false)) == Effect(a.(aeIdx := 4), None)
            && ActionEnabled(c, 1, a.(aeIdx := 4), AppendEntriesAct(false))
            && RunAction(c, 1, a.(aeIdx := 4), AppendEntriesAct(false)) == Effect(a.(aeIdx := 0), None)
  {
  }

  lemma NextRoundStarts(c: Config, e: Entry)
    requires c.n == 3
    ensures var a := Answered(c, e);
            && ActionEnabled(c, 1, a.(aeIdx := 0), StartAppendAct)
            && RunAction(c, 1, a.(aeIdx := 0), StartAppendAct) == Effect(a.(aeIdx := 1), None)
            && ActionEnabled(c, 1, a.(aeIdx := 1), AppendEntriesAct(true))
            && RunAction(c, 1, a.(aeIdx := 1), AppendEntriesAct(true)) == Effect(a.(aeIdx := 2), None)
  {
  }

  lemma SendsCommit(c: Config, e: Entry)
    requires c.n == 3 && e.term == 2
    ensures var a := Answered(c, e).(aeIdx := 2);
            && ActionEnabled(c, 1, a, AppendEntriesAct(true))
            && RunAction(c, 1, a, AppendEntriesAct(true)) == Effect(Answered(c, e), Some(SecondAppend()))
  {
    assert [e][1..] == [];
  }

  function Told(c: Config, e: Entry): Server {
    var b := Following(c, e);
    if c.modular then b.(fAdvCommitIdxCh := [0, 1])
    else b.(commitIndex := 1, sm := Effected(e).0, smDomain := Effected(e).1)
  }

  lemma IsTold(c: Config, e: Entry)
    requires c.n == 3 && e.term == 2
    ensures RunAction(c, 2, Following(c, e).(m := Some(SecondAppend())), HandleAct(true)) == Effect(Told(c, e), Some(ACK))
  {
    hide PopAndConcat, ApplyLog, ApplyCommand;
    PopAndConcatOutcome(Kept(c, [e]), 0, []);
    AppliesFirst(e);
    assert [e][..1] + [] == [e];
  }

  lemma AppliesFirst(e: Entry)
    ensures ApplyLog([e], 1, 1, map[], {}) == Effected(e)
  {
  }

  lemma Telling(c: Config, cmd: Command, client: int) returns (r: Run)
    requires c.n == 3
    ensures var e := Entry(2, cmd, client); IsRun(c, r) && At(c, Last(c, r), Answered(c, e), Told(c, e), Wires([], [], [ACK]))
  {
    hide At, Last, RunAction, ActionEnabled, Following, Answered, Told;
    var e, w := Entry(2, cmd, client), Wires([], [], []);
    var a, b := Answered(c, e), Following(c, e);
    NextRound(c, e);
    NextRoundStarts(c, e);
    SendsCommit(c, e);
    IsTold(c, e);
    Free(c, e);
    OneMessage(SecondAppend());
    OneMessage(ACK);
    r := Commitment(c, cmd, client);
    r := Act1(c, r, a, b, w, AppendEntriesAct(false));
    r := Act1(c, r, a.(aeIdx := 4), b, w, AppendEntriesAct(false));
    r := Act1(c, r, a.(aeIdx := 0), b, w, StartAppendAct);
    r := Act1(c, r, a.(aeIdx := 1), b, w, AppendEntriesAct(true));
    r := Act1(c, r, a.(aeIdx := 2), b, w, AppendEntriesAct(true));
    r := TakeAppend2(c, r, a, b, w.(appends := [SecondAppend()]));
    EnabledAlways(c, b, SecondAppend());
    r := Act2(c, r, a, b.(m := Some(SecondAppend())), w, HandleAct(true));
  }

  // ----- the composed system's other advancer, and the key-value server

  function Applied(c: Config, e: Entry): Server
    requires c.modular
  {
    Following(c, e).(fAdvCommitIdxCh := [], fTarget := 1, fApplying := true, commitIndex := 1, acct := [e.cmd])
  }

  function Consumed(c: Config, e: Entry): Server
    requires c.modular
  {
    Applied(c, e).(consumed := 1, kvSm := Effected(e).0, kvDomain := Effected(e).1)
  }

  lemma OldTarget(c: Config, e: Entry)
    requires c.n == 3 && c.modular
    ensures var b := Told(c, e);
            var b1 := b.(fAdvCommitIdxCh := [1], fApplying := true);
            && ActionEnabled(c, 2, b, ReceiveTargetAct) && RunAction(c, 2, b, ReceiveTargetAct) == Effect(b1, None)
            && ActionEnabled(c, 2, b1, FollowerApplyAct) && RunAction(c, 2, b1, FollowerApplyAct) == Effect(b1.(fApplying := false), None)
  {
    assert [0, 1][1..] == [1];
  }

  lemma NewTarget(c: Config, e: Entry)
    requires c.n == 3 && c.modular
    ensures var b := Told(c, e).(fAdvCommitIdxCh := [1], fApplying := false);
            var b1 := b.(fAdvCommitIdxCh := [], fTarget := 1, fApplying := true);
            && ActionEnabled(c, 2, b, ReceiveTargetAct) && RunAction(c, 2, b, ReceiveTargetAct) == Effect(b1, None)
            && ActionEnabled(c, 2, b1, FollowerApplyAct) && RunAction(c, 2, b1, FollowerApplyAct) == Effect(Applied(c, e), None)
  {
    assert [1][1..] == [];
  }

  lemma Consumes(c: Config, e: Entry)
    requires c.n == 3 && c.modular
    ensures ActionEnabled(c, 2, Applied(c, e), ConsumeAct)
    ensures RunAction(c, 2, Applied(c, e), ConsumeAct) == Effect(Consumed(c, e), None)
  {
  }

  lemma Consumption(c: Config, cmd: Command, client: int) returns (r: Run)
    requires c.n == 3 && c.modular
    ensures var e := Entry(2, cmd, client); IsRun(c, r) && At(c, Last(c, r), Answered(c, e), Consumed(c, e), Wires([], [], [ACK]))
  {
    hide At, Last, RunAction, ActionEnabled, Answered, Told, Applied, Consumed;
    var e, w := Entry(2, cmd, client), Wires([], [], [ACK]);
    var a, b := Answered(c, e), Told(c, e);
    OldTarget(c, e);
    NewTarget(c, e);
    Consumes(c, e);
    r := Telling(c, cmd, client);
    r := Act2(c, r, a, b, w, ReceiveTargetAct);
    var b1 := b.(fAdvCommitIdxCh := [1], fApplying := true);
    r := Act2(c, r, a, b1, w, FollowerApplyAct);
    var b2 := b.(fAdvCommitIdxCh := [1], fApplying := false);
    r := Act2(c, r, a, b2, w, ReceiveTargetAct);
    r := Act2(c, r, a, b2.(fAdvCommitIdxCh := [], fTarget := 1, fApplying := true), w, FollowerApplyAct);
    r := Act2(c, r, a, Applied(c, e), w, ConsumeAct);
  }

  /** The store after one command. */
  function StoreAfter(cmd: Command): Store {
    if cmd.kind.Put? then map[cmd.key := cmd.value] else map[]
  }

  /**
   Any command of any client can be served: in some run a server leads, has committed the command, applied it and, unless
   a key-value server does that, answered the client, and another has committed and applied it too.
   */
  lemma CommandIsServed(c: Config, cmd: Command, client: int) returns (r: Run)
    requires c.n == 3
    ensures IsRun(c, r)
    ensures var s := r.states[|r.states| - 1];
            && 1 in s.servers && 2 in s.servers
            && var a, b := s.servers[1], s.servers[2];
               && a.role == Leader && a.currentTerm == b.currentTerm == 2 && b.role == Follower && b.leader == 1
               && a.log == b.log == [Entry(2, cmd, client)] && a.commitIndex == b.commitIndex == 1
               && (if c.modular then
                     a.acct == b.acct == [cmd] && b.consumed == 1 && b.kvSm == StoreAfter(cmd)
                   else
                     && a.sm == b.sm == StoreAfter(cmd)
                     && a.replies == [Reply(1, client, cmd.kind, cmd.idx, cmd.key, if cmd.kind.Put? then Some(cmd.value) else None)])
  {
    var e := Entry(2, cmd, client);
    if c.modular {
      r := Consumption(c, cmd, client);
    } else {
      r := Telling(c, cmd, client);
    }
  }
}
