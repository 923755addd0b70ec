/** Every step of the cluster keeps the invariant. */
module RaftPreservation {
  import opened RaftOps
  import opened RaftServer
  import opened RaftSystem
  import opened RaftHistory
  import opened RaftHistorySteps
  import opened RaftInvariant
  import opened RaftFrame
  import opened RaftActions
  import opened RaftSections
  import opened RaftAppend

  /** The message a section consumes. */
  function Head(sv: Server, act: Action): Option<Message> {
    if act.HandleAct? then sv.m else None
  }

  // ----- the message being handled

  /** The handled message is the head of its stream and satisfies what the stream promises. */
  lemma HeldMessage(c: Config, s: State, h: History, i: Id)
    requires s.servers.Keys == ServerSet(c.n) && ChansInv(c, s, h)
    requires i in s.servers && HeldInv(i, s.servers[i])
    requires s.servers[i].m.Some? && !s.servers[i].m.value.ClientRequest?
    ensures var m := s.servers[i].m.value;
            && m.mdest == i && m.msource in s.servers && m.msource != i
            && MessageOk(c.n, h, s.servers[m.msource], s.servers[i], m)
  {
    var m := s.servers[i].m.value;
    var ch := ChanOf(m).value;
    assert ChanInv(c, s, h, ch);
    assert Stream(s, ch)[0] == m;
  }

  lemma SetMessage(c: Config, h: History, i: Id, sv: Server, m: Option<Message>)
    requires ServerInv(c, h, i, sv) && SupportInv(h, i, sv)
    ensures ServerInv(c, h, i, sv.(m := m)) && SupportInv(h, i, sv.(m := m))
  {
    var sv' := sv.(m := m);
    if sv.role == Leader {
      forall j | j in ServerSet(c.n) ensures MatchInv(h, sv', j) {
        assert MatchInv(h, sv, j);
      }
    }
    SameTargets(c.n, h, i, sv, sv');
  }

  /** What a section achieves does not depend on the message it leaves behind. */
  lemma AnyMessage(c: Config, h: History, h': History, i: Id, sv: Server, e: Effect, head: Option<Message>, m: Option<Message>)
    requires ActionOk(c, h, h', i, sv, e.sv, head) && SendsOk(c.n, h', i, e)
    ensures ActionOk(c, h, h', i, sv, e.sv.(m := m), head) && SendsOk(c.n, h', i, e.(sv := e.sv.(m := m)))
  {
    var sv' := e.sv.(m := m);
    SetMessage(c, h', i, e.sv, m);
    ReceiverAnyMessage(c.n, h, h', i, sv, e.sv, head, m);
  }

  lemma ReceiverAnyMessage(n: nat, h: History, h': History, i: Id, sv: Server, sv': Server, head: Option<Message>, m: Option<Message>)
    requires ReceiverOk(n, h, h', i, sv, sv', head)
    ensures ReceiverOk(n, h, h', i, sv, sv'.(m := m), head)
  {
    forall later: Message | later.AppendReply? && later.mdest == i && later.msource != i && later.msource in ServerSet(n) &&
            ReplyOk(h, later) && NotCounted(sv, later) &&
            (head.Some? && ChanOf(head.value) == ChanOf(later) ==> InOrder(head.value, later))
      ensures NotCounted(sv'.(m := m), later)
    {
      assert NotCounted(sv', later);
    }
  }

  // ----- one section

  lemma HandleOk(c: Config, s: State, h: History, i: Id, send: bool)
    requires Inv(c, s, h) && i in s.servers && s.servers[i].m.Some?
    ensures var sv := s.servers[i];
            var e := HandleMsg(c, i, sv, send);
            var h' := Record(c, h, i, sv, HandleAct(send));
            ActionOk(c, h, h', i, sv, e.sv, sv.m) && SendsOk(c.n, h', i, e)
  {
    var sv := s.servers[i];
    assert ServerInv(c, h, i, sv) && SupportInv(h, i, sv) && HeldInv(i, sv);
    var m := sv.m.value;
    if !m.ClientRequest? {
      HeldMessage(c, s, h, i);
    }
    match m
    case RequestVote(_, _, _, _, _) => RequestVoteOk(c, h, i, sv, m, send);
    case VoteReply(_, _, _, _) => VoteReplyOk(c, h, i, sv, m);
    case AppendEntries(_, _, _, _, _, _, _) => AppendEntriesOk(c, h, i, sv, m, send);
    case AppendReply(_, _, _, _, _) => AppendReplyOk(c, h, i, sv, m);
    case ClientRequest(cmd, client) => ClientRequestOk(c, h, i, sv, cmd, client);
  }

  /** The sections that take no message need to know about their own server only. */
  lemma LocalSectionOk(c: Config, h: History, i: Id, sv: Server, act: Action)
    requires Good(c, h, i, sv) && ActionEnabled(c, i, sv, act) && !act.HandleAct?
    ensures var e := Body(c, i, sv, act);
            ActionOk(c, h, Record(c, h, i, sv, act), i, sv, e.sv, None) && SendsOk(c.n, Record(c, h, i, sv, act), i, e)
  {
    match act
    case TimeoutAct => TimeoutOk(c, h, i, sv);
    case RequestVoteAct(send) => RequestVoteStepOk(c, h, i, sv, send);
    case StartAppendAct => QuietStore(c, h, i, sv, sv.(aeIdx := 1));
    case AppendEntriesAct(send) => AppendEntriesStepOk(c, h, i, sv, send);
    case AdvanceCommitAct => AdvanceCommitOk(c, h, i, sv);
    case ApplyAct => ApplyStepOk(c, h, i, sv);
    case BecomeLeaderAct => BecomeLeaderOk(c, h, i, sv);
    case ReceiveTargetAct => ReceiveTargetOk(c, h, i, sv);
    case FollowerApplyAct => FollowerApplyStepOk(c, h, i, sv);
    case ConsumeAct => ConsumeOk(c, h, i, sv);
  }

  lemma SectionOk(c: Config, s: State, h: History, i: Id, act: Action)
    requires Inv(c, s, h) && i in s.servers && ActionEnabled(c, i, s.servers[i], act)
    ensures var sv := s.servers[i];
            var e := Body(c, i, sv, act);
            var h' := Record(c, h, i, sv, act);
            ActionOk(c, h, h', i, sv, e.sv, Head(sv, act)) && SendsOk(c.n, h', i, e)
  {
    var sv := s.servers[i];
    assert ServerInv(c, h, i, sv) && SupportInv(h, i, sv);
    match act
    case HandleAct(send) => HandleOk(c, s, h, i, send);
    case _ => LocalSectionOk(c, h, i, sv, act);
  }

  // ----- streams after a section

  function Tail(st: seq<Message>, ch: Chan, head: Option<Message>): seq<Message> {
    if head.Some? && ChanOf(head.value) == Some(ch) && st != [] then st[1..] else st
  }

  function WithOut(st: seq<Message>, ch: Chan, out: Option<Message>): seq<Message> {
    if out.Some? && ChanOf(out.value) == Some(ch) then st + [out.value] else st
  }

  lemma StreamAfterEffect(s: State, i: Id, e: Effect, head: Option<Message>, ch: Chan)
    requires i in s.servers && HeldInv(i, s.servers[i])
    requires head.None? ==> e.sv.m == s.servers[i].m
    requires head.Some? ==> head == s.servers[i].m && e.sv.m == None
    ensures Stream(State(s.servers[i := e.sv], Post(s.net, e.out)), ch) ==
              WithOut(Tail(Stream(s, ch), ch, head), ch, e.out)
  {
    var s' := State(s.servers[i := e.sv], Post(s.net, e.out));
    assert Queue(s'.net, ch) == WithOut(Queue(s.net, ch), ch, e.out);
    if head.Some? && ChanOf(head.value) == Some(ch) {
      assert ch.dst == i;
      assert Held(s, ch) == [head.value] && Held(s', ch) == [];
      assert Stream(s, ch)[1..] == Queue(s.net, ch);
    } else {
      assert Held(s', ch) == Held(s, ch);
    }
  }

  lemma ReceiverKept(c: Config, s: State, h: History, h': History, i: Id, sv': Server, head: Option<Message>, ch: Chan)
    requires s.servers.Keys == ServerSet(c.n) && i in s.servers && ch.src in s.servers && ch.dst in s.servers && ch.src != ch.dst
    requires StreamOk(c.n, h, s.servers[ch.src], s.servers[ch.dst], ch, Stream(s, ch))
    requires OnlyActor(h, h', i) && ReceiverOk(c.n, h, h', i, s.servers[i], sv', head)
    requires head.Some? && ChanOf(head.value) == Some(ch) ==> Stream(s, ch) != [] && Stream(s, ch)[0] == head.value
    ensures ReceiverKeeps(h', if ch.dst == i then sv' else s.servers[ch.dst], Tail(Stream(s, ch), ch, head))
  {
    var st := Stream(s, ch);
    var st' := Tail(st, ch, head);
    var dst' := if ch.dst == i then sv' else s.servers[ch.dst];
    var popped := head.Some? && ChanOf(head.value) == Some(ch);
    forall k | 0 <= k < |st'|
      ensures (st'[k].AppendEntries? ==> NotShrinking(h', st'[k])) && (st'[k].AppendReply? ==> NotCounted(dst', st'[k]))
    {
      var k' := if popped then k + 1 else k;
      assert st'[k] == st[k'];
      if popped {
        assert InOrder(st[0], st[k']);
      }
      MessageKept(c.n, s.servers[ch.src], s.servers[ch.dst], h, h', i, s.servers[i], sv', head, ch, st[k']);
    }
  }

  lemma MessageKept(n: nat, src: Server, dst: Server, h: History, h': History, i: Id, sv: Server, sv': Server,
                    head: Option<Message>, ch: Chan, m: Message)
    requires ChanOf(m) == Some(ch) && MessageOk(n, h, src, dst, m) && ch.src in ServerSet(n) && ch.src != ch.dst
    requires ch.dst == i ==> dst == sv
    requires OnlyActor(h, h', i) && ReceiverOk(n, h, h', i, sv, sv', head)
    requires head.Some? && ChanOf(head.value) == Some(ch) ==> InOrder(head.value, m)
    ensures m.AppendEntries? ==> NotShrinking(h', m)
    ensures m.AppendReply? ==> NotCounted(if ch.dst == i then sv' else dst, m)
  {
  }

  /** What a section sends fits at the end of its stream. */
  lemma OutFits(n: nat, h: History, i: Id, sv: Server, dst: Server, st: seq<Message>, ch: Chan, m: Message)
    requires HistoryOk(n, h) && OutOk(n, h, i, sv, m) && ChanOf(m) == Some(ch)
    requires StreamOk(n, h, sv, dst, ch, st)
    requires IndexInv(n, h, dst) && i in ServerSet(n)
    ensures StreamOk(n, h, sv, dst, ch, st + [m])
  {
    if m.AppendEntries? && (m.mterm, m.mdest) in h.accepted {
      assert AcceptanceOk(n, h, m.mterm, m.mdest);
    }
    if m.AppendReply? && m.msuccess && dst.role == Leader {
      assert MatchInv(h, dst, i);
    }
    forall k | 0 <= k < |st| ensures InOrder(st[k], m) {
      assert ChanOf(st[k]) == Some(ch) && MessageOk(n, h, sv, dst, st[k]);
    }
    StreamPush(n, h, sv, dst, ch, st, m);
  }

  lemma TailKept(c: Config, s: State, h: History, h': History, i: Id, sv': Server, head: Option<Message>, ch: Chan)
    requires s.servers.Keys == ServerSet(c.n) && i in s.servers && ch.src in s.servers && ch.dst in s.servers && ch.src != ch.dst
    requires StreamOk(c.n, h, s.servers[ch.src], s.servers[ch.dst], ch, Stream(s, ch)) && Stream(s, ch) != []
    requires ActionOk(c, h, h', i, s.servers[i], sv', head)
    requires head.Some? && ChanOf(head.value) == Some(ch) ==> Stream(s, ch)[0] == head.value
    ensures StreamOk(c.n, h', if ch.src == i then sv' else s.servers[ch.src], if ch.dst == i then sv' else s.servers[ch.dst],
                     ch, Tail(Stream(s, ch), ch, head))
  {
    var st := Stream(s, ch);
    var st1 := Tail(st, ch, head);
    var src, dst := s.servers[ch.src], s.servers[ch.dst];
    ReceiverKept(c, s, h, h', i, sv', head, ch);
    if st1 != st {
      StreamWithout(c.n, h, src, dst, ch, st, 0);
      assert st[..0] + st[1..] == st1;
    }
    StreamFrame(c.n, h, h', src, if ch.src == i then sv' else src, dst, if ch.dst == i then sv' else dst, ch, st1);
  }

  lemma HeadOfStream(s: State, ch: Chan, i: Id, head: Option<Message>)
    requires i in s.servers && HeldInv(i, s.servers[i]) && (head.Some? ==> s.servers[i].m == head)
    ensures head.Some? && ChanOf(head.value) == Some(ch) ==> Stream(s, ch) != [] && Stream(s, ch)[0] == head.value
  {
  }

  lemma StreamAfterReceiver(c: Config, s: State, h: History, h': History, i: Id, sv': Server, head: Option<Message>, ch: Chan)
    requires s.servers.Keys == ServerSet(c.n) && i in s.servers && HeldInv(i, s.servers[i])
    requires ChanInv(c, s, h, ch)
    requires ActionOk(c, h, h', i, s.servers[i], sv', head)
    requires head.Some? ==> s.servers[i].m == head
    ensures StreamInv(c.n, h', s.servers[i := sv'], ch, Tail(Stream(s, ch), ch, head))
  {
    if Stream(s, ch) != [] {
      HeadOfStream(s, ch, i, head);
      TailKept(c, s, h, h', i, sv', head, ch);
    }
  }

  lemma StreamAfterSend(n: nat, h: History, servers: map<Id, Server>, i: Id, e: Effect, ch: Chan, st: seq<Message>)
    requires servers.Keys == ServerSet(n) && i in servers && servers[i] == e.sv && HistoryOk(n, h)
    requires StreamInv(n, h, servers, ch, st) && SendsOk(n, h, i, e)
    requires ch.dst in servers ==> IndexInv(n, h, servers[ch.dst])
    ensures StreamInv(n, h, servers, ch, WithOut(st, ch, e.out))
  {
    if e.out.Some? && ChanOf(e.out.value) == Some(ch) {
      SenderOf(n, h, i, e, ch);
      OutFits(n, h, i, e.sv, servers[ch.dst], st, ch, e.out.value);
    }
  }

  lemma SenderOf(n: nat, h: History, i: Id, e: Effect, ch: Chan)
    requires SendsOk(n, h, i, e) && e.out.Some? && ChanOf(e.out.value) == Some(ch)
    ensures ch.src == i && ch.dst in ServerSet(n) && ch.dst != i
  {
  }

  // ----- the other servers after a section

  lemma OthersAfterSection(c: Config, s: State, h: History, h': History, i: Id, sv': Server, head: Option<Message>, j: Id)
    requires Inv(c, s, h) && i in s.servers && j in s.servers && j != i
    requires ActionOk(c, h, h', i, s.servers[i], sv', head)
    requires head.Some? ==> s.servers[i].m == head
    ensures ServerInv(c, h', j, s.servers[j]) && SupportInv(h', j, s.servers[j])
  {
    var sv := s.servers[j];
    assert ServerInv(c, h, j, sv) && SupportInv(h, j, sv) && HeldInv(i, s.servers[i]);
    OtherServer(c, h, h', i, j, sv);
    if head.Some? && head.value.RequestVote? {
      HeldMessage(c, s, h, i);
    }
    VotesAreSupported(h, h', i, j, sv, head);
    OtherSupport(h, h', i, j, sv);
  }

  lemma VotesAreSupported(h: History, h': History, i: Id, j: Id, sv: Server, head: Option<Message>)
    requires j != i && SupportInv(h, j, sv) && NewVotes(h, h', i, head)
    requires head.Some? && head.value.RequestVote? && head.value.msource == j ==> RequestOk(sv, head.value)
    ensures NewVoteOk(h', i, j, sv)
  {
    forall t: nat | GrantedBy(h', t, i, j) ensures Supported(sv, t, h'.ballots[(t, i)].log) {
      if GrantedBy(h, t, i, j) && h'.ballots[(t, i)] == h.ballots[(t, i)] {
        assert Supported(sv, t, h.ballots[(t, i)].log);
      } else {
        assert Answers(head.value, t, j, h'.ballots[(t, i)].log);
      }
    }
  }

  // ----- the four kinds of step

  lemma SectionKeepsInv(c: Config, s: State, h: History, i: Id, act: Action)
    requires Inv(c, s, h) && Enabled(c, s, Section(i, act))
    ensures var h' := Record(c, h, i, s.servers[i], act);
            Inv(c, Do(c, s, Section(i, act)), h') && Grows(h, h')
  {
    var sv := s.servers[i];
    SectionOk(c, s, h, i, act);
    AnyMessage(c, h, Record(c, h, i, sv, act), i, sv, Body(c, i, sv, act), Head(sv, act),
               if act.HandleAct? then None else sv.m);
    EffectKeepsInv(c, s, h, Record(c, h, i, sv, act), i, RunAction(c, i, sv, act), Head(sv, act));
  }

  lemma EffectKeepsInv(c: Config, s: State, h: History, h': History, i: Id, e: Effect, head: Option<Message>)
    requires Inv(c, s, h) && i in s.servers
    requires ActionOk(c, h, h', i, s.servers[i], e.sv, head) && SendsOk(c.n, h', i, e)
    requires head.None? ==> e.sv.m == s.servers[i].m
    requires head.Some? ==> head == s.servers[i].m && e.sv.m == None
    ensures Inv(c, State(s.servers[i := e.sv], Post(s.net, e.out)), h')
  {
    var s' := State(s.servers[i := e.sv], Post(s.net, e.out));
    ServersAfter(c, s, h, h', i, e, head, s');
    assert HeldInv(i, s.servers[i]);
    forall ch ensures ChanInv(c, s', h', ch) {
      assert ChanInv(c, s, h, ch);
      StreamAfterEffect(s, i, e, head, ch);
      StreamAfterReceiver(c, s, h, h', i, e.sv, head, ch);
      StreamAfterSend(c.n, h', s'.servers, i, e, ch, Tail(Stream(s, ch), ch, head));
    }
  }

  lemma ServersAfter(c: Config, s: State, h: History, h': History, i: Id, e: Effect, head: Option<Message>, s': State)
    requires Inv(c, s, h) && i in s.servers
    requires ActionOk(c, h, h', i, s.servers[i], e.sv, head)
    requires head.None? ==> e.sv.m == s.servers[i].m
    requires head.Some? ==> head == s.servers[i].m && e.sv.m == None
    requires s'.servers == s.servers[i := e.sv]
    ensures ServersInv(c, s', h')
    ensures forall j :: j in s'.servers ==> IndexInv(c.n, h', s'.servers[j])
  {
    assert HeldInv(i, s.servers[i]);
    forall j | j in s'.servers
      ensures ServerInv(c, h', j, s'.servers[j]) && SupportInv(h', j, s'.servers[j]) && HeldInv(j, s'.servers[j])
    {
      if j != i {
        OthersAfterSection(c, s, h, h', i, e.sv, head, j);
        assert HeldInv(j, s.servers[j]);
      }
    }
    forall j | j in s'.servers ensures IndexInv(c.n, h', s'.servers[j]) {
      assert ServerInv(c, h', j, s'.servers[j]);
    }
  }

  /** Taking a message in moves it from the queue to the handler; every stream stays what it was. */
  lemma ReceiveKeepsInv(c: Config, s: State, h: History, ch: Chan)
    requires Inv(c, s, h) && Enabled(c, s, RaftSystem.Receive(ch))
    ensures Inv(c, Do(c, s, RaftSystem.Receive(ch)), h)
  {
    var s' := Do(c, s, RaftSystem.Receive(ch));
    assert ChanInv(c, s, h, ch);
    var m := Queue(s.net, ch)[0];
    assert Stream(s, ch)[0] == m;
    assert ChanOf(m) == Some(ch);
    TakeInKeepsInv(c, s, h, ch.dst, m, s');
  }

  lemma TakeInKeepsInv(c: Config, s: State, h: History, i: Id, m: Message, s': State)
    requires Inv(c, s, h) && i in s.servers && s.servers[i].m.None?
    requires !m.ClientRequest? ==> m.mdest == i
    requires s'.servers == s.servers[i := s.servers[i].(m := Some(m))]
    requires forall ch {:trigger Queue(s'.net, ch)} ::
               if ChanOf(m) == Some(ch) then Queue(s.net, ch) == [m] + Queue(s'.net, ch)
               else Queue(s'.net, ch) == Queue(s.net, ch)
    ensures Inv(c, s', h)
  {
    TakeInServers(c, s, h, i, m, s');
    forall ch ensures ChanInv(c, s', h, ch) {
      assert ChanInv(c, s, h, ch);
      TakeInStream(s, i, m, s', ch);
      if Stream(s, ch) != [] {
        SameStream(c.n, h, s.servers[ch.src], s'.servers[ch.src], s.servers[ch.dst], s'.servers[ch.dst], ch, Stream(s, ch));
      }
    }
  }

  lemma TakeInStream(s: State, i: Id, m: Message, s': State, ch: Chan)
    requires i in s.servers && s.servers[i].m.None? && (!m.ClientRequest? ==> m.mdest == i)
    requires s'.servers == s.servers[i := s.servers[i].(m := Some(m))]
    requires if ChanOf(m) == Some(ch) then Queue(s.net, ch) == [m] + Queue(s'.net, ch)
             else Queue(s'.net, ch) == Queue(s.net, ch)
    ensures Stream(s', ch) == Stream(s, ch)
  {
  }

  lemma TakeInServers(c: Config, s: State, h: History, i: Id, m: Message, s': State)
    requires ServersInv(c, s, h) && i in s.servers && (!m.ClientRequest? ==> m.mdest == i)
    requires s'.servers == s.servers[i := s.servers[i].(m := Some(m))]
    ensures ServersInv(c, s', h)
  {
    assert ServerInv(c, h, i, s.servers[i]) && SupportInv(h, i, s.servers[i]);
    SetMessage(c, h, i, s.servers[i], Some(m));
    forall j | j in s'.servers
      ensures ServerInv(c, h, j, s'.servers[j]) && SupportInv(h, j, s'.servers[j]) && HeldInv(j, s'.servers[j])
    {
      if j != i {
        assert ServerInv(c, h, j, s.servers[j]) && SupportInv(h, j, s.servers[j]) && HeldInv(j, s.servers[j]);
      }
    }
  }

  lemma SameStream(n: nat, h: History, src: Server, src': Server, dst: Server, dst': Server, ch: Chan, st: seq<Message>)
    requires StreamOk(n, h, src, dst, ch, st)
    requires src' == src.(m := src'.m) && dst' == dst.(m := dst'.m)
    ensures StreamOk(n, h, src', dst', ch, st)
  {
    Reflexive(h, 0);
    forall k | 0 <= k < |st|
      ensures (st[k].AppendEntries? ==> NotShrinking(h, st[k])) && (st[k].AppendReply? ==> NotCounted(dst', st[k]))
    {
      assert MessageOk(n, h, src, dst, st[k]);
    }
    StreamFrame(n, h, h, src, src', dst, dst', ch, st);
  }

  lemma ReceiveClientKeepsInv(c: Config, s: State, h: History, dst: Id, cmd: Command, client: int)
    requires Inv(c, s, h) && Enabled(c, s, ReceiveClient(dst, cmd, client))
    ensures Inv(c, Do(c, s, ReceiveClient(dst, cmd, client)), h)
  {
    TakeInKeepsInv(c, s, h, dst, ClientRequest(cmd, client), Do(c, s, ReceiveClient(dst, cmd, client)));
  }

  lemma LoseKeepsInv(c: Config, s: State, h: History, lost: Chan, k: nat)
    requires Inv(c, s, h) && Enabled(c, s, Lose(lost, k))
    ensures Inv(c, Do(c, s, Lose(lost, k)), h)
  {
    var s' := Do(c, s, Lose(lost, k));
    forall ch ensures ChanInv(c, s', h, ch) {
      assert ChanInv(c, s, h, ch);
      if ch == lost {
        var st := Stream(s, ch);
        var at := |Held(s, ch)| + k;
        assert Held(s', ch) == Held(s, ch);
        assert Stream(s', ch) == st[..at] + st[at + 1..];
        StreamWithout(c.n, h, s.servers[ch.src], s.servers[ch.dst], ch, st, at);
      } else {
        assert Stream(s', ch) == Stream(s, ch);
      }
    }
    forall j | j in s'.servers
      ensures ServerInv(c, h, j, s'.servers[j]) && SupportInv(h, j, s'.servers[j]) && HeldInv(j, s'.servers[j])
    {
      assert ServerInv(c, h, j, s.servers[j]) && SupportInv(h, j, s.servers[j]) && HeldInv(j, s.servers[j]);
    }
  }

  function NextHistory(c: Config, s: State, h: History, step: Step): History
    requires Enabled(c, s, step)
  {
    match step
    case Section(i, act) => Record(c, h, i, s.servers[i], act)
    case Receive(_) => h
    case ReceiveClient(_, _, _) => h
    case Lose(_, _) => h
  }

  lemma StepKeepsInv(c: Config, s: State, h: History, step: Step)
    requires Inv(c, s, h) && Enabled(c, s, step)
    ensures var h' := NextHistory(c, s, h, step); Inv(c, Do(c, s, step), h') && Grows(h, h')
  {
    Reflexive(h, 0);
    match step
    case Section(i, act) => SectionKeepsInv(c, s, h, i, act);
    case Receive(ch) => ReceiveKeepsInv(c, s, h, ch);
    case ReceiveClient(dst, cmd, client) => ReceiveClientKeepsInv(c, s, h, dst, cmd, client);
    case Lose(ch, k) => LoseKeepsInv(c, s, h, ch, k);
  }
}
