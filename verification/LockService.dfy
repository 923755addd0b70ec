/** The lock service: one server with a queue, any number of clients that each take the lock once. */
module LockService {

  type Client = nat

  datatype Kind = Lock | Unlock

  datatype Option<T> = None | Some(value: T)

  /** Where a client is: at acquireLock, at criticalSection, at unlock (holding the lock), or done. */
  datatype Pc = Acquire | Waiting | Holding | Done

  datatype Server = Server(msg: Option<(Client, Kind)>, q: seq<Client>)

  /** What serverRespond does with its message: the new queue, and whom it grants the lock; or a failing Head or Tail. */
  datatype Response = Failure | Response(q: seq<Client>, grant: Option<Client>)

  function Respond(q: seq<Client>, from: Client, kind: Kind): Response {
    match kind
    case Lock => Response(q + [from], if q == [] then Some(from) else None)
    case Unlock =>
      if q == [] then Failure else Response(q[1..], if q[1..] == [] then None else Some(q[1]))
  }

  /** AServer with its variables. */
  class AServer {
    var msg: Option<(Client, Kind)>
    var q: seq<Client>

    constructor ()
      ensures msg == None && q == []
    {
      msg, q := None, [];
    }

    method ServerReceive(m: (Client, Kind))
      modifies this
      ensures msg == Some(m) && q == old(q)
    {
      msg := Some(m);
    }

    method ServerRespond() returns (grant: Option<Client>)
      requires msg.Some? && Respond(q, msg.value.0, msg.value.1).Response?
      modifies this
      ensures Response(q, grant) == Respond(old(q), old(msg).value.0, old(msg).value.1) && msg == old(msg)
    {
      grant := None;
      if msg.value.1 == Lock {
        if q == [] {
          grant := Some(msg.value.0);
        }
        q := q + [msg.value.0];
      } else {
        q := q[1..];
        if q != [] {
          grant := Some(q[0]);
        }
      }
    }
  }

  /**
   Clients are numbered from 0. `chans[c]` carries the messages of client `c` to the server, `inboxes[c]` the grants to
   it. `arrivals` lists the lock requests in the order the server took them up, `grants` the grants in theirs.
   */
  datatype State = State(
    pcs: seq<Pc>,
    chans: seq<seq<Kind>>,
    inboxes: seq<nat>,
    server: Server,
    failed: bool,
    arrivals: seq<Client>,
    grants: seq<Client>)

  datatype Step =
    | AcquireLock(c: Client)
    | CriticalSection(c: Client)
    | UnlockStep(c: Client)
    | ServerReceive(c: Client)
    | ServerRespond

  predicate WellFormed(s: State) {
    |s.chans| == |s.inboxes| == |s.pcs|
  }

  predicate Enabled(s: State, step: Step) {
    && WellFormed(s)
    && match step
       case AcquireLock(c) => c < |s.pcs| && s.pcs[c] == Acquire
       case CriticalSection(c) => c < |s.pcs| && s.pcs[c] == Waiting && s.inboxes[c] > 0
       case UnlockStep(c) => c < |s.pcs| && s.pcs[c] == Holding
       case ServerReceive(c) => c < |s.pcs| && s.server.msg.None? && s.chans[c] != []
       case ServerRespond => s.server.msg.Some?
  }

  function Do(s: State, step: Step): State
    requires Enabled(s, step)
  {
    match step
    case AcquireLock(c) => s.(pcs := s.pcs[c := Waiting], chans := s.chans[c := s.chans[c] + [Lock]])
    case CriticalSection(c) => s.(pcs := s.pcs[c := Holding], inboxes := s.inboxes[c := s.inboxes[c] - 1])
    case UnlockStep(c) => s.(pcs := s.pcs[c := Done], chans := s.chans[c := s.chans[c] + [Unlock]])
    case ServerReceive(c) =>
      s.(server := s.server.(msg := Some((c, s.chans[c][0]))), chans := s.chans[c := s.chans[c][1..]])
    case ServerRespond =>
      var (from, kind) := s.server.msg.value;
      match Respond(s.server.q, from, kind)
      case Failure => s.(failed := true)
      case Response(q, grant) =>
        s.(server := Server(None, q),
           inboxes := if grant.Some? && grant.value < |s.inboxes| then s.inboxes[grant.value := s.inboxes[grant.value] + 1] else s.inboxes,
           arrivals := if kind == Lock then s.arrivals + [from] else s.arrivals,
           grants := if grant.Some? then s.grants + [grant.value] else s.grants)
  }

  predicate Init(s: State) {
    && WellFormed(s)
    && (forall c {:trigger s.pcs[c]} :: 0 <= c < |s.pcs| ==> s.pcs[c] == Acquire && s.chans[c] == [] && s.inboxes[c] == 0)
    && s.server == Server(None, []) && !s.failed && s.arrivals == [] && s.grants == []
  }

  datatype Run = Run(states: seq<State>, steps: seq<Step>)

  predicate StepAt(r: Run, k: nat)
    requires k < |r.steps| && k + 1 < |r.states|
  {
    Enabled(r.states[k], r.steps[k]) && r.states[k + 1] == Do(r.states[k], r.steps[k])
  }

  predicate IsRun(r: Run) {
    && |r.states| == |r.steps| + 1
    && Init(r.states[0])
    && forall k: nat {:trigger StepAt(r, k)} :: k < |r.steps| ==> StepAt(r, k)
  }

  // ----- the invariant

  /** What a client has sent that the server has not answered yet. */
  function Pending(s: State, c: Client): seq<Kind>
    requires c < |s.chans|
  {
    (if s.server.msg.Some? && s.server.msg.value.0 == c then [s.server.msg.value.1] else []) + s.chans[c]
  }

  predicate IsHead(s: State, c: Client) {
    s.server.q != [] && s.server.q[0] == c
  }

  /** One client: its place in the queue, what is on its way from it and to it. Only the head of the queue is granted. */
  predicate ClientOk(s: State, c: Client)
    requires WellFormed(s) && c < |s.pcs|
  {
    match s.pcs[c]
    case Acquire => c !in s.server.q && Pending(s, c) == [] && s.inboxes[c] == 0
    case Waiting =>
      if c in s.server.q then Pending(s, c) == [] && s.inboxes[c] == (if IsHead(s, c) then 1 else 0)
      else Pending(s, c) == [Lock] && s.inboxes[c] == 0
    case Holding => IsHead(s, c) && Pending(s, c) == [] && s.inboxes[c] == 0
    case Done => s.inboxes[c] == 0 && if c in s.server.q then IsHead(s, c) && Pending(s, c) == [Unlock] else Pending(s, c) == []
  }

  ghost predicate Inv(s: State) {
    && WellFormed(s)
    && !s.failed
    && (forall c: Client {:trigger ClientOk(s, c)} :: c < |s.pcs| ==> ClientOk(s, c))
    && (s.server.msg.Some? ==> s.server.msg.value.0 < |s.pcs|)
    && QueueOk(s)
  }

  /** The queue is the end of the arrivals, and the grants are the arrivals up to its head. */
  predicate OrderOk(q: seq<Client>, arrivals: seq<Client>, grants: seq<Client>) {
    && |q| <= |arrivals|
    && q == arrivals[|arrivals| - |q|..]
    && grants == arrivals[..|arrivals| - |q| + if q == [] then 0 else 1]
  }

  ghost predicate Distinct(q: seq<Client>) {
    forall j, k :: 0 <= j < k < |q| ==> q[j] != q[k]
  }

  ghost predicate QueueOk(s: State) {
    && Distinct(s.server.q)
    && (forall c :: c in s.server.q ==> c < |s.pcs|)
    && OrderOk(s.server.q, s.arrivals, s.grants)
  }

  lemma ClientStep(s: State, step: Step)
    requires Inv(s) && Enabled(s, step) && !step.ServerRespond?
    ensures Inv(Do(s, step))
  {
    var s' := Do(s, step);
    assert ClientOk(s, step.c);
    forall c: Client | c < |s'.pcs| ensures ClientOk(s', c) {
      assert ClientOk(s, c);
      assert c != step.c ==> Pending(s', c) == Pending(s, c);
    }
  }

  /** What the server's response means for each client, given what it means for the one at hand. */
  lemma LockClient(s: State, c: Client)
    requires Inv(s) && Enabled(s, ServerRespond) && s.server.msg.value.1 == Lock && c < |s.pcs|
    ensures ClientOk(Do(s, ServerRespond), c)
  {
    var from := s.server.msg.value.0;
    assert ClientOk(s, from) && Pending(s, from)[0] == Lock;
    assert ClientOk(s, c);
    assert c != from ==> Pending(Do(s, ServerRespond), c) == Pending(s, c);
  }

  lemma UnlockClient(s: State, c: Client)
    requires Inv(s) && Enabled(s, ServerRespond) && s.server.msg.value.1 == Unlock && c < |s.pcs|
    ensures s.server.q != [] && s.server.q[0] == s.server.msg.value.0
    ensures ClientOk(Do(s, ServerRespond), c)
  {
    var from := s.server.msg.value.0;
    var q := s.server.q;
    assert ClientOk(s, from) && Pending(s, from)[0] == Unlock;
    assert ClientOk(s, c);
    assert c != from ==> Pending(Do(s, ServerRespond), c) == Pending(s, c);
    assert c in q <==> c == q[0] || c in q[1..];
  }

  lemma LockQueue(q: seq<Client>, arrivals: seq<Client>, grants: seq<Client>, from: Client)
    requires Distinct(q) && OrderOk(q, arrivals, grants) && from !in q
    ensures Distinct(q + [from])
    ensures OrderOk(q + [from], arrivals + [from], if q == [] then grants + [from] else grants)
  {
    var arrivals' := arrivals + [from];
    assert arrivals'[|arrivals'| - |q + [from]|..] == arrivals[|arrivals| - |q|..] + [from];
    var k := |arrivals| - |q| + if q == [] then 0 else 1;
    assert arrivals'[..k] == arrivals[..k];
    assert q == [] ==> arrivals' == arrivals'[..k] + [from];
  }

  lemma UnlockQueue(q: seq<Client>, arrivals: seq<Client>, grants: seq<Client>)
    requires Distinct(q) && OrderOk(q, arrivals, grants) && q != []
    ensures Distinct(q[1..])
    ensures OrderOk(q[1..], arrivals, if q[1..] == [] then grants else grants + [q[1]])
  {
    var k := |arrivals| - |q|;
    assert q[1..] == arrivals[k + 1..];
    if |q| > 1 {
      assert q[1] == arrivals[k + 1];
      assert arrivals[..k + 2] == arrivals[..k + 1] + [arrivals[k + 1]];
    }
  }

  lemma RespondQueue(s: State)
    requires Enabled(s, ServerRespond) && QueueOk(s) && s.server.msg.value.0 < |s.pcs|
    requires s.server.msg.value.1 == Lock ==> s.server.msg.value.0 !in s.server.q
    requires s.server.msg.value.1 == Unlock ==> s.server.q != []
    ensures QueueOk(Do(s, ServerRespond))
  {
    hide OrderOk, Distinct;
    if s.server.msg.value.1 == Lock {
      LockQueue(s.server.q, s.arrivals, s.grants, s.server.msg.value.0);
    } else {
      UnlockQueue(s.server.q, s.arrivals, s.grants);
      assert forall c :: c in s.server.q[1..] ==> c in s.server.q;
    }
  }

  lemma RespondStep(s: State)
    requires Inv(s) && Enabled(s, ServerRespond)
    ensures Inv(Do(s, ServerRespond))
  {
    hide OrderOk;
    var s' := Do(s, ServerRespond);
    var from := s.server.msg.value.0;
    assert ClientOk(s, from) && Pending(s, from)[0] == s.server.msg.value.1;
    forall c: Client | c < |s'.pcs| ensures ClientOk(s', c) {
      if s.server.msg.value.1 == Lock {
        LockClient(s, c);
      } else {
        UnlockClient(s, c);
      }
    }
    RespondQueue(s);
  }

  lemma {:induction false} RunKeepsInv(r: Run, k: nat)
    requires IsRun(r) && k < |r.states|
    ensures Inv(r.states[k])
  {
    if k == 0 {
      forall c: Client | c < |r.states[0].pcs| ensures ClientOk(r.states[0], c) {
        assert r.states[0].pcs[c] == Acquire;
      }
    } else {
      RunKeepsInv(r, k - 1);
      assert StepAt(r, k - 1);
      var s := r.states[k - 1];
      if !r.steps[k - 1].ServerRespond? {
        ClientStep(s, r.steps[k - 1]);
      } else {
        RespondStep(s);
      }
    }
  }

  // ----- the claims

  /** At most one client has the lock. */
  lemma MutualExclusion(r: Run, k: nat, a: Client, b: Client)
    requires IsRun(r) && k < |r.states| && a < |r.states[k].pcs| && b < |r.states[k].pcs|
    requires r.states[k].pcs[a] == Holding && r.states[k].pcs[b] == Holding
    ensures a == b
  {
    RunKeepsInv(r, k);
    assert ClientOk(r.states[k], a) && ClientOk(r.states[k], b);
  }

  /**
   The lock is granted in the order in which the server took up the requests, to each once: every request has been
   granted except those queued behind the head.
   */
  lemma GrantsFollowArrivals(r: Run, k: nat)
    requires IsRun(r) && k < |r.states|
    ensures var s := r.states[k];
            var waiting := if s.server.q == [] then [] else s.server.q[1..];
            s.arrivals == s.grants + waiting
  {
    RunKeepsInv(r, k);
    assert OrderOk(r.states[k].server.q, r.states[k].arrivals, r.states[k].grants);
  }

  /** Head and Tail are never applied to an empty queue. */
  lemma NothingFails(r: Run, k: nat)
    requires IsRun(r) && k < |r.states|
    ensures !r.states[k].failed
    ensures var s := r.states[k].server;
            s.msg.Some? && s.msg.value.1 == Unlock ==> s.q != [] && s.q[0] == s.msg.value.0
  {
    RunKeepsInv(r, k);
    var s := r.states[k];
    if s.server.msg.Some? && s.server.msg.value.1 == Unlock {
      assert ClientOk(s, s.server.msg.value.0);
      assert Pending(s, s.server.msg.value.0)[0] == Unlock;
    }
  }

  ghost predicate CanStep(s: State) {
    exists step {:trigger Enabled(s, step)} :: Enabled(s, step)
  }

  /** The service never stops short: while a client has not had the lock, somebody can take a step. */
  lemma NeverStuck(r: Run, k: nat, c: Client)
    requires IsRun(r) && k < |r.states| && c < |r.states[k].pcs| && r.states[k].pcs[c] != Done
    ensures CanStep(r.states[k])
  {
    RunKeepsInv(r, k);
    var s := r.states[k];
    assert ClientOk(s, c);
    if s.server.msg.Some? {
      assert Enabled(s, ServerRespond);
    } else if s.pcs[c] == Acquire {
      assert Enabled(s, AcquireLock(c));
    } else if s.chans[c] != [] {
      assert Enabled(s, ServerReceive(c));
    } else {
      HeadCanStep(s);
    }
  }

  lemma HeadCanStep(s: State)
    requires Inv(s) && s.server.msg.None? && s.server.q != []
    ensures CanStep(s)
  {
    var head := s.server.q[0];
    assert head in s.server.q;
    assert ClientOk(s, head);
    match s.pcs[head]
    case Waiting => assert Enabled(s, CriticalSection(head));
    case Holding => assert Enabled(s, UnlockStep(head));
    case Done => assert Enabled(s, ServerReceive(head));
    case Acquire =>
  }
}
