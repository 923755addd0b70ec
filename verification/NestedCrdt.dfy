/** The nested CRDT archetype with the counter's functions: convergence of N nodes over a network without loss. */
module NestedCrdt {

  import opened GCounter

  // ----- COMBINE_FN; UPDATE_FN and VIEW_FN do what the counter's Write and Total do

  /** COMBINE_FN builds its result by taking in one argument after the other, entry by entry in any order. */
  method CombineFn(lhs: Counter, rhs: Counter) returns (r: Counter)
    ensures r == Merge(lhs, rhs)
  {
    r := Incorporate(map[], lhs);
    r := Incorporate(r, rhs);
    assert Merge(map[], lhs) == lhs;
  }

  method Incorporate(builder: Counter, fn: Counter) returns (r: Counter)
    ensures r == Merge(builder, fn)
  {
    r := builder;
    var rest := fn.Keys;
    while rest != {}
      invariant rest <= fn.Keys && r.Keys == builder.Keys + (fn.Keys - rest)
      invariant forall i :: i in r ==> r[i] == if i in rest then builder[i] else Merge(builder, fn)[i]
    {
      Inhabited(rest);
      var k: Id :| k in rest;
      var v := fn[k];
      if k in r {
        if v > r[k] {
          r := r[k := v];
        }
      } else {
        r := r[k := v];
      }
      rest := rest - {k};
    }
  }

  // ----- ACRDTResource

  datatype Request = ReadReq | WriteReq(value: int) | AbortReq | PreCommitReq | CommitReq

  datatype Ack = ReadAck(value: int) | WriteAck | AbortAck | PreCommitAck | CommitAck

  datatype Node = Node(state: Counter, readState: Counter, inProgress: bool, remaining: set<Id>)

  /** The first request of a section takes a snapshot. */
  function Begin(x: Node): Node {
    x.(readState := if x.inProgress then x.readState else x.state, inProgress := true)
  }

  function HandleRequest(self: Id, peers: set<Id>, x: Node, req: Request): Node {
    match req
    case ReadReq => Begin(x)
    case WriteReq(v) => Begin(x).(readState := Write(Begin(x).readState, self, v))
    case AbortReq => x.(readState := map[], inProgress := false)
    case PreCommitReq => x
    case CommitReq =>
      x.(remaining := if x.state != x.readState then peers else x.remaining,
         state := Merge(x.state, x.readState), readState := map[], inProgress := false)
  }

  function ReceiveUpdate(x: Node, update: Counter): Node {
    x.(state := Merge(update, x.state))
  }

  function Sent(x: Node, target: Id): Node {
    x.(remaining := x.remaining - {target})
  }

  /** The archetype itself: `n` nodes, of which this is one. */
  class CRDTResource {
    const self: Id
    const n: nat
    const peers: set<Id>
    var state: Counter
    var readState: Counter
    var criticalSectionInProgress: bool
    var remainingPeersToUpdate: set<Id>

    ghost function Contents(): Node
      reads this
    {
      Node(state, readState, criticalSectionInProgress, remainingPeersToUpdate)
    }

    ghost predicate Valid()
      reads this
    {
      (forall i :: i in state ==> i < n) && (forall i :: i in readState ==> i < n) && self < n
    }

    constructor (self0: Id, n0: nat)
      requires self0 < n0
      ensures Valid() && self == self0 && n == n0 && peers == Peers(n, self) && Contents() == InitNode()
    {
      self, n, peers := self0, n0, Peers(n0, self0);
      state, readState, criticalSectionInProgress, remainingPeersToUpdate := map[], map[], false, {};
    }

    method ReceiveReq(req: Request) returns (ack: Ack)
      requires Valid()
      modifies this
      ensures Valid() && Contents() == HandleRequest(self, peers, old(Contents()), req)
      ensures req.ReadReq? ==> ack == ReadAck(Total(readState, n))
      ensures req.WriteReq? <==> ack.WriteAck?
    {
      if req.ReadReq? {
        if !criticalSectionInProgress {
          readState := state;
          criticalSectionInProgress := true;
        }
        var view := SumEntries(readState, n);
        ack := ReadAck(view);
      } else if req.WriteReq? {
        if !criticalSectionInProgress {
          readState := state;
          criticalSectionInProgress := true;
        }
        readState := readState[self := Get(readState, self) + req.value];
        ack := WriteAck;
      } else if req.AbortReq? {
        readState := map[];
        criticalSectionInProgress := false;
        ack := AbortAck;
      } else if req.PreCommitReq? {
        ack := PreCommitAck;
      } else {
        if state != readState {
          remainingPeersToUpdate := peers;
        }
        state := CombineFn(state, readState);
        readState := map[];
        criticalSectionInProgress := false;
        ack := CommitAck;
      }
    }

    method Receive(update: Counter)
      requires Valid() && forall i :: i in update ==> i < n
      modifies this
      ensures Valid() && Contents() == ReceiveUpdate(old(Contents()), update)
    {
      state := CombineFn(update, state);
    }

    method SendUpdate(target: Id) returns (msg: Counter)
      requires Valid() && target in remainingPeersToUpdate
      modifies this
      ensures Valid() && Contents() == Sent(old(Contents()), target) && msg == state
    {
      msg := state;
      remainingPeersToUpdate := remainingPeersToUpdate - {target};
    }
  }

  function Peers(n: nat, self: Id): (r: set<Id>)
    ensures forall i: Id :: i in r <==> i < n && i != self
  {
    if n == 0 then {} else Peers(n - 1, self) + if n - 1 == self then {} else {n - 1}
  }

  function InitNode(): Node {
    Node(map[], map[], false, {})
  }

  // ----- the network

  /**
   `queues[i]` is what is on its way to node `i`. The rest is bookkeeping: the snapshot and the writes of the section
   in progress, and the sum of the committed writes, per node.
   */
  datatype System = System(nodes: seq<Node>, queues: seq<seq<Counter>>, snapshots: seq<Counter>, writes: seq<seq<int>>,
                           totals: seq<int>)

  datatype Step =
    | Ask(i: Id, req: Request)
    | Deliver(i: Id, k: nat)
    | Send(i: Id, target: Id)

  predicate WellFormed(s: System) {
    |s.queues| == |s.snapshots| == |s.writes| == |s.totals| == |s.nodes|
  }

  predicate Enabled(s: System, step: Step) {
    && WellFormed(s)
    && step.i < |s.nodes|
    && (step.Deliver? ==> step.k < |s.queues[step.i]|)
    && (step.Send? ==> step.target in s.nodes[step.i].remaining && step.target < |s.nodes|)
  }

  function Sum(vs: seq<int>): int {
    if vs == [] then 0 else Sum(vs[..|vs| - 1]) + vs[|vs| - 1]
  }

  function Do(s: System, step: Step): System
    requires Enabled(s, step)
  {
    var i := step.i;
    var x := s.nodes[i];
    match step
    case Ask(_, req) =>
      var writes := if x.inProgress then s.writes[i] else [];
      s.(nodes := s.nodes[i := HandleRequest(i, Peers(|s.nodes|, i), x, req)],
         snapshots := s.snapshots[i := if x.inProgress then s.snapshots[i] else x.state],
         writes := s.writes[i := if req.WriteReq? then writes + [req.value] else writes],
         totals := s.totals[i := if req.CommitReq? then s.totals[i] + Sum(writes) else s.totals[i]])
    case Deliver(_, k) =>
      var q := s.queues[i];
      s.(nodes := s.nodes[i := ReceiveUpdate(x, q[k])], queues := s.queues[i := q[..k] + q[k + 1..]])
    case Send(_, target) =>
      s.(nodes := s.nodes[i := Sent(x, target)], queues := s.queues[target := s.queues[target] + [x.state]])
  }

  predicate Init(s: System) {
    && WellFormed(s)
    && forall i {:trigger s.nodes[i]} :: 0 <= i < |s.nodes| ==>
         s.nodes[i] == InitNode() && s.queues[i] == [] && s.writes[i] == [] && s.totals[i] == 0
  }

  datatype Run = Run(states: seq<System>, steps: seq<Step>)

  predicate StepAt(r: Run, k: nat)
    requires k < |r.steps| && k + 1 < |r.states|
  {
    Enabled(r.states[k], r.steps[k]) && r.states[k + 1] == Do(r.states[k], r.steps[k])
  }

  predicate IsRun(r: Run) {
    && |r.states| == |r.steps| + 1
    && Init(r.states[0])
    && forall k: nat {:trigger StepAt(r, k)} :: k < |r.steps| ==> StepAt(r, k)
  }

  // ----- snapshots

  function ApplyWrites(self: Id, c: Counter, vs: seq<int>): Counter {
    if vs == [] then c else Write(ApplyWrites(self, c, vs[..|vs| - 1]), self, vs[|vs| - 1])
  }

  predicate SectionOk(i: Id, x: Node, snapshot: Counter, writes: seq<int>) {
    if x.inProgress then x.readState == ApplyWrites(i, snapshot, writes) else x.readState == map[]
  }

  ghost predicate SectionsOk(s: System) {
    && WellFormed(s)
    && forall i: Id {:trigger SectionOk(i, s.nodes[i], s.snapshots[i], s.writes[i])} :: i < |s.nodes| ==>
         SectionOk(i, s.nodes[i], s.snapshots[i], s.writes[i])
  }

  lemma SectionsStep(s: System, step: Step)
    requires SectionsOk(s) && Enabled(s, step)
    ensures SectionsOk(Do(s, step))
  {
    var s' := Do(s, step);
    forall i: Id | i < |s'.nodes| ensures SectionOk(i, s'.nodes[i], s'.snapshots[i], s'.writes[i]) {
      assert SectionOk(i, s.nodes[i], s.snapshots[i], s.writes[i]);
      if step.Ask? && i == step.i && step.req.WriteReq? {
        var writes := if s.nodes[i].inProgress then s.writes[i] else [];
        assert s'.writes[i][..|writes|] == writes;
      }
    }
  }

  lemma {:induction false} RunKeepsSections(r: Run, k: nat)
    requires IsRun(r) && k < |r.states|
    ensures SectionsOk(r.states[k])
  {
    if k > 0 {
      RunKeepsSections(r, k - 1);
      assert StepAt(r, k - 1);
      SectionsStep(r.states[k - 1], r.steps[k - 1]);
    } else {
      forall i: Id | i < |r.states[0].nodes|
        ensures SectionOk(i, r.states[0].nodes[i], r.states[0].snapshots[i], r.states[0].writes[i])
      {
        assert r.states[0].nodes[i] == InitNode();
      }
    }
  }

  // ----- sections, told from the steps alone

  predicate Begins(step: Step, i: Id) {
    step.Ask? && step.i == i && (step.req.ReadReq? || step.req.WriteReq?)
  }

  predicate Ends(step: Step, i: Id) {
    step.Ask? && step.i == i && (step.req.AbortReq? || step.req.CommitReq?)
  }

  /** Since its last abort or commit before state `k` node `i` has been asked to read or write. */
  predicate Open(r: Run, k: nat, i: Id)
    requires k <= |r.steps|
  {
    k > 0 && (Begins(r.steps[k - 1], i) || (!Ends(r.steps[k - 1], i) && Open(r, k - 1, i)))
  }

  /** What it has been asked to write since. */
  function SectionWrites(r: Run, k: nat, i: Id): seq<int>
    requires k <= |r.steps|
  {
    if k == 0 || Ends(r.steps[k - 1], i) then []
    else
      SectionWrites(r, k - 1, i) +
      if Begins(r.steps[k - 1], i) && r.steps[k - 1].req.WriteReq? then [r.steps[k - 1].req.value] else []
  }

  /** Its state at the first request since. */
  function Snapshot(r: Run, k: nat, i: Id): Counter
    requires k <= |r.steps| && k < |r.states| && (forall p :: 0 <= p < |r.states| ==> i < |r.states[p].nodes|)
  {
    if k > 0 && Open(r, k - 1, i) && !Ends(r.steps[k - 1], i) then Snapshot(r, k - 1, i)
    else if k > 0 then r.states[k - 1].nodes[i].state else map[]
  }

  /** The sum of all the sections it has been asked to commit. */
  function CommittedSum(r: Run, k: nat, i: Id): int
    requires k <= |r.steps|
  {
    if k == 0 then 0
    else CommittedSum(r, k - 1, i) + if r.steps[k - 1] == Ask(i, CommitReq) then Sum(SectionWrites(r, k - 1, i)) else 0
  }

  lemma {:induction false} SameNodes(r: Run, k: nat)
    requires IsRun(r) && k < |r.states|
    ensures WellFormed(r.states[k]) && |r.states[k].nodes| == |r.states[0].nodes|
  {
    if k > 0 {
      SameNodes(r, k - 1);
      assert StepAt(r, k - 1);
    }
  }

  /** What a node keeps of its sections is what has been asked of it, and the totals are what it was asked to commit. */
  lemma {:induction false} SectionsAreAsAsked(r: Run, k: nat, i: Id)
    requires IsRun(r) && k < |r.states| && i < |r.states[0].nodes|
    requires forall p :: 0 <= p < |r.states| ==> i < |r.states[p].nodes|
    ensures WellFormed(r.states[k])
    ensures var s := r.states[k];
            && s.nodes[i].inProgress == Open(r, k, i)
            && (Open(r, k, i) ==> s.snapshots[i] == Snapshot(r, k, i) && s.writes[i] == SectionWrites(r, k, i))
            && (!Open(r, k, i) ==> SectionWrites(r, k, i) == [])
            && s.totals[i] == CommittedSum(r, k, i)
  {
    SameNodes(r, k);
    if k == 0 {
      assert r.states[0].nodes[i] == InitNode();
    } else {
      SectionsAreAsAsked(r, k - 1, i);
      assert StepAt(r, k - 1);
      if r.steps[k - 1].i == i {
        SectionAsked(r, k, i);
      }
    }
  }

  lemma SectionAsked(r: Run, k: nat, i: Id)
    requires IsRun(r) && 0 < k < |r.states| && i < |r.states[k - 1].nodes| && StepAt(r, k - 1) && r.steps[k - 1].i == i
    requires forall p :: 0 <= p < |r.states| ==> i < |r.states[p].nodes|
    requires var s := r.states[k - 1];
             && s.nodes[i].inProgress == Open(r, k - 1, i)
             && (Open(r, k - 1, i) ==> s.snapshots[i] == Snapshot(r, k - 1, i) && s.writes[i] == SectionWrites(r, k - 1, i))
             && (!Open(r, k - 1, i) ==> SectionWrites(r, k - 1, i) == [])
             && s.totals[i] == CommittedSum(r, k - 1, i)
    ensures var s := r.states[k];
            && s.nodes[i].inProgress == Open(r, k, i)
            && (Open(r, k, i) ==> s.snapshots[i] == Snapshot(r, k, i) && s.writes[i] == SectionWrites(r, k, i))
            && (!Open(r, k, i) ==> SectionWrites(r, k, i) == [])
            && s.totals[i] == CommittedSum(r, k, i)
  {
  }

  lemma {:induction false} TotalOfWrites(i: Id, c: Counter, vs: seq<int>, n: nat)
    requires i < n
    ensures Total(ApplyWrites(i, c, vs), n) == Total(c, n) + Sum(vs)
    decreases |vs|
  {
    if vs != [] {
      var m := |vs| - 1;
      TotalOfWrites(i, c, vs[..m], n);
      TotalOfWrite(ApplyWrites(i, c, vs[..m]), i, vs[m], n);
    }
  }

  lemma {:induction false} TotalOfWrite(c: Counter, i: Id, v: int, n: nat)
    ensures Total(Write(c, i, v), n) == Total(c, n) + if i < n then v else 0
  {
    if n > 0 {
      TotalOfWrite(c, i, v, n - 1);
    }
  }

  /**
   A read is answered from the state as the section found it, which for the first request after an abort or a commit is
   the current one, and the writes asked for since; not from what is merged meanwhile, nor from sections that aborted.
   The archetype answers the total of the read state.
   */
  lemma ReadsSeeSnapshotAndOwnWrites(r: Run, k: nat, i: Id)
    requires IsRun(r) && k < |r.steps| && r.steps[k] == Ask(i, ReadReq)
    requires forall p :: 0 <= p < |r.states| ==> i < |r.states[p].nodes|
    ensures var n := |r.states[k].nodes|;
            var found := if Open(r, k, i) then Snapshot(r, k, i) else r.states[k].nodes[i].state;
            && Total(r.states[k + 1].nodes[i].readState, n) == Total(found, n) + Sum(SectionWrites(r, k, i))
            && (!Open(r, k, i) ==> Total(r.states[k + 1].nodes[i].readState, n) == Total(r.states[k].nodes[i].state, n))
  {
    SectionsAreAsAsked(r, k, i);
    RunKeepsSections(r, k);
    assert StepAt(r, k);
    var s := r.states[k];
    assert SectionOk(i, s.nodes[i], s.snapshots[i], s.writes[i]);
    if Open(r, k, i) {
      TotalOfWrites(i, Snapshot(r, k, i), SectionWrites(r, k, i), |s.nodes|);
    }
  }

  /** A section that has written nothing, and met no merge, leaves nothing to send when it commits. */
  lemma ReadOnlySectionsSendNothing(r: Run, k: nat, i: Id)
    requires IsRun(r) && k < |r.steps| && r.steps[k] == Ask(i, CommitReq)
    requires forall p :: 0 <= p < |r.states| ==> i < |r.states[p].nodes|
    requires Open(r, k, i) && SectionWrites(r, k, i) == [] && Snapshot(r, k, i) == r.states[k].nodes[i].state
    ensures r.states[k + 1].nodes[i].remaining == r.states[k].nodes[i].remaining
    ensures r.states[k + 1].nodes[i].state == r.states[k].nodes[i].state
  {
    SectionsAreAsAsked(r, k, i);
    RunKeepsSections(r, k);
    assert StepAt(r, k);
    var s := r.states[k];
    assert SectionOk(i, s.nodes[i], s.snapshots[i], s.writes[i]);
    AtMostIsAnOrder(s.nodes[i].state, Merge(s.nodes[i].state, s.nodes[i].state), s.nodes[i].state);
    MergeIsJoin(s.nodes[i].state, s.nodes[i].state, s.nodes[i].state);
  }

  // ----- convergence

  /** No entry is ahead of its owner's. */
  ghost predicate Within(s: System, c: Counter) {
    forall j {:trigger j in c} :: j in c ==> j < |s.nodes| && j in s.nodes[j].state && c[j] <= s.nodes[j].state[j]
  }

  /** A section in progress has added its writes to the node's own entry. */
  predicate OwnOk(i: Id, x: Node, writes: seq<int>) {
    x.inProgress ==> (i in x.state ==> i in x.readState) && Get(x.readState, i) == Get(x.state, i) + Sum(writes)
  }

  ghost predicate NodeOk(s: System, i: Id)
    requires WellFormed(s) && i < |s.nodes|
  {
    var x := s.nodes[i];
    && Within(s, x.state)
    && Within(s, x.readState - {i})
    && x.remaining <= Peers(|s.nodes|, i)
    && (!x.inProgress ==> x.readState == map[])
    && OwnOk(i, x, s.writes[i])
  }

  ghost predicate QueueOk(s: System, m: Id)
    requires WellFormed(s) && m < |s.nodes|
  {
    forall q {:trigger s.queues[m][q]} :: 0 <= q < |s.queues[m]| ==> Within(s, s.queues[m][q])
  }

  /** `c` has node `k`'s current entry. */
  predicate UpToDate(s: System, c: Counter, k: Id)
    requires k < |s.nodes|
  {
    k in s.nodes[k].state ==> k in c && c[k] == s.nodes[k].state[k]
  }

  /** Node `k` will send to `m` again, or `m` has its entry, or that is on its way. */
  ghost predicate Covered(s: System, k: Id, m: Id)
    requires WellFormed(s) && k < |s.nodes| && m < |s.nodes|
  {
    || m in s.nodes[k].remaining
    || UpToDate(s, s.nodes[m].state, k)
    || exists q {:trigger s.queues[m][q]} :: 0 <= q < |s.queues[m]| && UpToDate(s, s.queues[m][q], k)
  }

  ghost predicate Inv(s: System) {
    && WellFormed(s)
    && (forall i: Id {:trigger NodeOk(s, i)} :: i < |s.nodes| ==> NodeOk(s, i))
    && (forall m: Id {:trigger QueueOk(s, m)} :: m < |s.nodes| ==> QueueOk(s, m))
    && (forall k: Id, m: Id {:trigger Covered(s, k, m)} :: k < |s.nodes| && m < |s.nodes| && k != m ==> Covered(s, k, m))
  }

  /** Every node's own entry has grown or stayed. */
  ghost predicate OwnersGrow(s: System, s': System) {
    && |s'.nodes| == |s.nodes|
    && forall j: Id {:trigger s'.nodes[j]} :: j < |s.nodes| && j in s.nodes[j].state ==>
         j in s'.nodes[j].state && s.nodes[j].state[j] <= s'.nodes[j].state[j]
  }

  lemma WithinGrows(s: System, s': System, c: Counter)
    requires OwnersGrow(s, s') && Within(s, c)
    ensures Within(s', c)
  {
    forall j | j in c ensures j < |s'.nodes| && j in s'.nodes[j].state && c[j] <= s'.nodes[j].state[j] {
      assert s'.nodes[j] == s'.nodes[j];
    }
  }

  lemma InitInv(s: System)
    requires Init(s)
    ensures Inv(s)
  {
    forall i: Id | i < |s.nodes| ensures NodeOk(s, i) && QueueOk(s, i) {
      assert s.nodes[i] == InitNode();
    }
    forall k: Id, m: Id | k < |s.nodes| && m < |s.nodes| && k != m ensures Covered(s, k, m) {
      assert s.nodes[k] == InitNode();
    }
  }

  // ----- a request

  lemma SumAppend(vs: seq<int>, v: int)
    ensures Sum(vs + [v]) == Sum(vs) + v
  {
    assert (vs + [v])[..|vs|] == vs;
  }

  lemma BeginOwn(i: Id, x: Node, writes: seq<int>)
    requires OwnOk(i, x, writes)
    ensures OwnOk(i, Begin(x), if x.inProgress then writes else [])
  {
  }

  lemma WriteOwn(i: Id, x: Node, writes: seq<int>, v: int)
    requires OwnOk(i, x, writes)
    ensures OwnOk(i, x.(readState := Write(x.readState, i, v)), writes + [v])
  {
    SumAppend(writes, v);
  }

  lemma CommitOwn(i: Id, peers: set<Id>, x: Node)
    ensures var x' := HandleRequest(i, peers, x, CommitReq);
            && (i in x.state ==> i in x'.state && x.state[i] <= x'.state[i])
            && (i in x'.state ==> (i in x.state && x.state[i] == x'.state[i]) || x'.remaining == peers)
  {
  }

  lemma AskOwn(s: System, i: Id, req: Request)
    requires WellFormed(s) && i < |s.nodes| && NodeOk(s, i)
    requires Enabled(s, Ask(i, req))
    ensures var s' := Do(s, Ask(i, req)); var x, x' := s.nodes[i], s'.nodes[i];
            && OwnOk(i, x', s'.writes[i])
            && (!x'.inProgress ==> x'.readState == map[])
            && x.remaining <= x'.remaining <= Peers(|s.nodes|, i)
            && (i in x.state ==> i in x'.state && x.state[i] <= x'.state[i])
            && (i in x'.state ==> (i in x.state && x.state[i] == x'.state[i]) || x'.remaining == Peers(|s.nodes|, i))
  {
    hide Merge, Within, Write;
    var x := s.nodes[i];
    BeginOwn(i, x, s.writes[i]);
    match req
    case WriteReq(v) =>
      WriteOwn(i, Begin(x), if x.inProgress then s.writes[i] else [], v);
    case CommitReq =>
      CommitOwn(i, Peers(|s.nodes|, i), x);
    case _ =>
  }

  lemma AskWithin(s: System, s': System, i: Id, req: Request)
    requires WellFormed(s) && i < |s.nodes| && NodeOk(s, i) && OwnersGrow(s, s')
    requires s'.nodes[i] == HandleRequest(i, Peers(|s.nodes|, i), s.nodes[i], req)
    ensures Within(s', s'.nodes[i].state) && Within(s', s'.nodes[i].readState - {i})
  {
    var x, x' := s.nodes[i], s'.nodes[i];
    WithinGrows(s, s', x.state);
    WithinGrows(s, s', x.readState - {i});
    forall j | j in x'.state ensures j < |s'.nodes| && j in s'.nodes[j].state && x'.state[j] <= s'.nodes[j].state[j] {
      assert j == i || j in x.state || j in x.readState - {i};
      assert j != i && j in x.readState ==> j in x.readState - {i};
    }
    forall j | j in x'.readState - {i}
      ensures j < |s'.nodes| && j in s'.nodes[j].state && (x'.readState - {i})[j] <= s'.nodes[j].state[j]
    {
      assert j in x.state || j in x.readState - {i};
      assert j in x.readState ==> j in x.readState - {i};
    }
  }

  lemma AskNode(s: System, i: Id, req: Request)
    requires Inv(s) && Enabled(s, Ask(i, req))
    ensures var s' := Do(s, Ask(i, req));
            && OwnersGrow(s, s')
            && NodeOk(s', i)
            && (i in s'.nodes[i].state ==>
                  (i in s.nodes[i].state && s.nodes[i].state[i] == s'.nodes[i].state[i])
                  || s'.nodes[i].remaining == Peers(|s.nodes|, i))
            && s.nodes[i].remaining <= s'.nodes[i].remaining
  {
    var s' := Do(s, Ask(i, req));
    assert NodeOk(s, i);
    AskOwn(s, i, req);
    assert OwnersGrow(s, s');
    AskWithin(s, s', i, req);
  }

  lemma AskKeepsEntry(s: System, i: Id, req: Request, k: Id)
    requires Inv(s) && Enabled(s, Ask(i, req)) && k < |s.nodes| && k != i && k in s.nodes[k].state
    requires UpToDate(s, s.nodes[i].state, k)
    ensures var c := Do(s, Ask(i, req)).nodes[i].state; k in c && c[k] == s.nodes[k].state[k]
  {
    assert NodeOk(s, i);
    var x := s.nodes[i];
    assert k in x.readState ==> k in x.readState - {i};
  }

  lemma AskKeepsInv(s: System, i: Id, req: Request)
    requires Inv(s) && Enabled(s, Ask(i, req))
    ensures Inv(Do(s, Ask(i, req)))
  {
    var s' := Do(s, Ask(i, req));
    AskNode(s, i, req);
    NodesAndQueuesKept(s, s', i);
    forall k: Id, m: Id | k < |s.nodes| && m < |s.nodes| && k != m ensures Covered(s', k, m) {
      assert Covered(s, k, m) && NodeOk(s, m) && NodeOk(s', i);
      if m !in s'.nodes[k].remaining && k in s.nodes[k].state {
        if UpToDate(s, s.nodes[m].state, k) {
          if m == i {
            AskKeepsEntry(s, i, req, k);
          }
          assert UpToDate(s', s'.nodes[m].state, k);
        } else {
          var q :| 0 <= q < |s.queues[m]| && UpToDate(s, s.queues[m][q], k);
          assert UpToDate(s', s'.queues[m][q], k);
        }
      }
    }
  }

  /** The nodes and queues a step of node `i` leaves alone stay good. */
  lemma NodesAndQueuesKept(s: System, s': System, i: Id)
    requires Inv(s) && WellFormed(s') && OwnersGrow(s, s') && i < |s.nodes|
    requires forall j: Id {:trigger s'.nodes[j]} :: j < |s.nodes| && j != i ==>
               s'.nodes[j] == s.nodes[j] && s'.writes[j] == s.writes[j]
    ensures forall j: Id {:trigger NodeOk(s', j)} :: j < |s.nodes| && j != i ==> NodeOk(s', j)
    ensures forall m: Id {:trigger QueueOk(s', m)} :: m < |s.nodes| && s'.queues[m] == s.queues[m] ==> QueueOk(s', m)
  {
    forall j: Id | j < |s.nodes| && j != i ensures NodeOk(s', j) {
      assert NodeOk(s, j) && s'.nodes[j] == s.nodes[j];
      WithinGrows(s, s', s.nodes[j].state);
      WithinGrows(s, s', s.nodes[j].readState - {j});
    }
    forall m: Id | m < |s.nodes| && s'.queues[m] == s.queues[m] ensures QueueOk(s', m) {
      assert QueueOk(s, m);
      forall q | 0 <= q < |s'.queues[m]| ensures Within(s', s'.queues[m][q]) {
        WithinGrows(s, s', s.queues[m][q]);
      }
    }
  }

  // ----- a delivery

  lemma DeliverOwners(s: System, i: Id, at: nat)
    requires Inv(s) && Enabled(s, Deliver(i, at))
    ensures var s' := Do(s, Deliver(i, at));
            && Get(s'.nodes[i].state, i) == Get(s.nodes[i].state, i)
            && (i in s'.nodes[i].state <==> i in s.nodes[i].state)
            && OwnersGrow(s, s')
  {
    assert QueueOk(s, i);
    assert Within(s, s.queues[i][at]);
  }

  lemma DeliverNode(s: System, i: Id, at: nat)
    requires Inv(s) && Enabled(s, Deliver(i, at))
    ensures var s' := Do(s, Deliver(i, at)); NodeOk(s', i) && QueueOk(s', i)
  {
    hide Inv, Covered, OwnersGrow;
    var s' := Do(s, Deliver(i, at));
    var x, c := s.nodes[i], s.queues[i][at];
    DeliverOwners(s, i, at);
    NodeAndQueueOf(s, i);
    WithinGrows(s, s', x.state);
    WithinGrows(s, s', x.readState - {i});
    WithinGrows(s, s', c);
    assert Within(s', s'.nodes[i].state);
    forall q | 0 <= q < |s'.queues[i]| ensures Within(s', s'.queues[i][q]) {
      assert s'.queues[i][q] == s.queues[i][if q < at then q else q + 1];
      WithinGrows(s, s', s'.queues[i][q]);
    }
  }

  lemma NodeAndQueueOf(s: System, i: Id)
    requires Inv(s) && i < |s.nodes|
    ensures NodeOk(s, i) && QueueOk(s, i)
  {
  }

  lemma DeliverKeepsInv(s: System, i: Id, at: nat)
    requires Inv(s) && Enabled(s, Deliver(i, at))
    ensures Inv(Do(s, Deliver(i, at)))
  {
    hide Covered, NodeOk, QueueOk, Within;
    var s' := Do(s, Deliver(i, at));
    DeliverOwners(s, i, at);
    DeliverNode(s, i, at);
    NodesAndQueuesKept(s, s', i);
    forall k: Id, m: Id | k < |s.nodes| && m < |s.nodes| && k != m ensures Covered(s', k, m) {
      DeliverCovers(s, i, at, k, m);
    }
  }

  lemma DeliverCovers(s: System, i: Id, at: nat, k: Id, m: Id)
    requires Inv(s) && Enabled(s, Deliver(i, at)) && k < |s.nodes| && m < |s.nodes| && k != m
    requires var s' := Do(s, Deliver(i, at));
             Get(s'.nodes[i].state, i) == Get(s.nodes[i].state, i) && (i in s'.nodes[i].state <==> i in s.nodes[i].state)
    ensures Covered(Do(s, Deliver(i, at)), k, m)
  {
    var s' := Do(s, Deliver(i, at));
    assert Covered(s, k, m) && NodeOk(s, m) && QueueOk(s, i);
    if m !in s.nodes[k].remaining && k in s.nodes[k].state {
      if UpToDate(s, s.nodes[m].state, k) {
        assert Within(s, s.queues[i][at]);
        assert UpToDate(s', s'.nodes[m].state, k);
      } else {
        var q :| 0 <= q < |s.queues[m]| && UpToDate(s, s.queues[m][q], k);
        if m == i && q == at {
          assert UpToDate(s', s'.nodes[m].state, k);
        } else if m == i {
          var q' := if q < at then q else q - 1;
          assert s'.queues[m][q'] == s.queues[m][q];
          assert UpToDate(s', s'.queues[m][q'], k);
        } else {
          assert UpToDate(s', s'.queues[m][q], k);
        }
      }
    }
  }

  // ----- a send

  lemma SendKeepsInv(s: System, i: Id, target: Id)
    requires Inv(s) && Enabled(s, Send(i, target))
    ensures Inv(Do(s, Send(i, target)))
  {
    var s' := Do(s, Send(i, target));
    assert NodeOk(s, i) && QueueOk(s, target);
    assert OwnersGrow(s, s');
    NodesAndQueuesKept(s, s', i);
    WithinGrows(s, s', s.nodes[i].state);
    WithinGrows(s, s', s.nodes[i].readState - {i});
    assert QueueOk(s', target) by {
      forall q | 0 <= q < |s'.queues[target]| ensures Within(s', s'.queues[target][q]) {
        WithinGrows(s, s', s'.queues[target][q]);
      }
    }
    forall k: Id, m: Id | k < |s.nodes| && m < |s.nodes| && k != m ensures Covered(s', k, m) {
      assert Covered(s, k, m);
      if k == i && m == target {
        assert UpToDate(s', s'.queues[m][|s.queues[m]|], k);
      } else if m !in s'.nodes[k].remaining {
        if UpToDate(s, s.nodes[m].state, k) {
          assert UpToDate(s', s'.nodes[m].state, k);
        } else {
          var q :| 0 <= q < |s.queues[m]| && UpToDate(s, s.queues[m][q], k);
          assert UpToDate(s', s'.queues[m][q], k);
        }
      }
    }
  }

  lemma StepKeepsInv(s: System, step: Step)
    requires Inv(s) && Enabled(s, step)
    ensures Inv(Do(s, step))
  {
    match step
    case Ask(i, req) => AskKeepsInv(s, i, req);
    case Deliver(i, k) => DeliverKeepsInv(s, i, k);
    case Send(i, target) => SendKeepsInv(s, i, target);
  }

  lemma {:induction false} RunKeepsInv(r: Run, k: nat)
    requires IsRun(r) && k < |r.states|
    ensures Inv(r.states[k])
  {
    if k == 0 {
      InitInv(r.states[0]);
    } else {
      RunKeepsInv(r, k - 1);
      assert StepAt(r, k - 1);
      StepKeepsInv(r.states[k - 1], r.steps[k - 1]);
    }
  }

  // ----- the claims

  /** Nobody has anything left to send, and nothing is on its way. */
  predicate Quiescent(s: System)
    requires WellFormed(s)
  {
    forall i {:trigger s.nodes[i]} :: 0 <= i < |s.nodes| ==> s.nodes[i].remaining == {} && s.queues[i] == []
  }

  lemma EntriesAreOwners(s: System, a: Id)
    requires Inv(s) && Quiescent(s) && a < |s.nodes|
    ensures forall j: Id {:trigger j in s.nodes[a].state} ::
              (j in s.nodes[a].state <==> j < |s.nodes| && j in s.nodes[j].state)
              && (j in s.nodes[a].state ==> s.nodes[a].state[j] == s.nodes[j].state[j])
  {
    assert NodeOk(s, a);
    forall j: Id
      ensures (j in s.nodes[a].state <==> j < |s.nodes| && j in s.nodes[j].state)
              && (j in s.nodes[a].state ==> s.nodes[a].state[j] == s.nodes[j].state[j])
    {
      if j < |s.nodes| && j != a {
        assert Covered(s, j, a);
        assert s.nodes[j].remaining == {} && s.queues[a] == [] by {
          assert s.nodes[j] == s.nodes[j] && s.nodes[a] == s.nodes[a];
        }
        assert UpToDate(s, s.nodes[a].state, j);
      }
    }
  }

  lemma SameState(s: System, a: Id, b: Id)
    requires Inv(s) && Quiescent(s) && a < |s.nodes| && b < |s.nodes|
    ensures s.nodes[a].state == s.nodes[b].state
  {
    hide Inv, Quiescent;
    EntriesAreOwners(s, a);
    EntriesAreOwners(s, b);
    var x, y := s.nodes[a].state, s.nodes[b].state;
    assert AtMost(x, y) && AtMost(y, x);
    AtMostIsAnOrder(x, y, x);
  }

  /** The step commits a section that, all in all, lowers the node's entry: merging the two loses it. */
  predicate Loses(s: System, step: Step)
    requires Enabled(s, step)
  {
    && step.Ask? && step.req.CommitReq?
    && s.nodes[step.i].inProgress && step.i in s.nodes[step.i].state && Sum(s.writes[step.i]) < 0
  }

  /** Node `i` has lost no section before state `k`. */
  ghost predicate LossFree(r: Run, k: nat, i: Id)
    requires IsRun(r) && k < |r.states|
  {
    forall p: nat {:trigger StepAt(r, p)} :: p < k && StepAt(r, p) && r.steps[p].i == i ==> !Loses(r.states[p], r.steps[p])
  }

  /** A committed section is counted exactly if its writes do not lower an entry that exists already; else nothing of it is. */
  lemma CommitCounts(r: Run, k: nat, i: Id)
    requires IsRun(r) && k < |r.steps| && Enabled(r.states[k], r.steps[k])
    requires r.steps[k] == Ask(i, CommitReq) && r.states[k].nodes[i].inProgress && i < |r.states[k + 1].nodes|
    ensures var own, own' := Get(r.states[k].nodes[i].state, i), Get(r.states[k + 1].nodes[i].state, i);
            && (own' == own + Sum(r.states[k].writes[i]) <==> !Loses(r.states[k], r.steps[k]))
            && (Loses(r.states[k], r.steps[k]) ==> own' == own)
  {
    RunKeepsInv(r, k);
    assert StepAt(r, k) && NodeOk(r.states[k], i);
  }

  /** Nobody else's step, and no delivery, moves a node's own entry. */
  lemma OwnEntryStays(s: System, step: Step, i: Id)
    requires Inv(s) && Enabled(s, step) && i < |s.nodes| && !(step.i == i && step.Ask? && step.req.CommitReq?)
    ensures var s' := Do(s, step);
            Get(s'.nodes[i].state, i) == Get(s.nodes[i].state, i) && s'.totals[i] == s.totals[i]
  {
    if step.Deliver? && step.i == i {
      assert QueueOk(s, i);
      assert Within(s, s.queues[i][step.k]);
    }
  }

  /** A node's own entry is never less than what it has committed in all, and is exactly that if it has lost nothing. */
  lemma {:induction false} OwnEntryCounts(r: Run, k: nat, i: Id)
    requires IsRun(r) && k < |r.states| && i < |r.states[k].nodes| && WellFormed(r.states[k])
    ensures Get(r.states[k].nodes[i].state, i) >= r.states[k].totals[i]
    ensures Get(r.states[k].nodes[i].state, i) == r.states[k].totals[i] <==> LossFree(r, k, i)
  {
    if k == 0 {
      assert r.states[0].nodes[i] == InitNode();
    } else {
      assert StepAt(r, k - 1);
      var s, step := r.states[k - 1], r.steps[k - 1];
      OwnEntryCounts(r, k - 1, i);
      RunKeepsInv(r, k - 1);
      if step == Ask(i, CommitReq) {
        assert NodeOk(s, i);
        if s.nodes[i].inProgress {
          CommitCounts(r, k - 1, i);
        }
      } else {
        OwnEntryStays(s, step, i);
      }
      LossFreeMore(r, k, i);
    }
  }

  lemma LossFreeMore(r: Run, k: nat, i: Id)
    requires IsRun(r) && 0 < k < |r.states| && StepAt(r, k - 1)
    ensures LossFree(r, k, i) <==>
            LossFree(r, k - 1, i) && !(r.steps[k - 1].i == i && Loses(r.states[k - 1], r.steps[k - 1]))
  {
  }

  /**
   Convergence: once everything is delivered all nodes hold the same state, whatever has been written. It reads as the
   sum of all committed writes exactly if no commit has lost a section, and otherwise as more.
   */
  lemma Converges(r: Run, k: nat, a: Id, b: Id)
    requires IsRun(r) && k < |r.states|
    requires WellFormed(r.states[k]) && Quiescent(r.states[k])
    requires a < |r.states[k].nodes| && b < |r.states[k].nodes|
    ensures r.states[k].nodes[a].state == r.states[k].nodes[b].state
    ensures var s := r.states[k];
            var view := Total(s.nodes[a].state, |s.nodes|);
            && view >= SumFirst(s.totals, |s.totals|)
            && (view == SumFirst(s.totals, |s.totals|) <==>
                  forall i: Id {:trigger LossFree(r, k, i)} :: i < |s.nodes| ==> LossFree(r, k, i))
  {
    hide Inv, Quiescent, Total, SumFirst, LossFree, StepAt, Do;
    RunKeepsInv(r, k);
    var s := r.states[k];
    SameState(s, a, b);
    EntriesAreOwners(s, a);
    var c := s.nodes[a].state;
    forall i: Id | i < |s.nodes|
      ensures Get(c, i) >= s.totals[i] && (Get(c, i) == s.totals[i] <==> LossFree(r, k, i))
    {
      assert Get(c, i) == Get(s.nodes[i].state, i);
      OwnEntryCounts(r, k, i);
    }
    TotalAtLeast(c, s.totals, |s.nodes|);
    ExactlyIfAll(r, k, c);
  }

  lemma ExactlyIfAll(r: Run, k: nat, c: Counter)
    requires IsRun(r) && k < |r.states| && WellFormed(r.states[k])
    requires forall i: Id {:trigger LossFree(r, k, i)} {:trigger Get(c, i)} :: i < |r.states[k].nodes| ==>
               (Get(c, i) == r.states[k].totals[i] <==> LossFree(r, k, i))
    ensures (forall i: Id {:trigger Get(c, i)} :: i < |r.states[k].nodes| ==> Get(c, i) == r.states[k].totals[i]) <==>
            (forall i: Id {:trigger LossFree(r, k, i)} :: i < |r.states[k].nodes| ==> LossFree(r, k, i))
  {
  }

  /**
   At any time no node's entry for another is ahead of that one's own, nor, unless that one has lost a section, of what
   it has committed.
   */
  lemma NoOvercount(r: Run, k: nat, a: Id, j: Id)
    requires IsRun(r) && k < |r.states|
    requires a < |r.states[k].nodes| && WellFormed(r.states[k]) && j in r.states[k].nodes[a].state
    ensures j < |r.states[k].nodes| && j in r.states[k].nodes[j].state
    ensures r.states[k].nodes[a].state[j] <= r.states[k].nodes[j].state[j]
    ensures LossFree(r, k, j) ==> r.states[k].nodes[a].state[j] <= r.states[k].totals[j]
  {
    RunKeepsInv(r, k);
    assert NodeOk(r.states[k], a);
    OwnEntryCounts(r, k, j);
  }

  /** No entry of a node's committed state ever falls, whatever is written, merged or aborted. */
  lemma {:induction false} EntriesNeverFall(r: Run, p: nat, q: nat, a: Id)
    requires IsRun(r) && p <= q < |r.states| && a < |r.states[p].nodes|
    ensures a < |r.states[q].nodes| && AtMost(r.states[p].nodes[a].state, r.states[q].nodes[a].state)
    decreases q
  {
    if p < q {
      EntriesNeverFall(r, p, q - 1, a);
      assert StepAt(r, q - 1);
    }
  }

  /** Add 2, commit, add -1, commit: the counter stays at 2, not 1. */
  lemma NegativeWriteIsLost()
    ensures var x1 := HandleRequest(0, {}, InitNode(), WriteReq(2));
            var x2 := HandleRequest(0, {}, x1, CommitReq);
            var x3 := HandleRequest(0, {}, x2, WriteReq(-1));
            Total(HandleRequest(0, {}, x3, CommitReq).state, 1) == 2
  {
    var x1 := HandleRequest(0, {}, InitNode(), WriteReq(2));
    var x2 := HandleRequest(0, {}, x1, CommitReq);
    var x3 := HandleRequest(0, {}, x2, WriteReq(-1));
    var x4 := HandleRequest(0, {}, x3, CommitReq);
    assert x2.state == map[0 := 2] && x3.readState == map[0 := 1];
    assert x4.state == map[0 := 2];
    assert Total(x4.state, 1) == Total(x4.state, 0) + Get(x4.state, 0);
  }
}
