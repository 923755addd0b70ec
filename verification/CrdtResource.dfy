/**
 The crdt resource holding a grow-only counter: sections write and commit or abort while other replicas' values
 arrive, wait in a channel and are merged in the background, also in the middle of a section.
 */
module CrdtResource {
  import opened GCounter

  datatype Replica = Replica(value: Counter, oldValue: Counter, hasOldValue: bool, mergeValues: seq<Counter>)

  function Stable(x: Replica): Counter {
    if x.hasOldValue then x.oldValue else x.value
  }

  function Written(x: Replica, id: Id, v: int): Replica {
    x.(oldValue := if x.hasOldValue then x.oldValue else x.value, hasOldValue := true, value := Write(x.value, id, v))
  }

  function Committed(x: Replica): Replica {
    x.(hasOldValue := false)
  }

  function Aborted(x: Replica): Replica {
    x.(value := Stable(x), hasOldValue := false)
  }

  function Received(x: Replica, c: Counter): Replica {
    x.(mergeValues := x.mergeValues + [c])
  }

  function MergedOne(x: Replica): Replica
    requires x.mergeValues != []
  {
    x.(value := Merge(x.value, x.mergeValues[0]), mergeValues := x.mergeValues[1..])
  }

  class Crdt {
    const id: Id
    var value: Counter
    var oldValue: Counter
    var hasOldValue: bool
    var mergeValues: seq<Counter>

    ghost function Contents(): Replica
      reads this
    {
      Replica(value, oldValue, hasOldValue, mergeValues)
    }

    constructor (self: Id)
      ensures id == self && Contents() == InitReplica()
    {
      id := self;
      value, oldValue, hasOldValue, mergeValues := map[], map[], false, [];
    }

    method ReadValue(n: nat) returns (v: int)
      requires forall i :: i in value ==> i < n
      ensures v == Total(value, n)
    {
      v := SumEntries(value, n);
    }

    method WriteValue(v: int)
      modifies this
      ensures Contents() == Written(old(Contents()), id, v)
      ensures Stable(Contents()) == Stable(old(Contents()))
    {
      if !hasOldValue {
        oldValue := value;
        hasOldValue := true;
      }
      value := Write(value, id, v);
    }

    method Commit()
      modifies this
      ensures Contents() == Committed(old(Contents()))
    {
      hasOldValue := false;
    }

    method Abort()
      modifies this
      ensures Contents() == Aborted(old(Contents()))
      ensures Stable(Contents()) == Stable(old(Contents()))
    {
      if hasOldValue {
        value := oldValue;
        hasOldValue := false;
      }
    }

    method GetStableValue() returns (c: Counter)
      ensures c == Stable(Contents())
    {
      if hasOldValue {
        return oldValue;
      }
      return value;
    }

    /** A peer's value comes in, and its reply is the stable value. */
    method ReceiveValue(c: Counter) returns (reply: Counter)
      modifies this
      ensures Contents() == Received(old(Contents()), c) && reply == Stable(old(Contents()))
    {
      mergeValues := mergeValues + [c];
      reply := GetStableValue();
    }

    /** One round of the background merger. */
    method Merger()
      requires mergeValues != []
      modifies this
      ensures Contents() == MergedOne(old(Contents()))
    {
      var mergeVal := mergeValues[0];
      mergeValues := mergeValues[1..];
      value := MergeEntries(value, mergeVal);
    }
  }

  // ----- all replicas

  function InitReplica(): Replica {
    Replica(map[], map[], false, [])
  }

  /**
   `net` holds the values on their way, with their destination. `pending` is what the running section of a replica
   has added, `totals` what its committed sections have.
   */
  datatype System = System(replicas: seq<Replica>, net: seq<(Id, Counter)>, pending: seq<int>, totals: seq<int>)

  datatype Step =
    | WriteStep(i: Id, v: int)
    | CommitStep(i: Id)
    | AbortStep(i: Id)
    | SendStep(i: Id, dst: Id)              // a broadcast, or the reply to one
    | ArriveStep(k: nat)
    | LoseStep(k: nat)
    | MergeStep(i: Id)

  predicate WellFormed(s: System) {
    |s.pending| == |s.totals| == |s.replicas|
  }

  predicate Enabled(s: System, step: Step) {
    && WellFormed(s)
    && match step
       case WriteStep(i, _) => i < |s.replicas|
       case CommitStep(i) => i < |s.replicas|
       case AbortStep(i) => i < |s.replicas|
       case SendStep(i, dst) => i < |s.replicas| && dst < |s.replicas|
       case ArriveStep(k) => k < |s.net| && s.net[k].0 < |s.replicas|
       case LoseStep(k) => k < |s.net|
       case MergeStep(i) => i < |s.replicas| && s.replicas[i].mergeValues != []
  }

  function Do(s: System, step: Step): System
    requires Enabled(s, step)
  {
    match step
    case WriteStep(i, v) =>
      s.(replicas := s.replicas[i := Written(s.replicas[i], i, v)], pending := s.pending[i := s.pending[i] + v])
    case CommitStep(i) =>
      s.(replicas := s.replicas[i := Committed(s.replicas[i])], pending := s.pending[i := 0],
         totals := s.totals[i := s.totals[i] + s.pending[i]])
    case AbortStep(i) => s.(replicas := s.replicas[i := Aborted(s.replicas[i])], pending := s.pending[i := 0])
    case SendStep(i, dst) => s.(net := s.net + [(dst, Stable(s.replicas[i]))])
    case ArriveStep(k) =>
      var (dst, c) := s.net[k];
      s.(replicas := s.replicas[dst := Received(s.replicas[dst], c)], net := s.net[..k] + s.net[k + 1..])
    case LoseStep(k) => s.(net := s.net[..k] + s.net[k + 1..])
    case MergeStep(i) => s.(replicas := s.replicas[i := MergedOne(s.replicas[i])])
  }

  predicate Init(s: System) {
    && WellFormed(s) && s.net == []
    && forall i {:trigger s.replicas[i]} :: 0 <= i < |s.replicas| ==>
         s.replicas[i] == InitReplica() && s.pending[i] == 0 && s.totals[i] == 0
  }

  datatype Run = Run(states: seq<System>, steps: seq<Step>)

  predicate NonNegative(step: Step) {
    step.WriteStep? ==> step.v >= 0
  }

  predicate StepAt(r: Run, k: nat)
    requires k < |r.steps| && k + 1 < |r.states|
  {
    && Enabled(r.states[k], r.steps[k]) && NonNegative(r.steps[k])
    && r.states[k + 1] == Do(r.states[k], r.steps[k])
  }

  /** Executions in which sections only add. */
  predicate IsRun(r: Run) {
    && |r.states| == |r.steps| + 1
    && Init(r.states[0])
    && forall k: nat {:trigger StepAt(r, k)} :: k < |r.steps| ==> StepAt(r, k)
  }

  // ----- the invariant

  /** No entry exceeds what its replica has committed. */
  ghost predicate Within(totals: seq<int>, c: Counter) {
    forall j {:trigger j in c} :: j in c ==> j < |totals| && 0 <= c[j] <= totals[j]
  }

  ghost predicate QueueOk(totals: seq<int>, q: seq<Counter>) {
    forall k {:trigger q[k]} :: 0 <= k < |q| ==> Within(totals, q[k])
  }

  ghost predicate ReplicaOk(totals: seq<int>, i: Id, x: Replica, pending: int)
    requires i < |totals|
  {
    && Within(totals, Stable(x))
    && Get(Stable(x), i) == totals[i]
    && Within(totals, x.value - {i})
    && Get(x.value, i) == totals[i] + pending
    && AtMost(Stable(x), x.value)
    && pending >= 0 && totals[i] >= 0 && (!x.hasOldValue ==> pending == 0)
    && QueueOk(totals, x.mergeValues)
  }

  ghost predicate NetOk(totals: seq<int>, net: seq<(Id, Counter)>) {
    forall k {:trigger net[k]} :: 0 <= k < |net| ==> Within(totals, net[k].1)
  }

  ghost predicate Inv(s: System) {
    && WellFormed(s)
    && (forall i: Id {:trigger ReplicaOk(s.totals, i, s.replicas[i], s.pending[i])} :: i < |s.replicas| ==>
          ReplicaOk(s.totals, i, s.replicas[i], s.pending[i]))
    && NetOk(s.totals, s.net)
  }

  predicate TotalsGrow(totals: seq<int>, totals': seq<int>) {
    |totals'| == |totals| && forall j :: 0 <= j < |totals| ==> totals[j] <= totals'[j]
  }

  lemma WithinGrows(totals: seq<int>, totals': seq<int>, c: Counter)
    requires TotalsGrow(totals, totals') && Within(totals, c)
    ensures Within(totals', c)
  {
  }

  lemma OtherReplica(totals: seq<int>, totals': seq<int>, i: Id, x: Replica, pending: int)
    requires TotalsGrow(totals, totals') && i < |totals| && totals'[i] == totals[i] && ReplicaOk(totals, i, x, pending)
    ensures ReplicaOk(totals', i, x, pending)
  {
    WithinGrows(totals, totals', Stable(x));
    WithinGrows(totals, totals', x.value - {i});
    forall k | 0 <= k < |x.mergeValues| ensures Within(totals', x.mergeValues[k]) {
      WithinGrows(totals, totals', x.mergeValues[k]);
    }
  }

  lemma CommitOk(totals: seq<int>, i: Id, x: Replica, pending: int)
    requires i < |totals| && ReplicaOk(totals, i, x, pending)
    ensures ReplicaOk(totals[i := totals[i] + pending], i, Committed(x), 0)
  {
    var totals' := totals[i := totals[i] + pending];
    WithinGrows(totals, totals', x.value - {i});
    forall j | j in x.value ensures j < |totals'| && 0 <= x.value[j] <= totals'[j] {
      assert j != i ==> j in x.value - {i};
    }
    forall k | 0 <= k < |x.mergeValues| ensures Within(totals', x.mergeValues[k]) {
      WithinGrows(totals, totals', x.mergeValues[k]);
    }
  }

  /** Merging leaves a replica's own entry alone: nobody knows more of it than it has committed. */
  lemma MergeOk(totals: seq<int>, i: Id, x: Replica, pending: int)
    requires i < |totals| && ReplicaOk(totals, i, x, pending) && x.mergeValues != []
    ensures ReplicaOk(totals, i, MergedOne(x), pending)
    ensures AtMost(Stable(x), Stable(MergedOne(x)))
  {
    var m, x' := x.mergeValues[0], MergedOne(x);
    assert Within(totals, m);
    forall j | j in x'.value && j != i ensures j < |totals| && 0 <= x'.value[j] <= totals[j] {
      assert j in x.value ==> j in x.value - {i};
    }
    forall k | 0 <= k < |x'.mergeValues| ensures Within(totals, x'.mergeValues[k]) {
      assert x'.mergeValues[k] == x.mergeValues[k + 1];
    }
  }

  lemma WriteOk(totals: seq<int>, i: Id, x: Replica, pending: int, v: int)
    requires i < |totals| && ReplicaOk(totals, i, x, pending) && v >= 0
    ensures ReplicaOk(totals, i, Written(x, i, v), pending + v)
  {
    assert Written(x, i, v).value - {i} == x.value - {i};
  }

  lemma AbortOk(totals: seq<int>, i: Id, x: Replica, pending: int)
    requires i < |totals| && ReplicaOk(totals, i, x, pending)
    ensures ReplicaOk(totals, i, Aborted(x), 0)
  {
  }

  ghost predicate StableGrows(s: System, s': System) {
    |s'.replicas| == |s.replicas|
    && forall i: Id {:trigger s'.replicas[i]} :: i < |s.replicas| ==> AtMost(Stable(s.replicas[i]), Stable(s'.replicas[i]))
  }

  lemma StepKeepsInv(s: System, step: Step)
    requires Inv(s) && Enabled(s, step) && NonNegative(step)
    ensures Inv(Do(s, step)) && StableGrows(s, Do(s, step))
  {
    var s' := Do(s, step);
    forall i: Id | i < |s.replicas|
      ensures ReplicaOk(s'.totals, i, s'.replicas[i], s'.pending[i])
      ensures AtMost(Stable(s.replicas[i]), Stable(s'.replicas[i]))
    {
      ReplicaStep(s, step, i);
    }
    NetStep(s, step);
  }

  lemma ReplicaStep(s: System, step: Step, i: Id)
    requires Inv(s) && Enabled(s, step) && NonNegative(step) && i < |s.replicas|
    ensures var s' := Do(s, step);
            && ReplicaOk(s'.totals, i, s'.replicas[i], s'.pending[i])
            && AtMost(Stable(s.replicas[i]), Stable(s'.replicas[i]))
  {
    var x, pending := s.replicas[i], s.pending[i];
    assert ReplicaOk(s.totals, i, x, pending);
    match step
    case WriteStep(j, v) => if j == i { WriteOk(s.totals, i, x, pending, v); }
    case CommitStep(j) =>
      assert ReplicaOk(s.totals, j, s.replicas[j], s.pending[j]);
      if j == i {
        CommitOk(s.totals, i, x, pending);
      } else {
        OtherReplica(s.totals, Do(s, step).totals, i, x, pending);
      }
    case AbortStep(j) => if j == i { AbortOk(s.totals, i, x, pending); }
    case MergeStep(j) => if j == i { MergeOk(s.totals, i, x, pending); }
    case ArriveStep(k) => assert Within(s.totals, s.net[k].1);
    case _ =>
  }

  lemma NetStep(s: System, step: Step)
    requires Inv(s) && Enabled(s, step) && NonNegative(step)
    ensures NetOk(Do(s, step).totals, Do(s, step).net)
  {
    var s' := Do(s, step);
    if step.CommitStep? {
      assert ReplicaOk(s.totals, step.i, s.replicas[step.i], s.pending[step.i]);
    }
    if step.SendStep? {
      assert ReplicaOk(s.totals, step.i, s.replicas[step.i], s.pending[step.i]);
    }
    forall k | 0 <= k < |s'.net| ensures Within(s'.totals, s'.net[k].1) {
      var was := if (step.ArriveStep? || step.LoseStep?) && k >= step.k then k + 1 else k;
      if was < |s.net| {
        assert s'.net[k] == s.net[was];
        WithinGrows(s.totals, s'.totals, s.net[was].1);
      }
    }
  }

  lemma {:induction false} RunKeepsInv(r: Run, k: nat)
    requires IsRun(r) && k < |r.states|
    ensures Inv(r.states[k])
  {
    if k > 0 {
      RunKeepsInv(r, k - 1);
      assert StepAt(r, k - 1);
      StepKeepsInv(r.states[k - 1], r.steps[k - 1]);
    } else {
      forall i: Id | i < |r.states[0].replicas|
        ensures ReplicaOk(r.states[0].totals, i, r.states[0].replicas[i], r.states[0].pending[i])
      {
        assert r.states[0].replicas[i] == InitReplica();
      }
    }
  }

  // ----- the claims

  /** A replica's stable value, the only one it shows to others, only grows, whatever commits, aborts and merges happen. */
  lemma {:induction false} StableOnlyGrows(r: Run, p: nat, q: nat, i: Id)
    requires IsRun(r) && p <= q < |r.states| && i < |r.states[p].replicas|
    ensures i < |r.states[q].replicas|
    ensures AtMost(Stable(r.states[p].replicas[i]), Stable(r.states[q].replicas[i]))
    decreases q
  {
    if p < q {
      StableOnlyGrows(r, p, q - 1, i);
      RunKeepsInv(r, q - 1);
      assert StepAt(r, q - 1);
      StepKeepsInv(r.states[q - 1], r.steps[q - 1]);
      assert r.states[q].replicas[i] == r.states[q].replicas[i];
    }
  }

  /**
   No overcount: no replica's entry for another ever exceeds what that one has committed, also in the middle of a
   section, and its own stable entry is exactly what it has committed.
   */
  lemma NoOvercount(r: Run, k: nat, i: Id, j: Id)
    requires IsRun(r) && k < |r.states| && i < |r.states[k].replicas| && j < |r.states[k].replicas|
    requires WellFormed(r.states[k])
    ensures var s := r.states[k];
            && (j != i && j in s.replicas[i].value ==> s.replicas[i].value[j] <= s.totals[j])
            && Get(Stable(s.replicas[i]), j) <= s.totals[j]
            && Get(Stable(s.replicas[i]), i) == s.totals[i]
            && Get(s.replicas[i].value, i) == s.totals[i] + s.pending[i]
  {
    RunKeepsInv(r, k);
    var s := r.states[k];
    assert ReplicaOk(s.totals, i, s.replicas[i], s.pending[i]);
    assert ReplicaOk(s.totals, j, s.replicas[j], s.pending[j]);
    assert j != i && j in s.replicas[i].value ==> j in s.replicas[i].value - {i};
  }

  // ----- what becomes of a merged value

  /** The step ends the section of replica `i`. */
  predicate Ends(step: Step, i: Id) {
    step == CommitStep(i) || step == AbortStep(i)
  }

  /** The section of replica `i` in which step `p` falls goes on until step `q`. */
  predicate Lasts(r: Run, p: nat, q: nat, i: Id)
    requires p < q <= |r.steps|
  {
    forall k {:trigger r.steps[k]} :: p < k < q ==> !Ends(r.steps[k], i)
  }

  /** In step `p` replica `i` merges the value `c`. */
  predicate Merges(r: Run, p: nat, i: Id, c: Counter)
    requires IsRun(r) && p < |r.steps|
  {
    && r.steps[p] == MergeStep(i) && i < |r.states[p].replicas|
    && r.states[p].replicas[i].mergeValues != [] && r.states[p].replicas[i].mergeValues[0] == c
  }

  /** Until its section ends a replica keeps what it merged, and the value from before the section if there is one. */
  lemma {:induction false} KeptUntilTheEnd(r: Run, p: nat, q: nat, i: Id, c: Counter)
    requires IsRun(r) && p < q <= |r.steps| && Merges(r, p, i, c) && Lasts(r, p, q, i)
    ensures i < |r.states[q].replicas|
    ensures var x, x' := r.states[p].replicas[i], r.states[q].replicas[i];
            && AtMost(c, x'.value)
            && (x.hasOldValue ==> x'.hasOldValue && x'.oldValue == x.oldValue)
            && (!x.hasOldValue ==> AtMost(c, Stable(x')))
    decreases q
  {
    assert StepAt(r, q - 1);
    var s, step := r.states[q - 1], r.steps[q - 1];
    if p + 1 == q {
      MergeIsJoin(r.states[p].replicas[i].value, c, c);
    } else {
      KeptUntilTheEnd(r, p, q - 1, i, c);
      var y := s.replicas[i];
      AtMostIsAnOrder(c, y.value, Do(s, step).replicas[i].value);
      match step
      case MergeStep(j) => if j == i { MergeIsJoin(y.value, y.mergeValues[0], c); }
      case _ =>
    }
  }

  /**
   What a replica merges in step `p`, with its section ending in step `e`, is in its stable value from then on exactly
   if the section had not written before the merge, or commits, or the value was known before the section. An abort of
   a section that had written goes back to the value from before it.
   */
  lemma MergeKeptExactly(r: Run, p: nat, e: nat, i: Id, c: Counter)
    requires IsRun(r) && p < e < |r.steps| && Merges(r, p, i, c) && Lasts(r, p, e, i) && Ends(r.steps[e], i)
    requires i < |r.states[e + 1].replicas|
    ensures var x, x' := r.states[p].replicas[i], r.states[e + 1].replicas[i];
            && (AtMost(c, Stable(x')) <==> !x.hasOldValue || r.steps[e].CommitStep? || AtMost(c, Stable(x)))
            && (r.steps[e].AbortStep? && x.hasOldValue ==> Stable(x') == Stable(x))
  {
    KeptUntilTheEnd(r, p, e, i, c);
    assert StepAt(r, e);
  }

  /** So a merged value that does not meet such an abort stays in every later stable value. */
  lemma MergedForGood(r: Run, p: nat, e: nat, q: nat, i: Id, c: Counter)
    requires IsRun(r) && p < |r.steps| && Merges(r, p, i, c)
    requires
      || (!r.states[p].replicas[i].hasOldValue && p < q)
      || (p < e < q && e < |r.steps| && Lasts(r, p, e, i) && r.steps[e] == CommitStep(i))
    requires q < |r.states|
    ensures i < |r.states[q].replicas| && AtMost(c, Stable(r.states[q].replicas[i]))
  {
    var from := if r.states[p].replicas[i].hasOldValue then e + 1 else p + 1;
    if r.states[p].replicas[i].hasOldValue {
      KeptUntilTheEnd(r, p, e, i, c);
      assert StepAt(r, e);
    } else {
      KeptUntilTheEnd(r, p, p + 1, i, c);
    }
    StableOnlyGrows(r, from, q, i);
    AtMostIsAnOrder(c, Stable(r.states[from].replicas[i]), Stable(r.states[q].replicas[i]));
  }

  // ----- convergence

  /** An abort in step `e` drops a value that was merged in step `p`, after its section had written. */
  predicate LosesMerge(r: Run, p: nat, e: nat, i: Id)
    requires IsRun(r) && p < e < |r.steps|
  {
    && r.steps[p] == MergeStep(i) && i < |r.states[p].replicas| && r.states[p].replicas[i].mergeValues != []
    && r.states[p].replicas[i].hasOldValue && Lasts(r, p, e, i) && r.steps[e] == AbortStep(i)
    && !AtMost(r.states[p].replicas[i].mergeValues[0], Stable(r.states[p].replicas[i]))
  }

  /** Before step `k` neither the network nor an abort has dropped a value. */
  ghost predicate NothingLost(r: Run, k: nat)
    requires IsRun(r) && k <= |r.steps|
  {
    && (forall e {:trigger r.steps[e]} :: 0 <= e < k ==> !r.steps[e].LoseStep?)
    && (forall p: nat, e: nat, i: Id {:trigger LosesMerge(r, p, e, i)} :: p < e < k ==> !LosesMerge(r, p, e, i))
  }

  /** No section is open, and nothing waits to be delivered or merged. */
  predicate Idle(s: System) {
    && s.net == []
    && forall i {:trigger s.replicas[i]} :: 0 <= i < |s.replicas| ==>
         !s.replicas[i].hasOldValue && s.replicas[i].mergeValues == []
  }

  /** Step `p` sends replica `j` the stable value of `i`, and `i` has committed nothing between that and step `k`. */
  predicate Announces(r: Run, p: nat, k: nat, i: Id, j: Id)
    requires p < k <= |r.steps|
  {
    r.steps[p] == SendStep(i, j) && forall e {:trigger r.steps[e]} :: p < e < k ==> r.steps[e] != CommitStep(i)
  }

  /** All that replica `i` has committed, if anything, has been sent to replica `j`. */
  ghost predicate Announced(r: Run, k: nat, i: Id, j: Id)
    requires k < |r.states| && k <= |r.steps| && i < |r.states[k].totals|
  {
    r.states[k].totals[i] > 0 ==> exists p: nat :: p < k && Announces(r, p, k, i, j)
  }

  /** Replica `j` has an entry for `i` of at least `t`, or will unless something is lost. */
  ghost predicate OnItsWay(r: Run, q: nat, i: Id, j: Id, t: int)
    requires IsRun(r) && q < |r.states| && j < |r.states[q].replicas|
  {
    var s := r.states[q];
    || Get(Stable(s.replicas[j]), i) >= t
    || (exists n {:trigger s.net[n]} :: 0 <= n < |s.net| && s.net[n].0 == j && Get(s.net[n].1, i) >= t)
    || (exists m {:trigger s.replicas[j].mergeValues[m]} ::
          0 <= m < |s.replicas[j].mergeValues| && Get(s.replicas[j].mergeValues[m], i) >= t)
    || (exists p: nat, c: Counter {:trigger MergedInSection(r, p, q, j, c)} :: MergedInSection(r, p, q, j, c) && Get(c, i) >= t)
  }

  /** The section of replica `j` still open in state `q` had written when it merged `c`. */
  ghost predicate MergedInSection(r: Run, p: nat, q: nat, j: Id, c: Counter)
    requires IsRun(r) && q < |r.states|
  {
    p < q && Merges(r, p, j, c) && r.states[p].replicas[j].hasOldValue && Lasts(r, p, q, j)
  }

  lemma StepMovesOn(r: Run, q: nat, i: Id, j: Id, t: int)
    requires IsRun(r) && q < |r.steps| && NothingLost(r, q + 1) && t > 0
    requires j < |r.states[q].replicas| && j < |r.states[q + 1].replicas|
    requires OnItsWay(r, q, i, j, t)
    ensures OnItsWay(r, q + 1, i, j, t)
  {
    var s, step := r.states[q], r.steps[q];
    var s' := r.states[q + 1];
    assert StepAt(r, q);
    StableOnlyGrows(r, q, q + 1, j);
    if Get(Stable(s.replicas[j]), i) < t {
      if n :| 0 <= n < |s.net| && s.net[n].0 == j && Get(s.net[n].1, i) >= t {
        MessageMovesOn(s, step, n);
      } else if m :| 0 <= m < |s.replicas[j].mergeValues| && Get(s.replicas[j].mergeValues[m], i) >= t {
        MergeMovesOn(r, q, i, j, t, m);
      } else {
        var p: nat, c: Counter :| MergedInSection(r, p, q, j, c) && Get(c, i) >= t;
        SectionMovesOn(r, p, q, j, c);
      }
    }
  }

  /** A message stays on its way or arrives. */
  lemma MessageMovesOn(s: System, step: Step, n: nat)
    requires Enabled(s, step) && !step.LoseStep? && n < |s.net|
    ensures var s' := Do(s, step); var (dst, c) := s.net[n];
            || (exists n' {:trigger s'.net[n']} :: 0 <= n' < |s'.net| && s'.net[n'] == s.net[n])
            || (dst < |s'.replicas| && exists m {:trigger s'.replicas[dst].mergeValues[m]} ::
                  0 <= m < |s'.replicas[dst].mergeValues| && s'.replicas[dst].mergeValues[m] == c)
  {
    var s' := Do(s, step);
    if step.ArriveStep? && step.k == n {
      var dst := s.net[n].0;
      assert s'.replicas[dst].mergeValues[|s.replicas[dst].mergeValues|] == s.net[n].1;
    } else {
      var n' := if step.ArriveStep? && step.k < n then n - 1 else n;
      assert s'.net[n'] == s.net[n];
    }
  }

  /** A value waiting to be merged goes on waiting or is merged. */
  lemma MergeMovesOn(r: Run, q: nat, i: Id, j: Id, t: int, m: nat)
    requires IsRun(r) && q < |r.steps| && t > 0 && j < |r.states[q].replicas| && j < |r.states[q + 1].replicas|
    requires m < |r.states[q].replicas[j].mergeValues| && Get(r.states[q].replicas[j].mergeValues[m], i) >= t
    ensures OnItsWay(r, q + 1, i, j, t)
  {
    var s, step := r.states[q], r.steps[q];
    var s' := r.states[q + 1];
    assert StepAt(r, q);
    var x := s.replicas[j];
    if step == MergeStep(j) && m == 0 {
      if x.hasOldValue {
        assert MergedInSection(r, q, q + 1, j, x.mergeValues[0]);
      } else {
        MergeIsJoin(x.value, x.mergeValues[0], x.value);
      }
    } else {
      var m' := if step == MergeStep(j) then m - 1 else m;
      assert s'.replicas[j].mergeValues[m'] == x.mergeValues[m];
    }
  }

  /** A value merged in an open section stays in it or, when it ends, in the stable value. */
  lemma SectionMovesOn(r: Run, p: nat, q: nat, j: Id, c: Counter)
    requires IsRun(r) && q < |r.steps| && NothingLost(r, q + 1) && j < |r.states[q + 1].replicas|
    requires MergedInSection(r, p, q, j, c)
    ensures MergedInSection(r, p, q + 1, j, c) || AtMost(c, Stable(r.states[q + 1].replicas[j]))
  {
    if Ends(r.steps[q], j) {
      MergeKeptExactly(r, p, q, j, c);
      assert !LosesMerge(r, p, q, j);
    }
  }

  lemma {:induction false} StillOnItsWay(r: Run, p: nat, q: nat, i: Id, j: Id, t: int)
    requires IsRun(r) && p < q < |r.states| && NothingLost(r, q) && t > 0
    requires r.steps[p] == SendStep(i, j) && i < |r.states[p].replicas| && Get(Stable(r.states[p].replicas[i]), i) == t
    ensures j < |r.states[q].replicas| && OnItsWay(r, q, i, j, t)
    decreases q
  {
    assert StepAt(r, q - 1);
    if p + 1 == q {
      var s, s' := r.states[p], r.states[q];
      assert s'.net[|s.net|] == (j, Stable(s.replicas[i]));
    } else {
      StillOnItsWay(r, p, q - 1, i, j, t);
      StepMovesOn(r, q - 1, i, j, t);
    }
  }

  /** What replica `i` has committed stays the same while it commits nothing. */
  lemma {:induction false} TotalsStay(r: Run, p: nat, q: nat, i: Id)
    requires IsRun(r) && p <= q < |r.states| && i < |r.states[p].totals| && WellFormed(r.states[p])
    requires forall e {:trigger r.steps[e]} :: p <= e < q ==> r.steps[e] != CommitStep(i)
    ensures WellFormed(r.states[q]) && |r.states[q].totals| == |r.states[p].totals|
    ensures r.states[q].totals[i] == r.states[p].totals[i]
    decreases q
  {
    if p < q {
      TotalsStay(r, p, q - 1, i);
      assert StepAt(r, q - 1);
    }
  }

  /** An idle replica has heard of all that another one has committed, if that was announced and nothing was lost. */
  lemma AnnouncedIsKnown(r: Run, k: nat, i: Id, j: Id)
    requires IsRun(r) && k < |r.states| && Inv(r.states[k]) && Idle(r.states[k]) && NothingLost(r, k)
    requires i < |r.states[k].replicas| && j < |r.states[k].replicas|
    requires i != j ==> Announced(r, k, i, j)
    ensures Get(r.states[k].replicas[j].value, i) == r.states[k].totals[i]
  {
    var s := r.states[k];
    assert ReplicaOk(s.totals, j, s.replicas[j], s.pending[j]) && ReplicaOk(s.totals, i, s.replicas[i], s.pending[i]);
    assert !s.replicas[j].hasOldValue;
    if i != j && s.totals[i] > 0 {
      var p: nat :| p < k && Announces(r, p, k, i, j);
      RunKeepsInv(r, p);
      assert StepAt(r, p);
      var sent := r.states[p];
      assert ReplicaOk(sent.totals, i, sent.replicas[i], sent.pending[i]);
      TotalsStay(r, p, k, i);
      StillOnItsWay(r, p, k, i, j, s.totals[i]);
      forall p', c: Counter ensures !MergedInSection(r, p', k, j, c) {
        if MergedInSection(r, p', k, j, c) {
          KeptUntilTheEnd(r, p', k, j, c);
        }
      }
    }
  }

  /**
   Convergence: if every replica that has committed something has sent its stable value to every other one since its
   last commit, and nothing was dropped, then once all is idle every replica knows exactly what each has committed, and
   all of them read the sum.
   */
  lemma Converges(r: Run, k: nat, j: Id)
    requires IsRun(r) && k < |r.states| && WellFormed(r.states[k]) && Idle(r.states[k]) && NothingLost(r, k)
    requires forall i: Id, j: Id {:trigger Announced(r, k, i, j)} ::
               i < |r.states[k].replicas| && j < |r.states[k].replicas| && i != j ==> Announced(r, k, i, j)
    requires j < |r.states[k].replicas|
    ensures var s := r.states[k];
            && (forall i: Id {:trigger Get(s.replicas[j].value, i)} :: i < |s.replicas| ==>
                  Get(s.replicas[j].value, i) == s.totals[i])
            && Total(s.replicas[j].value, |s.replicas|) == SumFirst(s.totals, |s.totals|)
  {
    var s := r.states[k];
    RunKeepsInv(r, k);
    forall i: Id | i < |s.replicas| ensures Get(s.replicas[j].value, i) == s.totals[i] {
      AnnouncedIsKnown(r, k, i, j);
    }
    TotalAtLeast(s.replicas[j].value, s.totals, |s.totals|);
  }

  /**
   Without that last condition it fails. Here replica 0 adds 1, commits and sends to replica 1, which writes, merges and
   aborts: all is announced, no message is lost, all is idle, and replica 1 reads 0.
   */
  lemma AbortLosesMerge()
    ensures var r := LosingRun();
            && IsRun(r) && Announces(r, 2, 7, 0, 1) && LosesMerge(r, 5, 6, 1)
            && (forall e {:trigger r.steps[e]} :: 0 <= e < 7 ==> !r.steps[e].LoseStep?)
            && r.states[7].totals == [1, 0] && Idle(r.states[7])
            && r.states[7].replicas[0].value == map[0 := 1]
            && r.states[7].replicas[1].value == map[]
  {
    hide StepAt;
    LosingRunIsRun();
    assert Write(map[], 0, 1) == map[0 := 1];
  }

  lemma LosingRunIsRun()
    ensures IsRun(LosingRun())
  {
    var r := LosingRun();
    assert Write(map[], 0, 1) == map[0 := 1];
    forall k: nat | k < |r.steps| ensures StepAt(r, k) {
    }
  }

  function LosingRun(): Run {
    var s0 := System([InitReplica(), InitReplica()], [], [0, 0], [0, 0]);
    var s1 := Do(s0, WriteStep(0, 1));
    var s2 := Do(s1, CommitStep(0));
    var s3 := Do(s2, SendStep(0, 1));
    var s4 := Do(s3, WriteStep(1, 5));
    var s5 := Do(s4, ArriveStep(0));
    var s6 := Do(s5, MergeStep(1));
    var s7 := Do(s6, AbortStep(1));
    Run([s0, s1, s2, s3, s4, s5, s6, s7],
        [WriteStep(0, 1), CommitStep(0), SendStep(0, 1), WriteStep(1, 5), ArriveStep(0), MergeStep(1), AbortStep(1)])
  }
}
