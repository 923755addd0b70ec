/**
 Any number of archetypes running critical sections over any number of shared values. Resource calls of different
 archetypes interleave freely, and commits and aborts release one resource at a time. The committed sections are
 serializable in the order in which they decided to commit, and every attempt, committed or not, reads consistently.
 */
module Serializability {
  import opened LocalShared

  type Rid = nat

  datatype Op = Read(r: Rid, v: Value) | Write(r: Rid, v: Value)

  datatype Phase = Running | Committing | Aborting

  /** `ops` is what the current attempt did so far; the code does not keep it. */
  datatype Archetype = Archetype(phase: Phase, acquired: map<Rid, nat>, dirty: set<Rid>, ops: seq<Op>)

  /** `log` lists the sections that passed their pre-commit, in that order. */
  datatype State = State(shared: map<Rid, Shared>, archs: seq<Archetype>, log: seq<seq<Op>>)

  datatype Step =
    | DoRead(a: nat, r: Rid)
    | DoWrite(a: nat, r: Rid, v: Value)
    | TimeOut(a: nat, r: Rid)            // an acquisition fails
    | Fail(a: nat)                       // the body, or a pre-commit, asks for a retry for another reason
    | PreCommit(a: nat)
    | CommitOne(a: nat, r: Rid)
    | AbortOne(a: nat, r: Rid)
    | Finish(a: nat)                     // nothing is dirty any more: the next attempt begins

  function Acquired(x: Archetype, r: Rid): nat {
    if r in x.acquired then x.acquired[r] else 0
  }

  predicate Enabled(s: State, step: Step) {
    && step.a < |s.archs|
    && var x := s.archs[step.a];
       match step
       case DoRead(_, r) => x.phase.Running? && r in s.shared && ReadNeeds(Acquired(x, r)) <= s.shared[r].free
       case DoWrite(_, r, _) => x.phase.Running? && r in s.shared && WriteNeeds(Acquired(x, r)) <= s.shared[r].free
       case TimeOut(_, r) => x.phase.Running? && r in s.shared
       case Fail(_) => x.phase.Running?
       case PreCommit(_) => x.phase.Running?
       case CommitOne(_, r) => x.phase.Committing? && r in x.dirty && r in s.shared
       case AbortOne(_, r) => x.phase.Aborting? && r in x.dirty && r in s.shared
       case Finish(_) => !x.phase.Running? && x.dirty == {}
  }

  function Do(s: State, step: Step): State
    requires Enabled(s, step)
  {
    var x := s.archs[step.a];
    match step
    case DoRead(a, r) =>
      var n := AfterRead(s.shared[r], Acquired(x, r));
      Update(s, a, r, n.0, Touch(x, r, n.1).(ops := x.ops + [Read(r, n.0.cell.value)]))
    case DoWrite(a, r, v) =>
      var n := AfterWrite(s.shared[r], Acquired(x, r), v);
      Update(s, a, r, n.0, Touch(x, r, n.1).(ops := x.ops + [Write(r, v)]))
    case TimeOut(a, r) => s.(archs := s.archs[a := x.(phase := Aborting, dirty := x.dirty + {r})])
    case Fail(a) => s.(archs := s.archs[a := x.(phase := Aborting)])
    case PreCommit(a) => s.(archs := s.archs[a := x.(phase := Committing)], log := s.log + [x.ops])
    case CommitOne(a, r) => Update(s, a, r, AfterCommit(s.shared[r], Acquired(x, r)), Released(x, r))
    case AbortOne(a, r) => Update(s, a, r, AfterAbort(s.shared[r], Acquired(x, r)), Released(x, r))
    case Finish(a) => s.(archs := s.archs[a := x.(phase := Running, ops := [])])
  }

  function Update(s: State, a: nat, r: Rid, sh: Shared, x: Archetype): State
    requires a < |s.archs|
  {
    s.(shared := s.shared[r := sh], archs := s.archs[a := x])
  }

  function Touch(x: Archetype, r: Rid, acquired: nat): Archetype {
    x.(acquired := x.acquired[r := acquired], dirty := x.dirty + {r})
  }

  function Released(x: Archetype, r: Rid): Archetype {
    x.(acquired := x.acquired[r := 0], dirty := x.dirty - {r})
  }

  predicate Init(s: State) {
    && (forall r {:trigger s.shared[r]} :: r in s.shared ==> s.shared[r] == Shared(Cell(s.shared[r].cell.value, 0, false), MAX_SEM_SIZE))
    && (forall a {:trigger s.archs[a]} :: 0 <= a < |s.archs| ==> s.archs[a] == Archetype(Running, map[], {}, []))
    && s.log == []
  }

  datatype Run = Run(states: seq<State>, steps: seq<Step>)

  predicate StepAt(run: Run, k: nat)
    requires k < |run.steps| && k + 1 < |run.states|
  {
    Enabled(run.states[k], run.steps[k]) && run.states[k + 1] == Do(run.states[k], run.steps[k])
  }

  predicate IsRun(run: Run) {
    && |run.states| == |run.steps| + 1
    && Init(run.states[0])
    && forall k: nat {:trigger StepAt(run, k)} :: k < |run.steps| ==> StepAt(run, k)
  }

  // ----- one section at a time

  type Store = map<Rid, Value>

  function Apply(store: Store, ops: seq<Op>): (r: Store)
  {
    if ops == [] then store
    else
      var prev := Apply(store, ops[..|ops| - 1]);
      match ops[|ops| - 1]
      case Read(_, _) => prev
      case Write(r, v) => prev[r := v]
  }

  /** Every read returns what the store holds at that point. */
  predicate Legal(store: Store, ops: seq<Op>) {
    ops == [] ||
    (Legal(store, ops[..|ops| - 1]) &&
     match ops[|ops| - 1]
     case Read(r, v) => r in Apply(store, ops[..|ops| - 1]) && Apply(store, ops[..|ops| - 1])[r] == v
     case Write(_, _) => true)
  }

  function ApplyAll(store: Store, log: seq<seq<Op>>): Store {
    if log == [] then store else Apply(ApplyAll(store, log[..|log| - 1]), log[|log| - 1])
  }

  predicate LegalAll(store: Store, log: seq<seq<Op>>) {
    log == [] || (LegalAll(store, log[..|log| - 1]) && Legal(ApplyAll(store, log[..|log| - 1]), log[|log| - 1]))
  }

  // ----- the semaphores

  function TotalAcquired(archs: seq<Archetype>, r: Rid): nat {
    if archs == [] then 0 else TotalAcquired(archs[..|archs| - 1], r) + Acquired(archs[|archs| - 1], r)
  }

  lemma {:induction false} TotalAfterUpdate(archs: seq<Archetype>, a: nat, x: Archetype, r: Rid)
    requires a < |archs|
    ensures TotalAcquired(archs[a := x], r) + Acquired(archs[a], r) == TotalAcquired(archs, r) + Acquired(x, r)
  {
    var n := |archs| - 1;
    if a == n {
      assert archs[a := x][..n] == archs[..n];
    } else {
      TotalAfterUpdate(archs[..n], a, x, r);
      assert archs[a := x][..n] == archs[..n][a := x];
    }
  }

  lemma {:induction false} TwoWithinTotal(archs: seq<Archetype>, a: nat, b: nat, r: Rid)
    requires a < b < |archs|
    ensures Acquired(archs[a], r) + Acquired(archs[b], r) <= TotalAcquired(archs, r)
  {
    var n := |archs| - 1;
    if b < n {
      TwoWithinTotal(archs[..n], a, b, r);
    } else {
      OneWithinTotal(archs[..n], a, r);
    }
  }

  lemma {:induction false} OneWithinTotal(archs: seq<Archetype>, a: nat, r: Rid)
    requires a < |archs|
    ensures Acquired(archs[a], r) <= TotalAcquired(archs, r)
  {
    if a < |archs| - 1 {
      OneWithinTotal(archs[..|archs| - 1], a, r);
    }
  }

  ghost predicate SemOk(s: State, r: Rid)
    requires r in s.shared
  {
    s.shared[r].free + TotalAcquired(s.archs, r) == MAX_SEM_SIZE
  }

  // ----- the invariant

  predicate Holds(x: Archetype, r: Rid) {
    Acquired(x, r) > 0
  }

  predicate WriteHolds(x: Archetype, r: Rid) {
    Acquired(x, r) == MAX_SEM_SIZE
  }

  /** How one archetype and one shared value relate; `store` is what the committed sections leave. */
  ghost predicate PairOk(store: Store, x: Archetype, r: Rid, cell: Cell)
    requires r in store
  {
    && (WriteHolds(x, r) && x.phase.Committing? ==> cell.value == store[r])
    && (WriteHolds(x, r) && !x.phase.Committing? ==> Committed(cell) == store[r])
    && (x.phase.Running? && Holds(x, r) ==> r in Apply(store, x.ops) && cell.value == Apply(store, x.ops)[r])
    && (x.phase.Running? && !WriteHolds(x, r) ==> r in Apply(store, x.ops) && Apply(store, x.ops)[r] == store[r])
  }

  /** The attempt touched only what it holds, and its reads are consistent with the committed store. */
  ghost predicate AttemptOk(shared: map<Rid, Shared>, store: Store, x: Archetype) {
    && x.dirty <= shared.Keys
    && (forall r {:trigger Holds(x, r)} :: Holds(x, r) ==> r in x.dirty)
    && (x.phase.Running? ==> Legal(store, x.ops) && forall k {:trigger x.ops[k]} :: 0 <= k < |x.ops| ==> Covered(x, x.ops[k]))
  }

  ghost predicate Covered(x: Archetype, op: Op) {
    Holds(x, op.r) && (op.Write? ==> WriteHolds(x, op.r))
  }

  ghost predicate NoWriter(archs: seq<Archetype>, r: Rid) {
    forall a {:trigger archs[a]} :: 0 <= a < |archs| ==> !WriteHolds(archs[a], r)
  }

  ghost predicate CellOk(store: Store, s: State, r: Rid)
    requires r in s.shared && r in store
  {
    && SemOk(s, r)
    && (NoWriter(s.archs, r) ==> s.shared[r].cell.value == store[r] && !s.shared[r].cell.hasOldValue)
    && (forall a {:trigger s.archs[a]} :: 0 <= a < |s.archs| ==> PairOk(store, s.archs[a], r, s.shared[r].cell))
  }

  ghost predicate Inv(store0: Store, s: State) {
    && store0.Keys == s.shared.Keys
    && LegalAll(store0, s.log)
    && ApplyAll(store0, s.log).Keys == s.shared.Keys
    && (forall r {:trigger CellOk(ApplyAll(store0, s.log), s, r)} :: r in s.shared ==> CellOk(ApplyAll(store0, s.log), s, r))
    && (forall a {:trigger s.archs[a]} :: 0 <= a < |s.archs| ==> AttemptOk(s.shared, ApplyAll(store0, s.log), s.archs[a]))
  }

  // ----- exclusion

  lemma WriterExcludes(s: State, r: Rid, a: nat, b: nat)
    requires r in s.shared && SemOk(s, r) && a < |s.archs| && b < |s.archs| && a != b
    ensures Acquired(s.archs[a], r) + Acquired(s.archs[b], r) + s.shared[r].free <= MAX_SEM_SIZE
  {
    TwoWithinTotal(s.archs, if a < b then a else b, if a < b then b else a, r);
  }

  /** A section that is about to write holds, with what is free, the whole semaphore: nobody else holds any of it. */
  lemma AboutToWrite(s: State, r: Rid, a: nat)
    requires r in s.shared && SemOk(s, r) && a < |s.archs|
    requires WriteHolds(s.archs[a], r) || WriteNeeds(Acquired(s.archs[a], r)) <= s.shared[r].free
    ensures forall b {:trigger s.archs[b]} :: 0 <= b < |s.archs| && b != a ==> !Holds(s.archs[b], r)
    ensures Acquired(s.archs[a], r) <= MAX_SEM_SIZE
  {
    OneWithinTotal(s.archs, a, r);
    forall b | 0 <= b < |s.archs| && b != a ensures !Holds(s.archs[b], r) {
      WriterExcludes(s, r, a, b);
    }
  }

  lemma ReadersSeeNoWriter(s: State, r: Rid, a: nat)
    requires r in s.shared && SemOk(s, r) && a < |s.archs| && !Holds(s.archs[a], r) && s.shared[r].free >= 1
    ensures NoWriter(s.archs, r)
  {
    forall b | 0 <= b < |s.archs| ensures !WriteHolds(s.archs[b], r) {
      OneWithinTotal(s.archs, b, r);
    }
  }

  // ----- steps on one shared value

  ghost predicate SameExcept(x: Store, y: Store, r: Rid) {
    forall q {:trigger q in x} {:trigger q in y} :: q != r ==> (q in x <==> q in y) && (q in x ==> x[q] == y[q])
  }

  /** Conditions under which archetype `a` may move to `x` and the shared value `r` to `sh`. */
  ghost predicate MoveOk(store: Store, s: State, a: nat, r: Rid, sh: Shared, x: Archetype)
    requires a < |s.archs| && r in s.shared && r in store
  {
    && sh.free + Acquired(x, r) == s.shared[r].free + Acquired(s.archs[a], r)
    && (sh.cell == s.shared[r].cell || forall b {:trigger s.archs[b]} :: 0 <= b < |s.archs| && b != a ==> !Holds(s.archs[b], r))
    && PairOk(store, x, r, sh.cell)
    && (NoWriter(s.archs[a := x], r) ==> sh.cell.value == store[r] && !sh.cell.hasOldValue)
    && (forall q {:trigger Acquired(x, q)} :: q != r ==> Acquired(x, q) == Acquired(s.archs[a], q))
    && (x.phase == s.archs[a].phase || !x.phase.Running?)
    && (x.phase.Committing? <==> s.archs[a].phase.Committing?)
    && (x.phase.Running? ==> SameExcept(Apply(store, x.ops), Apply(store, s.archs[a].ops), r))
  }

  lemma MoveKeepsInv(store0: Store, s: State, a: nat, r: Rid, sh: Shared, x: Archetype)
    requires Inv(store0, s) && a < |s.archs| && r in s.shared
    requires MoveOk(ApplyAll(store0, s.log), s, a, r, sh, x)
    requires AttemptOk(s.shared, ApplyAll(store0, s.log), x)
    ensures Inv(store0, Update(s, a, r, sh, x))
  {
    var s' := Update(s, a, r, sh, x);
    var store := ApplyAll(store0, s.log);
    forall q | q in s'.shared ensures CellOk(store, s', q) {
      assert CellOk(store, s, q);
      TotalAfterUpdate(s.archs, a, x, q);
      if q == r {
        MovedCell(store, s, a, r, sh, x);
      } else {
        OtherCell(store, s, a, r, sh, x, q);
      }
    }
  }

  lemma MovedCell(store: Store, s: State, a: nat, r: Rid, sh: Shared, x: Archetype)
    requires a < |s.archs| && r in s.shared && r in store && CellOk(store, s, r) && MoveOk(store, s, a, r, sh, x)
    requires TotalAcquired(s.archs[a := x], r) + Acquired(s.archs[a], r) == TotalAcquired(s.archs, r) + Acquired(x, r)
    ensures CellOk(store, Update(s, a, r, sh, x), r)
  {
    var archs' := s.archs[a := x];
    forall b | 0 <= b < |archs'| ensures PairOk(store, archs'[b], r, sh.cell) {
      if b != a {
        assert archs'[b] == s.archs[b] && PairOk(store, s.archs[b], r, s.shared[r].cell);
      }
    }
  }

  lemma OtherCell(store: Store, s: State, a: nat, r: Rid, sh: Shared, x: Archetype, q: Rid)
    requires a < |s.archs| && r in s.shared && r in store && MoveOk(store, s, a, r, sh, x)
    requires q != r && q in s.shared && q in store && CellOk(store, s, q)
    requires TotalAcquired(s.archs[a := x], q) + Acquired(s.archs[a], q) == TotalAcquired(s.archs, q) + Acquired(x, q)
    ensures CellOk(store, Update(s, a, r, sh, x), q)
  {
    var archs' := s.archs[a := x];
    assert Acquired(x, q) == Acquired(s.archs[a], q);
    assert PairOk(store, s.archs[a], q, s.shared[q].cell);
    if NoWriter(archs', q) {
      forall b | 0 <= b < |s.archs| ensures !WriteHolds(s.archs[b], q) {
        assert !WriteHolds(archs'[b], q);
      }
    }
    forall b | 0 <= b < |archs'| ensures PairOk(store, archs'[b], q, s.shared[q].cell) {
      if b != a {
        assert archs'[b] == s.archs[b];
      }
    }
  }

  lemma ReadKeepsInv(store0: Store, s: State, a: nat, r: Rid)
    requires Inv(store0, s) && Enabled(s, DoRead(a, r))
    ensures Inv(store0, Do(s, DoRead(a, r)))
  {
    var store := ApplyAll(store0, s.log);
    var x := s.archs[a];
    var n := AfterRead(s.shared[r], Acquired(x, r));
    var x' := Touch(x, r, n.1).(ops := x.ops + [Read(r, n.0.cell.value)]);
    assert CellOk(store, s, r) && PairOk(store, x, r, s.shared[r].cell);
    OneWithinTotal(s.archs, a, r);
    if !Holds(x, r) {
      ReadersSeeNoWriter(s, r, a);
    }
    OpAppended(store, x.ops, Read(r, n.0.cell.value));
    StillCovered(x, x', r, Read(r, n.0.cell.value));
    assert NoWriter(s.archs[a := x'], r) ==> NoWriter(s.archs, r) by {
      OnlyReading(s.archs, a, x', r);
    }
    assert forall q {:trigger Holds(x', q)} :: Holds(x', q) ==> q == r || Holds(x, q);
    MoveKeepsInv(store0, s, a, r, n.0, x');
  }

  lemma OnlyReading(archs: seq<Archetype>, a: nat, x: Archetype, r: Rid)
    requires a < |archs| && (WriteHolds(archs[a], r) ==> WriteHolds(x, r))
    ensures NoWriter(archs[a := x], r) ==> NoWriter(archs, r)
  {
    if NoWriter(archs[a := x], r) {
      forall b | 0 <= b < |archs| ensures !WriteHolds(archs[b], r) {
        assert !WriteHolds(archs[a := x][b], r);
      }
    }
  }

  lemma OpAppended(store: Store, ops: seq<Op>, op: Op)
    requires Legal(store, ops)
    requires op.Read? ==> op.r in Apply(store, ops) && Apply(store, ops)[op.r] == op.v
    ensures Legal(store, ops + [op])
    ensures Apply(store, ops + [op]) == if op.Write? then Apply(store, ops)[op.r := op.v] else Apply(store, ops)
  {
    assert (ops + [op])[..|ops|] == ops;
  }

  /** Touching one more value leaves the earlier operations covered. */
  lemma StillCovered(x: Archetype, x': Archetype, r: Rid, op: Op)
    requires forall k {:trigger x.ops[k]} :: 0 <= k < |x.ops| ==> Covered(x, x.ops[k])
    requires x'.ops == x.ops + [op] && op.r == r && r in x'.acquired && x'.acquired == x.acquired[r := x'.acquired[r]]
    requires Acquired(x, r) <= Acquired(x', r) <= MAX_SEM_SIZE && Covered(x', op)
    ensures forall k {:trigger x'.ops[k]} :: 0 <= k < |x'.ops| ==> Covered(x', x'.ops[k])
  {
    forall k | 0 <= k < |x'.ops| ensures Covered(x', x'.ops[k]) {
      if k < |x.ops| {
        assert x'.ops[k] == x.ops[k];
      }
    }
  }

  lemma WriteKeepsInv(store0: Store, s: State, a: nat, r: Rid, v: Value)
    requires Inv(store0, s) && Enabled(s, DoWrite(a, r, v))
    ensures Inv(store0, Do(s, DoWrite(a, r, v)))
  {
    var store := ApplyAll(store0, s.log);
    var x := s.archs[a];
    var n := AfterWrite(s.shared[r], Acquired(x, r), v);
    var x' := Touch(x, r, n.1).(ops := x.ops + [Write(r, v)]);
    assert CellOk(store, s, r) && PairOk(store, x, r, s.shared[r].cell);
    AboutToWrite(s, r, a);
    if !WriteHolds(x, r) {
      assert NoWriter(s.archs, r);
    }
    OpAppended(store, x.ops, Write(r, v));
    StillCovered(x, x', r, Write(r, v));
    assert WriteHolds(s.archs[a := x'][a], r);
    assert forall q {:trigger Holds(x', q)} :: Holds(x', q) ==> q == r || Holds(x, q);
    MoveKeepsInv(store0, s, a, r, n.0, x');
  }

  lemma CommitOneKeepsInv(store0: Store, s: State, a: nat, r: Rid)
    requires Inv(store0, s) && Enabled(s, CommitOne(a, r))
    ensures Inv(store0, Do(s, CommitOne(a, r)))
  {
    var x := s.archs[a];
    ReleaseKeepsInv(store0, s, a, r, AfterCommit(s.shared[r], Acquired(x, r)));
  }

  lemma AbortOneKeepsInv(store0: Store, s: State, a: nat, r: Rid)
    requires Inv(store0, s) && Enabled(s, AbortOne(a, r))
    ensures Inv(store0, Do(s, AbortOne(a, r)))
  {
    var x := s.archs[a];
    ReleaseKeepsInv(store0, s, a, r, AfterAbort(s.shared[r], Acquired(x, r)));
  }

  lemma ReleaseKeepsInv(store0: Store, s: State, a: nat, r: Rid, sh: Shared)
    requires Inv(store0, s) && a < |s.archs| && r in s.shared && r in s.archs[a].dirty && !s.archs[a].phase.Running?
    requires sh == if s.archs[a].phase.Committing? then AfterCommit(s.shared[r], Acquired(s.archs[a], r))
                   else AfterAbort(s.shared[r], Acquired(s.archs[a], r))
    ensures Inv(store0, Update(s, a, r, sh, Released(s.archs[a], r)))
  {
    var store := ApplyAll(store0, s.log);
    var x := s.archs[a];
    assert CellOk(store, s, r) && PairOk(store, x, r, s.shared[r].cell);
    if WriteHolds(x, r) {
      AboutToWrite(s, r, a);
    } else {
      OnlyReading(s.archs, a, Released(x, r), r);
    }
    assert forall q {:trigger Holds(Released(x, r), q)} :: Holds(Released(x, r), q) ==> q != r && Holds(x, q);
    MoveKeepsInv(store0, s, a, r, sh, Released(x, r));
  }

  // ----- steps on one archetype

  lemma RephaseKeepsInv(store0: Store, s: State, a: nat, x: Archetype)
    requires Inv(store0, s) && a < |s.archs| && x.acquired == s.archs[a].acquired
    requires AttemptOk(s.shared, ApplyAll(store0, s.log), x)
    requires forall r {:trigger PairOk(ApplyAll(store0, s.log), x, r, s.shared[r].cell)} :: r in s.shared ==> r in ApplyAll(store0, s.log) && PairOk(ApplyAll(store0, s.log), x, r, s.shared[r].cell)
    ensures Inv(store0, s.(archs := s.archs[a := x]))
  {
    var store := ApplyAll(store0, s.log);
    var s' := s.(archs := s.archs[a := x]);
    forall r | r in s'.shared ensures CellOk(store, s', r) {
      assert CellOk(store, s, r) && PairOk(store, x, r, s.shared[r].cell);
      TotalAfterUpdate(s.archs, a, x, r);
      OnlyReading(s.archs, a, x, r);
      forall b | 0 <= b < |s'.archs| ensures PairOk(store, s'.archs[b], r, s.shared[r].cell) {
        if b != a {
          assert s'.archs[b] == s.archs[b];
        }
      }
    }
  }

  lemma GiveUpKeepsInv(store0: Store, s: State, a: nat, dirty: set<Rid>)
    requires Inv(store0, s) && a < |s.archs| && s.archs[a].phase.Running?
    requires s.archs[a].dirty <= dirty <= s.shared.Keys
    ensures Inv(store0, s.(archs := s.archs[a := s.archs[a].(phase := Aborting, dirty := dirty)]))
  {
    var store := ApplyAll(store0, s.log);
    var x := s.archs[a].(phase := Aborting, dirty := dirty);
    forall r | r in s.shared ensures PairOk(store, x, r, s.shared[r].cell) {
      assert CellOk(store, s, r) && PairOk(store, s.archs[a], r, s.shared[r].cell);
    }
    assert forall r {:trigger Holds(x, r)} :: Holds(x, r) ==> Holds(s.archs[a], r);
    RephaseKeepsInv(store0, s, a, x);
  }

  lemma FinishKeepsInv(store0: Store, s: State, a: nat)
    requires Inv(store0, s) && Enabled(s, Finish(a))
    ensures Inv(store0, Do(s, Finish(a)))
  {
    var store := ApplyAll(store0, s.log);
    var x := s.archs[a].(phase := Running, ops := []);
    forall r | r in s.shared ensures PairOk(store, x, r, s.shared[r].cell) {
      assert CellOk(store, s, r) && !Holds(s.archs[a], r);
    }
    assert forall r {:trigger Holds(x, r)} :: Holds(x, r) ==> Holds(s.archs[a], r);
    RephaseKeepsInv(store0, s, a, x);
  }

  // ----- the commit point

  /** Operations that touch only values on which two stores agree are legal on both and do the same. */
  lemma {:induction false} SameOnTouched(x: Store, y: Store, ops: seq<Op>)
    requires forall k {:trigger ops[k]} :: 0 <= k < |ops| ==> SameAt(x, y, ops[k].r)
    ensures Legal(x, ops) == Legal(y, ops)
    ensures forall r {:trigger SameAt(x, y, r)} :: SameAt(x, y, r) ==> SameAt(Apply(x, ops), Apply(y, ops), r)
  {
    if ops != [] {
      var n := |ops| - 1;
      SameOnTouched(x, y, ops[..n]);
      assert SameAt(x, y, ops[n].r);
    }
  }

  predicate SameAt(x: Store, y: Store, r: Rid) {
    (r in x <==> r in y) && (r in x ==> x[r] == y[r])
  }

  lemma {:induction false} UntouchedByWrites(store: Store, ops: seq<Op>, r: Rid)
    requires forall k {:trigger ops[k]} :: 0 <= k < |ops| ==> !(ops[k].Write? && ops[k].r == r)
    ensures SameAt(Apply(store, ops), store, r)
  {
    if ops != [] {
      UntouchedByWrites(store, ops[..|ops| - 1], r);
    }
  }

  lemma {:induction false} ApplyKeys(store: Store, ops: seq<Op>)
    requires forall k {:trigger ops[k]} :: 0 <= k < |ops| ==> ops[k].r in store
    ensures Apply(store, ops).Keys == store.Keys
  {
    if ops != [] {
      ApplyKeys(store, ops[..|ops| - 1]);
      assert ops[|ops| - 1].r in store;
    }
  }

  /** What another archetype holds, the committing section has not written. */
  lemma CommitTouchesOthersNot(store: Store, s: State, a: nat, b: nat, r: Rid)
    requires a < |s.archs| && b < |s.archs| && a != b && r in s.shared && r in store && CellOk(store, s, r)
    requires s.archs[a].phase.Running? && Holds(s.archs[b], r)
    ensures SameAt(Apply(store, s.archs[a].ops), store, r)
  {
    WriterExcludes(s, r, a, b);
    assert PairOk(store, s.archs[a], r, s.shared[r].cell);
  }

  lemma OtherAttemptAtCommit(store0: Store, s: State, a: nat, b: nat)
    requires Inv(store0, s) && Enabled(s, PreCommit(a)) && b < |s.archs| && b != a && s.archs[b].phase.Running?
    ensures var store := ApplyAll(store0, s.log);
            var store' := Apply(store, s.archs[a].ops);
            && Legal(store', s.archs[b].ops)
            && (forall r {:trigger SameAt(store, store', r)} :: SameAt(store, store', r) ==>
                  SameAt(Apply(store, s.archs[b].ops), Apply(store', s.archs[b].ops), r))
  {
    var store := ApplyAll(store0, s.log);
    var store' := Apply(store, s.archs[a].ops);
    var x := s.archs[b];
    forall k | 0 <= k < |x.ops| ensures SameAt(store, store', x.ops[k].r) {
      assert Covered(x, x.ops[k]);
      assert CellOk(store, s, x.ops[k].r);
      CommitTouchesOthersNot(store, s, a, b, x.ops[k].r);
    }
    SameOnTouched(store, store', x.ops);
  }

  lemma OtherPairAtCommit(store0: Store, s: State, a: nat, b: nat, r: Rid)
    requires Inv(store0, s) && Enabled(s, PreCommit(a)) && b < |s.archs| && b != a && r in s.shared
    requires r in Apply(ApplyAll(store0, s.log), s.archs[a].ops)
    ensures PairOk(Apply(ApplyAll(store0, s.log), s.archs[a].ops), s.archs[b], r, s.shared[r].cell)
  {
    var store := ApplyAll(store0, s.log);
    var store' := Apply(store, s.archs[a].ops);
    var x := s.archs[b];
    assert CellOk(store, s, r) && PairOk(store, x, r, s.shared[r].cell);
    if Holds(x, r) {
      CommitTouchesOthersNot(store, s, a, b, r);
      assert SameAt(store, store', r);
    }
    if x.phase.Running? {
      OtherAttemptAtCommit(store0, s, a, b);
      if !WriteHolds(x, r) {
        forall k | 0 <= k < |x.ops| ensures !(x.ops[k].Write? && x.ops[k].r == r) {
          assert Covered(x, x.ops[k]);
        }
        UntouchedByWrites(store', x.ops, r);
      }
    }
  }

  /** The committing section joins the serial history, in which it reads what it has read. */
  lemma LogAtCommit(store0: Store, s: State, a: nat)
    requires Inv(store0, s) && Enabled(s, PreCommit(a))
    ensures var s' := Do(s, PreCommit(a));
            && LegalAll(store0, s'.log)
            && ApplyAll(store0, s'.log) == Apply(ApplyAll(store0, s.log), s.archs[a].ops)
            && ApplyAll(store0, s'.log).Keys == s.shared.Keys
  {
    hide CellOk;
    var store := ApplyAll(store0, s.log);
    var x := s.archs[a];
    var s' := Do(s, PreCommit(a));
    assert s'.log[..|s.log|] == s.log;
    assert AttemptOk(s.shared, store, x);
    forall k | 0 <= k < |x.ops| ensures x.ops[k].r in store {
      assert Covered(x, x.ops[k]);
    }
    ApplyKeys(store, x.ops);
  }

  lemma AttemptAtCommit(store0: Store, s: State, a: nat, b: nat)
    requires Inv(store0, s) && Enabled(s, PreCommit(a)) && b < |s.archs|
    ensures AttemptOk(s.shared, Apply(ApplyAll(store0, s.log), s.archs[a].ops), Do(s, PreCommit(a)).archs[b])
  {
    hide CellOk, Apply, Legal;
    var s' := Do(s, PreCommit(a));
    assert AttemptOk(s.shared, ApplyAll(store0, s.log), s.archs[b]);
    if b == a {
      assert forall r {:trigger Holds(s'.archs[a], r)} :: Holds(s'.archs[a], r) ==> Holds(s.archs[a], r);
    } else if s.archs[b].phase.Running? {
      OtherAttemptAtCommit(store0, s, a, b);
    }
  }

  lemma PreCommitKeepsInv(store0: Store, s: State, a: nat)
    requires Inv(store0, s) && Enabled(s, PreCommit(a))
    ensures Inv(store0, Do(s, PreCommit(a)))
  {
    hide CellOk, AttemptOk, Apply, ApplyAll, LegalAll;
    var store' := Apply(ApplyAll(store0, s.log), s.archs[a].ops);
    var s' := Do(s, PreCommit(a));
    LogAtCommit(store0, s, a);
    forall r | r in s'.shared ensures CellOk(store', s', r) {
      CellAtCommit(store0, s, a, r);
    }
    forall b | 0 <= b < |s'.archs| ensures AttemptOk(s'.shared, store', s'.archs[b]) {
      AttemptAtCommit(store0, s, a, b);
    }
  }

  lemma CellAtCommit(store0: Store, s: State, a: nat, r: Rid)
    requires Inv(store0, s) && Enabled(s, PreCommit(a)) && r in s.shared
    requires r in Apply(ApplyAll(store0, s.log), s.archs[a].ops)
    ensures CellOk(Apply(ApplyAll(store0, s.log), s.archs[a].ops), Do(s, PreCommit(a)), r)
  {
    var store := ApplyAll(store0, s.log);
    var s' := Do(s, PreCommit(a));
    assert CellOk(store, s, r) && PairOk(store, s.archs[a], r, s.shared[r].cell);
    TotalAfterUpdate(s.archs, a, s'.archs[a], r);
    OnlyReading(s.archs, a, s'.archs[a], r);
    forall b | 0 <= b < |s'.archs| ensures PairOk(Apply(store, s.archs[a].ops), s'.archs[b], r, s.shared[r].cell) {
      if b != a {
        OtherPairAtCommit(store0, s, a, b, r);
      }
    }
  }

  // ----- all runs

  function InitialStore(s: State): Store {
    map r | r in s.shared :: s.shared[r].cell.value
  }

  lemma InitInv(s: State)
    requires Init(s)
    ensures Inv(InitialStore(s), s)
  {
    forall r | r in s.shared ensures CellOk(InitialStore(s), s, r) {
      NothingAcquired(s.archs, r);
    }
  }

  lemma {:induction false} NothingAcquired(archs: seq<Archetype>, r: Rid)
    requires forall a {:trigger archs[a]} :: 0 <= a < |archs| ==> !Holds(archs[a], r)
    ensures TotalAcquired(archs, r) == 0
  {
    if archs != [] {
      NothingAcquired(archs[..|archs| - 1], r);
      assert !Holds(archs[|archs| - 1], r);
    }
  }

  lemma StepKeepsInv(store0: Store, s: State, step: Step)
    requires Inv(store0, s) && Enabled(s, step)
    ensures Inv(store0, Do(s, step))
  {
    match step
    case DoRead(a, r) => ReadKeepsInv(store0, s, a, r);
    case DoWrite(a, r, v) => WriteKeepsInv(store0, s, a, r, v);
    case TimeOut(a, r) => GiveUpKeepsInv(store0, s, a, s.archs[a].dirty + {r});
    case Fail(a) => GiveUpKeepsInv(store0, s, a, s.archs[a].dirty);
    case PreCommit(a) => PreCommitKeepsInv(store0, s, a);
    case CommitOne(a, r) => CommitOneKeepsInv(store0, s, a, r);
    case AbortOne(a, r) => AbortOneKeepsInv(store0, s, a, r);
    case Finish(a) => FinishKeepsInv(store0, s, a);
  }

  lemma {:induction false} RunKeepsInv(run: Run, k: nat)
    requires IsRun(run) && k < |run.states|
    ensures Inv(InitialStore(run.states[0]), run.states[k])
  {
    if k == 0 {
      InitInv(run.states[0]);
    } else {
      RunKeepsInv(run, k - 1);
      assert StepAt(run, k - 1);
      StepKeepsInv(InitialStore(run.states[0]), run.states[k - 1], run.steps[k - 1]);
    }
  }

  /**
   Serializability: in every reachable state, running the committed sections one after the other from the initial
   values, in commit order, makes every one of their reads return what it returned.
   */
  lemma CommittedSectionsAreSerial(run: Run, k: nat)
    requires IsRun(run) && k < |run.states|
    ensures LegalAll(InitialStore(run.states[0]), run.states[k].log)
  {
    RunKeepsInv(run, k);
  }

  /**
   The shared values are what that serial execution leaves: a value nobody writes is it, and one that an attempt has
   overwritten goes back to it if the attempt aborts. So aborted attempts leave no trace.
   */
  lemma SharedValuesAreSerial(run: Run, k: nat, r: Rid)
    requires IsRun(run) && k < |run.states| && r in run.states[k].shared
    ensures var s := run.states[k];
            var store := ApplyAll(InitialStore(run.states[0]), s.log);
            && r in store
            && (NoWriter(s.archs, r) ==> s.shared[r].cell.value == store[r])
            && (forall a :: 0 <= a < |s.archs| && WriteHolds(s.archs[a], r) && !s.archs[a].phase.Committing? ==>
                  AfterAbort(s.shared[r], Acquired(s.archs[a], r)).cell.value == store[r])
            && (forall a :: 0 <= a < |s.archs| && WriteHolds(s.archs[a], r) && s.archs[a].phase.Committing? ==>
                  AfterCommit(s.shared[r], Acquired(s.archs[a], r)).cell.value == store[r])
  {
    RunKeepsInv(run, k);
    var s := run.states[k];
    var store := ApplyAll(InitialStore(run.states[0]), s.log);
    assert CellOk(store, s, r);
    forall a | 0 <= a < |s.archs| ensures PairOk(store, s.archs[a], r, s.shared[r].cell) {}
  }

  /** An attempt still running, even one that will abort, has read only what it would have read running alone now. */
  lemma AttemptsReadConsistently(run: Run, k: nat, a: nat)
    requires IsRun(run) && k < |run.states| && a < |run.states[k].archs| && run.states[k].archs[a].phase.Running?
    ensures Legal(ApplyAll(InitialStore(run.states[0]), run.states[k].log), run.states[k].archs[a].ops)
  {
    RunKeepsInv(run, k);
  }

  /** The semaphore is a read-write lock: no writer beside another holder, and releases never overflow it. */
  lemma WritersAreAlone(run: Run, k: nat, r: Rid, a: nat, b: nat)
    requires IsRun(run) && k < |run.states| && r in run.states[k].shared
    requires a < |run.states[k].archs| && b < |run.states[k].archs| && a != b && WriteHolds(run.states[k].archs[a], r)
    ensures !Holds(run.states[k].archs[b], r)
    ensures run.states[k].shared[r].free + Acquired(run.states[k].archs[a], r) <= MAX_SEM_SIZE
  {
    RunKeepsInv(run, k);
    var s := run.states[k];
    assert CellOk(ApplyAll(InitialStore(run.states[0]), s.log), s, r);
    WriterExcludes(s, r, a, b);
  }

  // ----- only conflicts make an archetype wait

  /** Nothing, a reader's one unit, or all of them. */
  predicate UnitsOk(x: Archetype, r: Rid) {
    Acquired(x, r) == 0 || Acquired(x, r) == 1 || WriteHolds(x, r)
  }

  ghost predicate AllUnitsOk(s: State) {
    forall a: nat, r: Rid {:trigger UnitsOk(s.archs[a], r)} :: a < |s.archs| ==> UnitsOk(s.archs[a], r)
  }

  lemma {:induction false} RunKeepsUnits(run: Run, k: nat)
    requires IsRun(run) && k < |run.states|
    ensures AllUnitsOk(run.states[k])
  {
    if k == 0 {
      forall a: nat, r: Rid | a < |run.states[0].archs| ensures UnitsOk(run.states[0].archs[a], r) {
        assert run.states[0].archs[a] == Archetype(Running, map[], {}, []);
      }
    } else {
      RunKeepsUnits(run, k - 1);
      assert StepAt(run, k - 1);
      var s, s' := run.states[k - 1], run.states[k];
      forall a: nat, r: Rid | a < |s'.archs| ensures UnitsOk(s'.archs[a], r) {
        assert UnitsOk(s.archs[a], r);
      }
    }
  }

  /** With no writer, every archetype but one holds at most a unit. */
  lemma {:induction false} ReadersTakeOneEach(archs: seq<Archetype>, a: nat, r: Rid)
    requires forall b: nat :: b < |archs| ==> UnitsOk(archs[b], r) && (b != a ==> !WriteHolds(archs[b], r))
    ensures TotalAcquired(archs, r) <= (if a < |archs| then Acquired(archs[a], r) + |archs| - 1 else |archs|)
    decreases |archs|
  {
    if archs != [] {
      ReadersTakeOneEach(archs[..|archs| - 1], a, r);
    }
  }

  lemma {:induction false} OnlyHolder(archs: seq<Archetype>, a: nat, r: Rid)
    requires forall b: nat :: b < |archs| && b != a ==> !Holds(archs[b], r)
    ensures TotalAcquired(archs, r) == if a < |archs| then Acquired(archs[a], r) else 0
    decreases |archs|
  {
    if archs != [] {
      OnlyHolder(archs[..|archs| - 1], a, r);
    }
  }

  /**
   There are units for an archetype to read exactly if no other holds the value for writing, and to write exactly if no
   other holds it at all: readers share it, and the only holder can upgrade. The semaphore has room for as many archetypes
   as it has units.
   */
  lemma OnlyConflictsWait(run: Run, k: nat, a: nat, r: Rid, v: Value)
    requires IsRun(run) && k < |run.states| && a < |run.states[k].archs| && r in run.states[k].shared
    requires run.states[k].archs[a].phase.Running? && |run.states[k].archs| <= MAX_SEM_SIZE
    ensures var s := run.states[k];
            && (Enabled(s, DoRead(a, r)) <==> forall b: nat {:trigger s.archs[b]} :: b < |s.archs| && b != a ==> !WriteHolds(s.archs[b], r))
            && (Enabled(s, DoWrite(a, r, v)) <==> forall b: nat {:trigger s.archs[b]} :: b < |s.archs| && b != a ==> !Holds(s.archs[b], r))
  {
    RunKeepsInv(run, k);
    RunKeepsUnits(run, k);
    var s := run.states[k];
    assert CellOk(ApplyAll(InitialStore(run.states[0]), s.log), s, r);
    ReadsWait(s, a, r);
    WritesWait(s, a, r, v);
  }

  lemma ReadsWait(s: State, a: nat, r: Rid)
    requires r in s.shared && SemOk(s, r) && AllUnitsOk(s) && a < |s.archs| <= MAX_SEM_SIZE && s.archs[a].phase.Running?
    ensures Enabled(s, DoRead(a, r)) <==> forall b: nat {:trigger s.archs[b]} :: b < |s.archs| && b != a ==> !WriteHolds(s.archs[b], r)
  {
    if forall b: nat {:trigger s.archs[b]} :: b < |s.archs| && b != a ==> !WriteHolds(s.archs[b], r) {
      forall b: nat | b < |s.archs| ensures UnitsOk(s.archs[b], r) {}
      ReadersTakeOneEach(s.archs, a, r);
    }
    if Enabled(s, DoRead(a, r)) {
      forall b: nat | b < |s.archs| && b != a ensures !WriteHolds(s.archs[b], r) {
        WriterExcludes(s, r, a, b);
      }
    }
  }

  lemma WritesWait(s: State, a: nat, r: Rid, v: Value)
    requires r in s.shared && SemOk(s, r) && AllUnitsOk(s) && a < |s.archs| && s.archs[a].phase.Running?
    ensures Enabled(s, DoWrite(a, r, v)) <==> forall b: nat {:trigger s.archs[b]} :: b < |s.archs| && b != a ==> !Holds(s.archs[b], r)
  {
    if forall b: nat {:trigger s.archs[b]} :: b < |s.archs| && b != a ==> !Holds(s.archs[b], r) {
      OnlyHolder(s.archs, a, r);
      assert UnitsOk(s.archs[a], r);
    }
    if Enabled(s, DoWrite(a, r, v)) {
      AboutToWrite(s, r, a);
    }
  }
}
