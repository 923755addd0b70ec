/** The add-wins observed-remove set: two maps of vector clocks, and what merging two replicas keeps. */
module AddWinsSet {

  import G = GCounter

  type Id = G.Id

  type Elem = string

  /** A vector clock is a grow-only counter. */
  type Clock = G.Counter

  function Inc(c: Clock, i: Id): Clock {
    G.Write(c, i, 1)
  }

  // ----- clock order

  datatype Ordering = LT | EQ | GT | CC

  ghost predicate AtMost(a: Clock, b: Clock) {
    forall i: Id {:trigger G.Get(a, i)} {:trigger G.Get(b, i)} :: G.Get(a, i) <= G.Get(b, i)
  }

  /** The pointwise order, absent entries counting as 0. */
  ghost function Order(a: Clock, b: Clock): Ordering {
    if AtMost(a, b) then if AtMost(b, a) then EQ else LT
    else if AtMost(b, a) then GT else CC
  }

  lemma InhabitedElems(s: set<Elem>)
    requires s != {}
    ensures exists x :: x in s
  {
  }

  /**
   The loop looks at the keys of both clocks, in whatever order the iteration gives. When the clocks differ in size
   it also looks at the key an exhausted iterator returns, `none`, which is in neither.
   */
  method Compare(a: Clock, b: Clock, none: Id) returns (res: Ordering)
    ensures res == Order(a, b)
  {
    var keys := a.Keys + b.Keys + if |a| != |b| then {none} else {};
    res := EQ;
    ghost var seen: set<Id> := {};
    while keys != {}
      invariant seen + keys >= a.Keys + b.Keys
      invariant res == EQ ==> forall i :: i in seen ==> G.Get(a, i) == G.Get(b, i)
      invariant res == LT ==> (forall i :: i in seen ==> G.Get(a, i) <= G.Get(b, i)) && exists i :: i in seen && G.Get(a, i) < G.Get(b, i)
      invariant res == GT ==> (forall i :: i in seen ==> G.Get(b, i) <= G.Get(a, i)) && exists i :: i in seen && G.Get(b, i) < G.Get(a, i)
      invariant res == CC ==> (exists i :: i in seen && G.Get(a, i) < G.Get(b, i)) && exists i :: i in seen && G.Get(b, i) < G.Get(a, i)
    {
      G.Inhabited(keys);
      var k: Id :| k in keys;
      var v1 := if k in a then a[k] else 0;
      var v2 := if k in b then b[k] else 0;
      if res == EQ && v1 > v2 {
        res := GT;
      } else if res == EQ && v1 < v2 {
        res := LT;
      } else if res == LT && v1 > v2 {
        res := CC;
      } else if res == GT && v1 < v2 {
        res := CC;
      }
      keys := keys - {k};
      seen := seen + {k};
    }
    forall i: Id | i !in seen ensures G.Get(a, i) == G.Get(b, i) == 0 {}
  }

  // ----- the set

  datatype AWORSet = AWORSet(addMap: map<Elem, Clock>, remMap: map<Elem, Clock>)

  datatype Cmd = Add(elem: Elem) | Remove(elem: Elem)

  function Init(): AWORSet {
    AWORSet(map[], map[])
  }

  function Write(s: AWORSet, id: Id, cmd: Cmd): AWORSet {
    var x := cmd.elem;
    match cmd
    case Add(_) =>
      if x in s.addMap then AWORSet(s.addMap[x := Inc(s.addMap[x], id)], s.remMap - {x})
      else if x in s.remMap then AWORSet(s.addMap[x := Inc(s.remMap[x], id)], s.remMap - {x})
      else s.(addMap := s.addMap[x := Inc(map[], id)])
    case Remove(_) =>
      if x in s.addMap then AWORSet(s.addMap - {x}, s.remMap[x := Inc(s.addMap[x], id)])
      else if x in s.remMap then AWORSet(s.addMap - {x}, s.remMap[x := Inc(s.remMap[x], id)])
      else s.(remMap := s.remMap[x := Inc(map[], id)])
  }

  ghost function Read(s: AWORSet): set<Elem> {
    set x | x in s.addMap && (x !in s.remMap || Order(s.addMap[x], s.remMap[x]) != LT)
  }

  function MergeKeys(a: map<Elem, Clock>, b: map<Elem, Clock>): map<Elem, Clock> {
    map x | x in a.Keys + b.Keys :: if x !in a then b[x] else if x !in b then a[x] else G.Merge(a[x], b[x])
  }

  /** Which of the merged entries for `x` survives: the add, unless its clock is less than the remove's. */
  ghost predicate AddSurvives(addK: map<Elem, Clock>, remK: map<Elem, Clock>, x: Elem) {
    x in addK && (x !in remK || Order(addK[x], remK[x]) != LT)
  }

  ghost predicate RemSurvives(addK: map<Elem, Clock>, remK: map<Elem, Clock>, x: Elem) {
    x in remK && (x !in addK || Order(addK[x], remK[x]) == LT)
  }

  ghost function Merge(s: AWORSet, t: AWORSet): AWORSet {
    var addK, remK := MergeKeys(s.addMap, t.addMap), MergeKeys(s.remMap, t.remMap);
    AWORSet(map x | x in addK && AddSurvives(addK, remK, x) :: addK[x],
            map x | x in remK && RemSurvives(addK, remK, x) :: remK[x])
  }

  // ----- the loops

  method MergeKeysLoop(a: map<Elem, Clock>, b: map<Elem, Clock>) returns (acc: map<Elem, Clock>)
    ensures acc == MergeKeys(a, b)
  {
    acc := a;
    var rest := b.Keys;
    while rest != {}
      invariant rest <= b.Keys && acc.Keys == a.Keys + (b.Keys - rest)
      invariant forall x :: x in acc ==> acc[x] == if x in rest then a[x] else MergeKeys(a, b)[x]
    {
      InhabitedElems(rest);
      var x :| x in rest;
      acc := acc[x := if x in acc then G.Merge(acc[x], b[x]) else b[x]];
      rest := rest - {x};
    }
  }

  method ReadLoop(s: AWORSet, none: Id) returns (r: set<Elem>)
    ensures r == Read(s)
  {
    r := {};
    var rest := s.addMap.Keys;
    while rest != {}
      invariant rest <= s.addMap.Keys
      invariant forall x :: x in r <==> x in Read(s) && x !in rest
    {
      InhabitedElems(rest);
      var x :| x in rest;
      if x !in s.remMap {
        r := r + {x};
      } else {
        var order := Compare(s.addMap[x], s.remMap[x], none);
        if order != LT {
          r := r + {x};
        }
      }
      rest := rest - {x};
    }
  }

  method KeepAdds(addK: map<Elem, Clock>, remK: map<Elem, Clock>, none: Id) returns (addB: map<Elem, Clock>)
    ensures addB == map x | x in addK && AddSurvives(addK, remK, x) :: addK[x]
  {
    addB := map[];
    var rest := addK.Keys;
    while rest != {}
      invariant rest <= addK.Keys
      invariant forall x :: x in addB <==> AddSurvives(addK, remK, x) && x !in rest
      invariant forall x :: x in addB ==> addB[x] == addK[x]
    {
      InhabitedElems(rest);
      var x :| x in rest;
      var keep := x !in remK;
      if !keep {
        var order := Compare(addK[x], remK[x], none);
        keep := order != LT;
      }
      if keep {
        addB := addB[x := addK[x]];
      }
      rest := rest - {x};
    }
  }

  method KeepRems(addK: map<Elem, Clock>, remK: map<Elem, Clock>, none: Id) returns (remB: map<Elem, Clock>)
    ensures remB == map x | x in remK && RemSurvives(addK, remK, x) :: remK[x]
  {
    remB := map[];
    var rest := remK.Keys;
    while rest != {}
      invariant rest <= remK.Keys
      invariant forall x :: x in remB <==> RemSurvives(addK, remK, x) && x !in rest
      invariant forall x :: x in remB ==> remB[x] == remK[x]
    {
      InhabitedElems(rest);
      var x :| x in rest;
      var keep := x !in addK;
      if !keep {
        var order := Compare(addK[x], remK[x], none);
        keep := order == LT;
      }
      if keep {
        remB := remB[x := remK[x]];
      }
      rest := rest - {x};
    }
  }

  method MergeLoops(s: AWORSet, t: AWORSet, none: Id) returns (r: AWORSet)
    ensures r == Merge(s, t)
  {
    var addK := MergeKeysLoop(s.addMap, t.addMap);
    var remK := MergeKeysLoop(s.remMap, t.remMap);
    var addB := KeepAdds(addK, remK, none);
    var remB := KeepRems(addK, remK, none);
    r := AWORSet(addB, remB);
  }

  // ----- what every set satisfies

  predicate Disjoint(s: AWORSet) {
    s.addMap.Keys !! s.remMap.Keys
  }

  lemma WriteKeepsDisjoint(s: AWORSet, id: Id, cmd: Cmd)
    requires Disjoint(s)
    ensures Disjoint(Write(s, id, cmd))
  {
  }

  lemma MergeIsDisjoint(s: AWORSet, t: AWORSet)
    ensures Disjoint(Merge(s, t))
    ensures Read(Merge(s, t)) == Merge(s, t).addMap.Keys
  {
    var m := Merge(s, t);
    forall x | x in m.addMap ensures x !in m.remMap {
      assert x in MergeKeys(s.addMap, t.addMap);
    }
  }

  lemma MergeCommutes(s: AWORSet, t: AWORSet)
    ensures Merge(s, t) == Merge(t, s)
  {
    MergeKeysCommutes(s.addMap, t.addMap);
    MergeKeysCommutes(s.remMap, t.remMap);
  }

  lemma MergeKeysCommutes(a: map<Elem, Clock>, b: map<Elem, Clock>)
    ensures MergeKeys(a, b) == MergeKeys(b, a)
  {
    forall x | x in a && x in b ensures G.Merge(a[x], b[x]) == G.Merge(b[x], a[x]) {
      assert G.Merge(a[x], b[x]).Keys == G.Merge(b[x], a[x]).Keys;
    }
    assert MergeKeys(a, b).Keys == MergeKeys(b, a).Keys;
  }

  lemma MergeIsIdempotent(s: AWORSet)
    requires Disjoint(s)
    ensures Merge(s, s) == s
  {
    MergeKeysSelf(s.addMap);
    MergeKeysSelf(s.remMap);
  }

  lemma MergeKeysSelf(a: map<Elem, Clock>)
    ensures MergeKeys(a, a) == a
  {
    forall x | x in a ensures G.Merge(a[x], a[x]) == a[x] {
      assert G.Merge(a[x], a[x]).Keys == a[x].Keys;
    }
  }

  // ----- two replicas

  function WriteAll(s: AWORSet, id: Id, cmds: seq<Cmd>): AWORSet {
    if cmds == [] then s else Write(WriteAll(s, id, cmds[..|cmds| - 1]), id, cmds[|cmds| - 1])
  }

  /** How often the commands are about `x`. */
  function Touches(cmds: seq<Cmd>, x: Elem): nat {
    if cmds == [] then 0
    else Touches(cmds[..|cmds| - 1], x) + if cmds[|cmds| - 1].elem == x then 1 else 0
  }

  /** Whether the last of them about `x` adds it. */
  predicate EndsWithAdd(cmds: seq<Cmd>, x: Elem) {
    cmds != [] &&
    if cmds[|cmds| - 1].elem == x then cmds[|cmds| - 1].Add? else EndsWithAdd(cmds[..|cmds| - 1], x)
  }

  function ClockOf(s: AWORSet, x: Elem): Clock {
    if x in s.addMap then s.addMap[x] else if x in s.remMap then s.remMap[x] else map[]
  }

  function Advanced(c: Clock, id: Id, n: nat): Clock {
    if n == 0 then c else c[id := G.Get(c, id) + n]
  }

  /** A replica's commands on `x` advance its own entry of the clock and nothing else; the last one decides. */
  lemma {:induction false} AfterCommands(s: AWORSet, id: Id, cmds: seq<Cmd>, x: Elem)
    requires Disjoint(s)
    ensures var t := WriteAll(s, id, cmds);
            && Disjoint(t)
            && ClockOf(t, x) == Advanced(ClockOf(s, x), id, Touches(cmds, x))
            && (Touches(cmds, x) == 0 ==> (x in t.addMap <==> x in s.addMap) && (x in t.remMap <==> x in s.remMap))
            && (Touches(cmds, x) > 0 ==> (x in t.addMap <==> EndsWithAdd(cmds, x)) && (x in t.remMap <==> !EndsWithAdd(cmds, x)))
  {
    hide Write, ClockOf, Advanced, Inc;
    if cmds == [] {
      NotAdvanced(ClockOf(s, x), id);
    } else {
      var n := |cmds| - 1;
      AfterCommands(s, id, cmds[..n], x);
      AfterOne(WriteAll(s, id, cmds[..n]), id, cmds[n], x);
      AdvancedOnce(ClockOf(s, x), id, Touches(cmds[..n], x));
    }
  }

  lemma NotAdvanced(c: Clock, id: Id)
    ensures Advanced(c, id, 0) == c
  {
  }

  lemma AdvancedOnce(c: Clock, id: Id, n: nat)
    ensures Inc(Advanced(c, id, n), id) == Advanced(c, id, n + 1)
  {
  }

  lemma AfterOne(s: AWORSet, id: Id, cmd: Cmd, x: Elem)
    requires Disjoint(s)
    ensures var t := Write(s, id, cmd);
            && Disjoint(t)
            && (cmd.elem != x ==> ClockOf(t, x) == ClockOf(s, x) && (x in t.addMap <==> x in s.addMap) && (x in t.remMap <==> x in s.remMap))
            && (cmd.elem == x ==> ClockOf(t, x) == Inc(ClockOf(s, x), id) && (x in t.addMap <==> cmd.Add?) && (x in t.remMap <==> cmd.Remove?))
  {
  }

  lemma AdvancedOrder(c: Clock, a: Id, m: nat, b: Id, n: nat)
    requires a != b
    ensures AtMost(Advanced(c, a, m), Advanced(c, b, n)) <==> m == 0
  {
    var x, y := Advanced(c, a, m), Advanced(c, b, n);
    assert G.Get(x, a) == G.Get(c, a) + m && G.Get(y, a) == G.Get(c, a);
    forall i: Id | m == 0 ensures G.Get(x, i) <= G.Get(y, i) {}
  }

  /**
   Two replicas with different ids start from the same set and take any commands. After the merge `x` is present
   exactly if a replica that touched it ended with an add, or neither touched it and it was present.
   */
  lemma AddWins(s: AWORSet, a: Id, cmdsA: seq<Cmd>, b: Id, cmdsB: seq<Cmd>, x: Elem)
    requires Disjoint(s) && a != b
    ensures var m := Merge(WriteAll(s, a, cmdsA), WriteAll(s, b, cmdsB));
            x in Read(m) <==>
              || (Touches(cmdsA, x) > 0 && EndsWithAdd(cmdsA, x))
              || (Touches(cmdsB, x) > 0 && EndsWithAdd(cmdsB, x))
              || (Touches(cmdsA, x) == 0 && Touches(cmdsB, x) == 0 && x in Read(s))
  {
    var s1, s2 := WriteAll(s, a, cmdsA), WriteAll(s, b, cmdsB);
    AfterCommands(s, a, cmdsA, x);
    AfterCommands(s, b, cmdsB, x);
    AdvancedOrder(ClockOf(s, x), a, Touches(cmdsA, x), b, Touches(cmdsB, x));
    AdvancedOrder(ClockOf(s, x), b, Touches(cmdsB, x), a, Touches(cmdsA, x));
    MergeIsDisjoint(s1, s2);
    MergedElement(s1, s2, x);
  }

  /** Where one of the replicas has `x` added and the other removed, the clocks decide. */
  lemma MergedElement(s: AWORSet, t: AWORSet, x: Elem)
    requires Disjoint(s) && Disjoint(t)
    ensures var m := Merge(s, t);
            && (x in s.addMap && x in t.remMap ==> (x in m.addMap <==> Order(s.addMap[x], t.remMap[x]) != LT))
            && (x in s.remMap && x in t.addMap ==> (x in m.addMap <==> Order(t.addMap[x], s.remMap[x]) != LT))
            && (x in s.addMap && x !in t.remMap ==> x in m.addMap)
            && (x in t.addMap && x !in s.remMap ==> x in m.addMap)
            && (x !in s.addMap && x !in t.addMap ==> x !in m.addMap)
  {
  }

  // ----- the clocks that are kept

  /** Clocks count events. */
  predicate Counting(c: Clock) {
    forall i {:trigger i in c} :: i in c ==> c[i] >= 0
  }

  predicate ClocksOk(s: AWORSet) {
    && (forall x {:trigger s.addMap[x]} :: x in s.addMap ==> Counting(s.addMap[x]))
    && (forall x {:trigger s.remMap[x]} :: x in s.remMap ==> Counting(s.remMap[x]))
  }

  /** Every set that replicas can make has such clocks, and no element twice. */
  ghost predicate Valid(s: AWORSet) {
    Disjoint(s) && ClocksOk(s)
  }

  lemma InitIsValid()
    ensures Valid(Init()) && Read(Init()) == {}
  {
  }

  lemma WriteKeepsValid(s: AWORSet, id: Id, cmd: Cmd)
    requires Valid(s)
    ensures Valid(Write(s, id, cmd))
  {
    WriteKeepsDisjoint(s, id, cmd);
  }

  lemma MergeKeepsValid(s: AWORSet, t: AWORSet)
    requires Valid(s) && Valid(t)
    ensures Valid(Merge(s, t))
  {
    MergeIsDisjoint(s, t);
    var m := Merge(s, t);
    forall x | x in m.addMap ensures Counting(m.addMap[x]) {
      KeptClock(s.addMap, t.addMap, x);
    }
    forall x | x in m.remMap ensures Counting(m.remMap[x]) {
      KeptClock(s.remMap, t.remMap, x);
    }
  }

  lemma KeptClock(a: map<Elem, Clock>, b: map<Elem, Clock>, x: Elem)
    requires x in a || x in b
    requires (x in a ==> Counting(a[x])) && (x in b ==> Counting(b[x]))
    ensures x in MergeKeys(a, b) && Counting(MergeKeys(a, b)[x])
    ensures var c, d := if x in a then a[x] else map[], if x in b then b[x] else map[]; LeastAbove(c, d, MergeKeys(a, b)[x])
  {
    if x in a && x in b {
      ClockMergeIsJoin(a[x], b[x]);
    }
  }

  /** Of the clocks that are pointwise at least both, `c` is the least. */
  ghost predicate LeastAbove(a: Clock, b: Clock, c: Clock) {
    && AtMost(a, c) && AtMost(b, c)
    && forall d: Clock {:trigger AtMost(c, d)} :: AtMost(a, d) && AtMost(b, d) ==> AtMost(c, d)
  }

  lemma ClockMergeIsJoin(a: Clock, b: Clock)
    requires Counting(a) && Counting(b)
    ensures Counting(G.Merge(a, b)) && LeastAbove(a, b, G.Merge(a, b))
  {
    var c := G.Merge(a, b);
    forall d: Clock | AtMost(a, d) && AtMost(b, d) ensures AtMost(c, d) {
      forall i: Id ensures G.Get(c, i) <= G.Get(d, i) {
        assert G.Get(c, i) == G.Get(a, i) || G.Get(c, i) == G.Get(b, i);
      }
    }
  }

  /** Whether `s` says something of `x`. */
  predicate Knows(s: AWORSet, x: Elem) {
    x in s.addMap || x in s.remMap
  }

  /**
   What a merge keeps of `x`. Where both sides have it added, or both removed, the least clock that is pointwise at least
   both; where they differ, the side that survives with its clock; where only one knows it, that one's word.
   */
  lemma MergedClock(s: AWORSet, t: AWORSet, x: Elem)
    requires Valid(s) && Valid(t)
    ensures var m := Merge(s, t);
            && (x in s.addMap && x in t.addMap ==> x in m.addMap && LeastAbove(s.addMap[x], t.addMap[x], m.addMap[x]))
            && (x in s.remMap && x in t.remMap ==> x in m.remMap && LeastAbove(s.remMap[x], t.remMap[x], m.remMap[x]))
            && (x in s.addMap && x in t.remMap ==>
                  if Order(s.addMap[x], t.remMap[x]) == LT then x in m.remMap && m.remMap[x] == t.remMap[x]
                  else x in m.addMap && m.addMap[x] == s.addMap[x])
            && (x in s.remMap && x in t.addMap ==>
                  if Order(t.addMap[x], s.remMap[x]) == LT then x in m.remMap && m.remMap[x] == s.remMap[x]
                  else x in m.addMap && m.addMap[x] == t.addMap[x])
            && (!Knows(t, x) && x in s.addMap ==> x in m.addMap && m.addMap[x] == s.addMap[x])
            && (!Knows(t, x) && x in s.remMap ==> x in m.remMap && m.remMap[x] == s.remMap[x])
            && (!Knows(s, x) && x in t.addMap ==> x in m.addMap && m.addMap[x] == t.addMap[x])
            && (!Knows(s, x) && x in t.remMap ==> x in m.remMap && m.remMap[x] == t.remMap[x])
            && (!Knows(s, x) && !Knows(t, x) ==> !Knows(m, x))
  {
    if x in s.addMap && x in t.addMap {
      ClockMergeIsJoin(s.addMap[x], t.addMap[x]);
    }
    if x in s.remMap && x in t.remMap {
      ClockMergeIsJoin(s.remMap[x], t.remMap[x]);
    }
  }

  /** Whoever has merged an add knows it: the clock of the element is pointwise at least the add's. */
  lemma MergedIsAbove(s: AWORSet, t: AWORSet, x: Elem)
    requires Valid(s) && Valid(t) && x in t.addMap
    ensures AtMost(t.addMap[x], ClockOf(Merge(s, t), x))
  {
    MergeIsDisjoint(s, t);
    MergedClock(s, t, x);
  }

  /** A write's clock is later than what its replica knew of the element, by one event of its own; others are untouched. */
  lemma WriteIsLater(s: AWORSet, id: Id, cmd: Cmd)
    requires Disjoint(s)
    ensures var t := Write(s, id, cmd);
            && Order(ClockOf(s, cmd.elem), ClockOf(t, cmd.elem)) == LT
            && G.Get(ClockOf(t, cmd.elem), id) == G.Get(ClockOf(s, cmd.elem), id) + 1
            && (forall i: Id {:trigger G.Get(ClockOf(t, cmd.elem), i)} :: i != id ==> G.Get(ClockOf(t, cmd.elem), i) == G.Get(ClockOf(s, cmd.elem), i))
            && (cmd.elem in t.addMap <==> cmd.Add?) && (cmd.elem in t.remMap <==> cmd.Remove?)
            && (forall x :: x != cmd.elem ==> ClockOf(t, x) == ClockOf(s, x) && (x in t.addMap <==> x in s.addMap) && (x in t.remMap <==> x in s.remMap))
  {
    var x, t := cmd.elem, Write(s, id, cmd);
    AfterOne(s, id, cmd, x);
    var c := ClockOf(s, x);
    assert G.Get(Inc(c, id), id) == G.Get(c, id) + 1;
    assert AtMost(c, Inc(c, id));
    forall y | y != x ensures ClockOf(t, y) == ClockOf(s, y) && (y in t.addMap <==> y in s.addMap) && (y in t.remMap <==> y in s.remMap) {
      AfterOne(s, id, cmd, y);
    }
  }

  /** What is at least a clock with one more event is later than that clock. */
  lemma LaterThan(a: Clock, b: Clock, c: Clock)
    requires AtMost(a, b) && Order(b, c) == LT
    ensures Order(a, c) == LT
  {
    AtMostTransitive(a, b, c);
    AtMostTransitive(c, a, b);
  }

  lemma AtMostTransitive(a: Clock, b: Clock, c: Clock)
    ensures AtMost(a, b) && AtMost(b, c) ==> AtMost(a, c)
  {
    if AtMost(a, b) && AtMost(b, c) {
      forall i: Id ensures G.Get(a, i) <= G.Get(c, i) {
        assert G.Get(a, i) <= G.Get(b, i) && G.Get(b, i) <= G.Get(c, i);
      }
    }
  }

  /**
   An observed add is removed: whoever has merged `t` and then removes an element takes it away from `t` too, even where
   other replicas have added it concurrently to `t`.
   */
  lemma ObservedAddIsRemoved(s: AWORSet, t: AWORSet, id: Id, x: Elem)
    requires Valid(s) && Valid(t)
    ensures x !in Read(Merge(t, Write(Merge(s, t), id, Remove(x))))
  {
    hide Merge, Write, Order, AtMost, LeastAbove, ClocksOk;
    var m := Merge(s, t);
    var w := Write(m, id, Remove(x));
    MergeKeepsValid(s, t);
    WriteKeepsValid(m, id, Remove(x));
    WriteIsLater(m, id, Remove(x));
    MergeIsDisjoint(t, w);
    MergedClock(t, w, x);
    if x in t.addMap {
      MergedIsAbove(s, t, x);
      LaterThan(t.addMap[x], ClockOf(m, x), ClockOf(w, x));
    }
  }

  /** Merging the state a replica wrote to into the state it made of it changes nothing that can be read. */
  lemma OlderStateAddsNothing(s: AWORSet, id: Id, cmd: Cmd, x: Elem)
    requires Valid(s)
    ensures var w := Write(s, id, cmd);
            x in Read(Merge(s, w)) <==> x in Read(w)
  {
    hide Merge, Write, Order, LeastAbove, ClocksOk;
    var w := Write(s, id, cmd);
    WriteKeepsValid(s, id, cmd);
    WriteIsLater(s, id, cmd);
    MergeIsDisjoint(s, w);
    MergedClock(s, w, x);
    ReadOfDisjoint(w);
    if x in s.remMap && x in w.addMap {
      NotBefore(s.remMap[x], w.addMap[x]);
    }
  }

  lemma ReadOfDisjoint(s: AWORSet)
    requires Disjoint(s)
    ensures Read(s) == s.addMap.Keys
  {
  }

  lemma NotBefore(a: Clock, b: Clock)
    requires Order(a, b) == LT
    ensures Order(b, a) != LT
  {
  }
}
