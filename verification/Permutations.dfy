/** ModuleSeq: every order of a set's elements, generated in place by Heap's algorithm. */
module Permutations {

  function Swap<T>(s: seq<T>, i: nat, j: nat): (r: seq<T>)
    requires i < |s| && j < |s|
    ensures |r| == |s| && multiset(r) == multiset(s)
  {
    s[i := s[j]][j := s[i]]
  }

  // ----- the algorithm as functions of the array's contents

  /** The position exchanged with the last one after recursive call `i`. */
  function Partner(k: nat, i: nat): nat {
    if k % 2 == 0 then i else 0
  }

  /** What `generatePermutations(k)` leaves in the array. */
  function Net<T>(s: seq<T>, k: nat): (r: seq<T>)
    requires 1 <= k <= |s|
    ensures |r| == |s|
    decreases k, k
  {
    if k == 1 then s else Net(Phase(s, k, k - 1), k - 1)
  }

  /** The array when recursive call `i` of `generatePermutations(k)` starts. */
  function Phase<T>(s: seq<T>, k: nat, i: nat): (r: seq<T>)
    requires 2 <= k <= |s| && i < k
    ensures |r| == |s|
    decreases k, i
  {
    if i == 0 then s else Swap(Net(Phase(s, k, i - 1), k - 1), Partner(k, i - 1), k - 1)
  }

  /** The tuples `generatePermutations(k)` stores. */
  function Stored<T(==)>(s: seq<T>, k: nat): set<seq<T>>
    requires 1 <= k <= |s|
    decreases k, k + 1
  {
    if k == 1 then {s} else StoredBefore(s, k, k)
  }

  /** Those stored by its first `i` recursive calls. */
  function StoredBefore<T(==)>(s: seq<T>, k: nat, i: nat): set<seq<T>>
    requires 2 <= k <= |s| && i <= k
    decreases k, i
  {
    if i == 0 then {} else StoredBefore(s, k, i - 1) + Stored(Phase(s, k, i - 1), k - 1)
  }

  method GeneratePermutations<T(==)>(elems: array<T>, k: nat, builder: set<seq<T>>) returns (stored: set<seq<T>>)
    requires 1 <= k <= elems.Length
    modifies elems
    ensures elems[..] == Net(old(elems[..]), k)
    ensures stored == builder + Stored(old(elems[..]), k)
    decreases k
  {
    hide Net, Phase, Stored, StoredBefore;
    if k == 1 {
      OneElement(elems[..]);
      stored := builder + {elems[..]};
    } else {
      ghost var s := elems[..];
      stored := GeneratePermutations(elems, k - 1, builder);
      FirstCall(s, k, builder);
      var i := 0;
      while i < k - 1
        invariant 0 <= i <= k - 1
        invariant elems[..] == Net(Phase(s, k, i), k - 1)
        invariant stored == builder + StoredBefore(s, k, i + 1)
      {
        ghost var before := elems[..];
        if k % 2 == 0 {
          elems[i], elems[k - 1] := elems[k - 1], elems[i];
        } else {
          elems[0], elems[k - 1] := elems[k - 1], elems[0];
        }
        assert elems[..] == Swap(before, Partner(k, i), k - 1);
        stored := GeneratePermutations(elems, k - 1, stored);
        NextCall(s, k, i, builder);
        i := i + 1;
      }
      LastCall(s, k);
    }
  }

  lemma LastCall<T>(s: seq<T>, k: nat)
    requires 2 <= k <= |s|
    ensures Net(s, k) == Net(Phase(s, k, k - 1), k - 1) && Stored(s, k) == StoredBefore(s, k, k)
  {
  }

  lemma OneElement<T>(s: seq<T>)
    requires |s| >= 1
    ensures Net(s, 1) == s && Stored(s, 1) == {s}
  {
  }

  lemma FirstCall<T>(s: seq<T>, k: nat, builder: set<seq<T>>)
    requires 2 <= k <= |s|
    ensures Phase(s, k, 0) == s
    ensures builder + Stored(s, k - 1) == builder + StoredBefore(s, k, 1)
  {
    assert StoredBefore(s, k, 1) == StoredBefore(s, k, 0) + Stored(Phase(s, k, 0), k - 1);
  }

  lemma NextCall<T>(s: seq<T>, k: nat, i: nat, builder: set<seq<T>>)
    requires 2 <= k <= |s| && i < k - 1
    ensures Phase(s, k, i + 1) == Swap(Net(Phase(s, k, i), k - 1), Partner(k, i), k - 1)
    ensures builder + StoredBefore(s, k, i + 1) + Stored(Phase(s, k, i + 1), k - 1) == builder + StoredBefore(s, k, i + 2)
  {
  }

  // ----- where every element ends up

  /**
   For odd `k` the exchange after each recursive call turns the array around one cycle through all `k` positions.
   `CycleAt` lists that cycle, beginning with the last position; `CycleIndex` is its inverse.
   */
  function CycleAt(k: nat, j: nat): (p: nat)
    requires 3 <= k && k % 2 == 1 && j < k
    ensures p < k
  {
    if j == 0 then k - 1 else if j == 1 then 0 else if j == 2 then k - 2 else if j == 3 then k - 3 else j - 3
  }

  function CycleIndex(k: nat, p: nat): (j: nat)
    requires 3 <= k && k % 2 == 1 && p < k
    ensures j < k && CycleAt(k, j) == p
  {
    if p == k - 1 then 0 else if p == 0 then 1 else if p == k - 2 then 2 else if p == k - 3 then 3 else p + 3
  }

  function Back(k: nat, j: nat, i: nat): (r: nat)
    requires j < k && i <= k
    ensures r < k
  {
    if i <= j then j - i else j + k - i
  }

  /** The original position of what stands at `p` when recursive call `i` starts. */
  function Source(k: nat, i: nat, p: nat): (r: nat)
    requires 2 <= k && i < k && p < k
    ensures r < k
  {
    if k % 2 == 1 then CycleAt(k, Back(k, CycleIndex(k, p), i))
    else if i == 0 then p
    else if p == k - 1 then if i == k - 1 then 0 else if i == 1 then k - 2 else i - 1
    else if p == 0 then if i % 2 == 1 then k - 1 else 0
    else if p == k - 2 && i < k - 1 then if i % 2 == 1 then 0 else k - 1
    else if p < i then if p == 1 then k - 2 else p - 1
    else p
  }

  /** The original position of what stands at `p` when `generatePermutations(k)` is done. */
  function NetSource(k: nat, p: nat): (r: nat)
    requires 1 <= k && p < k
    ensures r < k
  {
    if k == 1 then p
    else if k % 2 == 1 then if p == 0 then k - 1 else if p == k - 1 then 0 else p
    else if p == k - 1 then 0
    else if k == 2 then 1
    else if p == 0 then k - 3
    else if p == 1 then k - 2
    else if p == k - 2 then k - 1
    else p - 1
  }

  /** One exchange and recursive call further, in terms of positions. */
  function StepSource(k: nat, i: nat, p: nat): (r: nat)
    requires 2 <= k && i + 1 < k && p < k
    ensures r < k
  {
    var j := Partner(k, i);
    if p == k - 1 then NetSource(k - 1, j) else if p == j then k - 1 else NetSource(k - 1, p)
  }

  lemma SourceStep(k: nat, i: nat, p: nat)
    requires 2 <= k && i + 1 < k && p < k
    ensures Source(k, i + 1, p) == Source(k, i, StepSource(k, i, p))
  {
  }

  lemma SourceNet(k: nat, p: nat)
    requires 2 <= k && p < k
    ensures NetSource(k, p) == Source(k, k - 1, if p == k - 1 then p else NetSource(k - 1, p))
  {
  }

  /** The net effect of Heap's algorithm, for every size, and the array at the start of each of its calls. */
  lemma {:induction false} NetIs<T>(s: seq<T>, k: nat, p: nat)
    requires 1 <= k <= |s| && p < |s|
    ensures Net(s, k)[p] == if p < k then s[NetSource(k, p)] else s[p]
    decreases k, k
  {
    if k > 1 {
      NetIs(Phase(s, k, k - 1), k - 1, p);
      if p < k {
        SourceNet(k, p);
        PhaseIs(s, k, k - 1, if p == k - 1 then p else NetSource(k - 1, p));
      } else {
        PhaseIs(s, k, k - 1, p);
      }
    }
  }

  lemma {:induction false} PhaseIs<T>(s: seq<T>, k: nat, i: nat, p: nat)
    requires 2 <= k <= |s| && i < k && p < |s|
    ensures Phase(s, k, i)[p] == if p < k then s[Source(k, i, p)] else s[p]
    decreases k, i
  {
    hide Net, Phase, Source, NetSource;
    if i == 0 {
      FirstPhase(s, k, p);
    } else {
      var prev := Phase(s, k, i - 1);
      PhaseStep(s, k, i, p);
      NetIs(prev, k - 1, Exchanged(k, i - 1, p));
      if p < k {
        PhaseIs(s, k, i - 1, StepSource(k, i - 1, p));
        SourceStep(k, i - 1, p);
      } else {
        PhaseIs(s, k, i - 1, p);
      }
    }
  }

  function Exchanged(k: nat, i: nat, p: nat): nat
    requires 2 <= k
  {
    if p == k - 1 then Partner(k, i) else if p == Partner(k, i) then k - 1 else p
  }

  lemma FirstPhase<T>(s: seq<T>, k: nat, p: nat)
    requires 2 <= k <= |s| && p < |s|
    ensures Phase(s, k, 0)[p] == s[p] && (p < k ==> Source(k, 0, p) == p)
  {
  }

  lemma PhaseStep<T>(s: seq<T>, k: nat, i: nat, p: nat)
    requires 2 <= k <= |s| && 0 < i < k && p < |s|
    ensures Phase(s, k, i)[p] == Net(Phase(s, k, i - 1), k - 1)[Exchanged(k, i - 1, p)]
  {
  }

  // ----- permutations only

  lemma {:induction false} NetPermutes<T>(s: seq<T>, k: nat)
    requires 1 <= k <= |s|
    ensures multiset(Net(s, k)) == multiset(s)
    decreases k, k
  {
    hide Net, Phase;
    if k > 1 {
      PhasePermutes(s, k, k - 1);
      NetPermutes(Phase(s, k, k - 1), k - 1);
      LastCall(s, k);
    } else {
      OneElement(s);
    }
  }

  lemma {:induction false} PhasePermutes<T>(s: seq<T>, k: nat, i: nat)
    requires 2 <= k <= |s| && i < k
    ensures multiset(Phase(s, k, i)) == multiset(s)
    decreases k, i
  {
    hide Net, Phase;
    if i > 0 {
      PhasePermutes(s, k, i - 1);
      NetPermutes(Phase(s, k, i - 1), k - 1);
      NextPhase(s, k, i - 1);
    } else {
      PhaseStart(s, k);
    }
  }

  lemma PhaseStart<T>(s: seq<T>, k: nat)
    requires 2 <= k <= |s|
    ensures Phase(s, k, 0) == s
  {
  }

  lemma NextPhase<T>(s: seq<T>, k: nat, i: nat)
    requires 2 <= k <= |s| && i + 1 < k
    ensures Phase(s, k, i + 1) == Swap(Net(Phase(s, k, i), k - 1), Partner(k, i), k - 1)
  {
  }

  /** `t` reorders the first `k` elements of `s`. */
  predicate Reorders<T(==)>(t: seq<T>, s: seq<T>, k: nat)
    requires k <= |s|
  {
    |t| == |s| && multiset(t) == multiset(s) && t[k..] == s[k..]
  }

  lemma PhaseReorders<T>(s: seq<T>, k: nat, i: nat)
    requires 2 <= k <= |s| && i < k
    ensures Reorders(Phase(s, k, i), s, k)
  {
    PhasePermutes(s, k, i);
    forall p | k <= p < |s| ensures Phase(s, k, i)[p] == s[p] {
      PhaseIs(s, k, i, p);
    }
  }

  lemma {:induction false} StoredReorders<T>(s: seq<T>, k: nat, t: seq<T>)
    requires 1 <= k <= |s| && t in Stored(s, k)
    ensures Reorders(t, s, k)
    decreases k
  {
    if k > 1 {
      var i := CallThatStored(s, k, k, t);
      PhaseReorders(s, k, i);
      var u := Phase(s, k, i);
      StoredReorders(u, k - 1, t);
      assert t[k..] == t[k - 1..][1..] == u[k - 1..][1..] == u[k..];
    }
  }

  lemma {:induction false} CallThatStored<T>(s: seq<T>, k: nat, n: nat, t: seq<T>) returns (i: nat)
    requires 2 <= k <= |s| && n <= k && t in StoredBefore(s, k, n)
    ensures i < n && t in Stored(Phase(s, k, i), k - 1)
    decreases n
  {
    if t in StoredBefore(s, k, n - 1) {
      i := CallThatStored(s, k, n - 1, t);
    } else {
      i := n - 1;
    }
  }

  // ----- all of them

  /** The recursive call during which the element originally at `x` stands last. */
  function CallFor(k: nat, x: nat): (i: nat)
    requires 2 <= k && x < k
    ensures i < k && Source(k, i, k - 1) == x
  {
    if k % 2 == 1 then if x == k - 1 then 0 else k - CycleIndex(k, x)
    else if x == k - 1 then 0
    else if x == 0 then k - 1
    else if x == k - 2 then 1
    else x + 1
  }

  lemma {:induction false} EveryOrderIsStored<T>(s: seq<T>, k: nat, t: seq<T>)
    requires 1 <= k <= |s| && Reorders(t, s, k)
    ensures t in Stored(s, k)
    decreases k
  {
    hide Stored, Phase, Reorders;
    if k == 1 {
      OnlyOrder(s, t);
    } else {
      var i := CallWithLast(s, k, t);
      EveryOrderIsStored(Phase(s, k, i), k - 1, t);
      CallStores(s, k, k, i);
      LastCall(s, k);
    }
  }

  lemma OnlyOrder<T>(s: seq<T>, t: seq<T>)
    requires 1 <= |s| && Reorders(t, s, 1)
    ensures t in Stored(s, 1)
  {
    SamePrefixMultiset(t, s, 1);
    assert s[..1] == [s[0]] && t[..1] == [t[0]];
    assert t[0] in multiset(s[..1]);
    assert t == s;
  }

  /** During one of the recursive calls the last element is the one wanted, and the others are still to be ordered. */
  lemma CallWithLast<T>(s: seq<T>, k: nat, t: seq<T>) returns (i: nat)
    requires 2 <= k <= |s| && Reorders(t, s, k)
    ensures i < k && Reorders(t, Phase(s, k, i), k - 1)
  {
    hide Phase, Source;
    SamePrefixMultiset(t, s, k);
    assert t[k - 1] in multiset(t[..k]);
    assert t[k - 1] in s[..k];
    var x: nat :| x < k && s[x] == t[k - 1];
    i := CallFor(k, x);
    var u := Phase(s, k, i);
    PhaseIs(s, k, i, k - 1);
    PhaseReorders(s, k, i);
    assert t[k - 1..] == [t[k - 1]] + t[k..] && u[k - 1..] == [u[k - 1]] + u[k..];
  }

  lemma SamePrefixMultiset<T>(t: seq<T>, s: seq<T>, k: nat)
    requires k <= |s| && Reorders(t, s, k)
    ensures multiset(t[..k]) == multiset(s[..k])
  {
    assert t == t[..k] + t[k..] && s == s[..k] + s[k..];
    assert multiset(t) == multiset(t[..k]) + multiset(t[k..]);
    assert multiset(s) == multiset(s[..k]) + multiset(s[k..]);
    assert multiset(t[..k]) == multiset(t) - multiset(t[k..]) == multiset(s) - multiset(s[k..]) == multiset(s[..k]);
  }

  lemma {:induction false} CallStores<T>(s: seq<T>, k: nat, n: nat, i: nat)
    requires 2 <= k <= |s| && i < n <= k
    ensures Stored(Phase(s, k, i), k - 1) <= StoredBefore(s, k, n)
    decreases n
  {
    if i < n - 1 {
      CallStores(s, k, n - 1, i);
    }
  }

  // ----- each of them once

  function Factorial(n: nat): nat {
    if n == 0 then 1 else n * Factorial(n - 1)
  }

  predicate Distinct<T(==)>(s: seq<T>) {
    forall i, j :: 0 <= i < j < |s| ==> s[i] != s[j]
  }

  lemma LastTellsCall(k: nat, i: nat)
    requires 2 <= k && i < k
    ensures CallFor(k, Source(k, i, k - 1)) == i
  {
  }

  lemma PhaseDistinct<T>(s: seq<T>, k: nat, i: nat)
    requires 2 <= k <= |s| && i < k && Distinct(s)
    ensures Distinct(Phase(s, k, i))
  {
    PhasePermutes(s, k, i);
    DistinctByMultiset(s, Phase(s, k, i));
  }

  lemma DistinctByMultiset<T>(s: seq<T>, t: seq<T>)
    requires Distinct(s) && multiset(t) == multiset(s)
    ensures Distinct(t)
  {
    forall i, j | 0 <= i < j < |t| ensures t[i] != t[j] {
      OccursOnce(s, t[i]);
      if t[i] == t[j] {
        TwiceInMultiset(t, i, j);
      }
    }
  }

  lemma TwiceInMultiset<T>(t: seq<T>, i: nat, j: nat)
    requires i < j < |t| && t[i] == t[j]
    ensures multiset(t)[t[i]] >= 2
  {
    assert t == t[..i] + [t[i]] + t[i + 1..j] + [t[j]] + t[j + 1..];
  }

  lemma OccursOnce<T>(s: seq<T>, x: T)
    requires Distinct(s)
    ensures multiset(s)[x] <= 1
  {
    if x in s {
      var i :| 0 <= i < |s| && s[i] == x;
      assert s == s[..i] + [x] + s[i + 1..];
      assert x !in s[..i] && x !in s[i + 1..];
    }
  }

  /** The tuples number k!, so no two of the k! calls that store one store the same. */
  lemma {:induction false} StoredCount<T>(s: seq<T>, k: nat)
    requires 1 <= k <= |s| && Distinct(s)
    ensures |Stored(s, k)| == Factorial(k)
    decreases k, k + 1
  {
    if k == 1 {
      assert Factorial(1) == 1 * Factorial(0);
    } else {
      StoredBeforeCount(s, k, k);
    }
  }

  lemma {:induction false} StoredBeforeCount<T>(s: seq<T>, k: nat, n: nat)
    requires 2 <= k <= |s| && n <= k && Distinct(s)
    ensures |StoredBefore(s, k, n)| == n * Factorial(k - 1)
    decreases k, n
  {
    hide Stored, StoredBefore, Phase, Factorial;
    if n == 0 {
      NothingStored(s, k);
    } else {
      StoredBeforeCount(s, k, n - 1);
      PhaseDistinct(s, k, n - 1);
      StoredCount(Phase(s, k, n - 1), k - 1);
      CallsStoreApart(s, k, n - 1);
      CountTogether(StoredBefore(s, k, n - 1), Stored(Phase(s, k, n - 1), k - 1), n, Factorial(k - 1));
      StoredByOneMore(s, k, n);
    }
  }

  lemma NothingStored<T>(s: seq<T>, k: nat)
    requires 2 <= k <= |s|
    ensures StoredBefore(s, k, 0) == {}
  {
  }

  lemma StoredByOneMore<T>(s: seq<T>, k: nat, n: nat)
    requires 2 <= k <= |s| && 0 < n <= k
    ensures StoredBefore(s, k, n) == StoredBefore(s, k, n - 1) + Stored(Phase(s, k, n - 1), k - 1)
  {
  }

  lemma CountTogether<T>(before: set<T>, now: set<T>, n: nat, each: nat)
    requires n > 0 && |before| == (n - 1) * each && |now| == each && before !! now
    ensures |before + now| == n * each
  {
    assert n * each == (n - 1) * each + each;
  }

  /** A call stores nothing an earlier one has stored: they differ in their last element. */
  lemma CallsStoreApart<T>(s: seq<T>, k: nat, n: nat)
    requires 2 <= k <= |s| && n < k && Distinct(s)
    ensures StoredBefore(s, k, n) !! Stored(Phase(s, k, n), k - 1)
  {
    forall t | t in StoredBefore(s, k, n) ensures t !in Stored(Phase(s, k, n), k - 1) {
      if t in Stored(Phase(s, k, n), k - 1) {
        var i := CallThatStored(s, k, n, t);
        SameCall(s, k, i, n, t);
      }
    }
  }

  lemma SameCall<T>(s: seq<T>, k: nat, i: nat, j: nat, t: seq<T>)
    requires 2 <= k <= |s| && i < k && j < k && Distinct(s)
    requires t in Stored(Phase(s, k, i), k - 1) && t in Stored(Phase(s, k, j), k - 1)
    ensures i == j
  {
    LastIsFixed(s, k, i, t);
    LastIsFixed(s, k, j, t);
    LastTellsCall(k, i);
    LastTellsCall(k, j);
  }

  lemma LastIsFixed<T>(s: seq<T>, k: nat, i: nat, t: seq<T>)
    requires 2 <= k <= |s| && i < k && t in Stored(Phase(s, k, i), k - 1)
    ensures |t| == |s| && t[k - 1] == s[Source(k, i, k - 1)]
  {
    StoredReorders(Phase(s, k, i), k - 1, t);
    assert t[k - 1] == t[k - 1..][0];
    PhaseIs(s, k, i, k - 1);
  }

  // ----- ModuleSeq

  /** The set's elements in the order an iteration gives them. */
  method Elements<T(==)>(v: set<T>) returns (elems: seq<T>)
    ensures multiset(elems) == multiset(v) && |elems| == |v| && Distinct(elems)
  {
    elems := [];
    var rest := v;
    while rest != {}
      invariant multiset(elems) + multiset(rest) == multiset(v)
      invariant |elems| + |rest| == |v|
      invariant Distinct(elems) && forall x :: x in elems ==> x !in rest
      decreases rest
    {
      var x :| x in rest;
      assert multiset(rest) == multiset(rest - {x}) + multiset{x};
      elems := elems + [x];
      rest := rest - {x};
    }
  }

  /** Exactly the orderings of the set's elements, n! of them; one, the empty tuple, for the empty set. */
  method ModuleSeq<T(==, !new)>(v: set<T>) returns (r: set<seq<T>>)
    ensures forall t :: t in r <==> multiset(t) == multiset(v)
    ensures |r| == Factorial(|v|)
  {
    var list := Elements(v);
    if |list| == 0 {
      r := {[]};
    } else {
      var elems := new T[|list|](i requires 0 <= i < |list| => list[i]);
      assert elems[..] == list;
      r := GeneratePermutations(elems, |list|, {});
      StoredCount(list, |list|);
      forall t ensures t in r <==> multiset(t) == multiset(v) {
        if t in r {
          StoredReorders(list, |list|, t);
        }
        if multiset(t) == multiset(v) {
          assert |t| == |multiset(t)| == |multiset(list)| == |list|;
          EveryOrderIsStored(list, |list|, t);
        }
      }
    }
  }
}
