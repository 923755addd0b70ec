/** The grow-only counter: per replica what it added, merged entry by entry. */
module GCounter {

  type Id = nat

  type Counter = map<Id, int>

  function Get(c: Counter, i: Id): int {
    if i in c then c[i] else 0
  }

  function Write(c: Counter, id: Id, v: int): Counter {
    c[id := Get(c, id) + v]
  }

  function Merge(a: Counter, b: Counter): Counter {
    map i | i in a.Keys + b.Keys :: if i !in a then b[i] else if i !in b then a[i] else if a[i] < b[i] then b[i] else a[i]
  }

  /** The sum of the entries of the first `n` replicas. */
  function Total(c: Counter, n: nat): int {
    if n == 0 then 0 else Total(c, n - 1) + Get(c, n - 1)
  }

  function SumFirst(totals: seq<int>, n: nat): int
    requires n <= |totals|
  {
    if n == 0 then 0 else SumFirst(totals, n - 1) + totals[n - 1]
  }

  /** A counter with at least these entries reads as at least their sum, and as their sum only with exactly these. */
  lemma {:induction false} TotalAtLeast(c: Counter, totals: seq<int>, n: nat)
    requires n <= |totals| && forall i: Id {:trigger Get(c, i)} :: i < n ==> Get(c, i) >= totals[i]
    ensures Total(c, n) >= SumFirst(totals, n)
    ensures Total(c, n) == SumFirst(totals, n) <==> forall i: Id {:trigger Get(c, i)} :: i < n ==> Get(c, i) == totals[i]
  {
    if n > 0 {
      TotalAtLeast(c, totals, n - 1);
      assert Get(c, n - 1) >= totals[n - 1];
    }
  }

  lemma Inhabited(s: set<Id>)
    requires s != {}
    ensures exists i: Id :: i in s
  {
  }

  /** Takes in the other counter entry by entry, in whatever order its iterator has. */
  method MergeEntries(a: Counter, b: Counter) returns (c: Counter)
    ensures c == Merge(a, b)
  {
    c := a;
    var rest := b.Keys;
    while rest != {}
      invariant rest <= b.Keys && c.Keys == a.Keys + (b.Keys - rest)
      invariant forall i :: i in c ==> c[i] == if i in rest then a[i] else Merge(a, b)[i]
    {
      Inhabited(rest);
      var id: Id :| id in rest;
      var val := b[id];
      if id !in c || c[id] < val {
        c := c[id := val];
      }
      rest := rest - {id};
    }
  }

  method SumEntries(c: Counter, n: nat) returns (value: int)
    requires forall i :: i in c ==> i < n
    ensures value == Total(c, n)
  {
    value := 0;
    var rest := c;
    while rest.Keys != {}
      invariant forall i :: i in rest ==> i < n
      invariant value + Total(rest, n) == Total(c, n)
      decreases rest.Keys
    {
      Inhabited(rest.Keys);
      var k: Id :| k in rest;
      TotalWithout(rest, k, n);
      value := value + rest[k];
      rest := rest - {k};
    }
    TotalOfNothing(rest, n);
  }

  lemma {:induction false} TotalWithout(c: Counter, k: Id, n: nat)
    requires k in c
    ensures Total(c, n) == Total(c - {k}, n) + if k < n then c[k] else 0
  {
    if n > 0 {
      TotalWithout(c, k, n - 1);
    }
  }

  lemma {:induction false} TotalOfNothing(c: Counter, n: nat)
    requires c.Keys == {}
    ensures Total(c, n) == 0
  {
    if n > 0 {
      TotalOfNothing(c, n - 1);
    }
  }

  // ----- merging is a join

  /** `a` knows no more than `b`. */
  predicate AtMost(a: Counter, b: Counter) {
    forall i {:trigger i in a} :: i in a ==> i in b && a[i] <= b[i]
  }

  /** The merge is the least counter that knows both. */
  lemma MergeIsJoin(a: Counter, b: Counter, c: Counter)
    ensures AtMost(a, Merge(a, b)) && AtMost(b, Merge(a, b))
    ensures AtMost(a, c) && AtMost(b, c) ==> AtMost(Merge(a, b), c)
  {
  }

  lemma AtMostIsAnOrder(a: Counter, b: Counter, c: Counter)
    ensures AtMost(a, a)
    ensures AtMost(a, b) && AtMost(b, c) ==> AtMost(a, c)
    ensures AtMost(a, b) && AtMost(b, a) ==> a == b
  {
  }
}
