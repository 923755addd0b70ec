/** The round-robin counter behind fair branch selection: a mixed-radix odometer that survives retries. */
module Fairness {

  datatype Record = Record(id: string, count: nat, ceiling: nat)

  /** A branching point of a critical section: its id and how many branches it has. */
  datatype Ask = Ask(id: string, ceiling: nat)

  predicate ValidRecord(r: Record) {
    r.count < r.ceiling
  }

  predicate ValidStack(stack: seq<Record>) {
    forall k {:trigger stack[k]} :: 0 <= k < |stack| ==> ValidRecord(stack[k])
  }

  predicate ValidAsks(asks: seq<Ask>) {
    forall k {:trigger asks[k]} :: 0 <= k < |asks| ==> asks[k].ceiling > 0
  }

  /** Adds `carry` to the record that varies fastest, the last, and passes on what overflows. */
  function Add(stack: seq<Record>, carry: nat): (r: seq<Record>)
    requires ValidStack(stack)
    ensures |r| == |stack| && ValidStack(r)
    ensures forall k :: 0 <= k < |r| ==> r[k].id == stack[k].id && r[k].ceiling == stack[k].ceiling
  {
    if stack == [] then []
    else
      var last := stack[|stack| - 1];
      assert ValidRecord(last);
      var count := last.count + carry;
      Add(stack[..|stack| - 1], count / last.ceiling) + [last.(count := count % last.ceiling)]
  }

  lemma AddStep(stack: seq<Record>, idx: nat, carry: nat)
    requires ValidStack(stack) && idx < |stack|
    ensures var r := stack[idx];
            && r.ceiling > 0
            && Add(stack[..idx + 1], carry)
                 == Add(stack[..idx], (r.count + carry) / r.ceiling) + [r.(count := (r.count + carry) % r.ceiling)]
  {
    assert ValidRecord(stack[idx]);
    assert stack[..idx + 1][..idx] == stack[..idx];
  }

  /** `count` and `carry` are the digit and the carry of `sum`. */
  predicate IsCarry(sum: nat, ceiling: nat, count: nat, carry: nat) {
    ceiling > 0 && count == sum % ceiling && carry == sum / ceiling
  }

  lemma Carried(sum: nat, ceiling: nat, count: nat, carry: nat)
    requires ceiling > 0
    requires if sum >= ceiling then carry == sum / ceiling && count == sum % ceiling else carry == 0 && count == sum
    ensures IsCarry(sum, ceiling, count, carry)
  {
  }

  /** One round of the carry loop: `stack` is untouched up to `idx`, and done after it. */
  lemma CarryStep(was: seq<Record>, stack: seq<Record>, idx: nat, carry: nat, count: nat, carry': nat)
    requires ValidStack(was) && |stack| == |was| && idx < |was| && stack[..idx + 1] == was[..idx + 1]
    requires IsCarry(stack[idx].count + carry, stack[idx].ceiling, count, carry')
    ensures var stack' := stack[idx := stack[idx].(count := count)];
            && stack'[..idx] == was[..idx]
            && Add(was[..idx], carry') + stack'[idx..] == Add(was[..idx + 1], carry) + stack[idx + 1..]
  {
    assert stack[idx] == stack[..idx + 1][idx] == was[..idx + 1][idx] == was[idx];
    AddStep(was, idx, carry);
    var stack' := stack[idx := stack[idx].(count := count)];
    assert stack'[idx..] == [stack'[idx]] + stack[idx + 1..];
    assert stack'[..idx] == stack[..idx + 1][..idx] == was[..idx + 1][..idx];
  }

  lemma CeilingPositive(was: seq<Record>, stack: seq<Record>, idx: nat)
    requires ValidStack(was) && |stack| == |was| && idx < |was| && stack[..idx + 1] == was[..idx + 1]
    ensures stack[idx].ceiling > 0
  {
    assert stack[idx] == stack[..idx + 1][idx] == was[..idx + 1][idx] == was[idx];
    assert ValidRecord(was[idx]);
  }

  lemma AddNothing(carry: nat)
    ensures Add([], carry) == []
  {
  }

  class RoundRobinFairnessCounter {
    var pc: string
    var counterStack: seq<Record>
    var counterIdx: nat

    ghost predicate Valid()
      reads this
    {
      ValidStack(counterStack) && counterIdx <= |counterStack|
    }

    constructor ()
      ensures Valid() && pc == "" && counterStack == [] && counterIdx == 0
    {
      pc, counterStack, counterIdx := "", [], 0;
    }

    method BeginCriticalSection(newPc: string)
      requires Valid()
      modifies this
      ensures Valid() && pc == newPc && counterIdx == 0
      ensures counterStack == if newPc != old(pc) then [] else Add(old(counterStack), 1)
    {
      hide Add, IsCarry;
      counterIdx := 0;
      if newPc != pc {
        counterStack := [];
        pc := newPc;
      }
      ghost var was := counterStack;
      ghost var incremented := Add(was, 1);
      assert ValidStack(incremented) && was[..|was|] == was;
      var carry := 1;
      var idx := |counterStack|;
      while idx > 0
        invariant 0 <= idx <= |counterStack| == |was| && ValidStack(was)
        invariant pc == newPc && counterIdx == 0
        invariant counterStack[..idx] == was[..idx]
        invariant Add(was[..idx], carry) + counterStack[idx..] == incremented
      {
        idx := idx - 1;
        CeilingPositive(was, counterStack, idx);
        var count, ceiling := counterStack[idx].count, counterStack[idx].ceiling;
        ghost var sum, carriedIn := count + carry, carry;
        count := count + carry;
        carry := 0;
        if count >= ceiling {
          carry := count / ceiling;
          count := count % ceiling;
        }
        Carried(sum, ceiling, count, carry);
        CarryStep(was, counterStack, idx, carriedIn, count, carry);
        counterStack := counterStack[idx := counterStack[idx].(count := count)];
      }
      AddNothing(carry);
      assert was[..0] == [] && [] + counterStack[0..] == counterStack == incremented;
    }

    /** The source's two panics are the two assertions. A zero ceiling would divide by zero. */
    method NextFairnessCounter(id: string, ceiling: nat, random: nat) returns (count: nat)
      requires Valid() && ceiling > 0
      modifies this
      ensures Valid() && pc == old(pc) && counterIdx == old(counterIdx) + 1
      ensures count == counterStack[old(counterIdx)].count < ceiling
      ensures var k := old(counterIdx);
              var was := old(counterStack);
              if k < |was| && was[k].id == id && was[k].ceiling == ceiling then counterStack == was
              else counterStack == was[..k] + [Record(id, random % ceiling, ceiling)]
    {
      var idx := counterIdx;
      assert idx <= |counterStack|;
      counterIdx := counterIdx + 1;
      if idx < |counterStack| && (counterStack[idx].id != id || counterStack[idx].ceiling != ceiling) {
        counterStack := counterStack[..idx];
      }
      if idx == |counterStack| {
        counterStack := counterStack + [Record(id, random % ceiling, ceiling)];
      }
      count := counterStack[idx].count;
      assert ValidRecord(counterStack[idx]);
      assert count < ceiling;
    }

    /** One attempt at a critical section that reaches the branching points `asks`, in order. */
    method Attempt(newPc: string, asks: seq<Ask>) returns (choices: seq<nat>)
      requires Valid() && ValidAsks(asks)
      modifies this
      ensures Valid() && pc == newPc && Follows(counterStack, asks)
      ensures choices == Counts(counterStack[..|asks|])
      ensures Asks(counterStack) == asks + Leftover(old(counterStack), asks, newPc == old(pc))
      ensures newPc == old(pc) && Follows(old(counterStack), asks) ==> counterStack == Add(old(counterStack), 1)
    {
      hide Follows, Counts;
      NothingAsked(asks);
      AddFollows(counterStack, asks);
      BeginCriticalSection(newPc);
      ghost var begun := counterStack;
      choices := [];
      for k := 0 to |asks|
        invariant Valid() && pc == newPc && counterIdx == k
        invariant k <= |counterStack| && Follows(counterStack, asks[..k])
        invariant choices == Counts(counterStack[..k])
        invariant counterStack == begun || |counterStack| == k
        invariant Follows(begun, asks) ==> counterStack == begun
      {
        var random: nat := *;
        assert asks[k].ceiling > 0;
        ghost var was := counterStack;
        if Follows(begun, asks) {
          FollowsAt(begun, asks, k);
        }
        var count := NextFairnessCounter(asks[k].id, asks[k].ceiling, random);
        FollowsMore(was, counterStack, asks, k);
        choices := choices + [count];
      }
      assert asks[..|asks|] == asks;
      AsksAfter(old(counterStack), begun, counterStack, asks, newPc == old(pc));
    }

    /**
     Retrying a section over and over, as the run loop does. Whatever ran before, if every attempt reaches the same
     branching points the choices of attempt `n` are the leading digits of the start value plus `n`: all of them, unless
     the label goes to itself and the execution before left records on the stack behind those points.
     */
    method Retry(newPc: string, asks: seq<Ask>, attempts: nat) returns (vectors: seq<seq<nat>>, ghost start: nat)
      requires Valid() && ValidAsks(asks)
      modifies this
      ensures Valid() && |vectors| == attempts
      ensures var left := Leftover(old(counterStack), asks, newPc == old(pc));
              forall n {:trigger vectors[n]} :: 0 <= n < attempts ==> vectors[n] == Choices(asks, left, start, n)
      ensures attempts > 0 && newPc == old(pc) && Follows(old(counterStack), asks) ==>
                start == Value(Add(old(counterStack), 1))
    {
      hide Follows, Reading, Value, Digits, Counts, Add, Leftover, Asks, Choices, Product;
      vectors := [];
      start := 0;
      ghost var left := Leftover(counterStack, asks, newPc == pc);
      AllValid(asks, left);
      for n := 0 to attempts
        invariant Valid() && |vectors| == n
        invariant n == 0 ==> pc == old(pc) && counterStack == old(counterStack)
        invariant n > 0 ==> pc == newPc && Asks(counterStack) == asks + left
        invariant n > 0 ==> Value(counterStack) == Reading(asks + left, start, n - 1)
        invariant n > 0 && newPc == old(pc) && Follows(old(counterStack), asks) ==> start == Value(Add(old(counterStack), 1))
        invariant forall k {:trigger vectors[k]} :: 0 <= k < n ==> vectors[k] == Choices(asks, left, start, k)
      {
        ghost var was := counterStack;
        var choices := Attempt(newPc, asks);
        if n == 0 {
          start := Value(counterStack);
          Started(counterStack, asks + left);
        } else {
          SameLeftover(was, asks, left);
          Advanced(was, asks + left, start, n - 1);
        }
        LeadingDigits(counterStack, asks, left, start, n);
        vectors := vectors + [choices];
      }
    }
  }

  /** What the counter reads `n` attempts after it read `start`. */
  function Reading(asks: seq<Ask>, start: nat, n: nat): nat
    requires ValidAsks(asks)
  {
    (start + n) % Product(asks)
  }

  /**
   The branching points, with their numbers of branches, that stay on the stack behind `asks` in every attempt: none
   for a label other than the last one, or if the stack does not begin with `asks`, for then it is cut.
   */
  function Leftover(stack: seq<Record>, asks: seq<Ask>, sameLabel: bool): (r: seq<Ask>)
    requires ValidStack(stack)
    ensures ValidAsks(r)
  {
    AsksValid(stack);
    if sameLabel && Follows(stack, asks) then Asks(stack)[|asks|..] else []
  }

  /** The choices of attempt `n`: the digits for `asks` of a number that also has digits for `left`. */
  function Choices(asks: seq<Ask>, left: seq<Ask>, start: nat, n: nat): seq<nat>
    requires ValidAsks(asks) && ValidAsks(left)
  {
    AllValid(asks, left);
    Digits(asks, Reading(asks + left, start, n) / Product(left))
  }

  lemma AllValid(asks: seq<Ask>, left: seq<Ask>)
    requires ValidAsks(asks) && ValidAsks(left)
    ensures ValidAsks(asks + left)
  {
  }

  lemma Started(stack: seq<Record>, all: seq<Ask>)
    requires ValidStack(stack) && ValidAsks(all) && Asks(stack) == all
    ensures Value(stack) == Reading(all, Value(stack), 0)
  {
    hide Value, Product, Follows, Asks;
    FollowsIs(stack, all);
    ValueBound(stack, all);
    SmallModulo(Value(stack), Product(all));
  }

  lemma SmallModulo(x: nat, p: nat)
    requires x < p
    ensures x % p == x
  {
  }

  lemma FollowsIs(stack: seq<Record>, asks: seq<Ask>)
    ensures Follows(stack, asks) <==> asks <= Asks(stack)
  {
    if asks <= Asks(stack) {
      forall k | 0 <= k < |asks| ensures stack[k].id == asks[k].id && stack[k].ceiling == asks[k].ceiling {
        assert Asks(stack)[k] == asks[k];
      }
    }
  }

  lemma AddKeepsAsks(stack: seq<Record>)
    requires ValidStack(stack)
    ensures Asks(Add(stack, 1)) == Asks(stack)
  {
  }

  lemma Advanced(stack: seq<Record>, all: seq<Ask>, start: nat, n: nat)
    requires ValidStack(stack) && ValidAsks(all) && Asks(stack) == all && Value(stack) == Reading(all, start, n)
    ensures Asks(Add(stack, 1)) == all && Value(Add(stack, 1)) == Reading(all, start, n + 1)
  {
    hide Value, Product, Add, Asks;
    AddIsPlus(stack, 1);
    AddKeepsAsks(stack);
    PlusModulo(start + n, 1, Product(all));
  }

  /** A stack that is asked for the same again keeps its leftover. */
  lemma SameLeftover(stack: seq<Record>, asks: seq<Ask>, left: seq<Ask>)
    requires ValidStack(stack) && Asks(stack) == asks + left
    ensures Follows(stack, asks) && Leftover(stack, asks, true) == left
  {
    FollowsIs(stack, asks);
  }

  /** What is left behind the asks once an attempt has reached them all. */
  lemma AsksAfter(was: seq<Record>, begun: seq<Record>, stack: seq<Record>, asks: seq<Ask>, sameLabel: bool)
    requires ValidStack(was) && begun == if sameLabel then Add(was, 1) else []
    requires Follows(stack, asks) && (stack == begun || |stack| == |asks|) && (Follows(begun, asks) ==> stack == begun)
    ensures Asks(stack) == asks + Leftover(was, asks, sameLabel)
  {
    hide Follows, Add;
    FollowsIs(was, asks);
    FollowsIs(begun, asks);
    FollowsIs(stack, asks);
    if sameLabel {
      AddKeepsAsks(was);
    }
    assert Asks(stack) == Asks(stack)[..|asks|] + Asks(stack)[|asks|..];
  }

  lemma LeadingDigits(stack: seq<Record>, asks: seq<Ask>, left: seq<Ask>, start: nat, n: nat)
    requires ValidStack(stack) && ValidAsks(asks) && ValidAsks(left) && Asks(stack) == asks + left
    requires ValidAsks(asks + left) && Value(stack) == Reading(asks + left, start, n)
    ensures |asks| <= |stack| && Counts(stack[..|asks|]) == Choices(asks, left, start, n)
  {
    DigitsOfValue(stack, asks + left);
    DigitsSplit(asks, left, Value(stack));
    assert Counts(stack)[..|asks|] == Counts(stack[..|asks|]);
  }

  lemma {:induction false} DigitsSplit(asks: seq<Ask>, left: seq<Ask>, x: nat)
    requires ValidAsks(asks) && ValidAsks(left) && ValidAsks(asks + left)
    ensures Digits(asks + left, x)[..|asks|] == Digits(asks, x / Product(left))
    decreases |left|
  {
    if left == [] {
      assert asks + left == asks;
    } else {
      var n := |left| - 1;
      var all, rest := asks + left, asks + left[..n];
      assert all[..|all| - 1] == rest && all[|all| - 1] == left[n];
      DigitsSplit(asks, left[..n], x / left[n].ceiling);
      DivDiv(x, left[n].ceiling, Product(left[..n]));
      assert Digits(all, x)[..|asks|] == Digits(rest, x / left[n].ceiling)[..|asks|];
    }
  }

  lemma DivDiv(x: nat, c: nat, p: nat)
    requires c > 0 && p > 0
    ensures p * c > 0 && x / c / p == x / (p * c)
  {
    SplitTwice(x, c, p, x / c / p, x / c % p, x % c);
  }

  lemma SplitTwice(x: nat, c: nat, p: nat, a: nat, b: nat, r: nat)
    requires b < p && r < c && x == (a * p + b) * c + r
    ensures p * c > 0 && x / (p * c) == a
  {
    Regroup(a, p, b, c);
    Below(b, p, c);
    DivMod(a, p * c, b * c + r);
  }

  /** The stack begins with a record for each of the asks. */
  predicate Follows(stack: seq<Record>, asks: seq<Ask>) {
    && |asks| <= |stack|
    && forall k {:trigger asks[k]} {:trigger stack[k]} :: 0 <= k < |asks| ==> stack[k].id == asks[k].id && stack[k].ceiling == asks[k].ceiling
  }

  lemma NothingAsked(asks: seq<Ask>)
    ensures asks[..0] == []
    ensures forall stack: seq<Record> :: Follows(stack, []) && Counts(stack[..0]) == []
  {
  }

  lemma AddFollows(stack: seq<Record>, asks: seq<Ask>)
    requires ValidStack(stack)
    ensures Follows(stack, asks) ==> Follows(Add(stack, 1), asks)
  {
  }

  lemma FollowsAt(stack: seq<Record>, asks: seq<Ask>, k: nat)
    requires Follows(stack, asks) && k < |asks|
    ensures k < |stack| && stack[k].id == asks[k].id && stack[k].ceiling == asks[k].ceiling
  {
  }

  /** One more branching point answered: the records up to it are kept, and its own is next. */
  lemma FollowsMore(was: seq<Record>, stack: seq<Record>, asks: seq<Ask>, k: nat)
    requires k < |asks| && k <= |was| && k < |stack| && Follows(was, asks[..k])
    requires stack[..k] == was[..k] && stack[k].id == asks[k].id && stack[k].ceiling == asks[k].ceiling
    ensures Follows(stack, asks[..k + 1])
    ensures Counts(stack[..k + 1]) == Counts(was[..k]) + [stack[k].count]
  {
    forall j | 0 <= j < k ensures stack[j] == was[j] {
      assert stack[..k][j] == was[..k][j];
    }
  }

  function Counts(stack: seq<Record>): (r: seq<nat>)
    ensures |r| == |stack| && forall k :: 0 <= k < |stack| ==> r[k] == stack[k].count
  {
    seq(|stack|, k requires 0 <= k < |stack| => stack[k].count)
  }

  // ----- mixed radix

  function Product(asks: seq<Ask>): (r: nat)
    requires ValidAsks(asks)
    ensures r > 0
  {
    if asks == [] then 1 else MulPositive(Product(asks[..|asks| - 1]), asks[|asks| - 1].ceiling)
  }

  function MulPositive(a: nat, b: nat): (r: nat)
    requires a > 0 && b > 0
    ensures r > 0
  {
    a * b
  }

  /** The number a stack reads as, its last record being the least significant digit. */
  function Value(stack: seq<Record>): nat {
    if stack == [] then 0
    else Value(stack[..|stack| - 1]) * stack[|stack| - 1].ceiling + stack[|stack| - 1].count
  }

  function Digits(asks: seq<Ask>, x: nat): (r: seq<nat>)
    requires ValidAsks(asks)
    ensures |r| == |asks|
  {
    if asks == [] then []
    else
      var c := asks[|asks| - 1].ceiling;
      Digits(asks[..|asks| - 1], x / c) + [x % c]
  }

  predicate ValidVector(asks: seq<Ask>, v: seq<nat>) {
    |v| == |asks| && forall k {:trigger v[k]} :: 0 <= k < |v| ==> v[k] < asks[k].ceiling
  }

  function Asks(stack: seq<Record>): (r: seq<Ask>)
    ensures |r| == |stack| && forall k :: 0 <= k < |stack| ==> r[k] == Ask(stack[k].id, stack[k].ceiling)
  {
    seq(|stack|, k requires 0 <= k < |stack| => Ask(stack[k].id, stack[k].ceiling))
  }

  lemma {:induction false} Below(q: nat, a: nat, c: nat)
    ensures q < a ==> q * c + c <= a * c
    ensures q <= a ==> q * c <= a * c
  {
    if q < a {
      Below(q, a - 1, c);
      assert a * c == (a - 1) * c + c;
    }
  }

  lemma Distribute(a: nat, b: nat, c: nat)
    ensures (a + b) * c == a * c + b * c
  {
  }

  lemma DivMod(a: nat, c: nat, r: nat)
    requires r < c
    ensures (a * c + r) / c == a && (a * c + r) % c == r
  {
    var x := a * c + r;
    Below(x / c, a, c);
    Below(a, x / c, c);
  }

  /** Reducing the high digits modulo `p` reduces the number modulo `p * c`. */
  lemma HighDigitsModulo(a: nat, p: nat, c: nat, r: nat)
    requires p > 0 && r < c
    ensures p * c > 0 && (a * c + r) % (p * c) == (a % p) * c + r
  {
    SplitModulo(a, p, c, r, a / p, a % p);
  }

  lemma SplitModulo(a: nat, p: nat, c: nat, r: nat, q: nat, m: nat)
    requires a == q * p + m && m < p && r < c
    ensures p * c > 0 && (a * c + r) % (p * c) == m * c + r
  {
    Regroup(q, p, m, c);
    Below(m, p, c);
    DivMod(q, p * c, m * c + r);
  }

  /** Adding to the lowest digit and carrying into the others is adding to the number. */
  lemma DigitsPlus(high: nat, count: nat, carry: nat, c: nat, p: nat, q: nat, r: nat)
    requires p > 0 && r < c && count + carry == q * c + r
    ensures p * c > 0 && ((high + q) % p) * c + r == (high * c + count + carry) % (p * c)
  {
    Distribute(high, q, c);
    HighDigitsModulo(high + q, p, c, r);
  }

  lemma QuotientBound(x: nat, p: nat, c: nat)
    requires c > 0 && x < p * c
    ensures x / c < p
  {
    Below(p, x / c, c);
  }

  lemma Regroup(q: nat, p: nat, m: nat, c: nat)
    ensures (q * p + m) * c == q * (p * c) + m * c
  {
  }

  lemma PlusModulo(a: nat, b: nat, p: nat)
    requires p > 0
    ensures (a % p + b) % p == (a + b) % p
  {
    var x := a % p + b;
    SumModulo(a, b, p, a / p, a % p, x / p, x % p);
  }

  lemma SumModulo(a: nat, b: nat, p: nat, q: nat, m: nat, k: nat, r: nat)
    requires r < p && a == q * p + m && m + b == k * p + r
    ensures (a + b) % p == r
  {
    Distribute(q, k, p);
    DivMod(q + k, p, r);
  }

  lemma {:induction false} ValueBound(stack: seq<Record>, asks: seq<Ask>)
    requires ValidStack(stack) && ValidAsks(asks) && |stack| == |asks| && Follows(stack, asks)
    ensures Value(stack) < Product(asks)
  {
    if stack != [] {
      var n := |stack| - 1;
      ValueBound(stack[..n], asks[..n]);
      assert ValidRecord(stack[n]);
      Below(Value(stack[..n]), Product(asks[..n]), asks[n].ceiling);
    }
  }

  lemma AsksValid(stack: seq<Record>)
    requires ValidStack(stack)
    ensures ValidAsks(Asks(stack))
  {
    forall k | 0 <= k < |stack| ensures Asks(stack)[k].ceiling > 0 {
      assert ValidRecord(stack[k]);
    }
  }

  /** The carry loop adds, modulo the product of the ceilings. */
  lemma {:induction false} AddIsPlus(stack: seq<Record>, carry: nat)
    requires ValidStack(stack)
    ensures ValidAsks(Asks(stack))
    ensures Value(Add(stack, carry)) == (Value(stack) + carry) % Product(Asks(stack))
  {
    hide Value, Product, Add, Asks;
    AsksValid(stack);
    if stack == [] {
      AddToNothing(carry);
    } else {
      var n := |stack| - 1;
      AddUnfolds(stack, carry);
      var sum := stack[n].count + carry;
      AddIsPlus(stack[..n], sum / stack[n].ceiling);
      DigitsPlus(Value(stack[..n]), stack[n].count, carry, stack[n].ceiling, Product(Asks(stack[..n])),
                 sum / stack[n].ceiling, sum % stack[n].ceiling);
    }
  }

  lemma AddToNothing(carry: nat)
    ensures Value(Add([], carry)) == 0 && Value([]) == 0 && Asks([]) == [] && Product([]) == 1
  {
  }

  lemma AddUnfolds(stack: seq<Record>, carry: nat)
    requires ValidStack(stack) && stack != []
    ensures ValidAsks(Asks(stack)) && ValidAsks(Asks(stack[..|stack| - 1]))
    ensures var n := |stack| - 1; var c := stack[n].ceiling;
            && c > 0
            && Value(stack) == Value(stack[..n]) * c + stack[n].count
            && Value(Add(stack, carry)) == Value(Add(stack[..n], (stack[n].count + carry) / c)) * c + (stack[n].count + carry) % c
            && Product(Asks(stack)) == Product(Asks(stack[..n])) * c
  {
    var n := |stack| - 1;
    AsksValid(stack);
    AsksValid(stack[..n]);
    assert ValidRecord(stack[n]);
    var sum := stack[n].count + carry;
    var r := Add(stack, carry);
    assert r[..n] == Add(stack[..n], sum / stack[n].ceiling);
    assert Asks(stack)[..n] == Asks(stack[..n]);
  }

  /** Reading off the counts is taking the digits. */
  lemma {:induction false} DigitsOfValue(stack: seq<Record>, asks: seq<Ask>)
    requires ValidStack(stack) && ValidAsks(asks) && |stack| == |asks| && Follows(stack, asks)
    ensures Digits(asks, Value(stack)) == Counts(stack)
  {
    if stack != [] {
      var n := |stack| - 1;
      assert ValidRecord(stack[n]);
      DivMod(Value(stack[..n]), stack[n].ceiling, stack[n].count);
      DigitsOfValue(stack[..n], asks[..n]);
      assert Counts(stack) == Counts(stack[..n]) + [stack[n].count];
    }
  }

  // ----- a full round

  function Number(asks: seq<Ask>, v: seq<nat>): nat
    requires |v| == |asks|
  {
    if asks == [] then 0
    else Number(asks[..|asks| - 1], v[..|v| - 1]) * asks[|asks| - 1].ceiling + v[|v| - 1]
  }

  lemma {:induction false} NumberOfDigits(asks: seq<Ask>, x: nat)
    requires ValidAsks(asks) && x < Product(asks)
    ensures ValidVector(asks, Digits(asks, x)) && Number(asks, Digits(asks, x)) == x
  {
    if asks != [] {
      var n := |asks| - 1;
      hide Digits, Product, Number;
      var q, r := Split(asks, x);
      NumberOfDigits(asks[..n], q);
      NumberOfSplit(asks, x, q, r, Digits(asks[..n], q));
    }
  }

  /** The last digit of a number and the number the others make. */
  lemma Split(asks: seq<Ask>, x: nat) returns (q: nat, r: nat)
    requires ValidAsks(asks) && asks != [] && x < Product(asks)
    ensures var n := |asks| - 1;
            && r < asks[n].ceiling && ValidAsks(asks[..n]) && q < Product(asks[..n])
            && x == q * asks[n].ceiling + r && Digits(asks, x) == Digits(asks[..n], q) + [r]
  {
    DigitsUnfold(asks, x);
    var n := |asks| - 1;
    q, r := x / asks[n].ceiling, x % asks[n].ceiling;
    QuotientBound(x, Product(asks[..n]), asks[n].ceiling);
  }

  lemma NumberOfSplit(asks: seq<Ask>, x: nat, q: nat, r: nat, v: seq<nat>)
    requires asks != [] && |v| == |asks| - 1 && Number(asks[..|asks| - 1], v) == q
    requires x == q * asks[|asks| - 1].ceiling + r
    ensures Number(asks, v + [r]) == x
  {
    NumberUnfold(asks, v, r);
  }

  lemma DigitsUnfold(asks: seq<Ask>, x: nat)
    requires ValidAsks(asks) && asks != []
    ensures var n := |asks| - 1; var c := asks[n].ceiling;
            && c > 0 && ValidAsks(asks[..n])
            && Digits(asks, x) == Digits(asks[..n], x / c) + [x % c]
            && Product(asks) == Product(asks[..n]) * c
  {
  }

  lemma NumberUnfold(asks: seq<Ask>, v: seq<nat>, d: nat)
    requires asks != [] && |v| == |asks| - 1
    ensures Number(asks, v + [d]) == Number(asks[..|asks| - 1], v) * asks[|asks| - 1].ceiling + d
  {
    assert (v + [d])[..|v|] == v;
  }

  lemma {:induction false} DigitsOfNumber(asks: seq<Ask>, v: seq<nat>)
    requires ValidAsks(asks) && ValidVector(asks, v)
    ensures Number(asks, v) < Product(asks) && Digits(asks, Number(asks, v)) == v
  {
    if asks != [] {
      var n := |asks| - 1;
      DigitsOfNumber(asks[..n], v[..n]);
      assert v[n] < asks[n].ceiling;
      DivMod(Number(asks[..n], v[..n]), asks[n].ceiling, v[n]);
      Below(Number(asks[..n], v[..n]), Product(asks[..n]), asks[n].ceiling);
      assert v == v[..n] + [v[n]];
    }
  }

  /** In any window of product-many attempts every vector of choices comes up, */
  lemma EveryVectorComesUp(asks: seq<Ask>, start: nat, from: nat, v: seq<nat>) returns (n: nat)
    requires ValidAsks(asks) && ValidVector(asks, v)
    ensures from <= n < from + Product(asks) && Digits(asks, Reading(asks, start, n)) == v
  {
    DigitsOfNumber(asks, v);
    var p, x := Product(asks), Number(asks, v);
    var y := (start + from) % p;
    var d := if y <= x then x - y else x + p - y;
    n := from + d;
    PlusModulo(start + from, d, p);
    assert y + d == (if y <= x then 0 else 1) * p + x;
    DivMod(if y <= x then 0 else 1, p, x);
  }

  /** and only once. */
  lemma NoVectorTwice(asks: seq<Ask>, start: nat, m: nat, n: nat)
    requires ValidAsks(asks) && m < n < m + Product(asks)
    ensures Digits(asks, Reading(asks, start, m)) != Digits(asks, Reading(asks, start, n))
  {
    var p := Product(asks);
    NumberOfDigits(asks, (start + m) % p);
    NumberOfDigits(asks, (start + n) % p);
    DifferentRemainders(start + m, start + n, p);
  }

  lemma DifferentRemainders(x: nat, y: nat, p: nat)
    requires x < y < x + p
    ensures x % p != y % p
  {
    var a, b := x / p, y / p;
    Below(a, b, p);
    Below(b, a, p);
  }

  // ----- when retries are fair

  ghost predicate ComesUp(asks: seq<Ask>, left: seq<Ask>, start: nat, from: nat, v: seq<nat>)
    requires ValidAsks(asks) && ValidAsks(left)
  {
    exists n: nat {:trigger Choices(asks, left, start, n)} ::
      from <= n < from + Product(asks) && Choices(asks, left, start, n) == v
  }

  /** Any window of as many attempts as there are vectors of choices contains all of them, */
  ghost predicate AllComeUp(asks: seq<Ask>, left: seq<Ask>, start: nat)
    requires ValidAsks(asks) && ValidAsks(left)
  {
    forall from: nat, v: seq<nat> {:trigger ComesUp(asks, left, start, from, v)} ::
      ValidVector(asks, v) ==> ComesUp(asks, left, start, from, v)
  }

  /** each once. */
  ghost predicate NoneRepeats(asks: seq<Ask>, left: seq<Ask>, start: nat)
    requires ValidAsks(asks) && ValidAsks(left)
  {
    forall m: nat, n: nat {:trigger Choices(asks, left, start, m), Choices(asks, left, start, n)} ::
      m < n < m + Product(asks) ==> Choices(asks, left, start, m) != Choices(asks, left, start, n)
  }

  /**
   Retries are fair exactly if they have no choice at all or nothing with more than one branch was left on the stack
   behind their own branching points.
   */
  lemma FairExactly(asks: seq<Ask>, left: seq<Ask>, start: nat)
    requires ValidAsks(asks) && ValidAsks(left)
    ensures AllComeUp(asks, left, start) <==> Product(left) == 1 || Product(asks) == 1
    ensures NoneRepeats(asks, left, start) <==> Product(left) == 1 || Product(asks) == 1
  {
    if Product(left) == 1 {
      FairIfNothingLeft(asks, left, start);
    } else if Product(asks) == 1 {
      FairWithoutChoice(asks, left, start);
    } else {
      UnfairOtherwise(asks, left, start);
    }
  }

  lemma {:induction false} ProductOfAll(asks: seq<Ask>, left: seq<Ask>)
    requires ValidAsks(asks) && ValidAsks(left) && ValidAsks(asks + left)
    ensures Product(asks + left) == Product(asks) * Product(left)
    decreases |left|
  {
    if left == [] {
      assert asks + left == asks;
    } else {
      var n := |left| - 1;
      var all := asks + left;
      assert all[..|all| - 1] == asks + left[..n] && all[|all| - 1] == left[n];
      ProductOfAll(asks, left[..n]);
      Associate(Product(asks), Product(left[..n]), left[n].ceiling);
    }
  }

  lemma Associate(a: nat, b: nat, c: nat)
    ensures a * b * c == a * (b * c)
  {
  }

  lemma FairIfNothingLeft(asks: seq<Ask>, left: seq<Ask>, start: nat)
    requires ValidAsks(asks) && ValidAsks(left) && Product(left) == 1
    ensures AllComeUp(asks, left, start) && NoneRepeats(asks, left, start)
  {
    hide Digits, Reading, Product;
    forall n: nat ensures Choices(asks, left, start, n) == Digits(asks, Reading(asks, start, n)) {
      ChoicesAlone(asks, left, start, n);
    }
    forall from: nat, v: seq<nat> | ValidVector(asks, v) ensures ComesUp(asks, left, start, from, v) {
      var n := EveryVectorComesUp(asks, start, from, v);
      assert Choices(asks, left, start, n) == v;
    }
    forall m: nat, n: nat | m < n < m + Product(asks)
      ensures Choices(asks, left, start, m) != Choices(asks, left, start, n)
    {
      NoVectorTwice(asks, start, m, n);
    }
  }

  lemma ChoicesAlone(asks: seq<Ask>, left: seq<Ask>, start: nat, n: nat)
    requires ValidAsks(asks) && ValidAsks(left) && Product(left) == 1
    ensures Choices(asks, left, start, n) == Digits(asks, Reading(asks, start, n))
  {
    AllValid(asks, left);
    ProductOfAll(asks, left);
  }

  lemma FairWithoutChoice(asks: seq<Ask>, left: seq<Ask>, start: nat)
    requires ValidAsks(asks) && ValidAsks(left) && Product(asks) == 1
    ensures AllComeUp(asks, left, start) && NoneRepeats(asks, left, start)
  {
    hide Digits, Product, Number, Reading;
    forall from: nat, v: seq<nat> | ValidVector(asks, v) ensures ComesUp(asks, left, start, from, v) {
      DigitsOfNumber(asks, v);
      AllValid(asks, left);
      ChoiceBound(asks, left, start, from);
      assert Choices(asks, left, start, from) == v;
    }
  }

  lemma ChoiceBound(asks: seq<Ask>, left: seq<Ask>, start: nat, n: nat)
    requires ValidAsks(asks) && ValidAsks(left) && ValidAsks(asks + left)
    ensures Reading(asks + left, start, n) / Product(left) < Product(asks)
  {
    ProductOfAll(asks, left);
    QuotientBound(Reading(asks + left, start, n), Product(asks), Product(left));
  }

  /** From an attempt that reads 0 on, the first vector comes up at least twice in a row, so the last one comes up too late. */
  lemma UnfairOtherwise(asks: seq<Ask>, left: seq<Ask>, start: nat)
    requires ValidAsks(asks) && ValidAsks(left) && Product(asks) > 1 && Product(left) > 1
    ensures !AllComeUp(asks, left, start) && !NoneRepeats(asks, left, start)
  {
    hide Digits, Product, Choices;
    var p, l := Product(asks), Product(left);
    var from := ReadsZero(p * l, start);
    forall d: nat | d < p ensures Choices(asks, left, start, from + d) == Digits(asks, d / l) {
      ChoicesFromZero(asks, left, start, from, d);
    }
    DivMod(0, l, 0);
    DivMod(0, l, 1);
    ChoicesFromZero(asks, left, start, from, 0);
    ChoicesFromZero(asks, left, start, from, 1);
    assert Choices(asks, left, start, from) == Choices(asks, left, start, from + 1);
    NumberOfDigits(asks, p - 1);
    var last := Digits(asks, p - 1);
    forall n: nat | from <= n < from + p ensures Choices(asks, left, start, n) != last {
      var d := n - from;
      assert Choices(asks, left, start, from + d) == Digits(asks, d / l);
      TooSmall(d, p, l);
      NumberOfDigits(asks, d / l);
    }
    assert !ComesUp(asks, left, start, from, last);
  }

  lemma ReadsZero(p: nat, start: nat) returns (from: nat)
    requires p > 0
    ensures exists k: nat :: start + from == k * p
  {
    Below(1, p, start);
    from := start * p - start;
    assert start + from == start * p;
  }

  lemma TooSmall(d: nat, p: nat, l: nat)
    requires d < p && p > 1 && l > 1
    ensures d / l < p - 1
  {
    Below(2, l, d / l);
    assert d / l * 2 <= d / l * l <= d;
  }

  lemma ChoicesFromZero(asks: seq<Ask>, left: seq<Ask>, start: nat, from: nat, d: nat)
    requires ValidAsks(asks) && ValidAsks(left) && d < Product(asks)
    requires exists k: nat :: start + from == k * (Product(asks) * Product(left))
    ensures Choices(asks, left, start, from + d) == Digits(asks, d / Product(left))
  {
    hide Digits, Product;
    var p, l := Product(asks), Product(left);
    var k: nat :| start + from == k * (p * l);
    AllValid(asks, left);
    ProductOfAll(asks, left);
    Below(1, l, p);
    DivMod(k, p * l, d);
  }

  /**
   A label that goes to itself: its last execution has also reached branching point `b`, its retries now reach only
   `a`. Of the two choices there, attempts 1 and 2 both make the second.
   */
  lemma LeftoverRepeats()
    ensures var stack, asks := [Record("a", 0, 2), Record("b", 0, 2)], [Ask("a", 2)];
            && ValidStack(stack) && ValidAsks(asks)
            && Leftover(stack, asks, true) == [Ask("b", 2)]
            && Value(Add(stack, 1)) == 1
            && Choices(asks, [Ask("b", 2)], 1, 1) == Choices(asks, [Ask("b", 2)], 1, 2) == [1]
  {
    var stack, asks, left := [Record("a", 0, 2), Record("b", 0, 2)], [Ask("a", 2)], [Ask("b", 2)];
    OneMore(stack);
    assert asks + left == [Ask("a", 2), Ask("b", 2)] && (asks + left)[..1] == asks;
    assert Asks(stack) == asks + left;
  }

  lemma OneMore(stack: seq<Record>)
    requires stack == [Record("a", 0, 2), Record("b", 0, 2)]
    ensures ValidStack(stack) && Value(Add(stack, 1)) == 1
  {
    hide Add;
    AddIsPlus(stack, 1);
    var asks := Asks(stack);
    assert stack[..1] == [Record("a", 0, 2)] && stack[..1][..0] == [];
    assert asks[..1] == [Ask("a", 2)] && asks[..1][..0] == [];
    assert Value(stack[..1]) == 0 && Product(asks[..1]) == 2;
    assert Value(stack) == 0 && Product(asks) == 4;
  }
}
