/** TLA+ values: equality and hashing of nested sets, tuples and functions. */
module Values {

  /**
   A set holds its elements, and a function its fields, in the order in which its immutable map iterates over them.
   */
  datatype Value =
    | Bool(b: bool)
    | Number(num: int)
    | Str(text: string)
    | Set(elems: seq<Value>)
    | Tuple(members: seq<Value>)
    | Function(fields: seq<Field>)

  datatype Field = Field(key: Value, value: Value)

  /** The FNV-1a functions the hashes are made of. */
  datatype Hasher = Hasher(number: int -> bv32, str: string -> bv32, word: bv32 -> bv32)

  const INIT32: bv32 := 2166136261

  /** The members of a tuple, and a field's key and value, do not enter the hash: the sums are computed and dropped. */
  function Hash(h: Hasher, v: Value): bv32 {
    match v
    case Bool(b) => h.number(if b then 1 else 0)
    case Number(n) => h.number(n)
    case Str(s) => h.str(s)
    case Set(elems) => h.word(XorHashes(h, elems))
    case Tuple(_) => INIT32
    case Function(fields) => h.word(XorFields(|fields|))
  }

  function XorHashes(h: Hasher, elems: seq<Value>): bv32 {
    if elems == [] then 0 else Hash(h, elems[0]) ^ XorHashes(h, elems[1..])
  }

  function XorFields(n: nat): bv32 {
    if n == 0 then 0 else INIT32 ^ XorFields(n - 1)
  }

  /** Sets and functions look keys up in the other's immutable map. */
  predicate Equal(h: Hasher, a: Value, b: Value)
    decreases a, 1
  {
    match a
    case Bool(x) => b.Bool? && x == b.b
    case Number(x) => b.Number? && x == b.num
    case Str(x) => b.Str? && x == b.text
    case Set(elems) =>
      && b.Set? && |elems| == |b.elems|
      && (forall i {:trigger Finds(h, elems[i], b.elems)} :: 0 <= i < |elems| ==> Finds(h, elems[i], b.elems))
      && (forall j {:trigger FoundBy(h, b.elems[j], elems)} :: 0 <= j < |b.elems| ==> FoundBy(h, b.elems[j], elems))
    case Tuple(members) =>
      && b.Tuple? && |members| == |b.members|
      && forall i {:trigger members[i]} :: 0 <= i < |members| ==> Equal(h, members[i], b.members[i])
    case Function(fields) =>
      && b.Function? && |fields| == |b.fields|
      && forall i {:trigger FindsField(h, fields[i], b.fields)} :: 0 <= i < |fields| ==> FindsField(h, fields[i], b.fields)
  }

  /** A lookup goes by hash, then by equality: what `x` finds among the keys of a map, */
  predicate Finds(h: Hasher, x: Value, elems: seq<Value>)
    decreases x, 2
  {
    exists j {:trigger Equal(h, x, elems[j])} :: 0 <= j < |elems| && Hash(h, x) == Hash(h, elems[j]) && Equal(h, x, elems[j])
  }

  /** which of them finds it, */
  predicate FoundBy(h: Hasher, x: Value, elems: seq<Value>)
    decreases elems, 2
  {
    exists i {:trigger Equal(h, elems[i], x)} :: 0 <= i < |elems| && Hash(h, elems[i]) == Hash(h, x) && Equal(h, elems[i], x)
  }

  /** and what a field finds, with an equal value. */
  predicate FindsField(h: Hasher, f: Field, fields: seq<Field>)
    decreases f, 2
  {
    exists j {:trigger Equal(h, f.key, fields[j].key)} :: 0 <= j < |fields| &&
      Hash(h, f.key) == Hash(h, fields[j].key) && Equal(h, f.key, fields[j].key) && Equal(h, f.value, fields[j].value)
  }

  predicate Same(h: Hasher, a: Value, b: Value) {
    Hash(h, a) == Hash(h, b) && Equal(h, a, b)
  }

  predicate SameField(h: Hasher, f: Field, g: Field) {
    Same(h, f.key, g.key) && Equal(h, f.value, g.value)
  }

  lemma Found(h: Hasher, x: Value, elems: seq<Value>) returns (j: nat)
    requires Finds(h, x, elems)
    ensures j < |elems| && Same(h, x, elems[j])
  {
    j :| 0 <= j < |elems| && Hash(h, x) == Hash(h, elems[j]) && Equal(h, x, elems[j]);
  }

  lemma Finder(h: Hasher, x: Value, elems: seq<Value>) returns (i: nat)
    requires FoundBy(h, x, elems)
    ensures i < |elems| && Same(h, elems[i], x)
  {
    i :| 0 <= i < |elems| && Hash(h, elems[i]) == Hash(h, x) && Equal(h, elems[i], x);
  }

  lemma FoundField(h: Hasher, f: Field, fields: seq<Field>) returns (j: nat)
    requires FindsField(h, f, fields)
    ensures j < |fields| && SameField(h, f, fields[j])
  {
    j :| 0 <= j < |fields| && Hash(h, f.key) == Hash(h, fields[j].key) && Equal(h, f.key, fields[j].key) &&
      Equal(h, f.value, fields[j].value);
  }

  lemma FindsThere(h: Hasher, x: Value, elems: seq<Value>, j: nat)
    requires j < |elems| && Same(h, x, elems[j])
    ensures Finds(h, x, elems)
  {
  }

  lemma FoundByThere(h: Hasher, x: Value, elems: seq<Value>, i: nat)
    requires i < |elems| && Same(h, elems[i], x)
    ensures FoundBy(h, x, elems)
  {
  }

  lemma FindsFieldThere(h: Hasher, f: Field, fields: seq<Field>, j: nat)
    requires j < |fields| && SameField(h, f, fields[j])
    ensures FindsField(h, f, fields)
  {
  }

  /** What the constructors build: no element and no key twice, all the way down. */
  predicate WellFormed(h: Hasher, v: Value) {
    match v
    case Bool(_) => true
    case Number(_) => true
    case Str(_) => true
    case Set(elems) =>
      && (forall i :: 0 <= i < |elems| ==> WellFormed(h, elems[i]))
      && Distinct(h, elems)
    case Tuple(members) => forall i :: 0 <= i < |members| ==> WellFormed(h, members[i])
    case Function(fields) =>
      && (forall i :: 0 <= i < |fields| ==> WellFormed(h, fields[i].key) && WellFormed(h, fields[i].value))
      && (forall i, j :: 0 <= i < |fields| && 0 <= j < |fields| && i != j ==> !Equal(h, fields[i].key, fields[j].key))
  }

  predicate Distinct(h: Hasher, elems: seq<Value>) {
    forall i, j :: 0 <= i < |elems| && 0 <= j < |elems| && i != j ==> !Equal(h, elems[i], elems[j])
  }

  // ----- equality is an equivalence

  lemma {:induction false} Reflexive(h: Hasher, a: Value)
    ensures Equal(h, a, a)
  {
    match a
    case Set(elems) =>
      forall i | 0 <= i < |elems| ensures Finds(h, elems[i], elems) && FoundBy(h, elems[i], elems) {
        Reflexive(h, elems[i]);
        FindsThere(h, elems[i], elems, i);
        FoundByThere(h, elems[i], elems, i);
      }
    case Tuple(members) =>
      forall i | 0 <= i < |members| ensures Equal(h, members[i], members[i]) {
        Reflexive(h, members[i]);
      }
    case Function(fields) =>
      forall i | 0 <= i < |fields| ensures FindsField(h, fields[i], fields) {
        Reflexive(h, fields[i].key);
        Reflexive(h, fields[i].value);
        FindsFieldThere(h, fields[i], fields, i);
      }
    case _ =>
  }

  lemma {:induction false} Transitive(h: Hasher, a: Value, b: Value, c: Value)
    requires Equal(h, a, b) && Equal(h, b, c)
    ensures Equal(h, a, c)
    decreases a, 1
  {
    match a
    case Set(elems) => TransitiveSet(h, a, b, c);
    case Tuple(members) =>
      forall i | 0 <= i < |members| ensures Equal(h, members[i], c.members[i]) {
        assert Equal(h, members[i], b.members[i]) && Equal(h, b.members[i], c.members[i]);
        Transitive(h, members[i], b.members[i], c.members[i]);
      }
    case Function(fields) => TransitiveFunction(h, a, b, c);
    case _ =>
  }

  lemma {:induction false} TransitiveFunction(h: Hasher, a: Value, b: Value, c: Value)
    requires a.Function? && b.Function? && c.Function? && Equal(h, a, b) && Equal(h, b, c)
    ensures Equal(h, a, c)
    decreases a, 0
  {
    forall i | 0 <= i < |a.fields| ensures FindsField(h, a.fields[i], c.fields) {
      assert FindsField(h, a.fields[i], b.fields);
      var j := FoundField(h, a.fields[i], b.fields);
      assert FindsField(h, b.fields[j], c.fields);
      var k := FoundField(h, b.fields[j], c.fields);
      Transitive(h, a.fields[i].key, b.fields[j].key, c.fields[k].key);
      Transitive(h, a.fields[i].value, b.fields[j].value, c.fields[k].value);
      FindsFieldThere(h, a.fields[i], c.fields, k);
    }
  }

  lemma {:induction false} TransitiveSet(h: Hasher, a: Value, b: Value, c: Value)
    requires a.Set? && b.Set? && c.Set? && Equal(h, a, b) && Equal(h, b, c)
    ensures Equal(h, a, c)
    decreases a, 0
  {
    forall i | 0 <= i < |a.elems| ensures Finds(h, a.elems[i], c.elems) {
      assert Finds(h, a.elems[i], b.elems);
      var j := Found(h, a.elems[i], b.elems);
      assert Finds(h, b.elems[j], c.elems);
      var k := Found(h, b.elems[j], c.elems);
      Transitive(h, a.elems[i], b.elems[j], c.elems[k]);
      FindsThere(h, a.elems[i], c.elems, k);
    }
    forall k | 0 <= k < |c.elems| ensures FoundBy(h, c.elems[k], a.elems) {
      assert FoundBy(h, c.elems[k], b.elems);
      var j := Finder(h, c.elems[k], b.elems);
      assert FoundBy(h, b.elems[j], a.elems);
      var i := Finder(h, b.elems[j], a.elems);
      Transitive(h, a.elems[i], b.elems[j], c.elems[k]);
      FoundByThere(h, c.elems[k], a.elems, i);
    }
  }

  /** A choice of a different partner for each of `n` takes all `n` of them. */
  lemma AllTaken(n: nat, partner: seq<nat>)
    requires |partner| == n
    requires forall i :: 0 <= i < n ==> partner[i] < n
    requires forall i, j :: 0 <= i < j < n ==> partner[i] != partner[j]
    ensures forall j: nat :: j < n ==> j in partner
  {
    DistinctCount(partner);
    assert SetOf(partner) <= Numbers(n);
    SubsetOfSameSize(SetOf(partner), Numbers(n));
  }

  function Numbers(n: nat): (r: set<nat>)
    ensures |r| == n && forall i: nat :: i in r <==> i < n
  {
    if n == 0 then {} else Numbers(n - 1) + {n - 1}
  }

  function SetOf(s: seq<nat>): (r: set<nat>)
    ensures forall x :: x in r <==> x in s
  {
    if s == [] then {} else SetOf(s[1..]) + {s[0]}
  }

  lemma {:induction false} DistinctCount(s: seq<nat>)
    requires forall i, j :: 0 <= i < j < |s| ==> s[i] != s[j]
    ensures |SetOf(s)| == |s|
  {
    if s != [] {
      DistinctCount(s[1..]);
    }
  }

  lemma SubsetOfSameSize(a: set<nat>, b: set<nat>)
    requires a <= b && |a| == |b|
    ensures a == b
  {
    assert b == a + (b - a);
    assert |b| == |a| + |b - a|;
  }

  lemma FindsIndex(h: Hasher, f: Field, fields: seq<Field>)
    requires FindsField(h, f, fields)
    ensures exists j: nat {:trigger SameField(h, f, fields[j])} :: j < |fields| && SameField(h, f, fields[j])
  {
    var j := FoundField(h, f, fields);
  }

  /** The field of the other function that a field finds. */
  ghost function Partner(h: Hasher, f: Field, fields: seq<Field>): (j: nat)
    requires FindsField(h, f, fields)
    ensures j < |fields| && SameField(h, f, fields[j])
  {
    FindsIndex(h, f, fields);
    var j: nat :| j < |fields| && SameField(h, f, fields[j]);
    j
  }

  /** The source compares functions one way only, by size and by the fields of the first: that is enough. */
  lemma {:induction false} Symmetric(h: Hasher, a: Value, b: Value)
    requires Equal(h, a, b) && WellFormed(h, a)
    ensures Equal(h, b, a)
    decreases a, 2
  {
    match a
    case Set(elems) => SymmetricSet(h, a, b);
    case Tuple(members) =>
      forall i | 0 <= i < |members| ensures Equal(h, b.members[i], members[i]) {
        assert Equal(h, members[i], b.members[i]);
        Symmetric(h, members[i], b.members[i]);
      }
    case Function(fields) => SymmetricFunction(h, a, b);
    case _ =>
  }

  lemma {:induction false} SymmetricSet(h: Hasher, a: Value, b: Value)
    requires a.Set? && b.Set? && Equal(h, a, b) && WellFormed(h, a)
    ensures Equal(h, b, a)
    decreases a, 1
  {
    forall j | 0 <= j < |b.elems| ensures Finds(h, b.elems[j], a.elems) {
      assert FoundBy(h, b.elems[j], a.elems);
      var i := Finder(h, b.elems[j], a.elems);
      Symmetric(h, a.elems[i], b.elems[j]);
      FindsThere(h, b.elems[j], a.elems, i);
    }
    forall i | 0 <= i < |a.elems| ensures FoundBy(h, a.elems[i], b.elems) {
      assert Finds(h, a.elems[i], b.elems);
      var j := Found(h, a.elems[i], b.elems);
      Symmetric(h, a.elems[i], b.elems[j]);
      FoundByThere(h, a.elems[i], b.elems, j);
    }
  }

  lemma {:induction false} SymmetricFunction(h: Hasher, a: Value, b: Value)
    requires a.Function? && b.Function? && Equal(h, a, b) && WellFormed(h, a)
    ensures Equal(h, b, a)
    decreases a, 1
  {
    var n := |a.fields|;
    forall i | 0 <= i < n ensures FindsField(h, a.fields[i], b.fields) {
    }
    var partner := seq(n, i requires 0 <= i < n => Partner(h, a.fields[i], b.fields));
    forall i, j | 0 <= i < j < n ensures partner[i] != partner[j] {
      if partner[i] == partner[j] {
        SharedPartner(h, a, i, j, b.fields[partner[i]]);
      }
    }
    AllTaken(n, partner);
    forall j: nat | j < n ensures FindsField(h, b.fields[j], a.fields) {
      assert j in partner;
      var i :| 0 <= i < n && partner[i] == j;
      assert SameField(h, a.fields[i], b.fields[j]);
      Symmetric(h, a.fields[i].key, b.fields[j].key);
      Symmetric(h, a.fields[i].value, b.fields[j].value);
      FindsFieldThere(h, b.fields[j], a.fields, i);
    }
  }

  lemma {:induction false} SharedPartner(h: Hasher, a: Value, i: nat, j: nat, f: Field)
    requires a.Function? && WellFormed(h, a) && i < |a.fields| && j < |a.fields|
    requires SameField(h, a.fields[i], f) && SameField(h, a.fields[j], f)
    ensures i == j
    decreases a, 0
  {
    Symmetric(h, a.fields[j].key, f.key);
    Transitive(h, a.fields[i].key, f.key, a.fields[j].key);
  }

  // ----- equal values hash alike

  lemma {:induction false} XorWithout(h: Hasher, elems: seq<Value>, j: nat)
    requires j < |elems|
    ensures XorHashes(h, elems) == Hash(h, elems[j]) ^ XorHashes(h, elems[..j] + elems[j + 1..])
    decreases j
  {
    if j == 0 {
      assert elems[..0] + elems[1..] == elems[1..];
    } else {
      XorWithout(h, elems[1..], j - 1);
      var rest := elems[..j] + elems[j + 1..];
      assert rest[0] == elems[0] && rest[1..] == elems[1..][..j - 1] + elems[1..][j..];
    }
  }

  /** Elements that find each other, one by one, combine to the same hash in any order. */
  lemma {:induction false} XorOfMatched(h: Hasher, es: seq<Value>, fs: seq<Value>)
    requires |es| == |fs| && Distinct(h, es)
    requires forall i :: 0 <= i < |es| ==> WellFormed(h, es[i])
    requires forall i {:trigger Finds(h, es[i], fs)} :: 0 <= i < |es| ==> Finds(h, es[i], fs)
    ensures XorHashes(h, es) == XorHashes(h, fs)
    decreases |es|
  {
    if es == [] {
    } else {
      assert Finds(h, es[0], fs);
      var j := Found(h, es[0], fs);
      var rest := fs[..j] + fs[j + 1..];
      forall i | 0 <= i < |es[1..]| ensures Finds(h, es[1..][i], rest) {
        assert Finds(h, es[i + 1], fs);
        var k := Found(h, es[i + 1], fs);
        if k == j {
          Symmetric(h, es[0], fs[j]);
          Transitive(h, es[i + 1], fs[j], es[0]);
        }
        FindsThere(h, es[i + 1], rest, if k < j then k else k - 1);
      }
      XorOfMatched(h, es[1..], rest);
      XorWithout(h, fs, j);
    }
  }

  lemma EqualHashAlike(h: Hasher, a: Value, b: Value)
    requires Equal(h, a, b) && WellFormed(h, a)
    ensures Hash(h, a) == Hash(h, b)
  {
    if a.Set? {
      XorOfMatched(h, a.elems, b.elems);
    }
  }

  lemma {:induction false} XorFieldsParity(n: nat)
    ensures XorFields(n) == if n % 2 == 0 then 0 else INIT32
  {
    if n > 0 {
      XorFieldsParity(n - 1);
    }
  }

  /**
   Hashing is coarse: all tuples have one hash, and of functions only the parity of the number of fields counts.
   Equality still tells those of different size apart.
   */
  lemma TuplesCollide(h: Hasher, s: seq<Value>, t: seq<Value>, f: seq<Field>, g: seq<Field>)
    ensures Hash(h, Tuple(s)) == Hash(h, Tuple(t))
    ensures |s| != |t| ==> !Equal(h, Tuple(s), Tuple(t))
    ensures |f| % 2 == |g| % 2 ==> Hash(h, Function(f)) == Hash(h, Function(g))
    ensures |f| != |g| ==> !Equal(h, Function(f), Function(g))
  {
    XorFieldsParity(|f|);
    XorFieldsParity(|g|);
  }

  // ----- what set equality means

  /** `x \in S`. */
  predicate Contains(h: Hasher, elems: seq<Value>, x: Value) {
    exists i {:trigger elems[i]} :: 0 <= i < |elems| && Equal(h, elems[i], x)
  }

  lemma PartnersFit(n: nat, partner: seq<nat>)
    requires forall i :: 0 <= i < |partner| ==> partner[i] < n
    requires forall i, j :: 0 <= i < j < |partner| ==> partner[i] != partner[j]
    ensures |partner| <= n
  {
    DistinctCount(partner);
    var a, b := SetOf(partner), Numbers(n);
    assert b == a + (b - a);
    assert |b| == |a| + |b - a|;
  }

  ghost function PlaceOf(h: Hasher, elems: seq<Value>, x: Value): (j: nat)
    requires Contains(h, elems, x)
    ensures j < |elems| && Equal(h, elems[j], x)
  {
    var j: nat :| j < |elems| && Equal(h, elems[j], x);
    j
  }

  /** A set whose elements are all in another has no more of them. */
  lemma SubsetIsNoLonger(h: Hasher, es: seq<Value>, fs: seq<Value>)
    requires Distinct(h, es)
    requires forall i {:trigger fs[i]} :: 0 <= i < |fs| ==> WellFormed(h, fs[i])
    requires forall i {:trigger es[i]} :: 0 <= i < |es| ==> Contains(h, fs, es[i])
    ensures |es| <= |fs|
  {
    var partner := seq(|es|, i requires 0 <= i < |es| => PlaceOf(h, fs, es[i]));
    forall i, j | 0 <= i < j < |es| ensures partner[i] != partner[j] {
      if partner[i] == partner[j] {
        Symmetric(h, fs[partner[i]], es[i]);
        Transitive(h, es[i], fs[partner[i]], es[j]);
      }
    }
    PartnersFit(|fs|, partner);
  }

  /** Extensionality: the source's comparison of sizes and lookups both ways says that the sets have the same members. */
  lemma SetsEqualIffSameMembers(h: Hasher, es: seq<Value>, fs: seq<Value>)
    requires WellFormed(h, Set(es)) && WellFormed(h, Set(fs))
    ensures Equal(h, Set(es), Set(fs)) <==>
              forall x :: WellFormed(h, x) ==> (Contains(h, es, x) <==> Contains(h, fs, x))
  {
    if Equal(h, Set(es), Set(fs)) {
      forall x | WellFormed(h, x) ensures Contains(h, es, x) <==> Contains(h, fs, x) {
        MembersCarryOver(h, es, fs, x);
      }
    }
    if forall x :: WellFormed(h, x) ==> (Contains(h, es, x) <==> Contains(h, fs, x)) {
      SameMembersAreEqual(h, es, fs);
    }
  }

  lemma MembersCarryOver(h: Hasher, es: seq<Value>, fs: seq<Value>, x: Value)
    requires WellFormed(h, Set(es)) && WellFormed(h, Set(fs)) && Equal(h, Set(es), Set(fs))
    ensures Contains(h, es, x) <==> Contains(h, fs, x)
  {
    if Contains(h, es, x) {
      var i := PlaceOf(h, es, x);
      assert Finds(h, es[i], fs);
      var j := Found(h, es[i], fs);
      Symmetric(h, es[i], fs[j]);
      Transitive(h, fs[j], es[i], x);
    }
    if Contains(h, fs, x) {
      var j := PlaceOf(h, fs, x);
      assert FoundBy(h, fs[j], es);
      var i := Finder(h, fs[j], es);
      Transitive(h, es[i], fs[j], x);
    }
  }

  lemma SameMembersAreEqual(h: Hasher, es: seq<Value>, fs: seq<Value>)
    requires WellFormed(h, Set(es)) && WellFormed(h, Set(fs))
    requires forall x :: WellFormed(h, x) ==> (Contains(h, es, x) <==> Contains(h, fs, x))
    ensures Equal(h, Set(es), Set(fs))
  {
    hide Contains, Finds, FoundBy, Hash;
    forall i | 0 <= i < |es| ensures Contains(h, fs, es[i]) && Finds(h, es[i], fs) {
      ContainsOwn(h, es, i);
      ContainedIsFound(h, fs, es[i]);
    }
    forall j | 0 <= j < |fs| ensures Contains(h, es, fs[j]) && FoundBy(h, fs[j], es) {
      ContainsOwn(h, fs, j);
      ContainedIsFound(h, es, fs[j]);
    }
    SubsetIsNoLonger(h, es, fs);
    SubsetIsNoLonger(h, fs, es);
  }

  lemma ContainsOwn(h: Hasher, es: seq<Value>, i: nat)
    requires i < |es|
    ensures Contains(h, es, es[i])
  {
    Reflexive(h, es[i]);
  }

  lemma ContainedIsFound(h: Hasher, fs: seq<Value>, x: Value)
    requires WellFormed(h, Set(fs)) && Contains(h, fs, x)
    ensures Finds(h, x, fs) && FoundBy(h, x, fs)
  {
    var j := PlaceOf(h, fs, x);
    Symmetric(h, fs[j], x);
    EqualHashAlike(h, fs[j], x);
    FindsThere(h, x, fs, j);
    FoundByThere(h, x, fs, j);
  }

  // ----- what function equality means

  /** `x` is in the domain. */
  predicate InDomain(h: Hasher, fields: seq<Field>, x: Value) {
    exists i {:trigger fields[i]} :: 0 <= i < |fields| && Equal(h, fields[i].key, x)
  }

  /** The value at `x`. */
  ghost function At(h: Hasher, fields: seq<Field>, x: Value): Value
    requires InDomain(h, fields, x)
  {
    var i :| 0 <= i < |fields| && Equal(h, fields[i].key, x);
    fields[i].value
  }

  /** Fields whose keys are equal to one value are one field. */
  lemma OneField(h: Hasher, fields: seq<Field>, x: Value, i: nat)
    requires WellFormed(h, Function(fields)) && i < |fields| && Equal(h, fields[i].key, x)
    ensures InDomain(h, fields, x) && At(h, fields, x) == fields[i].value
  {
    var k :| 0 <= k < |fields| && Equal(h, fields[k].key, x) && At(h, fields, x) == fields[k].value;
    if k != i {
      Symmetric(h, fields[i].key, x);
      Transitive(h, fields[k].key, x, fields[i].key);
    }
  }

  /** The same domain, and equal values everywhere on it. */
  ghost predicate SameGraph(h: Hasher, f: seq<Field>, g: seq<Field>) {
    forall x {:trigger InDomain(h, f, x)} {:trigger InDomain(h, g, x)} :: WellFormed(h, x) ==> SameAt(h, f, g, x)
  }

  ghost predicate SameAt(h: Hasher, f: seq<Field>, g: seq<Field>, x: Value) {
    (InDomain(h, f, x) <==> InDomain(h, g, x)) && (InDomain(h, f, x) ==> Equal(h, At(h, f, x), At(h, g, x)))
  }

  /** Functions are equal exactly if they have the same domain and equal values on it, although compared one way only. */
  lemma FunctionsEqualIffSameGraph(h: Hasher, f: seq<Field>, g: seq<Field>)
    requires WellFormed(h, Function(f)) && WellFormed(h, Function(g))
    ensures Equal(h, Function(f), Function(g)) <==> SameGraph(h, f, g)
  {
    hide Equal, WellFormed, SameAt;
    if Equal(h, Function(f), Function(g)) {
      forall x | WellFormed(h, x) ensures SameAt(h, f, g, x) {
        GraphCarriesOver(h, f, g, x);
      }
    }
    if SameGraph(h, f, g) {
      SameGraphIsEqual(h, f, g);
    }
  }

  lemma GraphCarriesOver(h: Hasher, f: seq<Field>, g: seq<Field>, x: Value)
    requires WellFormed(h, Function(f)) && WellFormed(h, Function(g)) && Equal(h, Function(f), Function(g))
    ensures SameAt(h, f, g, x)
  {
    hide Equal, WellFormed, InDomain, At;
    Symmetric(h, Function(f), Function(g));
    if InDomain(h, f, x) {
      ValueCarriesOver(h, f, g, x);
    }
    if InDomain(h, g, x) {
      ValueCarriesOver(h, g, f, x);
    }
  }

  lemma ValueCarriesOver(h: Hasher, f: seq<Field>, g: seq<Field>, x: Value)
    requires WellFormed(h, Function(f)) && WellFormed(h, Function(g)) && Equal(h, Function(f), Function(g))
    requires InDomain(h, f, x)
    ensures InDomain(h, g, x) && Equal(h, At(h, f, x), At(h, g, x))
  {
    var i :| 0 <= i < |f| && Equal(h, f[i].key, x);
    OneField(h, f, x, i);
    assert FindsField(h, f[i], g);
    var j := FoundField(h, f[i], g);
    Symmetric(h, f[i].key, g[j].key);
    Transitive(h, g[j].key, f[i].key, x);
    OneField(h, g, x, j);
  }

  function KeysOf(fields: seq<Field>): (r: seq<Value>)
    ensures |r| == |fields| && forall i :: 0 <= i < |fields| ==> r[i] == fields[i].key
  {
    seq(|fields|, i requires 0 <= i < |fields| => fields[i].key)
  }

  lemma NoLongerDomain(h: Hasher, f: seq<Field>, g: seq<Field>)
    requires WellFormed(h, Function(f)) && WellFormed(h, Function(g))
    requires forall i {:trigger f[i]} :: 0 <= i < |f| ==> InDomain(h, g, f[i].key)
    ensures |f| <= |g|
  {
    var es, fs := KeysOf(f), KeysOf(g);
    forall i | 0 <= i < |es| ensures Contains(h, fs, es[i]) {
      assert InDomain(h, g, f[i].key);
      var j :| 0 <= j < |g| && Equal(h, g[j].key, f[i].key);
      assert Equal(h, fs[j], es[i]);
    }
    SubsetIsNoLonger(h, es, fs);
  }

  lemma SameGraphIsEqual(h: Hasher, f: seq<Field>, g: seq<Field>)
    requires WellFormed(h, Function(f)) && WellFormed(h, Function(g)) && SameGraph(h, f, g)
    ensures Equal(h, Function(f), Function(g))
  {
    hide FindsField, Hash;
    forall i | 0 <= i < |f| ensures InDomain(h, g, f[i].key) && FindsField(h, f[i], g) {
      FieldIsFound(h, f, g, i);
    }
    forall j | 0 <= j < |g| ensures InDomain(h, f, g[j].key) {
      Reflexive(h, g[j].key);
      assert InDomain(h, g, g[j].key) && SameAt(h, f, g, g[j].key);
    }
    NoLongerDomain(h, f, g);
    NoLongerDomain(h, g, f);
  }

  lemma FieldIsFound(h: Hasher, f: seq<Field>, g: seq<Field>, i: nat)
    requires WellFormed(h, Function(f)) && WellFormed(h, Function(g)) && SameGraph(h, f, g) && i < |f|
    ensures InDomain(h, g, f[i].key) && FindsField(h, f[i], g)
  {
    var x := f[i].key;
    Reflexive(h, x);
    OneField(h, f, x, i);
    assert SameAt(h, f, g, x);
    var j :| 0 <= j < |g| && Equal(h, g[j].key, x);
    OneField(h, g, x, j);
    Symmetric(h, g[j].key, x);
    EqualHashAlike(h, x, g[j].key);
    FindsFieldThere(h, f[i], g, j);
  }

  // ----- equality without hashes

  /** Built of booleans, numbers, strings and tuples only. */
  predicate Plain(v: Value) {
    match v
    case Bool(_) => true
    case Number(_) => true
    case Str(_) => true
    case Set(_) => false
    case Tuple(members) => forall i :: 0 <= i < |members| ==> Plain(members[i])
    case Function(_) => false
  }

  /** Such a value is equal to itself only. */
  lemma {:induction false} PlainEquality(h: Hasher, a: Value, b: Value)
    requires Plain(a)
    ensures Equal(h, a, b) <==> a == b
  {
    if a.Tuple? && b.Tuple? && |a.members| == |b.members| {
      forall i | 0 <= i < |a.members| ensures Equal(h, a.members[i], b.members[i]) <==> a.members[i] == b.members[i] {
        PlainEquality(h, a.members[i], b.members[i]);
      }
    }
  }

  /**
   The same mathematical value: sets with the same elements and functions with the same pairs, whatever their order. No
   hash and no size is looked at, and both sides alike.
   */
  predicate SameValue(a: Value, b: Value)
    decreases a, 1
  {
    match a
    case Set(es) =>
      && b.Set?
      && (forall i {:trigger OneIs(es[i], b.elems)} :: 0 <= i < |es| ==> OneIs(es[i], b.elems))
      && (forall j {:trigger IsOneOf(es, b.elems[j])} :: 0 <= j < |b.elems| ==> IsOneOf(es, b.elems[j]))
    case Tuple(es) =>
      b.Tuple? && |es| == |b.members| && forall i {:trigger es[i]} :: 0 <= i < |es| ==> SameValue(es[i], b.members[i])
    case Function(fs) =>
      && b.Function?
      && (forall i {:trigger OnePairIs(fs[i], b.fields)} :: 0 <= i < |fs| ==> OnePairIs(fs[i], b.fields))
      && (forall j {:trigger IsOnePairOf(fs, b.fields[j])} :: 0 <= j < |b.fields| ==> IsOnePairOf(fs, b.fields[j]))
    case _ => a == b
  }

  predicate OneIs(x: Value, elems: seq<Value>)
    decreases x, 2
  {
    exists j {:trigger SameValue(x, elems[j])} :: 0 <= j < |elems| && SameValue(x, elems[j])
  }

  predicate IsOneOf(elems: seq<Value>, x: Value)
    decreases elems, 2
  {
    exists i {:trigger SameValue(elems[i], x)} :: 0 <= i < |elems| && SameValue(elems[i], x)
  }

  predicate SamePair(f: Field, g: Field)
    decreases f, 2
  {
    SameValue(f.key, g.key) && SameValue(f.value, g.value)
  }

  predicate OnePairIs(f: Field, fields: seq<Field>)
    decreases f, 3
  {
    exists j {:trigger SamePair(f, fields[j])} :: 0 <= j < |fields| && SamePair(f, fields[j])
  }

  predicate IsOnePairOf(fields: seq<Field>, g: Field)
    decreases fields, 3
  {
    exists i {:trigger SamePair(fields[i], g)} :: 0 <= i < |fields| && SamePair(fields[i], g)
  }

  /** On well-formed values the source's comparison, by kind, size and lookups, decides exactly that. */
  lemma {:induction false} EqualIsSameValue(h: Hasher, a: Value, b: Value)
    requires WellFormed(h, a) && WellFormed(h, b)
    ensures Equal(h, a, b) <==> SameValue(a, b)
    decreases a, 1
  {
    match a
    case Set(_) => if b.Set? { SetIsSameValue(h, a, b); }
    case Tuple(es) =>
      if b.Tuple? && |es| == |b.members| {
        forall i | 0 <= i < |es| ensures Equal(h, es[i], b.members[i]) <==> SameValue(es[i], b.members[i]) {
          EqualIsSameValue(h, es[i], b.members[i]);
        }
      }
    case Function(_) => if b.Function? { FunctionIsSameValue(h, a, b); }
    case _ =>
  }

  lemma {:induction false} SetIsSameValue(h: Hasher, a: Value, b: Value)
    requires a.Set? && b.Set? && WellFormed(h, a) && WellFormed(h, b)
    ensures Equal(h, a, b) <==> SameValue(a, b)
    decreases a, 0
  {
    var es, fs := a.elems, b.elems;
    forall i, j | 0 <= i < |es| && 0 <= j < |fs| ensures Equal(h, es[i], fs[j]) <==> SameValue(es[i], fs[j]) {
      EqualIsSameValue(h, es[i], fs[j]);
    }
    if Equal(h, a, b) {
      forall i | 0 <= i < |es| ensures OneIs(es[i], fs) {
        assert Finds(h, es[i], fs);
        var j := Found(h, es[i], fs);
        assert SameValue(es[i], fs[j]);
      }
      forall j | 0 <= j < |fs| ensures IsOneOf(es, fs[j]) {
        assert FoundBy(h, fs[j], es);
        var i := Finder(h, fs[j], es);
        assert SameValue(es[i], fs[j]);
      }
    }
    if SameValue(a, b) {
      SameSetIsEqual(h, es, fs);
    }
  }

  lemma SameSetIsEqual(h: Hasher, es: seq<Value>, fs: seq<Value>)
    requires WellFormed(h, Set(es)) && WellFormed(h, Set(fs)) && SameValue(Set(es), Set(fs))
    requires forall i, j :: 0 <= i < |es| && 0 <= j < |fs| ==> (Equal(h, es[i], fs[j]) <==> SameValue(es[i], fs[j]))
    ensures Equal(h, Set(es), Set(fs))
  {
    hide Hash, Finds, FoundBy, Contains;
    forall i | 0 <= i < |es| ensures Contains(h, fs, es[i]) && Finds(h, es[i], fs) {
      assert OneIs(es[i], fs);
      var j :| 0 <= j < |fs| && SameValue(es[i], fs[j]);
      MemberMeets(h, es, fs, i, j);
    }
    forall j | 0 <= j < |fs| ensures Contains(h, es, fs[j]) && FoundBy(h, fs[j], es) {
      assert IsOneOf(es, fs[j]);
      var i :| 0 <= i < |es| && SameValue(es[i], fs[j]);
      MemberMeets(h, es, fs, i, j);
    }
    SubsetIsNoLonger(h, es, fs);
    SubsetIsNoLonger(h, fs, es);
  }

  /** Equal elements of two sets find each other. */
  lemma MemberMeets(h: Hasher, es: seq<Value>, fs: seq<Value>, i: nat, j: nat)
    requires i < |es| && j < |fs| && Equal(h, es[i], fs[j]) && WellFormed(h, es[i])
    ensures Contains(h, fs, es[i]) && Finds(h, es[i], fs) && Contains(h, es, fs[j]) && FoundBy(h, fs[j], es)
  {
    EqualHashAlike(h, es[i], fs[j]);
    FindsThere(h, es[i], fs, j);
    FoundByThere(h, fs[j], es, i);
    Symmetric(h, es[i], fs[j]);
  }

  lemma {:induction false} FunctionIsSameValue(h: Hasher, a: Value, b: Value)
    requires a.Function? && b.Function? && WellFormed(h, a) && WellFormed(h, b)
    ensures Equal(h, a, b) <==> SameValue(a, b)
    decreases a, 0
  {
    var f, g := a.fields, b.fields;
    forall i, j | 0 <= i < |f| && 0 <= j < |g| ensures SameField(h, f[i], g[j]) <==> SamePair(f[i], g[j]) {
      EqualIsSameValue(h, f[i].key, g[j].key);
      EqualIsSameValue(h, f[i].value, g[j].value);
      if Equal(h, f[i].key, g[j].key) {
        EqualHashAlike(h, f[i].key, g[j].key);
      }
    }
    if Equal(h, a, b) {
      forall i | 0 <= i < |f| ensures OnePairIs(f[i], g) {
        assert FindsField(h, f[i], g);
        var j := FoundField(h, f[i], g);
        assert SamePair(f[i], g[j]);
      }
      forall j | 0 <= j < |g| ensures IsOnePairOf(f, g[j]) {
        var i := FoundBack(h, f, g, j);
        assert SamePair(f[i], g[j]);
      }
    }
    if SameValue(a, b) {
      SameFunctionIsEqual(h, f, g);
    }
  }

  /** Every field of the second of two equal functions is found by one of the first. */
  lemma FoundBack(h: Hasher, f: seq<Field>, g: seq<Field>, j: nat) returns (i: nat)
    requires WellFormed(h, Function(f)) && WellFormed(h, Function(g)) && Equal(h, Function(f), Function(g)) && j < |g|
    ensures i < |f| && SameField(h, f[i], g[j])
  {
    Symmetric(h, Function(f), Function(g));
    assert FindsField(h, g[j], f);
    i := FoundField(h, g[j], f);
    Symmetric(h, g[j].key, f[i].key);
    Symmetric(h, g[j].value, f[i].value);
  }

  lemma SameFunctionIsEqual(h: Hasher, f: seq<Field>, g: seq<Field>)
    requires WellFormed(h, Function(f)) && WellFormed(h, Function(g)) && SameValue(Function(f), Function(g))
    requires forall i, j :: 0 <= i < |f| && 0 <= j < |g| ==> (SameField(h, f[i], g[j]) <==> SamePair(f[i], g[j]))
    ensures Equal(h, Function(f), Function(g))
  {
    hide Hash;
    forall i | 0 <= i < |f| ensures InDomain(h, g, f[i].key) && FindsField(h, f[i], g) {
      assert OnePairIs(f[i], g);
      var j :| 0 <= j < |g| && SamePair(f[i], g[j]);
      assert SameField(h, f[i], g[j]);
      FindsFieldThere(h, f[i], g, j);
      Symmetric(h, f[i].key, g[j].key);
    }
    forall j | 0 <= j < |g| ensures InDomain(h, f, g[j].key) {
      assert IsOnePairOf(f, g[j]);
      var i :| 0 <= i < |f| && SamePair(f[i], g[j]);
      assert SameField(h, f[i], g[j]);
    }
    NoLongerDomain(h, f, g);
    NoLongerDomain(h, g, f);
  }

  // ----- constructors

  /** Setting a key in the map of a set that is being built. */
  function Insert(h: Hasher, elems: seq<Value>, x: Value): seq<Value> {
    if FoundBy(h, x, elems) then elems else elems + [x]
  }

  function Members(h: Hasher, members: seq<Value>): seq<Value> {
    if members == [] then [] else Insert(h, Members(h, members[..|members| - 1]), members[|members| - 1])
  }

  function MakeSet(h: Hasher, members: seq<Value>): Value {
    Set(Members(h, members))
  }

  /** Whatever is listed, in whatever order and however often, the set is well formed and has exactly that in it. */
  lemma {:induction false} MakeSetHasMembers(h: Hasher, members: seq<Value>, x: Value)
    requires forall i {:trigger members[i]} :: 0 <= i < |members| ==> WellFormed(h, members[i])
    requires WellFormed(h, x)
    ensures WellFormed(h, MakeSet(h, members))
    ensures Contains(h, Members(h, members), x) <==> Contains(h, members, x)
    decreases |members|
  {
    if members != [] {
      var n := |members| - 1;
      MakeSetHasMembers(h, members[..n], x);
      InsertKeepsSet(h, Members(h, members[..n]), members[n]);
      InsertAdds(h, Members(h, members[..n]), members[n], x);
      LastMember(h, members, x);
    }
  }

  lemma LastMember(h: Hasher, members: seq<Value>, x: Value)
    requires members != []
    ensures var n := |members| - 1;
            Contains(h, members, x) <==> Contains(h, members[..n], x) || Equal(h, members[n], x)
  {
    var n := |members| - 1;
    if Contains(h, members, x) {
      var i := PlaceOf(h, members, x);
      assert i < n ==> members[..n][i] == members[i];
    }
    if Contains(h, members[..n], x) {
      var i := PlaceOf(h, members[..n], x);
      assert members[i] == members[..n][i];
    }
  }

  lemma InsertKeepsSet(h: Hasher, elems: seq<Value>, x: Value)
    requires WellFormed(h, Set(elems)) && WellFormed(h, x)
    ensures WellFormed(h, Set(Insert(h, elems, x)))
  {
    forall i | 0 <= i < |elems| ensures Equal(h, elems[i], x) || Equal(h, x, elems[i]) ==> FoundBy(h, x, elems) {
      EqualIsFound(h, elems, x, i);
    }
  }

  lemma EqualIsFound(h: Hasher, elems: seq<Value>, x: Value, i: nat)
    requires i < |elems| && WellFormed(h, elems[i]) && WellFormed(h, x)
    ensures Equal(h, elems[i], x) || Equal(h, x, elems[i]) ==> FoundBy(h, x, elems)
  {
    if Equal(h, x, elems[i]) {
      Symmetric(h, x, elems[i]);
    }
    if Equal(h, elems[i], x) {
      EqualHashAlike(h, elems[i], x);
      FoundByThere(h, x, elems, i);
    }
  }

  lemma InsertAdds(h: Hasher, elems: seq<Value>, x: Value, y: Value)
    ensures Contains(h, Insert(h, elems, x), y) <==> Contains(h, elems, y) || Equal(h, x, y)
  {
    if FoundBy(h, x, elems) {
      var i := Finder(h, x, elems);
      if Equal(h, x, y) {
        Transitive(h, elems[i], x, y);
      }
    } else {
      LastMember(h, elems + [x], y);
      assert (elems + [x])[..|elems|] == elems;
    }
  }
}
