/** The programs of `TestSourceTransform` in test/testSourceTransform.py,
    each run on a fresh engine with its conditionals, assignments and
    operators written as the faceted operations they stand for. Each
    method returns what the test concretizes, and its contract states the
    values the test expects. Labels are numbered in creation order, so the
    first label of a test is 0. */
module Scenarios {
  import opened Values
  import opened Facets
  import opened Concretization
  import opened PolicyRegistry
  import opened FacetedObjects

  /** `mkSensitive(l, hi, lo)` over plain values. */
  function Sensitive<T>(l: Label, hi: T, lo: T): (r: Facet<T>)
    ensures Labels(r) == {l} && Leaves(r) == {hi, lo} && WellFormed(r)
  {
    Node(l, Leaf(hi), Leaf(lo))
  }

  function Int(i: int): Facet<Value>
  {
    Leaf(VInt(i))
  }

  /** `restrict(x, lambda _: True)`, then `concretize(None, x)`. */
  method RestrictAllPermissive() returns (x: bool)
    ensures x
  {
    var e := new Engine();
    var l := e.MkLabel("x");
    e.Restrict(l, (_: Value) => true, []);
    x := Concretize(e.policies, VNone, LabelValue(l));
  }

  /** `restrict(x, lambda _: False)`, then `concretize(None, x)`. */
  method RestrictAllRestrictive() returns (x: bool)
    ensures !x
  {
    var e := new Engine();
    var l := e.MkLabel("x");
    e.Restrict(l, (_: Value) => false, []);
    x := Concretize(e.policies, VNone, LabelValue(l));
  }

  /** `restrict(x, lambda y: y == 2)`, then the label viewed by 2 and by 3. */
  method RestrictWithContext() returns (at2: bool, at3: bool)
    ensures at2 && !at3
  {
    var e := new Engine();
    var l := e.MkLabel("x");
    e.Restrict(l, (y: Value) => Eq(y, VInt(2)), []);
    at2 := Concretize(e.policies, VInt(2), LabelValue(l));
    at3 := Concretize(e.policies, VInt(3), LabelValue(l));
  }

  /** `mkSensitive(x, 42, 41)` under `restrict(x, lambda y: y == 2)`. */
  method RestrictWithSensitiveValue() returns (at2: Value, at1: Value)
    ensures at2 == VInt(42) && at1 == VInt(41)
  {
    var e := new Engine();
    var l := e.MkLabel("x");
    e.Restrict(l, (y: Value) => Eq(y, VInt(2)), []);
    var value := Sensitive(l, VInt(42), VInt(41));
    at2 := Concretize(e.policies, VInt(2), value);
    at1 := Concretize(e.policies, VInt(1), value);
  }

  /** `concretize(value, value)` with `restrict(x, lambda c: c == 42)`: the
      high side is shown exactly when it satisfies the policy itself. */
  method RestrictWithCyclic() returns (first: Value, second: Value)
    ensures first == VInt(42) && second == VInt(20)
  {
    var e := new Engine();
    var l := e.MkLabel("x");
    e.Restrict(l, (c: Value) => Eq(c, VInt(42)), []);
    first := ConcretizeSelf(e.policies, Sensitive(l, VInt(42), VInt(20)));
    second := ConcretizeSelf(e.policies, Sensitive(l, VInt(41), VInt(20)));
  }

  /** The conditional expressions `13 if g else 17` of `test_jif_with_ints`,
      each concretized for the contexts 42 and -2. */
  method JifWithInts() returns (a: (Value, Value), b: (Value, Value), c: (Value, Value),
                                d: (Value, Value), d': (Value, Value))
    ensures a == (VInt(13), VInt(17))
    ensures b == (VInt(13), VInt(13)) && c == (VInt(17), VInt(17))
    ensures d == (VInt(13), VInt(17)) && d' == (VInt(17), VInt(13))
  {
    var e := new Engine();
    var x := e.MkLabel("x");
    e.Restrict(x, (c: Value) => Eq(c, VInt(42)), []);
    var reg := e.policies;
    var fa := Jif(LabelValue(x), Int(13), Int(17));
    a := (Concretize(reg, VInt(42), fa), Concretize(reg, VInt(-2), fa));
    var fb := Jif(Leaf(true), Int(13), Int(17));
    b := (Concretize(reg, VInt(42), fb), Concretize(reg, VInt(-2), fb));
    var fc := Jif(Leaf(false), Int(13), Int(17));
    c := (Concretize(reg, VInt(42), fc), Concretize(reg, VInt(-2), fc));
    var fd := Jif(Sensitive(x, true, false), Int(13), Int(17));
    d := (Concretize(reg, VInt(42), fd), Concretize(reg, VInt(-2), fd));
    var fd' := Jif(Sensitive(x, false, true), Int(13), Int(17));
    d' := (Concretize(reg, VInt(42), fd'), Concretize(reg, VInt(-2), fd'));
  }

  /** `f = i1 if faceted_int > 5 else i2`, with the guard faceted on `y` and
      both branches faceted on `z`: each of the contexts (True, True),
      (True, False), (False, True) and (False, False) sees its own value. */
  method JifOverTwoLabels() returns (seen: seq<Value>)
    ensures seen == [VInt(101), VInt(102), VInt(103), VInt(104)]
  {
    var e := new Engine();
    var x := e.MkLabel("x");
    e.Restrict(x, (c: Value) => Eq(c, VInt(42)), []);
    var y := e.MkLabel("y");
    var z := e.MkLabel("z");
    var first, second := (c: Value) => c.VPair? && Truthy(c.fst), (c: Value) => c.VPair? && Truthy(c.snd);
    e.Restrict(y, first, []);
    e.Restrict(z, second, []);
    var reg := e.policies;
    assert reg[y] == Policy([], first) && reg[z] == Policy([], second);
    var conditional := Lift2(Gt, Sensitive(y, VInt(10), VInt(0)), Int(5));
    var i1, i2 := Sensitive(z, VInt(101), VInt(102)), Sensitive(z, VInt(103), VInt(104));
    var f := Jif(conditional, i1, i2);
    GuardOnFacetedInt(y, z);
    seen := FourContexts(reg, f);
    PairTable(reg, y, z, VInt(101), VInt(102), VInt(103), VInt(104));
  }

  /** `mkSensitive(y, 10, 0) > 5` is true exactly where `y` is high, so the
      conditional on it is the split on `y` of the two branches. */
  lemma GuardOnFacetedInt(y: Label, z: Label)
    requires y != z
    ensures Lift2(Gt, Sensitive(y, VInt(10), VInt(0)), Int(5)) == LabelValue(y)
    ensures var i1, i2 := Sensitive(z, VInt(101), VInt(102)), Sensitive(z, VInt(103), VInt(104));
      Jif(LabelValue(y), i1, i2) == Node(y, i1, i2)
  {
    LiftAgainstPlain(Gt, y, VInt(10), VInt(0), VInt(5));
    assert Gt(VInt(10), VInt(5)) && !Gt(VInt(0), VInt(5));
    JifOnLabel(y, Sensitive(z, VInt(101), VInt(102)), Sensitive(z, VInt(103), VInt(104)));
  }

  /** `if value == 42: restrict(x, lambda c: c == 1)`: the restriction runs
      on the path where `x` is high, so it governs `x`; for `y` no path
      makes the guard true, `y` stays unrestricted and shows its high side
      to everyone. */
  method RestrictUnderConditional() returns (x0: Value, x1: Value, y0: Value, y1: Value)
    ensures x0 == VInt(0) && x1 == VInt(42)
    ensures y0 == VInt(43) && y1 == VInt(43)
  {
    var e := new Engine();
    x0, x1 := RestrictIfFortyTwo(e, "x", 42, 0);
    y0, y1 := RestrictIfFortyTwo(e, "y", 43, 0);
  }

  /** One half of `test_restrict_under_conditional`: a fresh label, the
      value `mkSensitive(label, hi, lo)`, and `restrict(label, lambda c:
      c == 1)` under `if value == 42`; then the value as seen by the
      contexts 0 and 1. Only a restriction that ran hides the high side
      from 0. */
  method RestrictIfFortyTwo(e: Engine, name: string, hi: int, lo: int) returns (at0: Value, at1: Value)
    requires e.Valid() && lo != 42
    modifies e
    ensures e.Valid() && e.names == old(e.names) + [name]
    ensures at0 == VInt(if hi == 42 then lo else hi) && at1 == VInt(hi)
  {
    var l := e.MkLabel(name);
    var value := Sensitive(l, VInt(hi), VInt(lo));
    var atOne := (c: Value) => Eq(c, VInt(1));
    EqualsFortyTwo(l, hi, lo);
    e.RestrictWhen(Lift2(Eq, value, Int(42)), [], l, atOne);
    at0 := Concretize(e.policies, VInt(0), value);
    at1 := Concretize(e.policies, VInt(1), value);
    MkSensitiveResolves(e.policies, VInt(0), l, VInt(hi), VInt(lo));
    MkSensitiveResolves(e.policies, VInt(1), l, VInt(hi), VInt(lo));
  }

  /** The guard `value == 42` over `mkSensitive(l, hi, lo)`: when only the
      high side is 42 the guarded statement runs once, on the path where
      `l` is high; when neither side is 42 it never runs. */
  lemma EqualsFortyTwo(l: Label, hi: int, lo: int)
    requires lo != 42
    ensures var guard := Lift2(Eq, Sensitive(l, VInt(hi), VInt(lo)), Int(42));
      TruePaths(guard, []) == if hi == 42 then [[Lit(l, true)]] else []
  {
    var guard := Lift2(Eq, Sensitive(l, VInt(hi), VInt(lo)), Int(42));
    LiftAgainstPlain(Eq, l, VInt(hi), VInt(lo), VInt(42));
    if hi == 42 {
      assert guard == Node(l, Leaf(true), Leaf(!true));
      TruePathsOfLiteral(l, true, []);
      assert [] + [Lit(l, true)] == [Lit(l, true)];
    } else {
      assert guard == Sensitive(l, false, false);
      NeverTrueNoPaths(guard, []);
    }
  }

  /** `restrict(l, lambda (a, _): a == 42)` (`first`) or
      `restrict(l, lambda (_, b): b == 42)`, installed outside any
      conditional. */
  ghost predicate ComponentIs42(reg: Registry, l: Label, first: bool)
  {
    l in reg && reg[l].guard == [] &&
    forall c: Value :: reg[l].pred(c) == (c.VPair? && Eq(if first then c.fst else c.snd, VInt(42)))
  }

  /** The contexts of `test_jbool_functions_fexprs`: a component that is 42
      makes its label high, 10 or 0 makes it low. */
  lemma ComponentViews(reg: Registry, l: Label, first: bool, a: int, b: int)
    requires ComponentIs42(reg, l, first)
    ensures Decide(reg, VPair(VInt(a), VInt(b)), l) == ((if first then a else b) == 42)
  {
    var c := VPair(VInt(a), VInt(b));
    assert reg[l].pred(c) == Eq(if first then c.fst else c.snd, VInt(42));
  }

  /** One round of the first loop of `test_jbool_functions_fexprs`: both
      operands are faceted on the same label `x`, so each connective acts
      facet by facet. */
  method SharedLabelConnectives(lh: bool, ll: bool, rh: bool, rl: bool)
    returns (andHi: bool, andLo: bool, orHi: bool, orLo: bool, notHi: bool, notLo: bool)
    ensures andHi == (lh && rh) && andLo == (ll && rl)
    ensures orHi == (lh || rh) && orLo == (ll || rl)
    ensures notHi == !lh && notLo == !ll
  {
    var e := new Engine();
    var x := e.MkLabel("x");
    e.Restrict(x, (c: Value) => c.VPair? && Eq(c.fst, VInt(42)), []);
    var reg := e.policies;
    var l, r := Sensitive(x, lh, ll), Sensitive(x, rh, rl);
    var hi, lo := VPair(VInt(42), VInt(0)), VPair(VInt(10), VInt(0));
    andHi, andLo := Concretize(reg, hi, And(l, r)), Concretize(reg, lo, And(l, r));
    orHi, orLo := Concretize(reg, hi, Or(l, r)), Concretize(reg, lo, Or(l, r));
    notHi, notLo := Concretize(reg, hi, Not(l)), Concretize(reg, lo, Not(l));
    SharedLabelTable(reg, x, lh, ll, rh, rl);
  }

  lemma SharedLabelTable(reg: Registry, x: Label, lh: bool, ll: bool, rh: bool, rl: bool)
    requires ComponentIs42(reg, x, true)
    ensures var l, r := Sensitive(x, lh, ll), Sensitive(x, rh, rl);
      var hi, lo := VPair(VInt(42), VInt(0)), VPair(VInt(10), VInt(0));
      Concretize(reg, hi, And(l, r)) == (lh && rh) && Concretize(reg, lo, And(l, r)) == (ll && rl) &&
      Concretize(reg, hi, Or(l, r)) == (lh || rh) && Concretize(reg, lo, Or(l, r)) == (ll || rl) &&
      Concretize(reg, hi, Not(l)) == !lh && Concretize(reg, lo, Not(l)) == !ll
  {
    var l, r := Sensitive(x, lh, ll), Sensitive(x, rh, rl);
    var hi, lo := VPair(VInt(42), VInt(0)), VPair(VInt(10), VInt(0));
    ComponentViews(reg, x, true, 42, 0);
    ComponentViews(reg, x, true, 10, 0);
    BoolOpsCorrect(reg, hi, l, r);
    BoolOpsCorrect(reg, lo, l, r);
  }

  /** One round of the second loop: `l` is faceted on `x`, `r` on `y`, so
      each connective gives the full table over the four contexts. */
  method DistinctLabelConnectives(lh: bool, ll: bool, rh: bool, rl: bool)
    returns (and1: bool, and2: bool, and3: bool, and4: bool, or1: bool, or2: bool, or3: bool, or4: bool)
    ensures and1 == (lh && rl) && and2 == (ll && rl) && and3 == (lh && rh) && and4 == (ll && rh)
    ensures or1 == (lh || rl) && or2 == (ll || rl) && or3 == (lh || rh) && or4 == (ll || rh)
  {
    var e := new Engine();
    var x := e.MkLabel("x");
    e.Restrict(x, (c: Value) => c.VPair? && Eq(c.fst, VInt(42)), []);
    var y := e.MkLabel("y");
    e.Restrict(y, (c: Value) => c.VPair? && Eq(c.snd, VInt(42)), []);
    var reg := e.policies;
    var l, r := Sensitive(x, lh, ll), Sensitive(y, rh, rl);
    var c1, c2 := VPair(VInt(42), VInt(0)), VPair(VInt(10), VInt(0));
    var c3, c4 := VPair(VInt(42), VInt(42)), VPair(VInt(10), VInt(42));
    and1, and2 := Concretize(reg, c1, And(l, r)), Concretize(reg, c2, And(l, r));
    and3, and4 := Concretize(reg, c3, And(l, r)), Concretize(reg, c4, And(l, r));
    or1, or2 := Concretize(reg, c1, Or(l, r)), Concretize(reg, c2, Or(l, r));
    or3, or4 := Concretize(reg, c3, Or(l, r)), Concretize(reg, c4, Or(l, r));
    DistinctLabelTable(reg, x, y, lh, ll, rh, rl, 42, 0);
    DistinctLabelTable(reg, x, y, lh, ll, rh, rl, 10, 0);
    DistinctLabelTable(reg, x, y, lh, ll, rh, rl, 42, 42);
    DistinctLabelTable(reg, x, y, lh, ll, rh, rl, 10, 42);
  }

  /** With `x` governed by the first component and `y` by the second, the
      context (a, b) sees `l` on the side `a` gives and `r` on the side `b`
      gives. */
  lemma DistinctLabelTable(reg: Registry, x: Label, y: Label, lh: bool, ll: bool, rh: bool, rl: bool, a: int, b: int)
    requires ComponentIs42(reg, x, true) && ComponentIs42(reg, y, false)
    ensures var l, r := Sensitive(x, lh, ll), Sensitive(y, rh, rl);
      var lv, rv := if a == 42 then lh else ll, if b == 42 then rh else rl;
      Concretize(reg, VPair(VInt(a), VInt(b)), And(l, r)) == (lv && rv) &&
      Concretize(reg, VPair(VInt(a), VInt(b)), Or(l, r)) == (lv || rv)
  {
    ComponentViews(reg, x, true, a, b);
    ComponentViews(reg, y, false, a, b);
    BoolOpsCorrect(reg, VPair(VInt(a), VInt(b)), Sensitive(x, lh, ll), Sensitive(y, rh, rl));
  }

  /** Unconditional reassignments in `test_jif_with_assign`: the later
      value replaces the earlier one whatever facets either has. Each pair
      is the value seen by the contexts 42 and 10. */
  method JifWithAssign() returns (r1: (Value, Value), r2: (Value, Value), r3: (Value, Value), r4: (Value, Value))
    ensures r1 == (VInt(2), VInt(3)) && r2 == (VInt(2), VInt(3))
    ensures r3 == (VInt(200), VInt(200)) && r4 == (VInt(200), VInt(200))
  {
    var e := new Engine();
    var y := e.MkLabel("y");
    e.Restrict(y, (c: Value) => Eq(c, VInt(42)), []);
    var reg := e.policies;
    var value0, value2 := Sensitive(y, VInt(0), VInt(1)), Sensitive(y, VInt(2), VInt(3));

    var value := value0;
    value := Assign([], value2, value);
    r1 := (Concretize(reg, VInt(42), value), Concretize(reg, VInt(10), value));

    value := Int(100);
    value := Assign([], value2, value);
    r2 := (Concretize(reg, VInt(42), value), Concretize(reg, VInt(10), value));

    value := value0;
    value := Assign([], Int(200), value);
    r3 := (Concretize(reg, VInt(42), value), Concretize(reg, VInt(10), value));

    value := Int(100);
    value := Assign([], Int(200), value);
    r4 := (Concretize(reg, VInt(42), value), Concretize(reg, VInt(10), value));
  }

  /** `if x: value = value2` and `if not x: value = value2` over
      `value = value0`: the new value is seen exactly in the contexts where
      the guard holds, and each context still sees its own side of `y`.
      Each quadruple lists the contexts (True, True), (True, False),
      (False, True) and (False, False). */
  method JifWithAssignWithPathVars() returns (underX: seq<Value>, underNotX: seq<Value>)
    ensures underX == [VInt(2), VInt(3), VInt(0), VInt(1)]
    ensures underNotX == [VInt(0), VInt(1), VInt(2), VInt(3)]
  {
    var e := new Engine();
    var x := e.MkLabel("x");
    var y := e.MkLabel("y");
    var first, second := (c: Value) => c.VPair? && Truthy(c.fst), (c: Value) => c.VPair? && Truthy(c.snd);
    e.Restrict(x, first, []);
    e.Restrict(y, second, []);
    var reg := e.policies;
    assert reg[x] == Policy([], first) && reg[y] == Policy([], second);
    var value0, value2 := Sensitive(y, VInt(0), VInt(1)), Sensitive(y, VInt(2), VInt(3));
    var value := value0;
    TruePathsOfLiteral(x, true, []);
    var p := TruePaths(LabelValue(x), [])[0];
    value := Assign(p, value2, value);
    assert value == Node(x, value2, value0) by {
      assert p == [Lit(x, true)];
      AssignUnderLiteral(x, true, value2, value0);
    }
    underX := FourContexts(reg, value);
    PairTable(reg, x, y, VInt(2), VInt(3), VInt(0), VInt(1));

    value := value0;
    assert Not(LabelValue(x)) == Node(x, Leaf(false), Leaf(!false));
    TruePathsOfLiteral(x, false, []);
    p := TruePaths(Not(LabelValue(x)), [])[0];
    value := Assign(p, value2, value);
    assert value == Node(x, value0, value2) by {
      assert p == [Lit(x, false)];
      AssignUnderLiteral(x, false, value2, value0);
    }
    underNotX := FourContexts(reg, value);
    PairTable(reg, x, y, VInt(0), VInt(1), VInt(2), VInt(3));
  }

  /** What the contexts (True, True), (True, False), (False, True) and
      (False, False) see of `t`. */
  function FourContexts<T>(reg: Registry, t: Facet<T>): (r: seq<T>)
    ensures |r| == 4
  {
    [Concretize(reg, VPair(VBool(true), VBool(true)), t), Concretize(reg, VPair(VBool(true), VBool(false)), t),
     Concretize(reg, VPair(VBool(false), VBool(true)), t), Concretize(reg, VPair(VBool(false), VBool(false)), t)]
  }

  /** Under policies reading the first and second component of a pair
      context, a value split on `x` and then on `y` is seen by the four
      boolean pairs in table order. */
  lemma PairTable<T>(reg: Registry, x: Label, y: Label, a: T, b: T, c: T, d: T)
    requires x != y && x in reg && y in reg && reg[x].guard == [] && reg[y].guard == []
    requires forall ctx: Value :: reg[x].pred(ctx) == (ctx.VPair? && Truthy(ctx.fst))
    requires forall ctx: Value :: reg[y].pred(ctx) == (ctx.VPair? && Truthy(ctx.snd))
    ensures FourContexts(reg, Node(x, Sensitive(y, a, b), Sensitive(y, c, d))) == [a, b, c, d]
  {
    var t := Node(x, Sensitive(y, a, b), Sensitive(y, c, d));
    forall p: bool, q: bool
      ensures Concretize(reg, VPair(VBool(p), VBool(q)), t) == if p then (if q then a else b) else (if q then c else d)
    {
      var ctx := VPair(VBool(p), VBool(q));
      assert Decide(reg, ctx, x) == p && Decide(reg, ctx, y) == q;
    }
  }

  /** `fun = mkSensitive(x, add1, add2)` applied to 15. */
  method FunctionFacets() returns (at42: Value, at41: Value)
    ensures at42 == VInt(16) && at41 == VInt(17)
  {
    var e := new Engine();
    var x := e.MkLabel("x");
    e.Restrict(x, (c: Value) => Eq(c, VInt(42)), []);
    var reg := e.policies;
    var add1, add2 := (a: Value) => Plus(a, VInt(1)), (a: Value) => Plus(a, VInt(2));
    var fun := Sensitive(x, add1, add2);
    var value := LiftCall(fun, Int(15));
    LiftCallCorrect(reg, VInt(42), fun, Int(15));
    LiftCallCorrect(reg, VInt(41), fun, Int(15));
    at42 := Concretize(reg, VInt(42), value);
    at41 := Concretize(reg, VInt(41), value);
  }

  /** Attribute reads through `y = mkSensitive(x, TestClass(1, 2),
      TestClass(3, 4))` under `restrict(x, lambda c: c)`. */
  method ObjectsFaceted() returns (hiA: Value, hiB: Value, loA: Value, loB: Value)
    ensures hiA == VInt(1) && hiB == VInt(2) && loA == VInt(3) && loB == VInt(4)
  {
    var e := new Engine();
    var x := e.MkLabel("x");
    e.Restrict(x, Truthy, []);
    var reg := e.policies;
    var s := new Record(VInt(1), VInt(2));
    var t := new Record(VInt(3), VInt(4));
    var y := Sensitive(x, s, t);
    var st := Snapshot({s, t});
    var ya, yb := Project(y, Attr(A), st), Project(y, Attr(B), st);
    assert ya == Sensitive(x, VInt(1), VInt(3)) && yb == Sensitive(x, VInt(2), VInt(4)) by {
      assert Project(Leaf(s), Attr(A), st) == Int(1) && Project(Leaf(t), Attr(A), st) == Int(3);
      assert Project(Leaf(s), Attr(B), st) == Int(2) && Project(Leaf(t), Attr(B), st) == Int(4);
    }
    hiA, hiB := Concretize(reg, VBool(true), ya), Concretize(reg, VBool(true), yb);
    loA, loB := Concretize(reg, VBool(false), ya), Concretize(reg, VBool(false), yb);
    TruthyViews(reg, x, VInt(1), VInt(3));
    TruthyViews(reg, x, VInt(2), VInt(4));
  }

  /** `if y.a == 1: y.a = y.a + 100` through `y = mkSensitive(x, s, t)`:
      the guard is true only where `x` is high, so only `s` is written, and
      its attribute becomes 101 where `x` is high and keeps 1 elsewhere.
      Each view lists `y.a`, `s.a` and `t.a`, for the contexts True and
      False. */
  method ObjectsMutate() returns (high: seq<Value>, low: seq<Value>)
    ensures high == [VInt(101), VInt(101), VInt(3)]
    ensures low == [VInt(3), VInt(1), VInt(3)]
  {
    var e := new Engine();
    var x := e.MkLabel("x");
    e.Restrict(x, Truthy, []);
    var reg := e.policies;
    var s := new Record(VInt(1), VNone);
    var t := new Record(VInt(3), VNone);
    high, low := IncrementWhereOne(reg, x, s, t);
  }

  /** The conditional write of `test_objects_mutate` through `y =
      mkSensitive(x, s, t)` with `s.a` 1 and `t.a` 3, followed by the reads
      of `y.a`, `s.a` and `t.a` for the contexts True and False. */
  method IncrementWhereOne(reg: Registry, x: Label, s: Record, t: Record) returns (high: seq<Value>, low: seq<Value>)
    requires x in reg && reg[x] == Policy([], Truthy)
    requires s != t && s.a == Int(1) && t.a == Int(3)
    modifies s, t
    ensures high == [VInt(101), VInt(101), VInt(3)]
    ensures low == [VInt(3), VInt(1), VInt(3)]
  {
    var y := Sensitive(x, s, t);
    var objs := {s, t};
    var st := Snapshot(objs);
    var ya := Project(y, Attr(A), st);
    var guard := Lift2(Eq, ya, Int(1));
    var v := Lift2(Plus, ya, Int(100));
    MutatePlan(x, s, t, st);
    TruePathsOfLiteral(x, true, []);
    var p := TruePaths(guard, [])[0];
    assert p == [Lit(x, true)] by { assert [] + [Lit(x, true)] == [Lit(x, true)]; }
    Dispatch(y, p, Write(A, v), objs);
    MutateEffect(x, s, t, st);

    var after := Snapshot(objs);
    assert s.a == after[s].a && t.a == after[t].a;
    ya := Project(y, Attr(A), after);
    high := [Concretize(reg, VBool(true), ya), Concretize(reg, VBool(true), s.a), Concretize(reg, VBool(true), t.a)];
    low := [Concretize(reg, VBool(false), ya), Concretize(reg, VBool(false), s.a), Concretize(reg, VBool(false), t.a)];
    MutateViews(reg, x, s, t, after);
  }

  /** Under `restrict(x, lambda c: c)` the viewer True sees the high side of
      `mkSensitive(x, hi, lo)` and the viewer False its low side. */
  lemma TruthyViews<T>(reg: Registry, x: Label, hi: T, lo: T)
    requires x in reg && reg[x] == Policy([], Truthy)
    ensures Concretize(reg, VBool(true), Sensitive(x, hi, lo)) == hi
    ensures Concretize(reg, VBool(false), Sensitive(x, hi, lo)) == lo
  {
    MkSensitiveResolves(reg, VBool(true), x, hi, lo);
    MkSensitiveResolves(reg, VBool(false), x, hi, lo);
  }

  /** After the write, True sees 101 through `y` and in `s`, False sees
      `t`'s 3 through `y` and `s`'s old 1; `t` shows 3 to both. */
  lemma MutateViews(reg: Registry, x: Label, s: Record, t: Record, after: map<Record, Attrs>)
    requires x in reg && reg[x] == Policy([], Truthy)
    requires s in after && t in after
    requires after[s].a == Sensitive(x, VInt(101), VInt(1)) && after[t].a == Int(3)
    ensures var ya := Project(Sensitive(x, s, t), Attr(A), after);
      [Concretize(reg, VBool(true), ya), Concretize(reg, VBool(true), after[s].a), Concretize(reg, VBool(true), after[t].a)]
        == [VInt(101), VInt(101), VInt(3)] &&
      [Concretize(reg, VBool(false), ya), Concretize(reg, VBool(false), after[s].a), Concretize(reg, VBool(false), after[t].a)]
        == [VInt(3), VInt(1), VInt(3)]
  {
    assert Project(Sensitive(x, s, t), Attr(A), after) == Sensitive(x, VInt(101), VInt(3)) by {
      assert Project(Leaf(s), Attr(A), after) == after[s].a && Project(Leaf(t), Attr(A), after) == after[t].a;
    }
    TruthyViews(reg, x, VInt(101), VInt(3));
    TruthyViews(reg, x, VInt(101), VInt(1));
  }

  /** The guard `y.a == 1` and the new value `y.a + 100` while `s.a` is 1
      and `t.a` is 3. */
  lemma MutatePlan(x: Label, s: Record, t: Record, st: map<Record, Attrs>)
    requires s in st && t in st && st[s].a == Int(1) && st[t].a == Int(3)
    ensures var ya := Project(Sensitive(x, s, t), Attr(A), st);
      ya == Sensitive(x, VInt(1), VInt(3)) &&
      Lift2(Eq, ya, Int(1)) == Sensitive(x, true, !true) &&
      Lift2(Plus, ya, Int(100)) == Sensitive(x, VInt(101), VInt(103))
  {
    assert Project(Leaf(s), Attr(A), st) == Int(1) && Project(Leaf(t), Attr(A), st) == Int(3);
  }

  /** Writing `mkSensitive(x, 101, 103)` to `a` through `y` on the path
      where `x` is high changes only `s`, whose `a` becomes 101 on that
      side and stays 1 on the other. */
  lemma MutateEffect(x: Label, s: Record, t: Record, st: map<Record, Attrs>)
    requires s != t && s in st && t in st && st[s].a == Int(1)
    ensures var after := Route(Branches(Sensitive(x, s, t), [Lit(x, true)]), Write(A, Sensitive(x, VInt(101), VInt(103))), st);
      after == st[s := st[s].(a := Sensitive(x, VInt(101), VInt(1)))]
  {
    var p := [Lit(x, true)];
    var v := Sensitive(x, VInt(101), VInt(103));
    assert Branches(Sensitive(x, s, t), p) == [(s, p)];
    assert [(s, p)][..0] == [];
    AssignUnderLiteral(x, true, v, Int(1));
  }

  /** `y.return_sum()` and `y.add_a_to_b()` through `y = mkSensitive(x,
      TestClassMethod(1, 10), TestClassMethod(100, 1000))`, called outside
      any conditional: each object runs the method on its own side of `x`,
      so `s.b` becomes 11 only where `x` is high and `t.b` becomes 1100 only
      where `x` is low. `sums` are what True and False see of
      `return_sum()`; each view lists `s.a`, `s.b`, `t.a`, `t.b`, `y.a` and
      `y.b`, for the contexts True and False. */
  method ObjectsMethodcall() returns (sums: (Value, Value), high: seq<Value>, low: seq<Value>)
    ensures sums == (VInt(11), VInt(1100))
    ensures high == [VInt(1), VInt(11), VInt(100), VInt(1000), VInt(1), VInt(11)]
    ensures low == [VInt(1), VInt(10), VInt(100), VInt(1100), VInt(100), VInt(1100)]
  {
    var e := new Engine();
    var x := e.MkLabel("x");
    e.Restrict(x, Truthy, []);
    var reg := e.policies;
    var s := new Record(VInt(1), VInt(10));
    var t := new Record(VInt(100), VInt(1000));
    var y := Sensitive(x, s, t);
    var objs := {s, t};

    var st := Snapshot(objs);
    var sum := Project(y, CallReturnSum, st);
    assert sum == Sensitive(x, VInt(11), VInt(1100)) by {
      assert Project(Leaf(s), CallReturnSum, st) == Int(11) && Project(Leaf(t), CallReturnSum, st) == Int(1100);
    }
    TruthyViews(reg, x, VInt(11), VInt(1100));
    sums := (Concretize(reg, VBool(true), sum), Concretize(reg, VBool(false), sum));

    high, low := AddThroughView(reg, x, s, t);
  }

  /** `y.add_a_to_b()` through `y = mkSensitive(x, s, t)` with `s` holding
      (1, 10) and `t` holding (100, 1000), followed by the reads of `s.a`,
      `s.b`, `t.a`, `t.b`, `y.a` and `y.b` for the contexts True and False. */
  method AddThroughView(reg: Registry, x: Label, s: Record, t: Record) returns (high: seq<Value>, low: seq<Value>)
    requires x in reg && reg[x] == Policy([], Truthy)
    requires s != t && s.State() == Attrs(Int(1), Int(10)) && t.State() == Attrs(Int(100), Int(1000))
    modifies s, t
    ensures high == [VInt(1), VInt(11), VInt(100), VInt(1000), VInt(1), VInt(11)]
    ensures low == [VInt(1), VInt(10), VInt(100), VInt(1100), VInt(100), VInt(1100)]
  {
    var y := Sensitive(x, s, t);
    var objs := {s, t};
    var st := Snapshot(objs);
    Dispatch(y, [], CallAddAToB, objs);
    MethodcallEffect(x, s, t, st);
    var after := Snapshot(objs);
    assert s.State() == after[s] && t.State() == after[t];
    var ya, yb := Project(y, Attr(A), after), Project(y, Attr(B), after);
    high := [Concretize(reg, VBool(true), s.a), Concretize(reg, VBool(true), s.b),
             Concretize(reg, VBool(true), t.a), Concretize(reg, VBool(true), t.b),
             Concretize(reg, VBool(true), ya), Concretize(reg, VBool(true), yb)];
    low := [Concretize(reg, VBool(false), s.a), Concretize(reg, VBool(false), s.b),
            Concretize(reg, VBool(false), t.a), Concretize(reg, VBool(false), t.b),
            Concretize(reg, VBool(false), ya), Concretize(reg, VBool(false), yb)];
    MethodcallViews(reg, x, s, t, after);
  }

  /** After `add_a_to_b()`, True sees `s`'s new sum and `t`'s old `b`, False
      the reverse, and `y` shows each viewer its own object. */
  lemma MethodcallViews(reg: Registry, x: Label, s: Record, t: Record, after: map<Record, Attrs>)
    requires x in reg && reg[x] == Policy([], Truthy)
    requires s in after && t in after
    requires after[s] == Attrs(Int(1), Sensitive(x, VInt(11), VInt(10)))
    requires after[t] == Attrs(Int(100), Sensitive(x, VInt(1000), VInt(1100)))
    ensures var y := Sensitive(x, s, t);
      var ya, yb := Project(y, Attr(A), after), Project(y, Attr(B), after);
      [Concretize(reg, VBool(true), after[s].a), Concretize(reg, VBool(true), after[s].b),
       Concretize(reg, VBool(true), after[t].a), Concretize(reg, VBool(true), after[t].b),
       Concretize(reg, VBool(true), ya), Concretize(reg, VBool(true), yb)]
        == [VInt(1), VInt(11), VInt(100), VInt(1000), VInt(1), VInt(11)] &&
      [Concretize(reg, VBool(false), after[s].a), Concretize(reg, VBool(false), after[s].b),
       Concretize(reg, VBool(false), after[t].a), Concretize(reg, VBool(false), after[t].b),
       Concretize(reg, VBool(false), ya), Concretize(reg, VBool(false), yb)]
        == [VInt(1), VInt(10), VInt(100), VInt(1100), VInt(100), VInt(1100)]
  {
    var y := Sensitive(x, s, t);
    assert Project(y, Attr(A), after) == Sensitive(x, VInt(1), VInt(100)) by {
      assert Project(Leaf(s), Attr(A), after) == after[s].a && Project(Leaf(t), Attr(A), after) == after[t].a;
    }
    assert Project(y, Attr(B), after) == Sensitive(x, VInt(11), VInt(1100)) by {
      assert Project(Leaf(s), Attr(B), after) == after[s].b && Project(Leaf(t), Attr(B), after) == after[t].b;
    }
    TruthyViews(reg, x, VInt(11), VInt(10));
    TruthyViews(reg, x, VInt(1000), VInt(1100));
    TruthyViews(reg, x, VInt(1), VInt(100));
    TruthyViews(reg, x, VInt(11), VInt(1100));
  }

  /** `add_a_to_b()` through `mkSensitive(x, s, t)` with no enclosing
      condition: `s` adds on the high side of `x`, `t` on the low side. */
  lemma MethodcallEffect(x: Label, s: Record, t: Record, st: map<Record, Attrs>)
    requires s != t && s in st && t in st
    requires st[s] == Attrs(Int(1), Int(10)) && st[t] == Attrs(Int(100), Int(1000))
    ensures Route(Branches(Sensitive(x, s, t), []), CallAddAToB, st)
         == st[s := Attrs(Int(1), Sensitive(x, VInt(11), VInt(10)))][t := Attrs(Int(100), Sensitive(x, VInt(1000), VInt(1100)))]
  {
    var ps: PathCond, pt: PathCond := [Lit(x, true)], [Lit(x, false)];
    var none: PathCond := [];
    assert none + ps == ps && none + pt == pt;
    assert Branches(Sensitive(x, s, t), []) == [(s, ps), (t, pt)];
    RouteTwo(s, ps, t, pt, CallAddAToB, st);
    AddUnderLiteral(x, true, 1, 10);
    AddUnderLiteral(x, false, 100, 1000);
  }

  /** Performing an action along two branches that reach different objects. */
  lemma RouteTwo(s: Record, ps: PathCond, t: Record, pt: PathCond, act: Action, st: map<Record, Attrs>)
    requires s in st && t in st
    ensures Route([(s, ps), (t, pt)], act, st) == st[s := Step(act, ps, st[s])][t := Step(act, pt, st[s := Step(act, ps, st[s])][t])]
  {
    var bs: seq<(Record, PathCond)> := [(s, ps), (t, pt)];
    var none: seq<(Record, PathCond)> := [];
    var one := bs[..1];
    assert one == [(s, ps)] && one[..0] == none && bs[|bs| - 1] == (t, pt);
    assert Route(none, act, st) == st;
    var first := Route(one, act, st);
    assert first == st[s := Step(act, ps, st[s])];
    assert Route(bs, act, st) == first[t := Step(act, pt, first[t])];
  }

  /** `add_a_to_b()` on plain attributes under the single literal `x` or
      `not x`: `b` becomes the sum on that side of `x` and stays on the other. */
  lemma AddUnderLiteral(x: Label, side: bool, a: int, b: int)
    ensures Step(CallAddAToB, [Lit(x, side)], Attrs(Int(a), Int(b)))
         == Attrs(Int(a), if side then Sensitive(x, VInt(a + b), VInt(b)) else Sensitive(x, VInt(b), VInt(a + b)))
  {
    assert Lift2(Plus, Int(a), Int(b)) == Int(a + b);
    AssignUnderLiteral(x, side, Int(a + b), Int(b));
  }
}
