/** Faceted objects: `TestClass` and `TestClassMethod` of
    test/testSourceTransform.py, a record with attributes `a` and `b`, and a
    faceted handle `mkSensitive(x, s, t)` over such records. Reading through
    the handle lifts the read; writing or calling a method through it reaches
    each underlying object on its own path and merges the new value into that
    object's attribute by guarded assignment, so an object the path
    condition rules out is left untouched. */
module FacetedObjects {
  import opened Values
  import opened Facets
  import opened Concretization

  datatype Field = A | B

  /** The attributes of one object. */
  datatype Attrs = Attrs(a: Facet<Value>, b: Facet<Value>)

  /** What can be read from an object: an attribute or `return_sum()`. */
  datatype Member = Attr(field: Field) | CallReturnSum

  /** What can be done to an object: `o.f = v`, or `add_a_to_b()`. */
  datatype Action = Write(field: Field, v: Facet<Value>) | CallAddAToB

  /** Both attributes keep the facet-tree invariant. */
  predicate AttrsWellFormed(s: Attrs)
  {
    WellFormed(s.a) && WellFormed(s.b)
  }

  function Get(s: Attrs, f: Field): Facet<Value>
  {
    match f
    case A => s.a
    case B => s.b
  }

  function Invoke(s: Attrs, m: Member): (r: Facet<Value>)
    ensures m.Attr? ==> r == Get(s, m.field)
    ensures m.CallReturnSum? ==> Labels(r) <= Labels(s.a) + Labels(s.b)
    ensures AttrsWellFormed(s) ==> WellFormed(r)
  {
    match m
    case Attr(f) => Get(s, f)
    case CallReturnSum => Lift2(Plus, s.a, s.b)
  }

  /** `return_sum()` is `a + b` in every world. */
  lemma ReturnSumCorrect(reg: Registry, ctx: Value, s: Attrs)
    ensures Concretize(reg, ctx, Invoke(s, CallReturnSum))
         == Plus(Concretize(reg, ctx, s.a), Concretize(reg, ctx, s.b))
  {
    Lift2Correct(reg, ctx, Plus, s.a, s.b);
  }

  /** The effect of an action on one object reached under path condition
      `pc`: the written attribute becomes the guarded assignment of the new
      value over the old one; the other attribute is kept. */
  function Step(act: Action, pc: PathCond, s: Attrs): (r: Attrs)
    ensures act.Write? && act.field == A ==> r.b == s.b
    ensures (act.Write? && act.field == B) || act.CallAddAToB? ==> r.a == s.a
    ensures DistinctLabels(pc) && AttrsWellFormed(s) && (act.Write? ==> WellFormed(act.v)) ==> AttrsWellFormed(r)
  {
    match act
    case Write(A, v) => s.(a := Assign(pc, v, s.a))
    case Write(B, v) => s.(b := Assign(pc, v, s.b))
    case CallAddAToB => s.(b := Assign(pc, Lift2(Plus, s.a, s.b), s.b))
  }

  /** In a world where `pc` holds an action has its unconditional effect;
      in every other world the object is as it was. */
  lemma StepCorrect(reg: Registry, ctx: Value, act: Action, pc: PathCond, s: Attrs, f: Field)
    ensures Concretize(reg, ctx, Get(Step(act, pc, s), f))
         == Concretize(reg, ctx, Get(if Holds(reg, ctx, pc) then Step(act, [], s) else s, f))
  {
    match act
    case Write(A, v) => AssignCorrect(reg, ctx, pc, v, s.a);
    case Write(B, v) => AssignCorrect(reg, ctx, pc, v, s.b);
    case CallAddAToB => AssignCorrect(reg, ctx, pc, Lift2(Plus, s.a, s.b), s.b);
  }

  class Record {
    var a: Facet<Value>
    var b: Facet<Value>

    /** `__init__(self, a, b)`. */
    constructor (a0: Value, b0: Value)
      ensures State() == Attrs(Leaf(a0), Leaf(b0))
    {
      a := Leaf(a0);
      b := Leaf(b0);
    }

    function State(): Attrs
      reads this
    {
      Attrs(a, b)
    }

    /** `return_sum(self)`: `self.a + self.b`, lifted. */
    function ReturnSum(): (r: Facet<Value>)
      reads this
      ensures Labels(r) <= Labels(a) + Labels(b)
    {
      Invoke(State(), CallReturnSum)
    }

    /** `self.f = v` under path condition `pc`. */
    method Set(f: Field, v: Facet<Value>, pc: PathCond)
      modifies this
      ensures State() == Step(Write(f, v), pc, old(State()))
    {
      match f
      case A => a := Assign(pc, v, a);
      case B => b := Assign(pc, v, b);
    }

    /** `add_a_to_b(self)`: `self.b = self.a + self.b` under `pc`. */
    method AddAToB(pc: PathCond)
      modifies this
      ensures State() == Step(CallAddAToB, pc, old(State()))
    {
      b := Assign(pc, Lift2(Plus, a, b), b);
    }

    /** Method dispatch on this object. */
    method Perform(act: Action, pc: PathCond)
      modifies this
      ensures State() == Step(act, pc, old(State()))
    {
      match act
      case Write(f, v) => Set(f, v, pc);
      case CallAddAToB => AddAToB(pc);
    }
  }

  /** The attributes of every object in `objs`. */
  function Snapshot(objs: set<Record>): map<Record, Attrs>
    reads objs
  {
    map o | o in objs :: o.State()
  }

  /** No object sits under two leaves of the handle. */
  predicate DistinctLeaves(y: Facet<Record>)
  {
    match y
    case Leaf(_) => true
    case Node(_, hi, lo) => Leaves(hi) !! Leaves(lo) && DistinctLeaves(hi) && DistinctLeaves(lo)
  }

  /** Reading member `m` through a faceted handle (`y.a`, `y.return_sum()`):
      the read is lifted over the handle's split. */
  function Project(y: Facet<Record>, m: Member, st: map<Record, Attrs>): (r: Facet<Value>)
    requires Leaves(y) <= st.Keys
    ensures (forall o :: o in Leaves(y) ==> AttrsWellFormed(st[o])) ==> WellFormed(r)
  {
    match y
    case Leaf(o) => Invoke(st[o], m)
    case Node(l, hi, lo) => Node(l, Select(Project(hi, m, st), l, true), Select(Project(lo, m, st), l, false))
  }

  /** A viewer reading through the handle sees the member of the object the
      handle resolves to for that viewer. */
  lemma {:induction false} ProjectCorrect(reg: Registry, ctx: Value, y: Facet<Record>, m: Member, st: map<Record, Attrs>)
    requires Leaves(y) <= st.Keys
    ensures Concretize(reg, ctx, Project(y, m, st)) == Concretize(reg, ctx, Invoke(st[Concretize(reg, ctx, y)], m))
  {
    match y
    case Leaf(_) =>
    case Node(l, hi, lo) =>
      var side := Decide(reg, ctx, l);
      if side {
        SelectAgrees(reg, ctx, Project(hi, m, st), l, true);
        ProjectCorrect(reg, ctx, hi, m, st);
      } else {
        SelectAgrees(reg, ctx, Project(lo, m, st), l, false);
        ProjectCorrect(reg, ctx, lo, m, st);
      }
  }

  /** The state after performing `act` on each reached object in turn. */
  function Route(bs: seq<(Record, PathCond)>, act: Action, st: map<Record, Attrs>): (r: map<Record, Attrs>)
    requires forall b :: b in bs ==> b.0 in st
    ensures r.Keys == st.Keys
  {
    if bs == [] then st
    else
      var last := bs[|bs| - 1];
      var before := Route(bs[..|bs| - 1], act, st);
      before[last.0 := Step(act, last.1, before[last.0])]
  }

  /** Every object in `st` keeps the facet-tree invariant. */
  predicate AllWellFormed(st: map<Record, Attrs>)
  {
    forall o :: o in st ==> AttrsWellFormed(st[o])
  }

  /** Performing a well-formed action along branches whose path conditions
      repeat no label keeps every object's attributes well-formed. */
  lemma {:induction false} RouteKeepsWellFormed(bs: seq<(Record, PathCond)>, act: Action, st: map<Record, Attrs>)
    requires forall b :: b in bs ==> b.0 in st && DistinctLabels(b.1)
    requires AllWellFormed(st) && (act.Write? ==> WellFormed(act.v))
    ensures AllWellFormed(Route(bs, act, st))
  {
    if bs != [] {
      var init := bs[..|bs| - 1];
      assert forall b :: b in init ==> b in bs;
      RouteKeepsWellFormed(init, act, st);
      assert bs[|bs| - 1] in bs;
    }
  }

  /** A write or call through a handle, reached under a path condition that
      repeats no label, keeps every object's attributes well-formed. */
  lemma DispatchKeepsWellFormed(y: Facet<Record>, pc: PathCond, act: Action, st: map<Record, Attrs>)
    requires Leaves(y) <= st.Keys && DistinctLabels(pc)
    requires AllWellFormed(st) && (act.Write? ==> WellFormed(act.v))
    ensures AllWellFormed(Route(Branches(y, pc), act, st))
  {
    BranchesKeepDistinct(y, pc);
    RouteKeepsWellFormed(Branches(y, pc), act, st);
  }

  lemma {:induction false} RouteUntouched(bs: seq<(Record, PathCond)>, act: Action, st: map<Record, Attrs>, o: Record)
    requires forall b :: b in bs ==> b.0 in st
    requires o in st && forall i :: 0 <= i < |bs| ==> bs[i].0 != o
    ensures Route(bs, act, st)[o] == st[o]
  {
    if bs != [] {
      RouteUntouched(bs[..|bs| - 1], act, st, o);
    }
  }

  lemma {:induction false} RouteHit(bs: seq<(Record, PathCond)>, act: Action, st: map<Record, Attrs>, i: nat)
    requires forall b :: b in bs ==> b.0 in st
    requires i < |bs| && forall j :: 0 <= j < |bs| && j != i ==> bs[j].0 != bs[i].0
    ensures Route(bs, act, st)[bs[i].0] == Step(act, bs[i].1, st[bs[i].0])
  {
    var init := bs[..|bs| - 1];
    if i == |bs| - 1 {
      RouteUntouched(init, act, st, bs[i].0);
    } else {
      RouteHit(init, act, st, i);
    }
  }

  /** Over a handle whose leaves are distinct objects, each object is
      reached on at most one branch. */
  predicate DistinctTargets(bs: seq<(Record, PathCond)>)
  {
    forall i, j :: 0 <= i < j < |bs| ==> bs[i].0 != bs[j].0
  }

  lemma {:induction false} BranchesDistinct(y: Facet<Record>, pc: PathCond)
    requires DistinctLeaves(y)
    ensures DistinctTargets(Branches(y, pc))
  {
    match y
    case Leaf(_) =>
    case Node(l, hi, lo) =>
      if Lit(l, true) in pc {
        assert Branches(y, pc) == Branches(hi, pc);
        BranchesDistinct(hi, pc);
      } else if Lit(l, false) in pc {
        assert Branches(y, pc) == Branches(lo, pc);
        BranchesDistinct(lo, pc);
      } else {
        var bh := Branches(hi, pc + [Lit(l, true)]);
        var bl := Branches(lo, pc + [Lit(l, false)]);
        BranchesDistinct(hi, pc + [Lit(l, true)]);
        BranchesDistinct(lo, pc + [Lit(l, false)]);
        var bs := bh + bl;
        assert Branches(y, pc) == bs;
        forall i, j | 0 <= i < j < |bs|
          ensures bs[i].0 != bs[j].0
        {
          if j < |bh| {
            assert bs[i] == bh[i] && bs[j] == bh[j];
            assert bh[i].0 != bh[j].0;
          } else if |bh| <= i {
            assert bs[i] == bl[i - |bh|] && bs[j] == bl[j - |bh|];
            assert bl[i - |bh|].0 != bl[j - |bh|].0;
          } else {
            assert bs[i] == bh[i] && bh[i] in bh;
            assert bs[j] == bl[j - |bh|] && bl[j - |bh|] in bl;
            assert bs[i].0 in Leaves(hi) && bs[j].0 in Leaves(lo);
          }
        }
      }
  }

  /** The object reached on branch `i` shows the action's effect exactly in
      the worlds where that branch's path condition holds. */
  lemma RouteAt(reg: Registry, ctx: Value, bs: seq<(Record, PathCond)>, act: Action,
                st: map<Record, Attrs>, i: nat, f: Field)
    requires DistinctTargets(bs) && (forall b :: b in bs ==> b.0 in st) && i < |bs|
    ensures Concretize(reg, ctx, Get(Route(bs, act, st)[bs[i].0], f))
         == Concretize(reg, ctx, Get(if Holds(reg, ctx, bs[i].1) then Step(act, [], st[bs[i].0]) else st[bs[i].0], f))
  {
    assert forall j :: 0 <= j < |bs| && j != i ==> bs[j].0 != bs[i].0 by {
      forall j | 0 <= j < |bs| && j != i
        ensures bs[j].0 != bs[i].0
      {
        if j < i { assert bs[j].0 != bs[i].0; } else { assert bs[i].0 != bs[j].0; }
      }
    }
    RouteHit(bs, act, st, i);
    StepCorrect(reg, ctx, act, bs[i].1, st[bs[i].0], f);
  }

  /** The semantics of an action through a faceted handle: in exactly the
      worlds where the path condition holds and the handle resolves to `o`,
      `o` shows the action's effect; in every other world `o` shows its old
      attributes. */
  lemma RouteCorrect(reg: Registry, ctx: Value, y: Facet<Record>, pc: PathCond, act: Action,
                     st: map<Record, Attrs>, o: Record, f: Field)
    requires DistinctLeaves(y) && Leaves(y) <= st.Keys && o in st
    ensures var after := Route(Branches(y, pc), act, st);
      Concretize(reg, ctx, Get(after[o], f))
      == Concretize(reg, ctx, Get(if Holds(reg, ctx, pc) && Concretize(reg, ctx, y) == o
                                  then Step(act, [], st[o]) else st[o], f))
  {
    var bs := Branches(y, pc);
    BranchesDistinct(y, pc);
    var reached := Holds(reg, ctx, pc) && Concretize(reg, ctx, y) == o;
    if reached {
      BranchesComplete(reg, ctx, y, pc);
      var b :| b in bs && Holds(reg, ctx, b.1) && b.0 == o;
      var i :| 0 <= i < |bs| && bs[i] == b;
      RouteAt(reg, ctx, bs, act, st, i, f);
    } else if i :| 0 <= i < |bs| && bs[i].0 == o {
      RouteAt(reg, ctx, bs, act, st, i, f);
      BranchesSound(reg, ctx, y, pc, bs[i]);
    } else {
      RouteUntouched(bs, act, st, o);
    }
  }

  /** `o.Perform(act, pc)`, seen on the attributes of all of `objs`. */
  method PerformAmong(o: Record, act: Action, pc: PathCond, ghost objs: set<Record>)
    requires o in objs
    modifies o
    ensures Snapshot(objs) == old(Snapshot(objs))[o := Step(act, pc, old(o.State()))]
  {
    o.Perform(act, pc);
    assert forall k :: k in objs && k != o ==> k.State() == old(k.State());
  }

  /** `y.f = v` or `y.add_a_to_b()` through a faceted handle `y` under path
      condition `pc`: each object the handle reaches under `pc` performs the
      action under its own path condition, the others are not touched. */
  method Dispatch(y: Facet<Record>, pc: PathCond, act: Action, ghost objs: set<Record>)
    requires Leaves(y) <= objs
    modifies Leaves(y)
    ensures Snapshot(objs) == Route(Branches(y, pc), act, old(Snapshot(objs)))
  {
    var bs := Branches(y, pc);
    for i := 0 to |bs|
      invariant Snapshot(objs) == Route(bs[..i], act, old(Snapshot(objs)))
    {
      var o, p := bs[i].0, bs[i].1;
      PerformAmong(o, act, p, objs);
      assert bs[..i + 1][..i] == bs[..i];
    }
    assert bs[..|bs|] == bs;
  }
}
