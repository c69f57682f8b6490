/** The engine state: the labels created so far and the policy installed on
    each. `JeevesLib.init()` is the constructor: a fresh engine has no
    labels and no policies. */
module PolicyRegistry {
  import opened Values
  import opened Facets
  import opened Concretization

  class Engine {
    /** The name given to each label, indexed by the label. */
    var names: seq<string>
    var policies: Registry

    /** Policies are only ever installed on labels this engine created. */
    ghost predicate Valid()
      reads this
    {
      forall l :: l in policies ==> l < |names|
    }

    constructor ()
      ensures Valid() && names == [] && policies == map[]
    {
      names := [];
      policies := map[];
    }

    /** `mkLabel(name)`: a fresh label, not yet restricted. */
    method MkLabel(name: string) returns (l: Label)
      requires Valid()
      modifies this
      ensures Valid() && names == old(names) + [name] && policies == old(policies)
      ensures l == |old(names)| && l !in policies
    {
      l := |names|;
      names := names + [name];
    }

    /** `restrict(l, pred)` run under path condition `pc`: installs the policy,
        replacing any earlier one on `l`. */
    method Restrict(l: Label, pred: Value -> bool, pc: PathCond)
      requires Valid() && l < |names|
      modifies this
      ensures Valid() && names == old(names)
      ensures policies == old(policies)[l := Policy(pc, pred)]
    {
      policies := policies[l := Policy(pc, pred)];
    }

    /** `if guard: restrict(l, pred)` reached under `pc`: the restriction runs
        once on each path where the guard is true, so it takes effect only
        if some path reaches it, and the last such path's policy stays. */
    method RestrictWhen(guard: Facet<bool>, pc: PathCond, l: Label, pred: Value -> bool)
      requires Valid() && l < |names|
      modifies this
      ensures Valid() && names == old(names)
      ensures var paths := TruePaths(guard, pc);
        policies == if paths == [] then old(policies) else old(policies)[l := Policy(paths[|paths| - 1], pred)]
    {
      var paths := TruePaths(guard, pc);
      for i := 0 to |paths|
        invariant Valid() && names == old(names)
        invariant policies == if i == 0 then old(policies) else old(policies)[l := Policy(paths[i - 1], pred)]
      {
        Restrict(l, pred, paths[i]);
      }
    }
  }

  /** A policy installed under path condition `p` decides its label for
      every viewer in whose world `p` holds. */
  lemma RestrictionGoverns(reg: Registry, l: Label, p: PathCond, pred: Value -> bool, ctx: Value)
    ensures var r := reg[l := Policy(p, pred)];
      Holds(r, ctx, p) ==> Decide(r, ctx, l) == pred(ctx)
  {
    var r := reg[l := Policy(p, pred)];
    var low := Lit(l, false);
    assert low in p && Holds(r, ctx, p) ==> Decide(r, ctx, low.lab) == low.positive;
  }

  /** The policy a guarded `restrict` leaves behind decides its label for
      every viewer in whose world the last path reaching it holds. */
  lemma RestrictWhenGoverns(reg: Registry, guard: Facet<bool>, pc: PathCond, l: Label, pred: Value -> bool, ctx: Value)
    ensures var paths := TruePaths(guard, pc);
      paths != [] ==>
        var r := reg[l := Policy(paths[|paths| - 1], pred)];
        Holds(r, ctx, paths[|paths| - 1]) ==> Decide(r, ctx, l) == pred(ctx)
  {
    var paths := TruePaths(guard, pc);
    if paths != [] {
      RestrictionGoverns(reg, l, paths[|paths| - 1], pred, ctx);
    }
  }

  /** A `restrict(l, pred)` reached on both sides of `l` itself keeps only
      the policy of the low side, which never constrains `l`: the label
      stays high for every viewer. */
  lemma RestrictOnBothSides(reg: Registry, l: Label, pred: Value -> bool, ctx: Value)
    ensures var paths := TruePaths(Node(l, Leaf(true), Leaf(true)), []);
      paths == [[Lit(l, true)], [Lit(l, false)]] &&
      Decide(reg[l := Policy(paths[1], pred)], ctx, l)
  {
    var none: PathCond := [];
    assert none + [Lit(l, true)] == [Lit(l, true)] && none + [Lit(l, false)] == [Lit(l, false)];
    var bs := [(true, [Lit(l, true)]), (true, [Lit(l, false)])];
    assert Branches(Node(l, Leaf(true), Leaf(true)), none) == bs;
    assert bs[1..][1..] == [];
  }
}
