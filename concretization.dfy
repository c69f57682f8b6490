/** The meaning of a facet tree for one viewer: `concretize(ctx, v)` walks
    the tree and, at each split, asks the label's policy whether the viewer
    `ctx` may see the high side. The lemmas state that every lifted
    operation, `jif` and guarded assignment mean what their plain
    counterparts mean, world by world. */
module Concretization {
  import opened Values
  import opened Facets

  /** A policy installed by `restrict`: the predicate on the viewer context,
      and the path condition under which the `restrict` ran. */
  datatype Policy = Policy(guard: PathCond, pred: Value -> bool)

  /** The label/policy registry: the policy currently installed per label. */
  type Registry = map<Label, Policy>

  /** Whether label `l` resolves to its high side for viewer `ctx`. A label
      that was never restricted is high. A policy applies under the
      assumption that `l` is high: one installed on a path where `l` is low
      never constrains it; otherwise its predicate decides. */
  predicate Decide(reg: Registry, ctx: Value, l: Label)
    ensures l !in reg ==> Decide(reg, ctx, l)
    ensures l in reg && reg[l].guard == [] ==> (Decide(reg, ctx, l) <==> reg[l].pred(ctx))
  {
    l !in reg || Lit(l, false) in reg[l].guard || reg[l].pred(ctx)
  }

  /** Every literal of the path condition agrees with the policies. */
  predicate Holds(reg: Registry, ctx: Value, pc: PathCond)
  {
    forall lit :: lit in pc ==> Decide(reg, ctx, lit.lab) == lit.positive
  }

  /** `concretize(ctx, t)`: the value of `t` the viewer `ctx` observes. */
  function Concretize<T>(reg: Registry, ctx: Value, t: Facet<T>): (r: T)
    ensures r in Leaves(t)
  {
    match t
    case Leaf(v) => v
    case Node(l, hi, lo) =>
      if Decide(reg, ctx, l) then Concretize(reg, ctx, hi) else Concretize(reg, ctx, lo)
  }

  /** A faceted context read with every label taken as high: its leftmost leaf. */
  function HighView(t: Facet<Value>): (r: Value)
    ensures r in Leaves(t)
  {
    match t
    case Leaf(v) => v
    case Node(_, hi, _) => HighView(hi)
  }

  /** `concretize(v, v)`: the value is its own viewer. Every policy is asked
      about the same context, the value's high view, where every label is
      taken as high. For a value with a single split this is its high side. */
  function ConcretizeSelf(reg: Registry, t: Facet<Value>): (r: Value)
    ensures r in Leaves(t)
  {
    Concretize(reg, HighView(t), t)
  }

  lemma MkSensitiveResolves<T>(reg: Registry, ctx: Value, l: Label, hi: T, lo: T)
    ensures l in reg && Lit(l, false) !in reg[l].guard ==>
      Concretize(reg, ctx, Node(l, Leaf(hi), Leaf(lo))) == if reg[l].pred(ctx) then hi else lo
    ensures l !in reg ==> Concretize(reg, ctx, Node(l, Leaf(hi), Leaf(lo))) == hi
  {
  }

  lemma LabelValueResolves(reg: Registry, ctx: Value, l: Label)
    ensures Concretize(reg, ctx, LabelValue(l)) == Decide(reg, ctx, l)
  {
  }

  lemma PlainIsFixed<T>(reg: Registry, ctx: Value, v: T)
    ensures Concretize(reg, ctx, Leaf(v)) == v
  {
  }

  lemma CyclicResolves(reg: Registry, l: Label, hi: Value, lo: Value)
    requires l in reg && Lit(l, false) !in reg[l].guard
    ensures ConcretizeSelf(reg, Node(l, Leaf(hi), Leaf(lo))) == if reg[l].pred(hi) then hi else lo
  {
  }

  /** Selecting the side a viewer sees changes nothing for that viewer. */
  lemma {:induction false} SelectAgrees<T>(reg: Registry, ctx: Value, t: Facet<T>, l: Label, side: bool)
    requires Decide(reg, ctx, l) == side
    ensures Concretize(reg, ctx, Select(t, l, side)) == Concretize(reg, ctx, t)
  {
    match t
    case Leaf(_) =>
    case Node(m, hi, lo) =>
      if m == l {
        SelectAgrees(reg, ctx, if side then hi else lo, l, side);
      } else {
        SelectAgrees(reg, ctx, hi, l, side);
        SelectAgrees(reg, ctx, lo, l, side);
      }
  }

  lemma {:induction false} Lift1Correct<A, B>(reg: Registry, ctx: Value, f: A -> B, t: Facet<A>)
    ensures Concretize(reg, ctx, Lift1(f, t)) == f(Concretize(reg, ctx, t))
  {
    match t
    case Leaf(_) =>
    case Node(_, hi, lo) =>
      Lift1Correct(reg, ctx, f, hi);
      Lift1Correct(reg, ctx, f, lo);
  }

  lemma {:induction false} Lift2Correct<A, B, C>(reg: Registry, ctx: Value, f: (A, B) -> C, t1: Facet<A>, t2: Facet<B>)
    ensures Concretize(reg, ctx, Lift2(f, t1, t2)) == f(Concretize(reg, ctx, t1), Concretize(reg, ctx, t2))
  {
    match (t1, t2)
    case (Leaf(_), Leaf(_)) =>
    case (Leaf(_), Node(_, hi, lo)) =>
      Lift2Correct(reg, ctx, f, t1, hi);
      Lift2Correct(reg, ctx, f, t1, lo);
    case (Node(l, hi, lo), _) =>
      var side := Decide(reg, ctx, l);
      SelectAgrees(reg, ctx, t2, l, side);
      Lift2Correct(reg, ctx, f, hi, Select(t2, l, true));
      Lift2Correct(reg, ctx, f, lo, Select(t2, l, false));
  }

  /** Two operands faceted on the same label are split once: the result has
      one node for that label, pairing high with high and low with low. */
  lemma SharedLabelSplitOnce<A, B, C>(f: (A, B) -> C, l: Label, a1: A, a2: A, b1: B, b2: B)
    ensures Lift2(f, Node(l, Leaf(a1), Leaf(a2)), Node(l, Leaf(b1), Leaf(b2)))
         == Node(l, Leaf(f(a1, b1)), Leaf(f(a2, b2)))
  {
  }

  /** Operands faceted on two different labels give the full four-way table,
      nested one split per label. */
  lemma DistinctLabelsNest<A, B, C>(f: (A, B) -> C, l1: Label, l2: Label, a1: A, a2: A, b1: B, b2: B)
    requires l1 != l2
    ensures Lift2(f, Node(l1, Leaf(a1), Leaf(a2)), Node(l2, Leaf(b1), Leaf(b2)))
         == Node(l1, Node(l2, Leaf(f(a1, b1)), Leaf(f(a1, b2))),
                     Node(l2, Leaf(f(a2, b1)), Leaf(f(a2, b2))))
  {
    var t2 := Node(l2, Leaf(b1), Leaf(b2));
    assert Select(t2, l1, true) == t2 && Select(t2, l1, false) == t2;
    assert Lift2(f, Leaf(a1), t2) == Node(l2, Lift2(f, Leaf(a1), Leaf(b1)), Lift2(f, Leaf(a1), Leaf(b2)));
    assert Lift2(f, Leaf(a2), t2) == Node(l2, Lift2(f, Leaf(a2), Leaf(b1)), Lift2(f, Leaf(a2), Leaf(b2)));
  }

  lemma LiftCallCorrect<A, B>(reg: Registry, ctx: Value, fs: Facet<A -> B>, args: Facet<A>)
    ensures Concretize(reg, ctx, LiftCall(fs, args)) == Concretize(reg, ctx, fs)(Concretize(reg, ctx, args))
  {
    Lift2Correct(reg, ctx, (g: A -> B, a: A) => g(a), fs, args);
  }

  lemma BoolOpsCorrect(reg: Registry, ctx: Value, p: Facet<bool>, q: Facet<bool>)
    ensures Concretize(reg, ctx, And(p, q)) == (Concretize(reg, ctx, p) && Concretize(reg, ctx, q))
    ensures Concretize(reg, ctx, Or(p, q)) == (Concretize(reg, ctx, p) || Concretize(reg, ctx, q))
    ensures Concretize(reg, ctx, Not(p)) == !Concretize(reg, ctx, p)
  {
    Lift2Correct(reg, ctx, (a: bool, b: bool) => a && b, p, q);
    Lift2Correct(reg, ctx, (a: bool, b: bool) => a || b, p, q);
    Lift1Correct(reg, ctx, (a: bool) => !a, p);
  }

  /** `jif` means the plain conditional in every world. */
  lemma {:induction false} JifCorrect<T>(reg: Registry, ctx: Value, guard: Facet<bool>, thn: Facet<T>, els: Facet<T>)
    ensures Concretize(reg, ctx, Jif(guard, thn, els))
         == if Concretize(reg, ctx, guard) then Concretize(reg, ctx, thn) else Concretize(reg, ctx, els)
  {
    match guard
    case Leaf(_) =>
    case Node(l, hi, lo) =>
      var side := Decide(reg, ctx, l);
      SelectAgrees(reg, ctx, thn, l, side);
      SelectAgrees(reg, ctx, els, l, side);
      if side {
        JifCorrect(reg, ctx, hi, Select(thn, l, true), Select(els, l, true));
      } else {
        JifCorrect(reg, ctx, lo, Select(thn, l, false), Select(els, l, false));
      }
  }

  lemma {:induction false} GuardCorrect(reg: Registry, ctx: Value, pc: PathCond)
    ensures Concretize(reg, ctx, Guard(pc)) == Holds(reg, ctx, pc)
  {
    if pc != [] {
      var rest := pc[1..];
      GuardCorrect(reg, ctx, rest);
      assert Holds(reg, ctx, pc) == (Decide(reg, ctx, pc[0].lab) == pc[0].positive && Holds(reg, ctx, rest)) by {
        assert forall lit :: lit in pc <==> lit == pc[0] || lit in rest;
      }
    }
  }

  /** Guarded assignment: the new value exactly where the path condition
      holds, the old value elsewhere. */
  lemma AssignCorrect<T>(reg: Registry, ctx: Value, pc: PathCond, newer: Facet<T>, older: Facet<T>)
    ensures Concretize(reg, ctx, Assign(pc, newer, older))
         == if Holds(reg, ctx, pc) then Concretize(reg, ctx, newer) else Concretize(reg, ctx, older)
  {
    GuardCorrect(reg, ctx, pc);
    JifCorrect(reg, ctx, Guard(pc), newer, older);
  }

  /** A path condition holds whenever an extension of it holds. */
  lemma HoldsPrefix(reg: Registry, ctx: Value, pc: PathCond, p: PathCond)
    requires pc <= p && Holds(reg, ctx, p)
    ensures Holds(reg, ctx, pc)
  {
    forall lit | lit in pc
      ensures Decide(reg, ctx, lit.lab) == lit.positive
    {
      var i :| 0 <= i < |pc| && pc[i] == lit;
      assert p[i] == lit;
    }
  }

  /** A branch whose path condition holds is the one the viewer sees, and
      the enclosing path condition holds too. */
  lemma {:induction false} BranchesSound<T>(reg: Registry, ctx: Value, t: Facet<T>, pc: PathCond, b: (T, PathCond))
    requires b in Branches(t, pc)
    ensures Holds(reg, ctx, b.1) ==> b.0 == Concretize(reg, ctx, t) && Holds(reg, ctx, pc)
  {
    if Holds(reg, ctx, b.1) {
      HoldsPrefix(reg, ctx, pc, b.1);
      match t
      case Leaf(_) =>
      case Node(l, hi, lo) =>
        if Lit(l, true) in pc {
          BranchesSound(reg, ctx, hi, pc, b);
        } else if Lit(l, false) in pc {
          BranchesSound(reg, ctx, lo, pc, b);
        } else if b in Branches(hi, pc + [Lit(l, true)]) {
          HoldsPrefix(reg, ctx, pc + [Lit(l, true)], b.1);
          BranchesSound(reg, ctx, hi, pc + [Lit(l, true)], b);
        } else {
          HoldsPrefix(reg, ctx, pc + [Lit(l, false)], b.1);
          BranchesSound(reg, ctx, lo, pc + [Lit(l, false)], b);
        }
    }
  }

  /** Wherever the path condition holds, the branch of the leaf the viewer
      sees is taken. */
  lemma {:induction false} BranchesComplete<T>(reg: Registry, ctx: Value, t: Facet<T>, pc: PathCond)
    requires Holds(reg, ctx, pc)
    ensures exists b :: b in Branches(t, pc) && Holds(reg, ctx, b.1) && b.0 == Concretize(reg, ctx, t)
  {
    match t
    case Leaf(v) =>
      assert (v, pc) in Branches(t, pc);
    case Node(l, hi, lo) =>
      if Lit(l, true) in pc {
        BranchesComplete(reg, ctx, hi, pc);
      } else if Lit(l, false) in pc {
        BranchesComplete(reg, ctx, lo, pc);
      } else {
        var side := Decide(reg, ctx, l);
        var ext := pc + [Lit(l, side)];
        assert Holds(reg, ctx, ext);
        BranchesComplete(reg, ctx, if side then hi else lo, ext);
      }
  }

  /** A statement under a faceted guard runs on a path that holds exactly
      when the guard is true and the enclosing path condition holds. */
  lemma TruePathsCorrect(reg: Registry, ctx: Value, guard: Facet<bool>, pc: PathCond)
    ensures (exists p :: p in TruePaths(guard, pc) && Holds(reg, ctx, p))
        <==> Holds(reg, ctx, pc) && Concretize(reg, ctx, guard)
  {
    var bs := Branches(guard, pc);
    if p :| p in TruePaths(guard, pc) && Holds(reg, ctx, p) {
      BranchesSound(reg, ctx, guard, pc, (true, p));
      HoldsPrefix(reg, ctx, pc, p);
    }
    if Holds(reg, ctx, pc) && Concretize(reg, ctx, guard) {
      BranchesComplete(reg, ctx, guard, pc);
      var b :| b in bs && Holds(reg, ctx, b.1) && b.0 == Concretize(reg, ctx, guard);
      assert (true, b.1) in bs;
    }
  }
}
