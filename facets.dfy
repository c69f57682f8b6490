/** Facet trees and the context-free operations on them: selecting one side
    of a label, lifting operators, the faceted conditional `jif`, path
    conditions and guarded assignment. Nothing here consults a policy;
    the meaning of a tree for a viewer is given in module Concretization. */
module Facets {

  /** Labels are handed out by the registry as consecutive numbers. */
  type Label = nat

  /** One conjunct of a path condition: `label` is high (positive) or low. */
  datatype Lit = Lit(lab: Label, positive: bool)

  /** The path condition active at a program point: the conjunction of its
      literals, innermost branch last. */
  type PathCond = seq<Lit>

  /** A sensitive value: a plain leaf, or a label choosing between a high
      and a low subtree (`mkSensitive(label, hi, lo)`). */
  datatype Facet<T> = Leaf(v: T) | Node(lab: Label, hi: Facet<T>, lo: Facet<T>)

  /** A bare label used as a value behaves as the facet of True and False. */
  function LabelValue(l: Label): (r: Facet<bool>)
    ensures Labels(r) == {l} && WellFormed(r)
  {
    Node(l, Leaf(true), Leaf(false))
  }

  function Labels<T>(t: Facet<T>): set<Label>
  {
    match t
    case Leaf(_) => {}
    case Node(l, hi, lo) => {l} + Labels(hi) + Labels(lo)
  }

  /** The plain values a tree can resolve to. */
  function Leaves<T>(t: Facet<T>): set<T>
  {
    match t
    case Leaf(v) => {v}
    case Node(_, hi, lo) => Leaves(hi) + Leaves(lo)
  }

  /** The facet-tree invariant: no label is split on twice along one path. */
  predicate WellFormed<T>(t: Facet<T>)
  {
    match t
    case Leaf(_) => true
    case Node(l, hi, lo) => l !in Labels(hi) && l !in Labels(lo) && WellFormed(hi) && WellFormed(lo)
  }

  /** The view of `t` in the worlds where label `l` is high (`side`) or low:
      every split on `l` is replaced by the chosen side. */
  function Select<T>(t: Facet<T>, l: Label, side: bool): (r: Facet<T>)
    ensures l !in Labels(r) && Labels(r) <= Labels(t)
    ensures Leaves(r) <= Leaves(t)
    ensures WellFormed(t) ==> WellFormed(r)
    ensures l !in Labels(t) ==> r == t
  {
    match t
    case Leaf(_) => t
    case Node(m, hi, lo) =>
      if m == l then Select(if side then hi else lo, l, side)
      else Node(m, Select(hi, l, side), Select(lo, l, side))
  }

  /** A unary operator lifted over a facet tree: applied at every leaf, the
      splits kept as they are. */
  function Lift1<A, B>(f: A -> B, t: Facet<A>): (r: Facet<B>)
    ensures Labels(r) == Labels(t)
    ensures WellFormed(r) == WellFormed(t)
  {
    match t
    case Leaf(a) => Leaf(f(a))
    case Node(l, hi, lo) => Node(l, Lift1(f, hi), Lift1(f, lo))
  }

  /** A binary operator lifted over two facet trees. The split on a label
      of the first tree is applied to the second tree too, so a label shared
      by both operands is split once, and the result never repeats a label
      on one path. */
  function Lift2<A, B, C>(f: (A, B) -> C, t1: Facet<A>, t2: Facet<B>): (r: Facet<C>)
    ensures Labels(r) <= Labels(t1) + Labels(t2)
    ensures WellFormed(t1) && WellFormed(t2) ==> WellFormed(r)
    decreases t1, t2
  {
    match (t1, t2)
    case (Leaf(a), Leaf(b)) => Leaf(f(a, b))
    case (Leaf(_), Node(l, hi, lo)) => Node(l, Lift2(f, t1, hi), Lift2(f, t1, lo))
    case (Node(l, hi, lo), _) =>
      Node(l, Lift2(f, hi, Select(t2, l, true)), Lift2(f, lo, Select(t2, l, false)))
  }

  /** Application of a faceted function to a faceted argument. */
  function LiftCall<A, B>(fs: Facet<A -> B>, args: Facet<A>): (r: Facet<B>)
    ensures Labels(r) <= Labels(fs) + Labels(args)
  {
    Lift2((g: A -> B, a: A) => g(a), fs, args)
  }

  /** Lifted boolean connectives. */
  function And(p: Facet<bool>, q: Facet<bool>): (r: Facet<bool>)
    ensures Labels(r) <= Labels(p) + Labels(q)
  {
    Lift2((a: bool, b: bool) => a && b, p, q)
  }

  function Or(p: Facet<bool>, q: Facet<bool>): (r: Facet<bool>)
    ensures Labels(r) <= Labels(p) + Labels(q)
  {
    Lift2((a: bool, b: bool) => a || b, p, q)
  }

  function Not(p: Facet<bool>): (r: Facet<bool>)
    ensures Labels(r) == Labels(p)
  {
    Lift1((a: bool) => !a, p)
  }

  /** The faceted conditional: a plain guard picks a branch outright; a
      faceted guard is split on its labels and each branch is viewed in
      the worlds of that split, so the result mirrors the guard's tree. */
  function Jif<T>(guard: Facet<bool>, thn: Facet<T>, els: Facet<T>): (r: Facet<T>)
    ensures Labels(r) <= Labels(guard) + Labels(thn) + Labels(els)
    ensures WellFormed(guard) && WellFormed(thn) && WellFormed(els) ==> WellFormed(r)
  {
    match guard
    case Leaf(b) => if b then thn else els
    case Node(l, hi, lo) =>
      Node(l, Jif(hi, Select(thn, l, true), Select(els, l, true)),
              Jif(lo, Select(thn, l, false), Select(els, l, false)))
  }

  /** No label occurs twice in the path condition. */
  predicate DistinctLabels(pc: PathCond)
  {
    forall i, j :: 0 <= i < j < |pc| ==> pc[i].lab != pc[j].lab
  }

  /** The path condition as a faceted boolean: true exactly in the worlds
      where every literal holds. */
  function Guard(pc: PathCond): (r: Facet<bool>)
    ensures Labels(r) == set lit | lit in pc :: lit.lab
    ensures DistinctLabels(pc) ==> WellFormed(r)
  {
    if pc == [] then Leaf(true)
    else
      var rest := Guard(pc[1..]);
      assert forall lit :: lit in pc <==> lit == pc[0] || lit in pc[1..];
      assert DistinctLabels(pc) ==> DistinctLabels(pc[1..]) && pc[0].lab !in Labels(rest) by {
        if DistinctLabels(pc) {
          forall lit | lit in pc[1..]
            ensures lit.lab != pc[0].lab
          {
            var k :| 0 <= k < |pc[1..]| && pc[1..][k] == lit;
            assert pc[k + 1] == lit;
          }
        }
      }
      if pc[0].positive then Node(pc[0].lab, rest, Leaf(false))
      else Node(pc[0].lab, Leaf(false), rest)
  }

  /** Assignment of `newer` over `older` under path condition `pc`: the new value
      where `pc` holds, the old one elsewhere. */
  function Assign<T>(pc: PathCond, newer: Facet<T>, older: Facet<T>): (r: Facet<T>)
    ensures pc == [] ==> r == newer
    ensures Labels(r) <= (set lit | lit in pc :: lit.lab) + Labels(newer) + Labels(older)
    ensures DistinctLabels(pc) && WellFormed(newer) && WellFormed(older) ==> WellFormed(r)
  {
    Jif(Guard(pc), newer, older)
  }

  /** A binary operator with a plain right operand acts on each side of a
      single split. */
  lemma LiftAgainstPlain<A, B, C>(f: (A, B) -> C, l: Label, a1: A, a2: A, b: B)
    ensures Lift2(f, Node(l, Leaf(a1), Leaf(a2)), Leaf(b)) == Node(l, Leaf(f(a1, b)), Leaf(f(a2, b)))
  {
    assert Select(Leaf(b), l, true) == Leaf(b) && Select(Leaf(b), l, false) == Leaf(b);
  }

  /** A conditional on a bare label takes the then-branch's high side and
      the else-branch's low side. */
  lemma JifOnLabel<T>(l: Label, thn: Facet<T>, els: Facet<T>)
    ensures Jif(LabelValue(l), thn, els) == Node(l, Select(thn, l, true), Select(els, l, false))
  {
    assert Jif(Leaf(true), Select(thn, l, true), Select(els, l, true)) == Select(thn, l, true);
    assert Jif(Leaf(false), Select(thn, l, false), Select(els, l, false)) == Select(els, l, false);
  }

  /** Assignment under a single literal is the facet of the new value on
      that side of the label and the old value on the other. */
  lemma AssignUnderLiteral<T>(l: Label, side: bool, newer: Facet<T>, older: Facet<T>)
    ensures Assign([Lit(l, side)], newer, older)
         == if side then Node(l, Select(newer, l, true), Select(older, l, false))
            else Node(l, Select(older, l, true), Select(newer, l, false))
  {
    var pc := [Lit(l, side)];
    assert pc[1..] == [] && Guard(pc[1..]) == Leaf(true);
    var g := Guard(pc);
    assert g == if side then Node(l, Leaf(true), Leaf(false)) else Node(l, Leaf(false), Leaf(true));
    assert Assign(pc, newer, older) == Jif(g, newer, older);
    assert Jif(g, newer, older) == Node(l, Jif(g.hi, Select(newer, l, true), Select(older, l, true)),
                                           Jif(g.lo, Select(newer, l, false), Select(older, l, false)));
  }

  /** Whether `pc` already fixes the side of label `l`. */
  function Decided(pc: PathCond, l: Label): (r: bool)
    ensures r <==> exists side :: Lit(l, side) in pc
  {
    Lit(l, true) in pc || Lit(l, false) in pc
  }

  /** The leaves of `t` reachable under path condition `pc`, left to right,
      each with the path condition under which it is reached: splits that
      `pc` already decides follow `pc`, the others extend it by one
      literal on each side. */
  function Branches<T>(t: Facet<T>, pc: PathCond): (r: seq<(T, PathCond)>)
    ensures |r| > 0
    ensures forall b :: b in r ==> b.0 in Leaves(t) && pc <= b.1
  {
    match t
    case Leaf(v) => [(v, pc)]
    case Node(l, hi, lo) =>
      if Lit(l, true) in pc then Branches(hi, pc)
      else if Lit(l, false) in pc then Branches(lo, pc)
      else Branches(hi, pc + [Lit(l, true)]) + Branches(lo, pc + [Lit(l, false)])
  }

  /** Branches only extend the path condition with labels it leaves open,
      so a path condition without repeated labels stays so on every branch. */
  lemma {:induction false} BranchesKeepDistinct<T>(t: Facet<T>, pc: PathCond)
    requires DistinctLabels(pc)
    ensures forall b :: b in Branches(t, pc) ==> DistinctLabels(b.1)
  {
    match t
    case Leaf(_) =>
    case Node(l, hi, lo) =>
      if Lit(l, true) in pc {
        BranchesKeepDistinct(hi, pc);
      } else if Lit(l, false) in pc {
        BranchesKeepDistinct(lo, pc);
      } else {
        forall side: bool
          ensures DistinctLabels(pc + [Lit(l, side)])
        {
          forall i | 0 <= i < |pc|
            ensures pc[i].lab != l
          {
            assert pc[i] in pc && pc[i] == Lit(pc[i].lab, pc[i].positive);
          }
        }
        BranchesKeepDistinct(hi, pc + [Lit(l, true)]);
        BranchesKeepDistinct(lo, pc + [Lit(l, false)]);
      }
  }

  /** The path conditions of the branches whose leaf is true. */
  function TrueConds(bs: seq<(bool, PathCond)>): (r: seq<PathCond>)
    ensures |r| <= |bs|
    ensures forall p :: p in r <==> (true, p) in bs
    ensures r == [] <==> forall b :: b in bs ==> !b.0
  {
    if bs == [] then []
    else
      var rest := TrueConds(bs[1..]);
      assert forall b :: b in bs <==> b == bs[0] || b in bs[1..];
      if bs[0].0 then [bs[0].1] + rest else rest
  }

  /** The paths along which a statement guarded by `guard` runs, when the
      guard is reached under `pc`. */
  function TruePaths(guard: Facet<bool>, pc: PathCond): (r: seq<PathCond>)
    ensures forall p :: p in r ==> pc <= p
  {
    TrueConds(Branches(guard, pc))
  }

  /** A statement guarded by a boolean that is true on exactly one side of a
      label `pc` leaves open runs once, on the path extending `pc` with
      that side. */
  lemma TruePathsOfLiteral(l: Label, side: bool, pc: PathCond)
    requires !Decided(pc, l)
    ensures TruePaths(Node(l, Leaf(side), Leaf(!side)), pc) == [pc + [Lit(l, side)]]
  {
    var hi, lo := pc + [Lit(l, true)], pc + [Lit(l, false)];
    assert Branches(Node(l, Leaf(side), Leaf(!side)), pc) == Branches(Leaf(side), hi) + Branches(Leaf(!side), lo);
    var bs := [(side, hi), (!side, lo)];
    assert bs[1..] == [(!side, lo)];
    assert [(!side, lo)][1..] == [];
  }

  /** A statement under a guard that is false in every world never runs. */
  lemma NeverTrueNoPaths(guard: Facet<bool>, pc: PathCond)
    requires true !in Leaves(guard)
    ensures TruePaths(guard, pc) == []
  {
  }
}
