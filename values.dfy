/** Plain (non-faceted) values that the test programs compute with and that
    policies receive as viewer contexts: Python's None, booleans, integers
    and pairs, with the Python operators the tests apply to them. */
module Values {

  datatype Option<T> = None | Some(value: T)

  datatype Value = VNone | VBool(b: bool) | VInt(i: int) | VPair(fst: Value, snd: Value)

  /** The number a value stands for in arithmetic and comparison: Python's
      `bool` is a subtype of `int`, with True as 1 and False as 0. */
  function AsInt(v: Value): (r: Option<int>)
    ensures r.Some? <==> v.VInt? || v.VBool?
    ensures v.VInt? ==> r == Some(v.i)
    ensures v.VBool? ==> r == Some(if v.b then 1 else 0)
  {
    match v
    case VBool(b) => Some(if b then 1 else 0)
    case VInt(i) => Some(i)
    case _ => None
  }

  /** Python's `+` on two numbers. Any other operand types would raise a
      TypeError in Python; here they give None. */
  function Plus(v: Value, w: Value): (r: Value)
    ensures AsInt(v).Some? && AsInt(w).Some? <==> r.VInt?
    ensures r.VInt? ==> r.i == AsInt(v).value + AsInt(w).value
  {
    if AsInt(v).Some? && AsInt(w).Some? then VInt(AsInt(v).value + AsInt(w).value) else VNone
  }

  /** Python's `==`: numbers compare by value (so `True == 1`), pairs
      component-wise, and values of unrelated types are unequal. */
  function Eq(v: Value, w: Value): (r: bool)
    ensures AsInt(v).Some? && AsInt(w).Some? ==> (r <==> AsInt(v) == AsInt(w))
    ensures v == w ==> r
  {
    if AsInt(v).Some? && AsInt(w).Some? then AsInt(v) == AsInt(w)
    else match (v, w)
      case (VPair(v1, v2), VPair(w1, w2)) => Eq(v1, w1) && Eq(v2, w2)
      case _ => v == w
  }

  /** Python's `==` does not depend on the order of its operands. */
  lemma {:induction false} EqSymmetric(v: Value, w: Value)
    ensures Eq(v, w) == Eq(w, v)
  {
    if !(AsInt(v).Some? && AsInt(w).Some?) && v.VPair? && w.VPair? {
      EqSymmetric(v.fst, w.fst);
      EqSymmetric(v.snd, w.snd);
    }
  }

  /** `+` on numbers does not depend on the order of its operands, and a
      boolean operand counts as the integer 0 or 1. */
  lemma PlusCommutes(v: Value, w: Value)
    ensures Plus(v, w) == Plus(w, v)
    ensures v.VBool? ==> Plus(v, w) == Plus(VInt(if v.b then 1 else 0), w)
  {
  }

  /** Python's `>` on two numbers; comparisons involving other types are
      false here. */
  function Gt(v: Value, w: Value): (r: bool)
    ensures r <==> AsInt(v).Some? && AsInt(w).Some? && AsInt(v).value > AsInt(w).value
  {
    match (AsInt(v), AsInt(w))
    case (Some(m), Some(n)) => m > n
    case _ => false
  }

  /** `>` is a strict order on numbers: it is asymmetric, excludes
      equality, and any two numbers are ordered one way or the other or
      are equal. */
  lemma GtStrictOrder(v: Value, w: Value)
    ensures Gt(v, w) ==> !Gt(w, v) && !Eq(v, w)
    ensures AsInt(v).Some? && AsInt(w).Some? && !Gt(v, w) && !Gt(w, v) ==> Eq(v, w)
  {
  }

  /** Python's `bool` is a subtype of `int`: for `==`, `>` and truthiness
      a boolean behaves exactly as the integer 1 or 0. */
  lemma BoolIsInt(b: bool, w: Value)
    ensures var n := VInt(if b then 1 else 0);
      Eq(VBool(b), n) && Eq(VBool(b), w) == Eq(n, w) &&
      Gt(VBool(b), w) == Gt(n, w) && Gt(w, VBool(b)) == Gt(w, n) &&
      Truthy(VBool(b)) == Truthy(n)
  {
  }

  /** Python truthiness: None, False and 0 are false, every other value
      (including any pair) is true. */
  predicate Truthy(v: Value)
    ensures AsInt(v).Some? ==> (Truthy(v) <==> AsInt(v).value != 0)
    ensures Truthy(v) <==> v !in {VNone, VBool(false), VInt(0)}
  {
    match v
    case VNone => false
    case VBool(b) => b
    case VInt(i) => i != 0
    case VPair(_, _) => true
  }
}
