# Faceted values of the Jeeves engine

Jeeves is a library for policy-agnostic programs. A sensitive value is a
**facet tree**. `mkSensitive(label, high, low)` builds a node that shows
`high` to viewers the label's policy admits and `low` to everyone else.
`restrict(label, predicate)` installs that policy. `concretize(context, v)`
resolves the tree for one viewer context. The source rewriter marked by
`@jeeves` turns the ordinary Python program into faceted operations:

- operators, function calls and attribute reads are lifted over facets;
- a conditional on a faceted boolean becomes the value-level merge `jif`;
- assignment under a path condition becomes a guarded merge of the new
  value over the old one;
- a write through a faceted object handle reaches each underlying object
  only on its own path.

The test suite `TestSourceTransform` pins these rules down case by case,
and this project models that semantics, with the departures listed under
"Left out". The modules are:

- `Values`: the plain values the programs compute with (None, booleans,
  integers, pairs) and the Python operators `+`, `==`, `>` and
  truthiness.
- `Facets`: facet trees and the policy-free operations on them.
  - Select one side of a label.
  - Lift unary and binary operators, including function application and
    `and`/`or`/`not`.
  - `jif`.
  - Path conditions, and their guard as a faceted boolean.
  - Guarded assignment.
  - The branches of a tree under a path condition, and the paths on which
    a guarded statement runs.
- `Concretization`: policies, the per-viewer resolution of a label, and
  `concretize`, including the self-referential `concretize(v, v)`.
  - Its lemmas show that every lifted operation, `jif`, the guard of a
    path condition and guarded assignment mean the plain operation in
    every world.
  - They also show that the branches of a tree are sound and complete for
    each viewer.
- `PolicyRegistry`: the engine state, a class holding the created labels
  and the installed policies.
  - `mkLabel` and `restrict` update it in place.
  - A `restrict` reached under a faceted guard runs once per path on which
    the guard is true.
- `FacetedObjects`: `TestClass`/`TestClassMethod` as a class `Record` with
  mutable attributes `a` and `b`.
  - `add_a_to_b` and attribute writes take a path condition.
  - Reads through a faceted handle are lifted.
  - A write or method call through a handle is dispatched by a loop over
    the handle's branches.
  - `RouteCorrect` states the effect: in exactly the worlds where the path
    condition holds and the handle resolves to an object, that object
    shows the action's effect. Everywhere else it is unchanged.
- `Scenarios`: the programs of the tests, each run on a fresh engine.
  - Each test is one method, except two tests that are two methods each:
    - `test_jif_with_ints`: `JifWithInts` for the single-label conditionals,
      and `JifOverTwoLabels` for the conditional over `y` and `z`.
    - `test_jbool_functions_fexprs`: `SharedLabelConnectives` and
      `DistinctLabelConnectives`, one per loop.
  - Three tests delegate part of their work to a helper method:
    - `test_restrict_under_conditional` to `RestrictIfFortyTwo`;
    - `test_objects_mutate` to `IncrementWhereOne`;
    - `test_objects_methodcall` to `AddThroughView`.
  - Each method's contract is the values the test asserts. Small lemmas
    beside the methods compute the intermediate trees.

Labels are numbered in creation order. A path condition is a sequence of
literals "label is high" / "label is low". A policy records the path
condition under which `restrict` ran. That policy constrains its label only
in worlds where the label is high, so a policy installed on a path where
the label is low leaves the label unconstrained.

Two rules about policies:

- A label that was never restricted resolves to its **high** side. In
  test/testSourceTransform.py:133-139 the label `y` is never restricted
  (its guard is never true), and both contexts see 43.
- A second `restrict` on a label replaces the first.

## Model

| member | source | states |
|---|---|---|
| Values.BoolIsInt | test/testSourceTransform.py:114 | a boolean acts as the integer 1 or 0 under `==`, `>` (on either side) and truthiness, and equals that integer |
| Values.PlusCommutes | test/testSourceTransform.py:19 | `+` does not depend on the order of its operands, and a boolean operand acts as the integer 0 or 1 |
| Values.Eq | test/testSourceTransform.py:46 | `==` compares numbers by value and is reflexive |
| Values.EqSymmetric | test/testSourceTransform.py:46 | `==` does not depend on the order of its operands |
| Values.GtStrictOrder | test/testSourceTransform.py:114 | `>` is asymmetric and excludes `==`; two numbers neither of which is greater are equal |
| Values.Truthy | test/testSourceTransform.py:260 | under `lambda ctxt: ctxt` a number is true exactly when it is non-zero, and only None, False and 0 are false |
| Facets.LabelValue | test/testSourceTransform.py:33 | a bare label is the well-formed facet of True and False on that label alone |
| Facets.Select | test/testSourceTransform.py:117 | selecting a side of a label removes that label, adds no label or leaf, keeps well-formedness and leaves trees without the label unchanged |
| Facets.Lift1 | test/testSourceTransform.py:158 | a lifted unary operator keeps the labels of its operand and their well-formedness |
| Facets.Lift2 | test/testSourceTransform.py:114 | a lifted binary operator uses only its operands' labels and keeps well-formed trees well-formed |
| Facets.LiftCall | test/testSourceTransform.py:251 | applying a faceted function uses only the labels of the function and the argument |
| Facets.And | test/testSourceTransform.py:154 | lifted `and` uses only its operands' labels |
| Facets.Or | test/testSourceTransform.py:156 | lifted `or` uses only its operands' labels |
| Facets.Not | test/testSourceTransform.py:158 | lifted `not` keeps its operand's labels |
| Facets.Jif | test/testSourceTransform.py:87 | `jif` uses only the labels of guard and branches and keeps well-formed trees well-formed |
| Facets.Guard | test/testSourceTransform.py:223-224 | the guard of a path condition splits on exactly the labels of its literals, and is well-formed when no label repeats |
| Facets.Assign | test/testSourceTransform.py:190-191 | an assignment outside any conditional yields the new value unchanged; a guarded one uses only the labels of path condition, new and old value, and keeps well-formed values well-formed under a path condition without repeated labels |
| Facets.LiftAgainstPlain | test/testSourceTransform.py:114 | an operator with a plain right operand acts on each side of a single split |
| Facets.JifOnLabel | test/testSourceTransform.py:87 | a conditional on a bare label takes the then-branch's high side and the else-branch's low side |
| Facets.AssignUnderLiteral | test/testSourceTransform.py:223-224 | assignment under `if x` (or `if not x`) is the new value on that side of `x` and the old value on the other |
| Facets.Branches | test/testSourceTransform.py:282-283 | every branch of a tree under `pc` reaches one of its leaves under an extension of `pc`, and there is at least one |
| Facets.BranchesKeepDistinct | test/testSourceTransform.py:282-283 | branches extend the path condition only with labels it leaves open, so no branch repeats a label |
| Facets.TrueConds | test/testSourceTransform.py:128-129 | the path conditions listed are exactly those of the branches whose guard value is true, and there are none exactly when no branch is true |
| Facets.TruePaths | test/testSourceTransform.py:128-129 | every path on which a guarded statement runs extends the enclosing path condition |
| Facets.TruePathsOfLiteral | test/testSourceTransform.py:223-224 | a guard true on exactly one side of an open label runs its statement once, on that side |
| Facets.NeverTrueNoPaths | test/testSourceTransform.py:136-137 | a statement under a guard that is never true never runs |
| Concretization.Decide | test/testSourceTransform.py:133-139 | a label never restricted is high for every viewer; a label restricted outside any conditional is high exactly when its predicate admits the viewer |
| Concretization.Concretize | test/testSourceTransform.py:60-64 | `concretize` returns one of the tree's leaves |
| Concretization.HighView | test/testSourceTransform.py:75 | the high view of a faceted context is one of its leaves |
| Concretization.ConcretizeSelf | test/testSourceTransform.py:74-78 | `concretize(v, v)` returns one of the leaves of `v`; the context is the value's all-high view |
| Concretization.MkSensitiveResolves | test/testSourceTransform.py:58-64 | `mkSensitive(l, h, lo)` shows `h` when `l`'s policy admits the context and `lo` otherwise; an unrestricted label shows `h` |
| Concretization.LabelValueResolves | test/testSourceTransform.py:48-52 | a bare label concretizes to whether the viewer may see its high side |
| Concretization.PlainIsFixed | test/testSourceTransform.py:91-93 | a plain value is the same for every viewer |
| Concretization.CyclicResolves | test/testSourceTransform.py:74-78 | `concretize(v, v)` shows the high side exactly when the high side satisfies the policy |
| Concretization.SelectAgrees | test/testSourceTransform.py:113-117 | selecting the side a viewer sees changes nothing for that viewer |
| Concretization.Lift1Correct | test/testSourceTransform.py:158-159 | a lifted unary operator means the operator applied to the viewer's value |
| Concretization.Lift2Correct | test/testSourceTransform.py:113-114 | a lifted binary operator means the operator applied to the viewer's two values |
| Concretization.SharedLabelSplitOnce | test/testSourceTransform.py:152-159 | operands faceted on one label are combined facet by facet under a single split |
| Concretization.DistinctLabelsNest | test/testSourceTransform.py:168-178 | operands faceted on two labels give the four-way table, one split per label |
| Concretization.LiftCallCorrect | test/testSourceTransform.py:250-253 | a faceted function call means the viewer's function applied to the viewer's argument |
| Concretization.BoolOpsCorrect | test/testSourceTransform.py:154-159 | lifted `and`, `or` and `not` mean the plain connectives for every viewer |
| Concretization.JifCorrect | test/testSourceTransform.py:99-107 | `jif` means the plain conditional for every viewer |
| Concretization.GuardCorrect | test/testSourceTransform.py:223-228 | the guard of a path condition is true for a viewer exactly when every literal agrees with the policies |
| Concretization.AssignCorrect | test/testSourceTransform.py:222-236 | guarded assignment shows the new value exactly where the path condition holds and the old value elsewhere |
| Concretization.BranchesSound | test/testSourceTransform.py:282-283 | a branch whose path condition holds is the leaf the viewer sees, and the enclosing path condition holds |
| Concretization.BranchesComplete | test/testSourceTransform.py:282-283 | where the path condition holds, the branch of the leaf the viewer sees is among the branches and holds |
| Concretization.TruePathsCorrect | test/testSourceTransform.py:128-129 | a guarded statement runs on a path holding for a viewer if and only if the enclosing path condition holds and the guard is true for that viewer |
| PolicyRegistry.Engine.constructor | test/testSourceTransform.py:25-27 | `init()` leaves no labels and no policies |
| PolicyRegistry.Engine.MkLabel | test/testSourceTransform.py:31 | `mkLabel` returns a fresh, unrestricted label and records its name |
| PolicyRegistry.Engine.Restrict | test/testSourceTransform.py:32 | `restrict` installs the policy with the current path condition, replacing any earlier one, and changes nothing else |
| PolicyRegistry.Engine.RestrictWhen | test/testSourceTransform.py:128-129 | a `restrict` under a faceted guard takes effect only if some path makes the guard true, and then with the last such path as its condition |
| PolicyRegistry.RestrictionGoverns | test/testSourceTransform.py:129 | a policy installed under path condition `p` decides its label for every viewer in whose world `p` holds |
| PolicyRegistry.RestrictWhenGoverns | test/testSourceTransform.py:128-131 | the policy a guarded `restrict` leaves decides its label for every viewer in whose world the last path reaching it holds |
| PolicyRegistry.RestrictOnBothSides | test/testSourceTransform.py:128-129 | a `restrict` reached on both sides of its own label keeps only the low side's policy, so the label stays high for every viewer |
| FacetedObjects.Invoke | test/testSourceTransform.py:302 | reading an attribute gives that attribute; `return_sum()` uses only the labels of `a` and `b`; the result is well-formed when the attributes are |
| FacetedObjects.ReturnSumCorrect | test/testSourceTransform.py:21-22 | `return_sum()` is `a + b` for every viewer |
| FacetedObjects.Step | test/testSourceTransform.py:18-19 | writing `a` keeps `b`; writing `b` or `add_a_to_b()` keeps `a`; under a path condition without repeated labels, well-formed attributes and values stay well-formed |
| FacetedObjects.StepCorrect | test/testSourceTransform.py:283 | an action under `pc` has its unconditional effect where `pc` holds and none elsewhere |
| FacetedObjects.Record.constructor | test/testSourceTransform.py:8-10 | `__init__(a, b)` stores the two plain values |
| FacetedObjects.Record.ReturnSum | test/testSourceTransform.py:21-22 | the sum uses only the labels of the attributes |
| FacetedObjects.Record.Set | test/testSourceTransform.py:283 | `self.f = v` under `pc` sets the object's state to the effect of the write |
| FacetedObjects.Record.AddAToB | test/testSourceTransform.py:18-19 | `add_a_to_b()` under `pc` sets the object's state to the effect of the call |
| FacetedObjects.Record.Perform | test/testSourceTransform.py:305 | dispatching an action sets the object's state to that action's effect |
| FacetedObjects.Project | test/testSourceTransform.py:266-269 | reading `y.a` or `y.return_sum()` through a handle is well-formed when every reached object's attributes are |
| FacetedObjects.ProjectCorrect | test/testSourceTransform.py:262-269 | a viewer reading through a handle sees the member of the object the handle resolves to |
| FacetedObjects.Route | test/testSourceTransform.py:305 | performing an action along branches keeps the set of objects |
| FacetedObjects.RouteKeepsWellFormed | test/testSourceTransform.py:305 | performing a well-formed action along branches without repeated labels keeps every object's attributes well-formed |
| FacetedObjects.DispatchKeepsWellFormed | test/testSourceTransform.py:282-283 | a write or call through a handle under a path condition without repeated labels keeps every object's attributes well-formed |
| FacetedObjects.RouteCorrect | test/testSourceTransform.py:282-290 | an object shows the action's effect exactly where the path condition holds and the handle resolves to it, and its old attributes elsewhere |
| FacetedObjects.PerformAmong | test/testSourceTransform.py:305 | a call on one object changes that object's attributes and no other's |
| FacetedObjects.Dispatch | test/testSourceTransform.py:282-283 | a write through a handle leaves all objects as the branch-by-branch effect describes |
| Scenarios.Sensitive | test/testSourceTransform.py:58 | `mkSensitive(l, hi, lo)` over plain values is a well-formed tree on the label `l` alone, with leaves `hi` and `lo` |
| Scenarios.RestrictAllPermissive | test/testSourceTransform.py:30-34 | a label under an always-true policy concretizes to True |
| Scenarios.RestrictAllRestrictive | test/testSourceTransform.py:37-41 | a label under an always-false policy concretizes to False |
| Scenarios.RestrictWithContext | test/testSourceTransform.py:44-52 | under `y == 2` the label is True for 2 and False for 3 |
| Scenarios.RestrictWithSensitiveValue | test/testSourceTransform.py:55-64 | `mkSensitive(x, 42, 41)` shows 42 to 2 and 41 to 1 |
| Scenarios.RestrictWithCyclic | test/testSourceTransform.py:67-78 | `concretize(v, v)` gives 42 for `mkSensitive(x, 42, 20)` and 20 for `mkSensitive(x, 41, 20)` |
| Scenarios.JifWithInts | test/testSourceTransform.py:81-107 | each conditional shows 13 or 17 to the contexts 42 and -2 as asserted, and a swapped guard swaps them |
| Scenarios.JifOverTwoLabels | test/testSourceTransform.py:109-121 | the four pair contexts see 101, 102, 103 and 104 |
| Scenarios.GuardOnFacetedInt | test/testSourceTransform.py:113-117 | `mkSensitive(y, 10, 0) > 5` is the bare label `y`, and the conditional on it splits the branches on `y` |
| Scenarios.RestrictUnderConditional | test/testSourceTransform.py:124-139 | `x` shows 0 to 0 and 42 to 1; the unrestricted `y` shows 43 to both |
| Scenarios.RestrictIfFortyTwo | test/testSourceTransform.py:127-131 | a restriction under `value == 42` hides the high side from 0 exactly when the high side is 42, and registers the label |
| Scenarios.EqualsFortyTwo | test/testSourceTransform.py:128 | `value == 42` runs its statement once, with `x` high, when only the high side is 42, and never when no side is |
| Scenarios.ComponentViews | test/testSourceTransform.py:146 | under `lambda (a, _): a == 42` a pair context makes the label high exactly when its component is 42 |
| Scenarios.SharedLabelConnectives | test/testSourceTransform.py:148-159 | for every choice of the four booleans, `and`, `or` and `not` over one label agree with the asserted table |
| Scenarios.SharedLabelTable | test/testSourceTransform.py:152-159 | the six concretizations of one round equal the plain connectives on the chosen sides |
| Scenarios.DistinctLabelConnectives | test/testSourceTransform.py:161-178 | for every choice of the four booleans, `and` and `or` over two labels agree with the asserted eight-entry table |
| Scenarios.DistinctLabelTable | test/testSourceTransform.py:168-178 | context (a, b) sees `l` on the side `a` selects and `r` on the side `b` selects |
| Scenarios.JifWithAssign | test/testSourceTransform.py:181-208 | an unconditional reassignment discards the earlier value: 2/3, 2/3, 200/200, 200/200 |
| Scenarios.JifWithAssignWithPathVars | test/testSourceTransform.py:211-236 | under `if x` the four contexts see 2, 3, 0, 1; under `if not x` they see 0, 1, 2, 3 |
| Scenarios.PairTable | test/testSourceTransform.py:225-228 | under the component policies a value split on `x` then `y` is seen by the four boolean pairs in table order |
| Scenarios.FunctionFacets | test/testSourceTransform.py:239-253 | `mkSensitive(x, add1, add2)(15)` shows 16 to 42 and 17 to 41 |
| Scenarios.ObjectsFaceted | test/testSourceTransform.py:256-269 | True sees `y.a`, `y.b` as 1, 2 and False as 3, 4 |
| Scenarios.TruthyViews | test/testSourceTransform.py:260 | under `lambda c: c` the viewer True sees the high side and False the low side |
| Scenarios.ObjectsMutate | test/testSourceTransform.py:272-290 | after the guarded increment True sees `y.a`, `s.a`, `t.a` as 101, 101, 3 and False as 3, 1, 3 |
| Scenarios.IncrementWhereOne | test/testSourceTransform.py:282-290 | the guarded increment through the handle gives those six values for any records holding 1 and 3 |
| Scenarios.MutatePlan | test/testSourceTransform.py:282-283 | `y.a == 1` is true exactly where `x` is high, and `y.a + 100` is 101 there and 103 elsewhere |
| Scenarios.MutateEffect | test/testSourceTransform.py:282-283 | the write changes only `s`, whose `a` becomes 101 where `x` is high and stays 1 elsewhere |
| Scenarios.MutateViews | test/testSourceTransform.py:285-290 | the six reads after the write give 101, 101, 3 and 3, 1, 3 |
| Scenarios.ObjectsMethodcall | test/testSourceTransform.py:292-317 | `return_sum()` shows 11 and 1100; after `add_a_to_b()` the twelve reads are as asserted |
| Scenarios.AddThroughView | test/testSourceTransform.py:305-317 | `add_a_to_b()` through the handle gives the twelve asserted reads for any records holding (1, 10) and (100, 1000) |
| Scenarios.MethodcallEffect | test/testSourceTransform.py:305 | `s.b` becomes 11 where `x` is high and `t.b` becomes 1100 where `x` is low, each kept on the other side |
| Scenarios.MethodcallViews | test/testSourceTransform.py:306-317 | the twelve reads after the call give the asserted values |
| Scenarios.AddUnderLiteral | test/testSourceTransform.py:18-19 | `add_a_to_b()` under one literal stores the sum on that side and keeps `b` on the other |
| Scenarios.RouteTwo | test/testSourceTransform.py:305 | performing an action along two branches applies it to the first object and then to the second |

## Left out

- The macropy source rewriting and the `@jeeves` decorator are not modelled.
  Each scenario writes out the faceted operations the rewriter would emit:
  lifted operators, `jif`, guarded assignment and dispatch through a handle.
- The `unittest` harness is not modelled. `JeevesLib.init()` is the
  constructor of a fresh `Engine`.
- The engine `JeevesLib` itself is not part of this model. Its semantics
  is taken from what the tests assert: policies decide each label
  independently for the viewer, and there is no constraint solving over
  label assignments.
- Values.Plus: `+` is modelled on numbers only. Python concatenates two
  tuples and raises TypeError for other non-numbers. Here both cases give
  None. The tests add only integers.
- Values.Gt: Python 2 orders values of different types (None below
  everything, tuples above numbers); here any comparison involving a
  non-number is false. The tests compare only integers.
- Policies written with tuple unpacking (`lambda (a, _): ...`) raise on a
  non-pair context in Python; here they are false for non-pairs. Policy
  exceptions are not modelled.
- Concretization.Decide: of a policy's recorded path condition, only the
  literal on the policy's own label is consulted (a policy installed
  where its label is low never constrains it). Literals on other labels
  are treated as holding, which no test distinguishes.
- Concretization.ConcretizeSelf: every policy is asked about the value's
  all-high view, its leftmost leaf. For a value with one split, as in the
  tests, this is the world where the label being resolved is high. For
  nested values it differs from resolving each label in its own world.
  For example, take the value `mkSensitive(x, mkSensitive(y, 1, 2),
  mkSensitive(y, 3, 4))` where both policies are `c == 3`. Every policy is
  asked about 1, so the model shows 4, while per-label resolution would
  show 3.
- PolicyRegistry.Engine.RestrictWhen: when the guard is true on several
  paths, the restriction runs once per path and each run replaces the last.
  Only the last path's policy survives. A `restrict` reached on both sides
  of its own label therefore has no effect (RestrictOnBothSides). The
  tests reach `restrict` on at most one path.
- `TestClass` and `TestClassMethod` are one class `Record` with attributes
  `a` and `b`, and method dispatch over a closed set of actions. Python's
  dynamic attribute interception is not modelled.
- FacetedObjects.RouteCorrect: requires the handle's leaves to be distinct
  objects. Aliasing of one object under several leaves is not modelled.
- FacetedObjects.Record.ReturnSum: its contract bounds only the labels.
  The value of `return_sum()` is stated by ReturnSumCorrect over the same
  `Invoke`.
- The loops of test/testSourceTransform.py:148-178 are not written as
  loops. Each round is a method whose contract holds for all four input
  booleans, which covers every iteration.
- `test_objects_methodcall` (test/testSourceTransform.py:292) carries no
  `@jeeves`. The lifted read and call through the handle are modelled
  with an empty path condition, as the assertions require.
- Label names serve only for diagnostics. They are recorded but never
  read.
