/**
 * Predicate trees: the Django `Q` objects the core builds, with their values,
 * the way `&` and `|` treat an empty `Q()`, and their meaning over a row.
 */
module Predicates {

  type UserId = nat

  /** The values a lookup leaf can carry. */
  datatype Value =
    | Str(s: string)
    | Bool(b: bool)
    | Null
    | Date(year: nat, month: nat, day: nat)
    | StrList(items: seq<string>)
    | Requester(user: UserId)

  /** A lookup leaf `(key, value)`, e.g. `("name__startswith", Str("abc"))`. */
  type Lookup = (string, Value)

  /** A `Q` object: `Empty` is `Q()`, which constrains nothing. */
  datatype Q =
    | Empty
    | Leaf(key: string, value: Value)
    | And(left: Q, right: Q)
    | Or(left: Q, right: Q)
    | Not(inner: Q)

  function LeafOf(t: Lookup): Q { Leaf(t.0, t.1) }

  /** `a & b`: an empty operand is dropped, otherwise both are joined by AND. */
  function AndQ(a: Q, b: Q): Q
  {
    if a == Empty then b else if b == Empty then a else And(a, b)
  }

  /** `a | b`: an empty operand is dropped, otherwise both are joined by OR. */
  function OrQ(a: Q, b: Q): Q
  {
    if a == Empty then b else if b == Empty then a else Or(a, b)
  }

  /** Whether `row` satisfies `q`, given what each lookup leaf means for a row. */
  function Eval<R>(q: Q, row: R, sat: (R, string, Value) -> bool): bool
  {
    match q
    case Empty => true
    case Leaf(k, v) => sat(row, k, v)
    case And(a, b) => Eval(a, row, sat) && Eval(b, row, sat)
    case Or(a, b) => Eval(a, row, sat) || Eval(b, row, sat)
    case Not(a) => !Eval(a, row, sat)
  }

  /** `a & b` means the conjunction, whether or not an operand is empty. */
  lemma AndQMeansConjunction<R>(a: Q, b: Q, row: R, sat: (R, string, Value) -> bool)
    ensures Eval(AndQ(a, b), row, sat) == (Eval(a, row, sat) && Eval(b, row, sat))
  {
  }

  /**
   * `a | b` means the disjunction when neither operand is empty; an empty
   * operand, although it holds of every row, is dropped rather than making
   * the disjunction hold everywhere.
   */
  lemma OrQMeansDisjunction<R>(a: Q, b: Q, row: R, sat: (R, string, Value) -> bool)
    ensures a != Empty && b != Empty ==> Eval(OrQ(a, b), row, sat) == (Eval(a, row, sat) || Eval(b, row, sat))
    ensures a == Empty ==> Eval(OrQ(a, b), row, sat) == Eval(b, row, sat)
    ensures b == Empty ==> Eval(OrQ(a, b), row, sat) == Eval(a, row, sat)
  {
  }

  /** No `Not` node anywhere in `q`. */
  predicate NegationFree(q: Q)
  {
    match q
    case Empty => true
    case Leaf(_, _) => true
    case And(a, b) => NegationFree(a) && NegationFree(b)
    case Or(a, b) => NegationFree(a) && NegationFree(b)
    case Not(_) => false
  }

  /** `q` is one leaf, or leaves joined by OR only. */
  predicate LeafDisjunction(q: Q)
  {
    match q
    case Leaf(_, _) => true
    case Or(a, b) => LeafDisjunction(a) && LeafDisjunction(b)
    case _ => false
  }

  /** `q` is `Q()` or a disjunction of leaves: what `|=` builds from `Q()` and single leaves. */
  predicate OrOfLeaves(q: Q)
  {
    q == Empty || LeafDisjunction(q)
  }

  /** The lookup leaves of `q`. */
  function Leaves(q: Q): set<Lookup>
  {
    match q
    case Empty => {}
    case Leaf(k, v) => {(k, v)}
    case And(a, b) => Leaves(a) + Leaves(b)
    case Or(a, b) => Leaves(a) + Leaves(b)
    case Not(a) => Leaves(a)
  }

  /** `q` is `Q()`, one leaf, or leaves joined by AND only. */
  predicate AndOfLeaves(q: Q)
  {
    match q
    case Empty => true
    case Leaf(_, _) => true
    case And(a, b) => AndOfLeaves(a) && AndOfLeaves(b)
    case Or(_, _) => false
    case Not(_) => false
  }

  /** Combining with `&` or `|` keeps exactly the leaves of both operands. */
  lemma CombinedLeaves(a: Q, b: Q)
    ensures Leaves(AndQ(a, b)) == Leaves(a) + Leaves(b)
    ensures Leaves(OrQ(a, b)) == Leaves(a) + Leaves(b)
  {
  }

  lemma {:induction false} OrOfLeavesIsNegationFree(q: Q)
    requires OrOfLeaves(q)
    ensures NegationFree(q)
  {
    match q
    case Empty =>
    case Leaf(_, _) =>
    case Or(a, b) => OrOfLeavesIsNegationFree(a); OrOfLeavesIsNegationFree(b);
  }

  /** `a | leaf` is again a disjunction of leaves. */
  lemma OrLeaf(a: Q, k: string, v: Value)
    requires OrOfLeaves(a)
    ensures LeafDisjunction(OrQ(a, Leaf(k, v)))
  {
  }

  /** A disjunction of leaves holds of a row exactly when one of its leaves does. */
  lemma {:induction false} DisjunctionMeaning<R>(q: Q, row: R, sat: (R, string, Value) -> bool)
    requires LeafDisjunction(q)
    ensures Eval(q, row, sat) <==> exists l :: l in Leaves(q) && sat(row, l.0, l.1)
  {
    match q
    case Leaf(k, v) =>
      assert (k, v) in Leaves(q);
    case Or(a, b) =>
      DisjunctionMeaning(a, row, sat);
      DisjunctionMeaning(b, row, sat);
  }
}
