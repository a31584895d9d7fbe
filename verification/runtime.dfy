/**
 The few pieces of Python run-time behaviour the analysis core depends on:
 a value that may be Python's `None`, a dictionary entry that may be missing
 or hold `None`, and the outcome of an evaluation that may raise.
 */
module Runtime {

  /** A value that may be Python's `None`. */
  datatype Option<+T> = None | Some(value: T)

  /** The outcome of evaluating Python code: a value, or an exception of the
      named class (`TypeError`, `KeyError`, ...) propagating out of it. */
  datatype Result<+T> = Ok(value: T) | Raised(exception: string) {
    predicate IsFailure() {
      Raised?
    }

    function PropagateFailure<U>(): Result<U>
      requires Raised?
    {
      Raised(exception)
    }

    function Extract(): T
      requires Ok?
    {
      value
    }
  }

  /** One entry of a JSON-like dictionary: the key is missing, the key maps to
      `None` (JSON `null`), or the key maps to a value. */
  datatype Field<+T> = Absent | Null | Present(value: T)

  /** `d.get(key, default)`: the default when the key is missing, `None` when
      the key maps to `None`. */
  function Get<T>(f: Field<T>, default: T): (r: Option<T>)
    ensures r.None? <==> f.Null?
    ensures f.Absent? ==> r == Some(default)
    ensures f.Present? ==> r == Some(f.value)
  {
    match f
    case Absent => Some(default)
    case Null => None
    case Present(v) => Some(v)
  }

  /** Python's short-circuit `a or b` over evaluations that may raise: `b` is
      only reached (and only its exception matters) when `a` is false. */
  function Or(a: Result<bool>, b: Result<bool>): (r: Result<bool>)
    ensures a == Ok(true) ==> r == Ok(true)
    ensures a == Ok(false) ==> r == b
    ensures a.Raised? ==> r == a
  {
    match a
    case Raised(e) => Raised(e)
    case Ok(true) => Ok(true)
    case Ok(false) => b
  }

  /** `any(p(x) for x in xs)`: stops at the first true value, so an element
      after it that would raise is never evaluated. */
  function Any<T>(xs: seq<T>, p: T -> Result<bool>): (r: Result<bool>)
  {
    if |xs| == 0 then Ok(false)
    else
      match p(xs[0])
      case Raised(e) => Raised(e)
      case Ok(true) => Ok(true)
      case Ok(false) => Any(xs[1..], p)
  }

  /** `[x for x in xs if p(x)]`: every element is evaluated, so any element
      that raises makes the whole comprehension raise. */
  function Filter<T>(xs: seq<T>, p: T -> Result<bool>): (r: Result<seq<T>>)
  {
    if |xs| == 0 then Ok([])
    else
      match p(xs[0])
      case Raised(e) => Raised(e)
      case Ok(keep) =>
        match Filter(xs[1..], p)
        case Raised(e) => Raised(e)
        case Ok(rest) => Ok(if keep then [xs[0]] + rest else rest)
  }

  /** Over elements none of which raises, `any` is the existential. */
  lemma {:induction false} AnyWhenTotal<T>(xs: seq<T>, p: T -> Result<bool>)
    ensures (forall i :: 0 <= i < |xs| ==> p(xs[i]).Ok?) ==>
      Any(xs, p) == Ok(exists i :: 0 <= i < |xs| && p(xs[i]) == Ok(true))
  {
    if |xs| > 0 {
      if p(xs[0]) == Ok(false) {
        AnyWhenTotal(xs[1..], p);
        assert forall i :: 1 <= i < |xs| ==> p(xs[i]) == p(xs[1..][i - 1]);
      }
    }
  }

  /** Over elements none of which raises, the comprehension keeps exactly
      the elements satisfying the predicate, so it is never longer. */
  lemma {:induction false} FilterWhenTotal<T>(xs: seq<T>, p: T -> Result<bool>)
    ensures (forall i :: 0 <= i < |xs| ==> p(xs[i]).Ok?) ==>
      && Filter(xs, p).Ok?
      && |Filter(xs, p).value| <= |xs|
      && (|Filter(xs, p).value| == 0 <==> forall i :: 0 <= i < |xs| ==> p(xs[i]) == Ok(false))
  {
    if |xs| > 0 {
      FilterWhenTotal(xs[1..], p);
      assert forall i :: 1 <= i < |xs| ==> p(xs[i]) == p(xs[1..][i - 1]);
    }
  }

  /** Number of elements satisfying `p`. */
  function Count<T>(xs: seq<T>, p: T -> bool): (n: nat)
    ensures n <= |xs|
    ensures n == 0 <==> forall i :: 0 <= i < |xs| ==> !p(xs[i])
  {
    if |xs| == 0 then 0
    else
      assert forall i :: 1 <= i < |xs| ==> xs[i] == xs[1..][i - 1];
      (if p(xs[0]) then 1 else 0) + Count(xs[1..], p)
  }

  /** A comprehension whose test evaluates, without raising, to the
      predicate `q` keeps exactly the elements satisfying `q`. */
  lemma {:induction false} FilterCount<T>(xs: seq<T>, p: T -> Result<bool>, q: T -> bool)
    requires forall i :: 0 <= i < |xs| ==> p(xs[i]) == Ok(q(xs[i]))
    ensures Filter(xs, p).Ok?
    ensures |Filter(xs, p).value| == Count(xs, q)
  {
    if |xs| > 0 {
      assert forall i :: 1 <= i < |xs| ==> xs[i] == xs[1..][i - 1];
      FilterCount(xs[1..], p, q);
    }
  }

  /** A sequence holding two different values has at least two elements. */
  lemma TwoDistinctMembers<T>(xs: seq<T>, x: T, y: T)
    requires x in xs && y in xs && x != y
    ensures |xs| >= 2
  {
    var i :| 0 <= i < |xs| && xs[i] == x;
    var j :| 0 <= j < |xs| && xs[j] == y;
    assert i != j;
  }

  /** A sequence is what comes before position `i`, its element there, and
      what comes after. */
  lemma SplitAt<T>(xs: seq<T>, i: nat)
    requires i < |xs|
    ensures xs == xs[..i] + ([xs[i]] + xs[i + 1..])
  {
  }

  lemma SeqAssociative<T>(x: seq<T>, y: seq<T>, z: seq<T>)
    ensures x + (y + z) == x + y + z
  {
  }
}
