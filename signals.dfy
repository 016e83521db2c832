/** What a check can throw, what a statement can do, and the catch clause every
    condition check wraps around its condition (the "rewrap" rule). */
module Signals {

  /** The two macro families: M_ASSERT_* throws AssertException, M_EXPECT_* throws ExpectException. */
  datatype Kind = Assert | Expect

  /** A thrown C++ value, as far as the macros can tell them apart. */
  datatype Thrown =
    | Fatal(msg: string)                  // AssertException
    | NonFatal(msg: string)               // ExpectException
    | StdError(tag: string, what: string) // any other type derived from std::exception
    | Foreign(tag: string)                // a thrown value not derived from std::exception
  {
    /** Whether `catch(const std::exception& e)` catches it. */
    predicate IsStdException() {
      !Foreign?
    }

    /** The text `e.what()` returns. */
    function What(): string
      requires IsStdException()
    {
      match this
      case Fatal(m) => m
      case NonFatal(m) => m
      case StdError(_, w) => w
    }
  }

  /** What running a statement does: falls through, leaves the test function by `return`,
      or throws. */
  datatype Outcome = Ok | Returned | Raised(thrown: Thrown)

  /** The value of a user expression: a value, or the exception its evaluation threw. */
  datatype Expr<T> = Value(v: T) | Throws(thrown: Thrown)

  /** A macro argument: its source text (`#x`) and what evaluating it gives. */
  datatype Operand<T> = Operand(text: string, eval: Expr<T>)

  /** The signal a macro of kind `k` throws with message `msg`. */
  function Raise(k: Kind, msg: string): (t: Thrown)
    ensures t.IsStdException() && t.What() == msg
    ensures t.Fatal? <==> k == Assert
    ensures t.NonFatal? <==> k == Expect
  {
    match k
    case Assert => Fatal(msg)
    case Expect => NonFatal(msg)
  }

  /** The macro's own signal: a Fatal for the Assert family, a NonFatal for the Expect family. */
  predicate IsSignalOf(t: Thrown, k: Kind) {
    (k == Assert && t.Fatal?) || (k == Expect && t.NonFatal?)
  }

  /** `catch(const std::exception& e) { throw K(e.what()); }`: a std::exception leaving the
      try block is re-thrown as the enclosing macro's own kind with the same text; anything
      else passes through untouched. */
  function Rewrap(k: Kind, o: Outcome): (r: Outcome)
    ensures r.Ok? <==> o.Ok?
    ensures r.Returned? <==> o.Returned?
    ensures r.Raised? && r.thrown.IsStdException() ==>
              o.Raised? && o.thrown.IsStdException() && IsSignalOf(r.thrown, k)
              && r.thrown.What() == o.thrown.What()
    ensures r.Raised? && !r.thrown.IsStdException() ==> r == o
    ensures o.Raised? && o.thrown.IsStdException() ==> r.Raised? && r.thrown.IsStdException()
  {
    if o.Raised? && o.thrown.IsStdException() then Raised(Raise(k, o.thrown.What())) else o
  }

  /** Nesting: when one rewrapping check sits inside another, the outer macro's kind wins
      and the message survives both. */
  lemma RewrapOutermostDecides(inner: Kind, outer: Kind, o: Outcome)
    ensures Rewrap(outer, Rewrap(inner, o)) == Rewrap(outer, o)
  {
  }

  /** A signal already of the macro's own kind comes out of the catch clause unchanged. */
  lemma RewrapKeepsOwnSignal(k: Kind, t: Thrown)
    requires IsSignalOf(t, k)
    ensures Rewrap(k, Raised(t)) == Raised(t)
  {
  }
}
