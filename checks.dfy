/** One pure function per family of check macros. Each takes the evaluated macro arguments
    (or, for the exception checks, what running the checked statement did) and gives the
    macro's Outcome: Ok when the check passes, otherwise a Raised signal of the macro's kind. */
module Checks {
  import opened Signals

  /** The skeleton shared by TRUE/FALSE, the comparisons, the string checks and the predicate
      checks: `do { try { if (cond) break; else throw K(msg); } catch (const std::exception& e)
      { throw K(e.what()); } } while (false)`. */
  function CheckCondition(k: Kind, cond: Expr<bool>, msg: string): (r: Outcome)
    ensures !r.Returned?
    ensures r.Ok? <==> cond == Value(true)
    ensures cond == Value(false) ==> r == Raised(Raise(k, msg))
    ensures cond.Throws? ==> r == Rewrap(k, Raised(cond.thrown))
    ensures r.Raised? && r.thrown.IsStdException() ==> IsSignalOf(r.thrown, k)
  {
    Rewrap(k, match cond
              case Throws(t) => Raised(t)
              case Value(b) => if b then Ok else Raised(Raise(k, msg)))
  }

  /** Evaluates two macro arguments, the left one first; the first exception wins. */
  function Both<A, B>(x: Expr<A>, y: Expr<B>): (r: Expr<(A, B)>)
    ensures r.Value? <==> x.Value? && y.Value?
    ensures r.Value? ==> r.v == (x.v, y.v)
    ensures x.Throws? ==> r == Throws(x.thrown)
    ensures x.Value? && y.Throws? ==> r == Throws(y.thrown)
  {
    match x
    case Throws(t) => Throws(t)
    case Value(a) =>
      match y
      case Throws(t) => Throws(t)
      case Value(b) => Value((a, b))
  }

  // ---------------------------------------------------------------------------------------
  // M_EXPECT_TRUE / M_EXPECT_FALSE / M_ASSERT_TRUE / M_ASSERT_FALSE

  /** What the failure message says the condition returned. */
  function BoolSuffix(want: bool): string {
    if want then " return false" else " return true"
  }

  /** TRUE (`want == true`) or FALSE (`want == false`) check of kind `k`. */
  function BoolCheck(k: Kind, want: bool, cond: Operand<bool>): (r: Outcome)
    ensures !r.Returned?
    ensures cond.eval.Value? ==>
              (r.Ok? <==> cond.eval.v == want) &&
              (!r.Ok? ==> r == Raised(Raise(k, cond.text + BoolSuffix(want))))
    ensures cond.eval.Throws? ==> r == Rewrap(k, Raised(cond.eval.thrown))
  {
    var test := match cond.eval
                case Throws(t) => Throws(t)
                case Value(c) => Value(c == want);
    CheckCondition(k, test, cond.text + BoolSuffix(want))
  }

  // ---------------------------------------------------------------------------------------
  // M_{EXPECT,ASSERT}_{EQ,NE,LT,LE,GT,GE}

  datatype CmpOp = EQ | NE | LT | LE | GT | GE

  /** The operator the macro applies to its two arguments. */
  function Holds(op: CmpOp, a: int, b: int): bool {
    match op
    case EQ => a == b
    case NE => a != b
    case LT => a < b
    case LE => a <= b
    case GT => a > b
    case GE => a >= b
  }

  /** The operator spelled between the two argument texts in the failure message. */
  function FailSymbol(op: CmpOp): string {
    match op
    case EQ => "!="
    case NE => "=="
    case LT => ">="
    case LE => ">"
    case GT => "<="
    case GE => "<"
  }

  /** The meaning of a spelled C++ comparison operator; an unknown spelling relates nothing. */
  function Relation(symbol: string, a: int, b: int): bool {
    if symbol == "==" then a == b
    else if symbol == "!=" then a != b
    else if symbol == "<" then a < b
    else if symbol == "<=" then a <= b
    else if symbol == ">" then a > b
    else if symbol == ">=" then a >= b
    else false
  }

  function CompareMessage(op: CmpOp, lhsText: string, rhsText: string): string {
    lhsText + " " + FailSymbol(op) + " " + rhsText
  }

  function CompareCheck(k: Kind, op: CmpOp, lhs: Operand<int>, rhs: Operand<int>): (r: Outcome)
    ensures !r.Returned?
    ensures lhs.eval.Value? && rhs.eval.Value? ==>
              (r.Ok? <==> Holds(op, lhs.eval.v, rhs.eval.v)) &&
              (!r.Ok? ==> r == Raised(Raise(k, CompareMessage(op, lhs.text, rhs.text))))
    ensures lhs.eval.Throws? ==> r == Rewrap(k, Raised(lhs.eval.thrown))
    ensures lhs.eval.Value? && rhs.eval.Throws? ==> r == Rewrap(k, Raised(rhs.eval.thrown))
  {
    var test := match Both(lhs.eval, rhs.eval)
                case Throws(t) => Throws(t)
                case Value(p) => Value(Holds(op, p.0, p.1));
    CheckCondition(k, test, CompareMessage(op, lhs.text, rhs.text))
  }

  /** The failure message names exactly the negation of the relation the macro tests. */
  lemma FailSymbolNegates(op: CmpOp, a: int, b: int)
    ensures Relation(FailSymbol(op), a, b) <==> !Holds(op, a, b)
  {
  }

  function Lit(n: int, text: string): Operand<int> {
    Operand(text, Value(n))
  }

  /** The boundary cases the library's own tests pin down, for both families. */
  lemma ComparisonBoundaries(k: Kind)
    ensures CompareCheck(k, LT, Lit(1, "1"), Lit(1, "1")) == Raised(Raise(k, "1 >= 1"))
    ensures CompareCheck(k, GT, Lit(1, "1"), Lit(1, "1")) == Raised(Raise(k, "1 <= 1"))
    ensures CompareCheck(k, LE, Lit(2, "2"), Lit(1, "1")) == Raised(Raise(k, "2 > 1"))
    ensures CompareCheck(k, GE, Lit(1, "1"), Lit(2, "2")) == Raised(Raise(k, "1 < 2"))
    ensures CompareCheck(k, LE, Lit(1, "1"), Lit(1, "1")) == Ok
    ensures CompareCheck(k, GE, Lit(1, "1"), Lit(1, "1")) == Ok
  {
  }

  /** An AssertException escaping the argument of an Expect comparison becomes an
      ExpectException with the same text (and the other way round). */
  lemma NestedSignalTakesOuterKind(op: CmpOp, text: string, m: string, rhs: Operand<int>)
    ensures CompareCheck(Expect, op, Operand(text, Throws(Fatal(m))), rhs) == Raised(NonFatal(m))
    ensures CompareCheck(Assert, op, Operand(text, Throws(NonFatal(m))), rhs) == Raised(Fatal(m))
  {
  }

  /** A thrown value that is not a std::exception is not caught by the check: it leaves
      the macro unchanged. */
  lemma ForeignPassesThrough(k: Kind, op: CmpOp, tag: string, text: string, rhs: Operand<int>)
    ensures CompareCheck(k, op, Operand(text, Throws(Foreign(tag))), rhs) == Raised(Foreign(tag))
  {
  }

  // ---------------------------------------------------------------------------------------
  // M_{EXPECT,ASSERT}_PRED1 / PRED2

  /** Evaluates the argument, then calls the predicate, which may itself throw. */
  function Call1(pred: int -> Expr<bool>, arg: Expr<int>): Expr<bool> {
    match arg
    case Throws(t) => Throws(t)
    case Value(a) => pred(a)
  }

  function Call2(pred: (int, int) -> Expr<bool>, arg1: Expr<int>, arg2: Expr<int>): Expr<bool> {
    match Both(arg1, arg2)
    case Throws(t) => Throws(t)
    case Value(p) => pred(p.0, p.1)
  }

  function Pred1Check(k: Kind, name: string, pred: int -> Expr<bool>, arg: Operand<int>): (r: Outcome)
    ensures !r.Returned?
    ensures arg.eval.Value? && pred(arg.eval.v).Value? ==>
              (r.Ok? <==> pred(arg.eval.v).v) &&
              (!r.Ok? ==> r == Raised(Raise(k, name + "(" + arg.text + ") failed")))
    ensures arg.eval.Value? && pred(arg.eval.v).Throws? ==>
              r == Rewrap(k, Raised(pred(arg.eval.v).thrown))
    ensures arg.eval.Throws? ==> r == Rewrap(k, Raised(arg.eval.thrown))
  {
    CheckCondition(k, Call1(pred, arg.eval), name + "(" + arg.text + ") failed")
  }

  function Pred2Check(k: Kind, name: string, pred: (int, int) -> Expr<bool>,
                      arg1: Operand<int>, arg2: Operand<int>): (r: Outcome)
    ensures !r.Returned?
    ensures arg1.eval.Value? && arg2.eval.Value? && pred(arg1.eval.v, arg2.eval.v).Value? ==>
              (r.Ok? <==> pred(arg1.eval.v, arg2.eval.v).v) &&
              (!r.Ok? ==> r == Raised(Raise(k, name + "(" + arg1.text + ", " + arg2.text + ") failed")))
    ensures arg1.eval.Value? && arg2.eval.Value? && pred(arg1.eval.v, arg2.eval.v).Throws? ==>
              r == Rewrap(k, Raised(pred(arg1.eval.v, arg2.eval.v).thrown))
    ensures arg1.eval.Throws? ==> r == Rewrap(k, Raised(arg1.eval.thrown))
    ensures arg1.eval.Value? && arg2.eval.Throws? ==> r == Rewrap(k, Raised(arg2.eval.thrown))
  {
    CheckCondition(k, Call2(pred, arg1.eval, arg2.eval),
                   name + "(" + arg1.text + ", " + arg2.text + ") failed")
  }

  // ---------------------------------------------------------------------------------------
  // M_{EXPECT,ASSERT}_{STREQ,STRNE,STRCASEEQ,STRCASENE}

  /** `std::tolower` in the "C" locale: only 'A'..'Z' change. */
  function LowerChar(c: char): (d: char)
    ensures 'A' <= c <= 'Z' ==> 'a' <= d <= 'z' && d as int - c as int == 32
    ensures !('A' <= c <= 'Z') ==> d == c
  {
    if 'A' <= c <= 'Z' then (c as int + 32) as char else c
  }

  /** The lower-cased copy `std::transform` builds, character by character. */
  function Lower(s: string): (r: string)
    ensures |r| == |s|
    ensures forall i :: 0 <= i < |s| ==> r[i] == LowerChar(s[i])
  {
    if s == [] then [] else [LowerChar(s[0])] + Lower(s[1..])
  }

  datatype StrOp = StrEq | StrNe | StrCaseEq | StrCaseNe

  function StrHolds(op: StrOp, a: string, b: string): bool {
    match op
    case StrEq => a == b
    case StrNe => a != b
    case StrCaseEq => Lower(a) == Lower(b)
    case StrCaseNe => Lower(a) != Lower(b)
  }

  /** The failure message; the case-insensitive variants quote the arguments as given,
      not their lower-cased copies. */
  function StrMessage(op: StrOp, lhsText: string, rhsText: string, a: string, b: string): string {
    match op
    case StrEq =>
      "Expected: " + lhsText + " == " + rhsText + "\nActual: \"" + a + "\" vs \"" + b + "\""
    case StrNe =>
      "Expected: " + lhsText + " != " + rhsText + "\nActual: both are \"" + a + "\""
    case StrCaseEq =>
      "Expected: " + lhsText + " == " + rhsText + " (ignoring case)\nActual: \"" + a + "\" vs \"" + b + "\""
    case StrCaseNe =>
      "Expected: " + lhsText + " != " + rhsText + " (ignoring case)\nActual: both are \"" + a + "\""
  }

  function StrCheck(k: Kind, op: StrOp, lhs: Operand<string>, rhs: Operand<string>): (r: Outcome)
    ensures !r.Returned?
    ensures lhs.eval.Value? && rhs.eval.Value? ==>
              (r.Ok? <==> StrHolds(op, lhs.eval.v, rhs.eval.v)) &&
              (!r.Ok? ==> r == Raised(Raise(k, StrMessage(op, lhs.text, rhs.text, lhs.eval.v, rhs.eval.v))))
    ensures lhs.eval.Throws? ==> r == Rewrap(k, Raised(lhs.eval.thrown))
    ensures lhs.eval.Value? && rhs.eval.Throws? ==> r == Rewrap(k, Raised(rhs.eval.thrown))
  {
    match Both(lhs.eval, rhs.eval)
    case Throws(t) => Rewrap(k, Raised(t))
    case Value(p) =>
      CheckCondition(k, Value(StrHolds(op, p.0, p.1)), StrMessage(op, lhs.text, rhs.text, p.0, p.1))
  }

  /** Folding twice is folding once. */
  lemma LowerIdempotent(s: string)
    ensures Lower(Lower(s)) == Lower(s)
  {
  }

  /** Case-insensitive equality is an equivalence that case-sensitive equality implies. */
  lemma CaseEqIsEquivalence(a: string, b: string, c: string)
    ensures StrHolds(StrCaseEq, a, a)
    ensures StrHolds(StrCaseEq, a, b) <==> StrHolds(StrCaseEq, b, a)
    ensures StrHolds(StrCaseEq, a, b) && StrHolds(StrCaseEq, b, c) ==> StrHolds(StrCaseEq, a, c)
    ensures StrHolds(StrEq, a, b) ==> StrHolds(StrCaseEq, a, b)
    ensures StrHolds(StrCaseNe, a, b) <==> !StrHolds(StrCaseEq, a, b)
  {
  }

  /** "Hello" and "hello" are equal ignoring case and different otherwise. */
  lemma HelloIgnoringCase(k: Kind)
    ensures StrCheck(k, StrCaseEq, Operand("a", Value("Hello")), Operand("b", Value("hello"))) == Ok
    ensures StrCheck(k, StrEq, Operand("a", Value("Hello")), Operand("b", Value("hello"))).Raised?
  {
  }

  /** When the left argument has an upper-case letter, the case-insensitive failure message
      differs from the one built from the folded copy: it quotes the argument as given. */
  lemma CaseMessageQuotesOriginal(lhsText: string, rhsText: string, a: string, b: string)
    requires Lower(a) != a
    ensures StrMessage(StrCaseEq, lhsText, rhsText, a, b) != StrMessage(StrCaseEq, lhsText, rhsText, Lower(a), b)
  {
    var i :| 0 <= i < |a| && Lower(a)[i] != a[i];
    var head := "Expected: " + lhsText + " == " + rhsText + " (ignoring case)\nActual: \"";
    var tail := "\" vs \"" + b + "\"";
    assert StrMessage(StrCaseEq, lhsText, rhsText, a, b) == head + a + tail;
    assert StrMessage(StrCaseEq, lhsText, rhsText, Lower(a), b) == head + Lower(a) + tail;
    assert (head + a + tail)[|head| + i] == a[i];
    assert (head + Lower(a) + tail)[|head| + i] == Lower(a)[i];
  }

  // ---------------------------------------------------------------------------------------
  // M_{EXPECT,ASSERT}_{THROW,ANY_THROW,NO_THROW}: these take what running the statement did.
  // They have no std::exception catch of their own; a `return` inside the statement leaves
  // the test function before the macro can say anything.

  /** THROW(statement, E); `catches` is `catch (const E&)`. */
  function ThrowCheck(k: Kind, text: string, inner: Outcome, catches: Thrown -> bool): (r: Outcome)
    ensures r.Ok? <==> inner.Raised? && catches(inner.thrown)
    ensures r.Returned? <==> inner.Returned?
    ensures inner.Raised? && !catches(inner.thrown) ==>
              r == Raised(Raise(k, text + " exception thrown but not match"))
    ensures inner.Ok? ==> r == Raised(Raise(k, text + " no exception thrown"))
  {
    match inner
    case Returned => Returned
    case Ok => Raised(Raise(k, text + " no exception thrown"))
    case Raised(t) =>
      if catches(t) then Ok else Raised(Raise(k, text + " exception thrown but not match"))
  }

  /** ANY_THROW(statements...). */
  function AnyThrowCheck(k: Kind, text: string, inner: Outcome): (r: Outcome)
    ensures r.Ok? <==> inner.Raised?
    ensures r.Returned? <==> inner.Returned?
    ensures inner.Ok? ==> r == Raised(Raise(k, text + " no exception thrown"))
  {
    match inner
    case Returned => Returned
    case Ok => Raised(Raise(k, text + " no exception thrown"))
    case Raised(_) => Ok
  }

  /** NO_THROW(statements...). */
  function NoThrowCheck(k: Kind, text: string, inner: Outcome): (r: Outcome)
    ensures r.Ok? <==> inner.Ok?
    ensures r.Returned? <==> inner.Returned?
    ensures inner.Raised? ==> r == Raised(Raise(k, text + " thrown exception"))
  {
    match inner
    case Returned => Returned
    case Ok => Ok
    case Raised(_) => Raised(Raise(k, text + " thrown exception"))
  }

  /** THROW with a handler that catches everything is ANY_THROW; with one that catches
      nothing it never passes. */
  lemma ThrowCheckBetweenAnyAndNever(k: Kind, text: string, inner: Outcome)
    ensures ThrowCheck(k, text, inner, _ => true) == AnyThrowCheck(k, text, inner)
    ensures !ThrowCheck(k, text, inner, _ => false).Ok?
  {
  }

  // ---------------------------------------------------------------------------------------
  // M_ASSERT_FAIL / M_EXPECT_FAIL (M_SUCCEED is a plain `return`, see Bodies.Exec)

  function FailPrefix(k: Kind): string {
    match k
    case Assert => "Assert fail, msg:"
    case Expect => "Expect fail, msg: "
  }

  function FailCheck(k: Kind, msgText: string): (r: Outcome)
    ensures r.Raised? && IsSignalOf(r.thrown, k)
    ensures r.thrown.What() == FailPrefix(k) + msgText
  {
    Raised(Raise(k, FailPrefix(k) + msgText))
  }
}
