/** Test-case bodies: statements (plain code and check macros, which may nest) and what
    running a body does. Every failing check is a `throw`, so a body stops at its first
    failing statement whether that check is an Expect or an Assert. */
module Bodies {
  import opened Signals
  import opened Checks

  /** One statement of a test body. */
  datatype Stmt =
    | Plain(text: string, effect: Expr<()>)                   // user code: completes or throws
    | MBool(k: Kind, want: bool, cond: Operand<bool>)          // TRUE (want) / FALSE (!want)
    | MCompare(k: Kind, op: CmpOp, lhs: Operand<int>, rhs: Operand<int>)
    | MStr(k: Kind, sop: StrOp, slhs: Operand<string>, srhs: Operand<string>)
    | MPred1(k: Kind, name: string, pred1: int -> Expr<bool>, arg: Operand<int>)
    | MPred2(k: Kind, name: string, pred2: (int, int) -> Expr<bool>, arg1: Operand<int>, arg2: Operand<int>)
    | MThrow(k: Kind, text: string, stmts: seq<Stmt>, catches: Thrown -> bool)
    | MAnyThrow(k: Kind, text: string, stmts: seq<Stmt>)
    | MNoThrow(k: Kind, text: string, stmts: seq<Stmt>)
    | MFail(k: Kind, msgText: string)
    | MSucceed

  /** Check macros other than the exception checks: they never `return`. */
  predicate IsConditionCheck(s: Stmt) {
    s.MBool? || s.MCompare? || s.MStr? || s.MPred1? || s.MPred2? || s.MFail?
  }

  /** What running one statement does. */
  function Exec(s: Stmt): (o: Outcome)
    ensures IsConditionCheck(s) ==> !o.Returned?
    ensures s.MSucceed? ==> o.Returned?
    decreases s, 1
  {
    match s
    case Plain(_, e) => if e.Throws? then Raised(e.thrown) else Ok
    case MBool(k, want, cond) => BoolCheck(k, want, cond)
    case MCompare(k, op, lhs, rhs) => CompareCheck(k, op, lhs, rhs)
    case MStr(k, op, lhs, rhs) => StrCheck(k, op, lhs, rhs)
    case MPred1(k, name, pred, arg) => Pred1Check(k, name, pred, arg)
    case MPred2(k, name, pred, arg1, arg2) => Pred2Check(k, name, pred, arg1, arg2)
    case MThrow(k, text, stmts, catches) => ThrowCheck(k, text, RunSeq(stmts), catches)
    case MAnyThrow(k, text, stmts) => AnyThrowCheck(k, text, RunSeq(stmts))
    case MNoThrow(k, text, stmts) => NoThrowCheck(k, text, RunSeq(stmts))
    case MFail(k, msgText) => FailCheck(k, msgText)
    case MSucceed => Returned
  }

  /** What running a sequence of statements does: each runs while the ones before fell through.
      The outcome is a fall-through or the outcome of one of the statements. */
  function RunSeq(ss: seq<Stmt>): (o: Outcome)
    ensures o.Ok? || exists i :: 0 <= i < |ss| && o == Exec(ss[i])
    decreases ss, 0
  {
    if ss == [] then Ok
    else
      var o := Exec(ss[0]);
      if o.Ok? then RunSeq(ss[1..]) else o
  }

  /** The body stops at its first statement that does not fall through, and gives what
      that statement did; it falls through exactly when every statement does. */
  lemma {:induction false} RunSeqFirstStop(ss: seq<Stmt>)
    ensures RunSeq(ss).Ok? <==> forall i :: 0 <= i < |ss| ==> Exec(ss[i]).Ok?
    ensures !RunSeq(ss).Ok? ==>
              exists n :: 0 <= n < |ss| && RunSeq(ss) == Exec(ss[n]) &&
                          forall i :: 0 <= i < n ==> Exec(ss[i]).Ok?
    decreases |ss|
  {
    if ss != [] {
      RunSeqFirstStop(ss[1..]);
      if Exec(ss[0]).Ok? {
        assert forall i :: 1 <= i < |ss| ==> ss[i] == ss[1..][i - 1];
        if !RunSeq(ss).Ok? {
          var n :| 0 <= n < |ss[1..]| && RunSeq(ss[1..]) == Exec(ss[1..][n]) &&
                   forall i :: 0 <= i < n ==> Exec(ss[1..][i]).Ok?;
          assert RunSeq(ss) == Exec(ss[n + 1]);
        }
      } else {
        assert RunSeq(ss) == Exec(ss[0]);
      }
    }
  }

  /** Running `a + b` runs `b` only when `a` falls through. */
  lemma {:induction false} RunSeqAppend(a: seq<Stmt>, b: seq<Stmt>)
    ensures RunSeq(a + b) == if RunSeq(a).Ok? then RunSeq(b) else RunSeq(a)
    decreases |a|
  {
    if a == [] {
      assert a + b == b;
    } else {
      assert (a + b)[0] == a[0];
      assert (a + b)[1..] == a[1..] + b;
      RunSeqAppend(a[1..], b);
    }
  }

  /** Nothing after a statement that stops the body matters: the statements that follow
      a failing check, Expect or Assert alike, never run. */
  lemma StopIgnoresRest(before: seq<Stmt>, s: Stmt, rest1: seq<Stmt>, rest2: seq<Stmt>)
    requires RunSeq(before).Ok?
    requires !Exec(s).Ok?
    ensures RunSeq(before + [s] + rest1) == Exec(s)
    ensures RunSeq(before + [s] + rest2) == Exec(s)
  {
    RunSeqAppend(before + [s], rest1);
    RunSeqAppend(before + [s], rest2);
    RunSeqAppend(before, [s]);
    assert RunSeq([s]) == Exec(s);
  }

  /** The case the doc-comments get wrong: a failing Expect check ends the body. */
  lemma ExpectFailureEndsBody(before: seq<Stmt>, s: Stmt, m: string, rest: seq<Stmt>)
    requires RunSeq(before).Ok?
    requires Exec(s) == Raised(NonFatal(m))
    ensures RunSeq(before + [s] + rest) == Raised(NonFatal(m))
  {
    StopIgnoresRest(before, s, rest, rest);
  }

  /** M_SUCCEED leaves the body at once, with no signal. */
  lemma SucceedSkipsRest(before: seq<Stmt>, rest: seq<Stmt>)
    requires RunSeq(before).Ok?
    ensures RunSeq(before + [MSucceed] + rest) == Returned
  {
    StopIgnoresRest(before, MSucceed, rest, rest);
  }

  /** A failing check is itself a throw, so ANY_THROW around it passes and NO_THROW around
      it fails, for either kind of the outer and the inner macro. */
  lemma FailingCheckIsAThrow(outer: Kind, text: string, s: Stmt)
    requires IsConditionCheck(s) && !Exec(s).Ok?
    ensures Exec(MAnyThrow(outer, text, [s])) == Ok
    ensures Exec(MNoThrow(outer, text, [s])) == Raised(Raise(outer, text + " thrown exception"))
  {
  }

  /** A statement sequence runs one statement at a time until one does not fall through;
      `executed` is how many statements ran. */
  method Execute(body: seq<Stmt>) returns (o: Outcome, executed: nat)
    ensures o == RunSeq(body)
    ensures executed <= |body|
    ensures forall i :: 0 <= i < executed - 1 ==> Exec(body[i]).Ok?
    ensures o.Ok? ==> executed == |body|
    ensures !o.Ok? ==> 0 < executed && o == Exec(body[executed - 1])
  {
    o, executed := Ok, 0;
    while executed < |body| && o.Ok?
      invariant executed <= |body|
      invariant forall i :: 0 <= i < executed - 1 ==> Exec(body[i]).Ok?
      invariant o.Ok? ==> RunSeq(body) == RunSeq(body[executed..])
      invariant o.Ok? ==> forall i :: 0 <= i < executed ==> Exec(body[i]).Ok?
      invariant !o.Ok? ==> 0 < executed && o == Exec(body[executed - 1]) && o == RunSeq(body)
    {
      o := Exec(body[executed]);
      executed := executed + 1;
    }
    if o.Ok? {
      assert body[executed..] == [];
    }
  }

  /** Calling the registered test function: `return` (M_SUCCEED) ends the call normally,
      an exception escapes to the caller. */
  function Invoke(body: seq<Stmt>): (r: Expr<()>)
    ensures r.Value? <==> !RunSeq(body).Raised?
    ensures r.Throws? ==> RunSeq(body) == Raised(r.thrown)
  {
    match RunSeq(body)
    case Raised(t) => Throws(t)
    case _ => Value(())
  }

  // ---------------------------------------------------------------------------------------
  // The library's own test cases, as bodies.

  /** `catch (const std::exception&)`: the library's signals are std::exceptions too. */
  function CatchStdException(t: Thrown): bool {
    t.IsStdException()
  }

  /** `catch (const std::runtime_error&)`. */
  function CatchRuntimeError(t: Thrown): bool {
    t.StdError? && t.tag == "std::runtime_error"
  }

  /** `throw std::exception()`. */
  function ThrowStd(): Stmt {
    Plain("throw std::exception()", Throws(StdError("std::exception", "std::exception")))
  }

  /** `1+1`, which completes. */
  function OnePlusOne(text: string): Stmt {
    Plain(text, Value(()))
  }

  function Int(n: int): Operand<int> {
    Lit(n, if n == 1 then "1" else "2")
  }

  function Cmp(k: Kind, op: CmpOp, a: int, b: int): Stmt {
    MCompare(k, op, Int(a), Int(b))
  }

  /** The macro-name prefix of a family. */
  function Family(k: Kind): string {
    match k
    case Assert => "M_ASSERT_"
    case Expect => "M_EXPECT_"
  }

  function OpName(op: CmpOp): string {
    match op
    case EQ => "EQ"
    case NE => "NE"
    case LT => "LT"
    case LE => "LE"
    case GT => "GT"
    case GE => "GE"
  }

  /** The source text of a comparison macro call, as `#__VA_ARGS__` of an enclosing macro gives it. */
  function CmpText(k: Kind, op: CmpOp, a: int, b: int): string {
    Family(k) + OpName(op) + "(" + Int(a).text + ", " + Int(b).text + ")"
  }

  /** `M_EXPECT_ANY_THROW( s )` around a comparison, with the comparison's text. */
  function AnyThrowCmp(k: Kind, op: CmpOp, a: int, b: int): Stmt {
    MAnyThrow(Expect, CmpText(k, op, a, b), [Cmp(k, op, a, b)])
  }

  /** Tests Expect.Throw (k == Expect) and Assert.Throw (k == Assert); the nested checks
      are wrapped in M_EXPECT_ANY_THROW in both. */
  function ThrowCase(k: Kind): seq<Stmt> {
    [ MThrow(k, "throw std::exception()", [ThrowStd()], CatchStdException),
      MNoThrow(k, "1+1", [OnePlusOne("1+1")]),
      MAnyThrow(k, "throw std::exception()", [ThrowStd()]),
      MAnyThrow(Expect, Family(k) + "THROW(1+1, std::exception)",
                [MThrow(k, "1+1", [OnePlusOne("1+1")], CatchStdException)]),
      MAnyThrow(Expect, Family(k) + "THROW( throw std::exception(), std::runtime_error )",
                [MThrow(k, "throw std::exception()", [ThrowStd()], CatchRuntimeError)]),
      MAnyThrow(Expect, Family(k) + "NO_THROW( throw std::exception() )",
                [MNoThrow(k, "throw std::exception()", [ThrowStd()])]),
      MAnyThrow(Expect, Family(k) + "ANY_THROW( 1 + 1 )",
                [MAnyThrow(k, "1 + 1", [OnePlusOne("1 + 1")])]) ]
  }

  /** Tests Expect.Eq and Assert.Eq. */
  function EqCase(k: Kind): seq<Stmt> {
    [ Cmp(k, EQ, 1, 1), Cmp(k, NE, 1, 2), Cmp(k, LT, 1, 2), Cmp(k, LE, 1, 2),
      Cmp(k, LE, 1, 1), Cmp(k, GT, 2, 1), Cmp(k, GE, 2, 1), Cmp(k, GE, 1, 1),
      AnyThrowCmp(k, EQ, 1, 2), AnyThrowCmp(k, NE, 1, 1),
      AnyThrowCmp(k, LT, 2, 1), AnyThrowCmp(k, LT, 1, 1),
      AnyThrowCmp(k, LE, 2, 1), AnyThrowCmp(k, GT, 1, 2),
      AnyThrowCmp(k, GT, 1, 1), AnyThrowCmp(k, GE, 1, 2) ]
  }

  /** Every statement of Expect.Throw and Assert.Throw falls through, so each body does. */
  lemma ThrowCasePasses(k: Kind)
    ensures RunSeq(ThrowCase(k)) == Ok
  {
    var t := ThrowCase(k);
    forall i | 0 <= i < |t| ensures Exec(t[i]).Ok? {
      if i < 3 {
        assert RunSeq(t[i].stmts) == Exec(t[i].stmts[0]);
      } else {
        var inner := t[i].stmts[0];
        assert inner.k == k;
        assert RunSeq(inner.stmts) == Exec(inner.stmts[0]);
        assert !Exec(inner).Ok?;
        assert RunSeq(t[i].stmts) == Exec(inner);
      }
    }
    RunSeqFirstStop(t);
  }

  /** The comparisons of Expect.Eq and Assert.Eq that pass. */
  lemma PassingComparisons(k: Kind, op: CmpOp, a: int, b: int)
    requires Holds(op, a, b)
    ensures Exec(Cmp(k, op, a, b)).Ok?
  {
  }

  /** The comparisons that fail, wrapped in M_EXPECT_ANY_THROW. */
  lemma FailingComparisons(k: Kind, op: CmpOp, a: int, b: int)
    requires !Holds(op, a, b)
    ensures Exec(AnyThrowCmp(k, op, a, b)).Ok?
  {
    FailingCheckIsAThrow(Expect, CmpText(k, op, a, b), Cmp(k, op, a, b));
  }

  /** Every statement of Expect.Eq and Assert.Eq falls through, so each body does. */
  lemma EqCasePasses(k: Kind)
    ensures RunSeq(EqCase(k)) == Ok
  {
    var e := EqCase(k);
    forall i | 0 <= i < |e| ensures Exec(e[i]).Ok? {
      if i < 8 {
        PassingComparisons(k, e[i].op, e[i].lhs.eval.v, e[i].rhs.eval.v);
      } else {
        var c := e[i].stmts[0];
        FailingComparisons(k, c.op, c.lhs.eval.v, c.rhs.eval.v);
      }
    }
    RunSeqFirstStop(e);
  }
}
