# vct-test-unit check macros, in Dafny

This project models the check-and-control-flow layer of the V-Creator unit-test library
(`include/vct/test_unit_macros.hpp`). A check macro evaluates a condition or runs a statement.
It then either falls through or throws one of two signals, built from the source text of its
arguments:

- the `M_ASSERT_*` family throws `AssertException` (modelled as `Fatal`);
- the `M_EXPECT_*` family throws `ExpectException` (modelled as `NonFatal`).

`M_TEST(suite, name)` adds the generated test function to a process-wide registry that maps a
suite name to its list of cases.

Modules:

- `Signals` (signals.dfy): what can be thrown (`Fatal`, `NonFatal`, another `std::exception`
  as `StdError`, anything else as `Foreign`). It defines the `Outcome` of a statement (`Ok`,
  `Returned`, `Raised`), an evaluated argument (`Expr`, `Operand` = source text plus value or
  exception), and `Rewrap`. `Rewrap` is the `catch (const std::exception& e)` clause that
  re-throws under the macro's own kind with the same `what()` text.
- `Checks` (checks.dfy): one pure function per macro family. These are TRUE/FALSE,
  EQ/NE/LT/LE/GT/GE, PRED1/PRED2, STREQ/STRNE/STRCASEEQ/STRCASENE, THROW/ANY_THROW/NO_THROW and
  FAIL. The module also defines the ASCII lower-casing `Lower`. The `Kind` argument selects the
  Assert or Expect variant. The two variants differ in the signal they throw and, for FAIL, in
  the message prefix.
- `Bodies` (bodies.dfy): a test body as a sequence of statements, where check macros may nest.
  `Exec` and `RunSeq` interpret it, and the `Execute` loop runs it statement by statement. The
  module also holds the library's own test bodies from `test/main.cpp`.
- `Registry` (registry.dfy): `Registered`, the registry after one `M_TEST`, and the
  `TestRegistry` class whose `Register` method performs it.

The library has one design point worth stating. Both families are implemented with `throw`. So
the first failing check ends the test body, whichever family it belongs to, even though the
Expect doc-comments say execution continues. `ExpectFailureEndsBody` and `StopIgnoresRest`
prove this.

Assumptions the shown files do not settle:

- `AssertException` and `ExpectException` are taken to derive from `std::exception`, with
  `what()` returning the constructor's text. Their definitions are not part of this model.
  Under this assumption, a signal escaping the argument of a rewrapping check is re-thrown
  under the outer macro's kind.
- When both arguments of a check throw, the left one is taken to win (`Checks.Both`). For the
  STR* checks this is exact: `std::string s1(str1), s2(str2);` constructs `s1` first. For
  EQ..GE and PRED2, C++ leaves the evaluation order of the operands unspecified.

## Model

| member | source | states |
|---|---|---|
| `Signals.Raise` | include/vct/test_unit_macros.hpp:189-242 | the signal thrown by a macro of kind k is a std::exception whose what() is the message; it is Fatal exactly for the Assert family and NonFatal exactly for the Expect family |
| `Signals.Rewrap` | include/vct/test_unit_macros.hpp:194-196 | the catch clause keeps Ok/Returned as they are; every std::exception that escapes comes out as the macro's own kind with the same what() text; a non-std::exception throw passes through unchanged |
| `Signals.RewrapOutermostDecides` | include/vct/test_unit_macros.hpp:224-226 | when rewrapping checks nest, the outermost macro's kind decides the signal and the message survives |
| `Signals.RewrapKeepsOwnSignal` | include/vct/test_unit_macros.hpp:193-195 | the macro's own failure signal passes through its catch clause unchanged |
| `Checks.CheckCondition` | include/vct/test_unit_macros.hpp:189-197 | the shared skeleton: Ok iff the condition evaluates to true; a false condition raises the macro's kind with the message; an exception from the condition is rewrapped; any std::exception raised is of the macro's own kind; it never returns from the body |
| `Checks.Both` | include/vct/test_unit_macros.hpp:260 | two arguments both evaluate iff neither throws; otherwise the first exception, taken from the left argument first, is the result |
| `Checks.BoolCheck` | include/vct/test_unit_macros.hpp:189-242 | TRUE/FALSE pass iff the condition has the wanted value; otherwise they raise the macro's kind with "<cond> return false" or "<cond> return true"; an exception from the condition is rewrapped |
| `Checks.CompareCheck` | include/vct/test_unit_macros.hpp:257-441 | EQ/NE/LT/LE/GT/GE pass iff the relation holds on the values; otherwise they raise the macro's kind with "<lhs> <negated op> <rhs>"; an exception from an argument is rewrapped |
| `Checks.FailSymbolNegates` | include/vct/test_unit_macros.hpp:261-437 | the operator spelled in each failure message (!=, ==, >=, >, <=, <) means exactly the negation of the relation the macro tests |
| `Checks.ComparisonBoundaries` | test/main.cpp:20-67 | for both families LT(1,1), GT(1,1), LE(2,1) and GE(1,2) raise the macro's kind with their messages, and LE(1,1) and GE(1,1) pass |
| `Checks.NestedSignalTakesOuterKind` | include/vct/test_unit_macros.hpp:354-361 | an AssertException escaping an argument of an Expect comparison becomes an ExpectException with the same text, and vice versa |
| `Checks.ForeignPassesThrough` | include/vct/test_unit_macros.hpp:258-264 | a thrown value that is not a std::exception leaves a comparison check unchanged |
| `Checks.Pred1Check` | include/vct/test_unit_macros.hpp:749-790 | PRED1 passes iff pred(arg) returns true; a false result raises the macro's kind with "pred(arg) failed"; an exception from the argument or from the predicate is rewrapped |
| `Checks.Pred2Check` | include/vct/test_unit_macros.hpp:766-807 | PRED2 passes iff pred(arg1, arg2) returns true; a false result raises the macro's kind with "pred(arg1, arg2) failed"; exceptions from either argument or from the predicate are rewrapped |
| `Checks.LowerChar` | include/vct/test_unit_macros.hpp:638 | tolower in the "C" locale: maps 'A'..'Z' to 'a'..'z' (a distance of 32) and leaves every other character unchanged |
| `Checks.Lower` | include/vct/test_unit_macros.hpp:638-639 | the folded copy has the same length and, at every position, the folded character of the original |
| `Checks.StrCheck` | include/vct/test_unit_macros.hpp:600-736 | STREQ/STRNE/STRCASEEQ/STRCASENE pass iff the (case-folded, for the CASE variants) strings are equal or unequal as named; otherwise they raise the macro's kind with the "Expected: ... Actual: ..." message over the unfolded values; argument exceptions are rewrapped |
| `Checks.LowerIdempotent` | include/vct/test_unit_macros.hpp:638-639 | folding a folded string changes nothing |
| `Checks.CaseEqIsEquivalence` | include/vct/test_unit_macros.hpp:634-645 | case-insensitive equality is reflexive, symmetric and transitive; case-sensitive equality implies it; STRCASENE holds exactly when STRCASEEQ does not |
| `Checks.HelloIgnoringCase` | include/vct/test_unit_macros.hpp:600-645 | "Hello" and "hello" pass STRCASEEQ and fail STREQ, for both families |
| `Checks.CaseMessageQuotesOriginal` | include/vct/test_unit_macros.hpp:641 | when the left string has an upper-case letter, the STRCASEEQ failure message differs from one built from its folded copy, because it quotes the string as given |
| `Checks.ThrowCheck` | include/vct/test_unit_macros.hpp:116-175 | THROW passes iff the statement throws something the handler catches; another throw raises "<stmt> exception thrown but not match"; no throw raises "<stmt> no exception thrown"; a return inside the statement leaves the body |
| `Checks.AnyThrowCheck` | include/vct/test_unit_macros.hpp:99-156 | ANY_THROW passes iff the statements throw anything; falling through raises "<stmt> no exception thrown"; a return leaves the body |
| `Checks.NoThrowCheck` | include/vct/test_unit_macros.hpp:85-141 | NO_THROW passes iff the statements fall through; any throw raises "<stmt> thrown exception"; a return leaves the body |
| `Checks.ThrowCheckBetweenAnyAndNever` | include/vct/test_unit_macros.hpp:99-126 | THROW with a catch-everything handler behaves as ANY_THROW; with a catch-nothing handler it never passes |
| `Checks.FailCheck` | include/vct/test_unit_macros.hpp:57-72 | FAIL always raises the macro's own kind, with "Assert fail, msg:" (no space) or "Expect fail, msg: " (trailing space) before the message text |
| `Bodies.Exec` | include/vct/test_unit_macros.hpp:64-65 | condition checks and FAIL never return from the body; M_SUCCEED always does |
| `Bodies.RunSeq` | include/vct/test_unit_macros.hpp:34-44 | how a body runs: its statements in order until the first one that does not fall through; its own contract says only that the outcome is a fall-through or the outcome of one of its statements, and RunSeqFirstStop and RunSeqAppend state the rest |
| `Bodies.RunSeqFirstStop` | include/vct/test_unit_macros.hpp:68-72 | a body falls through iff every statement does; otherwise its outcome is that of its first statement that does not fall through, and all before it fell through |
| `Bodies.RunSeqAppend` | include/vct/test_unit_macros.hpp:55-58 | running two statement lists in a row runs the second only when the first falls through |
| `Bodies.StopIgnoresRest` | include/vct/test_unit_macros.hpp:53-58 | after a statement that does not fall through, whatever follows does not affect the body's outcome |
| `Bodies.ExpectFailureEndsBody` | include/vct/test_unit_macros.hpp:186-197 | a failing Expect check ends the body with its NonFatal signal whatever follows, contrary to the doc-comment |
| `Bodies.SucceedSkipsRest` | include/vct/test_unit_macros.hpp:60-65 | M_SUCCEED ends the body with no signal, skipping the remaining statements |
| `Bodies.FailingCheckIsAThrow` | include/vct/test_unit_macros.hpp:99-107 | a failing condition check inside ANY_THROW makes it pass, and inside NO_THROW makes it raise the outer kind's "thrown exception" |
| `Bodies.Execute` | include/vct/test_unit_macros.hpp:34-44 | runs a body statement by statement, giving RunSeq's outcome and how many statements ran; all but the last that ran fell through; it stops early only at a statement that does not fall through |
| `Bodies.Invoke` | include/vct/test_unit_macros.hpp:40 | calling the test function returns normally iff the body raised nothing (M_SUCCEED included); otherwise the body's exception escapes to the caller |
| `Bodies.ThrowCasePasses` | test/main.cpp:8-48 | the bodies of Expect.Throw and Assert.Throw, nested checks included, fall through |
| `Bodies.PassingComparisons` | test/main.cpp:20-27 | a comparison whose relation holds falls through, for both families |
| `Bodies.FailingComparisons` | test/main.cpp:29-36 | a failing comparison of either family inside M_EXPECT_ANY_THROW falls through |
| `Bodies.EqCasePasses` | test/main.cpp:19-68 | the bodies of Expect.Eq and Assert.Eq fall through |
| `Registry.Registered` | include/vct/test_unit_macros.hpp:34-44 | one M_TEST adds its suite to the keys, appends exactly one case at the end of that suite's list (creating it empty first if absent), and leaves every other suite's list unchanged |
| `Registry.RegisterAll` | include/vct/test_unit_macros.hpp:34-44 | the static registrars of one translation unit, run in declaration order: no suite is lost and every suite keeps its earlier cases as a prefix |
| `Registry.RegisterAllKeepsOrder` | include/vct/test_unit_macros.hpp:38-41 | after any run of registrations each suite holds its earlier cases followed by its newly declared ones, in declaration order (a repeated suite and case name is a compile or link error in the source, since it defines the test function twice) |
| `Registry.RegisterAllSuites` | include/vct/test_unit_macros.hpp:38 | the suites present afterwards are the earlier ones plus every declared one |
| `Registry.LibraryRegistration` | test/main.cpp:8-50 | the four definitions of the test program give suites Expect and Assert, each holding Throw then Eq |
| `Registry.TestRegistry.Register` | include/vct/test_unit_macros.hpp:36-43 | the registrar's push_back: the registry becomes exactly Registered of the old registry |

## Left out

- Floating-point macros (`*_DOUBLE_EQ_DEFAULT`, `*_FLOAT_EQ_DEFAULT`, `*_FLOAT_EQ/NE`): these are float numerics with machine epsilon and `std::to_string` formatting.
- The runner, its reporting, timing and console output, its return code, and `get_test_registry` itself: `test/M_TEST_MAIN.h` is not part of this model. The model stops at the outcome of running one body (`Bodies.RunSeq`, `Bodies.Invoke`).
- `Registry.TestRegistry`: models the registry as a `map`, so it does not record the order in which suites were first seen. The container type behind `get_test_registry` is not part of this model.
- Exception-type matching in THROW: `catch (const E&)` is an abstract predicate on the thrown value (`catches`). The concrete handlers for `std::exception` and `std::runtime_error` cover only what the test program needs.
- Locale-dependent `std::tolower`: `Checks.LowerChar` is the "C"-locale ASCII mapping. Strings are sequences of characters standing for the bytes of `std::string`.
- Checks.Both: evaluates the left argument first. This is exact for STR*, whose `std::string s1(str1), s2(str2);` constructs `s1` first; for EQ..GE and PRED2 the order is unspecified in C++, so when both arguments throw the source may give the right one's exception.
- Argument values are integers for comparisons and predicates, strings for STR* and booleans for TRUE/FALSE. User-defined operators and other value types are not modelled.
- Side effects of evaluating an argument are not modelled: an argument is a value or an exception. STRCASEEQ/STRCASENE evaluate their arguments a second time to build the message; because arguments are side-effect-free here, that second evaluation gives the same strings.
- Macro and preprocessor mechanics are not modelled: `#x` is an opaque source-text string, token pasting is dropped, and registration at static initialisation is an explicit call, in declaration order.
- Control statements other than `return` inside checked statements (a `break` or `continue` that would leave the macro's `do { } while (false)`) are not modelled.
