/** The test registry M_TEST fills: suite name to the suite's cases in declaration order. */
module Registry {
  import opened Signals
  import opened Bodies

  /** One registered test: its name and its body (the generated test function). */
  datatype Case = Case(name: string, body: seq<Stmt>)

  /** `registry[suite]`: the suite's list, or the empty list `operator[]` would create. */
  function Cases(reg: map<string, seq<Case>>, suite: string): seq<Case> {
    if suite in reg then reg[suite] else []
  }

  /** The registry after one M_TEST(suite, name): the case is added at the end of its suite,
      the suite is created if absent, and nothing else changes. */
  function Registered(reg: map<string, seq<Case>>, suite: string, c: Case): (r: map<string, seq<Case>>)
    ensures r.Keys == reg.Keys + {suite}
    ensures Cases(r, suite) == Cases(reg, suite) + [c]
    ensures forall s :: s in reg && s != suite ==> r[s] == reg[s]
  {
    reg[suite := Cases(reg, suite) + [c]]
  }

  /** One M_TEST definition: which suite, which case. */
  datatype Decl = Decl(suite: string, c: Case)

  /** The registrations of a translation unit, run in declaration order: no suite is lost
      and every suite keeps its earlier cases as a prefix. */
  function RegisterAll(reg: map<string, seq<Case>>, decls: seq<Decl>): (r: map<string, seq<Case>>)
    ensures reg.Keys <= r.Keys
    ensures forall s :: s in reg ==> |reg[s]| <= |r[s]| && r[s][..|reg[s]|] == reg[s]
    decreases |decls|
  {
    if decls == [] then reg
    else RegisterAll(Registered(reg, decls[0].suite, decls[0].c), decls[1..])
  }

  /** The cases declared for `suite`, in declaration order. */
  function CasesOf(decls: seq<Decl>, suite: string): seq<Case>
    decreases |decls|
  {
    if decls == [] then []
    else (if decls[0].suite == suite then [decls[0].c] else []) + CasesOf(decls[1..], suite)
  }

  /** After any run of registrations each suite holds what it held before followed by its
      newly declared cases, in declaration order; duplicates are all kept. */
  lemma {:induction false} RegisterAllKeepsOrder(reg: map<string, seq<Case>>, decls: seq<Decl>, suite: string)
    ensures Cases(RegisterAll(reg, decls), suite) == Cases(reg, suite) + CasesOf(decls, suite)
    decreases |decls|
  {
    if decls != [] {
      var next := Registered(reg, decls[0].suite, decls[0].c);
      RegisterAllKeepsOrder(next, decls[1..], suite);
      if decls[0].suite == suite {
        assert Cases(next, suite) == Cases(reg, suite) + [decls[0].c];
      } else {
        assert Cases(next, suite) == Cases(reg, suite);
      }
    }
  }

  /** The suites present afterwards are the earlier ones and every declared one. */
  lemma {:induction false} RegisterAllSuites(reg: map<string, seq<Case>>, decls: seq<Decl>)
    ensures RegisterAll(reg, decls).Keys == reg.Keys + set d | d in decls :: d.suite
    decreases |decls|
  {
    if decls != [] {
      var next := Registered(reg, decls[0].suite, decls[0].c);
      RegisterAllSuites(next, decls[1..]);
      assert forall d :: d in decls <==> d == decls[0] || d in decls[1..];
    }
  }

  /** The four M_TEST definitions of the library's own test program, in file order. */
  function LibraryDecls(): seq<Decl> {
    [ Decl("Expect", Case("Throw", ThrowCase(Expect))),
      Decl("Expect", Case("Eq", EqCase(Expect))),
      Decl("Assert", Case("Throw", ThrowCase(Assert))),
      Decl("Assert", Case("Eq", EqCase(Assert))) ]
  }

  /** Registering them from an empty registry gives two suites of two cases each, Throw first. */
  lemma LibraryRegistration()
    ensures RegisterAll(map[], LibraryDecls()).Keys == {"Expect", "Assert"}
    ensures Cases(RegisterAll(map[], LibraryDecls()), "Expect")
            == [Case("Throw", ThrowCase(Expect)), Case("Eq", EqCase(Expect))]
    ensures Cases(RegisterAll(map[], LibraryDecls()), "Assert")
            == [Case("Throw", ThrowCase(Assert)), Case("Eq", EqCase(Assert))]
  {
  }

  /** The process-wide registry `get_test_registry()` returns. */
  class TestRegistry {
    var suites: map<string, seq<Case>>

    constructor ()
      ensures suites == map[]
    {
      suites := map[];
    }

    /** What the static registrar object of M_TEST(suite, name) does when constructed. */
    method Register(suite: string, name: string, body: seq<Stmt>)
      modifies this
      ensures suites == Registered(old(suites), suite, Case(name, body))
    {
      var list := if suite in suites then suites[suite] else [];
      suites := suites[suite := list + [Case(name, body)]];
    }
  }
}
