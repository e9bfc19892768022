/** A small grammar with an empty rule, a fallback token, the wildcard, parked reductions and one unit rule
    that is optimised out.  Its plain and its optimised tables, packed by hand, meet every condition
    asked of tables in this project, so the theorems about tables are not empty. */
module LrExample {
  import opened Wrappers
  import opened LrTables
  import opened Grammars
  import opened LrMachine
  import opened LrUnitRules

  // Terminals: 0 end of input, 1 SEMI, 2 EXPLAIN (falls back to ID), 3 ID, ..., 96 ANY.
  const INPUT := 97
  const CMDLIST := 98
  const ECMD := 99
  const OPT := 100

  const RULES := [
    RuleInfo(INPUT, 1),   // 0: input ::= cmdlist
    RuleInfo(CMDLIST, 2), // 1: cmdlist ::= cmdlist ecmd
    RuleInfo(CMDLIST, 1), // 2: cmdlist ::= ecmd
    RuleInfo(ECMD, 2),    // 3: ecmd ::= opt SEMI
    RuleInfo(OPT, 0),     // 4: opt ::=
    RuleInfo(OPT, 2)]     // 5: opt ::= ID ANY

  const GRAMMAR := Grammar(
    [[{CMDLIST}], [{CMDLIST}, {ECMD}], [{ECMD}], [{OPT}, {1}], [], [{3}, {YYWILDCARD}]],
    INPUT, 97, {2})

  /** The plain and the optimised tables differ in one goto entry: state 0 on `ecmd`. */
  function ExampleTables(optimised: bool): Tables {
    Tables(
      [3, 1004, 677, 675, 3, YY_ACCEPT_ACTION, 1, if optimised then 1 else 674, 2, 673, 2],
      [3, 0, 96, 1, 3, INPUT, CMDLIST, ECMD, OPT, ECMD, OPT],
      [-3, 1, 2, -94],
      [-92, -90],
      [1008, 1008, YY_ERROR_ACTION, YY_ERROR_ACTION],
      [0, 0, 3, 0],
      RULES)
  }

  function ExampleGrammar(optimised: bool): Grammar {
    if optimised then GRAMMAR else Plain(GRAMMAR)
  }

  predicate NotEndOfInput(x: nat) {
    x != 0
  }

  function ExamplePast(optimised: bool, st: nat): seq<Past> {
    var listed := if optimised then {CMDLIST, ECMD} else {CMDLIST};
    if st == 1 then [Past(listed, {0})]
    else if st == 2 then [Past({OPT}, {0, 1})]
    else if st == 3 then [Past({2, 3}, {0, 1})]
    else if st == 1004 then [Past({}, {})]
    else if st == 1005 then [Past({ECMD}, {1}), Past(listed, {0})]
    else if st == 1006 then [if optimised then Past({}, {}) else Past({ECMD}, {0})]
    else if st == 1007 then [Past({1}, {2}), Past({OPT}, {0, 1})]
    else if st == 1009 then [Past(set x: nat | x < 97 && NotEndOfInput(x), {3}), Past({2, 3}, {0, 1})]
    else []
  }

  function ExampleFuel(st: nat, x: nat): nat {
    if st >= YY_MIN_REDUCE || st <= 1 then 1 else 0
  }

  function ExampleLevel(x: nat): nat {
    if x < 97 then 3 else if x == ECMD then 2 else if x == CMDLIST then 1 else 0
  }

  ghost function ExampleCert(optimised: bool): Cert {
    Cert((st: nat) => ExamplePast(optimised, st), ExampleFuel, ExampleLevel, 3)
  }

  lemma ExampleMatches(optimised: bool)
    ensures ExampleTables(optimised).WellFormed() && Matches(ExampleTables(optimised), ExampleGrammar(optimised))
  {
  }

  lemma Standing(optimised: bool, x: nat, alternatives: set<nat>)
    requires x in alternatives || (optimised && x == ECMD && CMDLIST in alternatives)
      || (x == 2 && 3 in alternatives) || (0 < x < 97 && YYWILDCARD in alternatives)
    ensures Matches(ExampleTables(optimised), ExampleGrammar(optimised))
    ensures Stands(ExampleTables(optimised), ExampleGrammar(optimised), x, alternatives)
  {
    ExampleMatches(optimised);
    var T, G := ExampleTables(optimised), ExampleGrammar(optimised);
    assert UnitPath(T, G, x, [], x);
    if optimised && x == ECMD && CMDLIST in alternatives {
      assert UnitPath(T, G, CMDLIST, [2][1..], CMDLIST);
      assert UnitPath(T, G, ECMD, [2], CMDLIST);
    }
    if x in alternatives {
      assert Reads(T, G, x, x);
    } else if x == 2 && 3 in alternatives {
      assert Reads(T, G, x, 3);
    } else if 0 < x < 97 && YYWILDCARD in alternatives {
      assert Reads(T, G, x, YYWILDCARD);
    } else {
      assert Reads(T, G, x, CMDLIST);
    }
  }

  /** The actions that the packed arrays encode. */
  function ExampleAction(s: nat, x: nat): nat {
    if s == 1 && x == 0 then 1004
    else if s <= 1 then if x == 2 || x == 3 then 3 else 1008
    else if s == 2 && x == 1 then 675
    else if s == 3 && x != 0 then 677
    else YY_ERROR_ACTION
  }

  lemma ExampleLookup(optimised: bool, s: nat, x: nat)
    requires s < 4 && x < 97
    ensures ExampleTables(optimised).ShiftAction(s, x) == ExampleAction(s, x)
  {
  }

  lemma ExampleGoto(optimised: bool, s: nat, x: nat)
    requires x >= 97
    ensures ExampleTables(optimised).Goto(s, x) ==
            if s == 0 && x == INPUT then Some(YY_ACCEPT_ACTION)
            else if s == 0 && x == CMDLIST then Some(1)
            else if s == 0 && x == ECMD then Some(if optimised then 1 else 674)
            else if s == 1 && x == ECMD then Some(673)
            else if s <= 1 && x == OPT then Some(2)
            else None
  {
  }

  lemma ExampleActions(optimised: bool, s: nat, x: nat)
    requires s < 4 && x < 97
    ensures var T, G := ExampleTables(optimised), ExampleGrammar(optimised);
            && T.WellFormed() && Matches(T, G)
            && ActionOk(T, G, ExampleCert(optimised), s, x, ExampleAction(s, x))
  {
    hide Stands, Tables.Goto, Tables.Hit, Tables.WellFormed, Matches;
    ExampleMatches(optimised);
    ExampleGoto(optimised, s, OPT);
    ExampleGoto(optimised, 0, INPUT);
    Standing(optimised, CMDLIST, {CMDLIST});
    if optimised {
      Standing(optimised, ECMD, {CMDLIST});
    }
  }

  lemma ExampleParkedList(optimised: bool, st: nat, x: nat)
    requires (st == 1004 || st == 1005 || st == 1006) && x < 97
    ensures var T, G := ExampleTables(optimised), ExampleGrammar(optimised);
            && T.WellFormed() && Matches(T, G) && ReduceOk(T, G, ExampleCert(optimised), st, x, st - YY_MIN_REDUCE)
  {
    hide Stands, Tables.Goto, Tables.Hit, Tables.WellFormed, Matches;
    ExampleMatches(optimised);
    ExampleGoto(optimised, 0, CMDLIST);
    Standing(optimised, CMDLIST, {CMDLIST});
    Standing(optimised, ECMD, {ECMD});
    if optimised {
      Standing(optimised, ECMD, {CMDLIST});
    }
  }

  lemma ExampleParkedCommand(optimised: bool, x: nat)
    requires x < 97
    ensures var T, G := ExampleTables(optimised), ExampleGrammar(optimised);
            && T.WellFormed() && Matches(T, G) && ReduceOk(T, G, ExampleCert(optimised), 1007, x, 3)
  {
    hide Stands, Tables.Goto, Tables.Hit, Tables.WellFormed, Matches;
    ExampleMatches(optimised);
    ExampleGoto(optimised, 0, ECMD);
    ExampleGoto(optimised, 1, ECMD);
    Standing(optimised, OPT, {OPT});
    Standing(optimised, 1, {1});
  }

  lemma ExampleParkedWildcard(optimised: bool, x: nat)
    requires x < 97
    ensures var T, G := ExampleTables(optimised), ExampleGrammar(optimised);
            && T.WellFormed() && Matches(T, G) && ReduceOk(T, G, ExampleCert(optimised), 1009, x, 5)
  {
    hide Stands, Tables.Goto, Tables.Hit, Tables.WellFormed, Matches;
    ExampleMatches(optimised);
    ExampleGoto(optimised, 0, OPT);
    ExampleGoto(optimised, 1, OPT);
    Standing(optimised, 2, {3});
    Standing(optimised, 3, {3});
    forall X: nat | 0 < X < 97
      ensures Stands(ExampleTables(optimised), ExampleGrammar(optimised), X, {YYWILDCARD})
    {
      Standing(optimised, X, {YYWILDCARD});
    }
  }

  /** Both sets of tables are certified, so every theorem about certified tables applies to them. */
  lemma ExampleCertified(optimised: bool)
    ensures Certified(ExampleTables(optimised), ExampleGrammar(optimised), ExampleCert(optimised))
  {
    var T, G, C := ExampleTables(optimised), ExampleGrammar(optimised), ExampleCert(optimised);
    ExampleMatches(optimised);
    forall s, x | 0 <= s < |T.shiftOfst| && 0 <= x < G.nTerm
      ensures ActionOk(T, G, C, s, x, T.ShiftAction(s, x))
    {
      ExampleLookup(optimised, s, x);
      ExampleActions(optimised, s, x);
    }
    forall st, x | 0 <= x < G.nTerm && st >= YY_MIN_REDUCE
      ensures PendingOk(T, G, C, st, x)
    {
      if st == 1009 {
        ExampleParkedWildcard(optimised, x);
      } else if st == 1007 {
        ExampleParkedCommand(optimised, x);
      } else if st <= 1006 {
        ExampleParkedList(optimised, st, x);
      }
    }
  }

  lemma ExampleOptimises()
    ensures Optimises(ExampleTables(false), ExampleTables(true), GRAMMAR)
  {
    hide Tables.ShiftAction, Tables.Goto, Tables.Hit;
    ExampleMatches(false);
    ExampleMatches(true);
    var T0, T1 := ExampleTables(false), ExampleTables(true);
    forall s, x | 0 <= s < |T0.shiftOfst| && 0 <= x < GRAMMAR.nTerm
      ensures T0.ShiftAction(s, x) == T1.ShiftAction(s, x)
    {
      ExampleLookup(false, s, x);
      ExampleLookup(true, s, x);
    }
    forall s, x | 0 <= s && x >= GRAMMAR.nTerm && T0.Goto(s, x).Some?
      ensures Redirected(T0, T1, GRAMMAR, s, x)
    {
      ExampleGoto(false, s, x);
      ExampleGoto(true, s, x);
      ExampleGoto(true, s, CMDLIST);
    }
  }
}
