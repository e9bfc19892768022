/** A grammar in which an empty rule meets the full stack, at every depth of the stack: items are nested until
    no entry is left, and then the input ends. */
module LrLossExample {
  import opened Wrappers
  import opened LrTables
  import opened Grammars
  import opened LrMachine
  import opened LrExample

  const LP := 1
  const NEST := 98
  const ITEM := 99

  const NEST_GRAMMAR := Grammar([[{NEST}], [{ITEM}, {NEST}], [], [{LP}]], INPUT, 97, {})

  /** 0: input ::= nest, 1: nest ::= item nest, 2: nest ::=, 3: item ::= LP */
  const NEST_TABLES := Tables(
    [YY_MIN_REDUCE + 2, YY_MIN_SHIFTREDUCE + 3, YY_ACCEPT_ACTION, 2, 1, YY_MIN_SHIFTREDUCE + 1, 1, YY_MIN_REDUCE],
    [0, LP, INPUT, NEST, ITEM, NEST, ITEM, 0],
    [0, 0, 7],
    [-95, -93],
    [YY_ERROR_ACTION, YY_ERROR_ACTION, YY_ERROR_ACTION],
    [0, 0],
    [RuleInfo(INPUT, 1), RuleInfo(NEST, 2), RuleInfo(NEST, 0), RuleInfo(ITEM, 1)])

  /** The entry in which the reduction item ::= LP is parked. */
  const PARKED_ITEM := YY_MIN_REDUCE + 3

  function NestPast(st: nat): seq<Past> {
    if st == 1 then [Past({ITEM}, {0, 1})]
    else if st == 2 then [Past({NEST}, {0})]
    else if st == YY_MIN_REDUCE then [Past({}, {})]
    else if st == YY_MIN_REDUCE + 1 then [Past({NEST}, {1}), Past({ITEM}, {0, 1})]
    else if st == PARKED_ITEM then [Past({LP}, {0, 1})]
    else []
  }

  function NestFuel(st: nat, x: nat): nat {
    if st <= 1 || st == PARKED_ITEM then 1 else 0
  }

  function NestLevel(x: nat): nat {
    if x < 97 then 2 else if x == NEST || x == ITEM then 1 else 0
  }

  const NEST_CERT := Cert(NestPast, NestFuel, NestLevel, 2)

  function NestAction(s: nat, x: nat): nat {
    if x == 0 then if s == 2 then YY_MIN_REDUCE else YY_MIN_REDUCE + 2
    else if x == LP && s <= 1 then YY_MIN_SHIFTREDUCE + 3
    else YY_ERROR_ACTION
  }

  lemma NestLookup(s: nat, x: nat)
    requires s < 3 && x < 97
    ensures NEST_TABLES.ShiftAction(s, x) == NestAction(s, x)
  {
  }

  lemma NestGoto(s: nat, x: nat)
    requires x >= 97
    ensures NEST_TABLES.Goto(s, x)
            == if s == 0 && x == INPUT then Some(YY_ACCEPT_ACTION)
               else if s == 0 && x == NEST then Some(2)
               else if s == 1 && x == NEST then Some(YY_MIN_SHIFTREDUCE + 1)
               else if s <= 1 && x == ITEM then Some(1)
               else None
  {
  }

  lemma NestStands(x: nat)
    ensures Matches(NEST_TABLES, NEST_GRAMMAR) && NEST_TABLES.WellFormed()
    ensures Stands(NEST_TABLES, NEST_GRAMMAR, x, {x})
  {
    assert UnitPath(NEST_TABLES, NEST_GRAMMAR, x, [], x);
    assert Reads(NEST_TABLES, NEST_GRAMMAR, x, x);
  }

  lemma NestReduces(st: nat, x: nat, r: nat)
    requires (st <= 1 && x == 0 && r == 2) || (st == 2 && x == 0 && r == 0) || (st == YY_MIN_REDUCE + r && r != 2 && r <= 3)
    ensures Matches(NEST_TABLES, NEST_GRAMMAR) && NEST_TABLES.WellFormed()
    ensures ReduceOk(NEST_TABLES, NEST_GRAMMAR, NEST_CERT, st, x, r)
  {
    hide Stands, Tables.Goto, Tables.Hit;
    NestStands(NEST);
    NestStands(ITEM);
    NestStands(LP);
    NestGoto(0, INPUT);
    NestGoto(0, NEST);
    NestGoto(1, NEST);
    NestGoto(0, ITEM);
    NestGoto(1, ITEM);
  }

  lemma NestCertified()
    ensures Certified(NEST_TABLES, NEST_GRAMMAR, NEST_CERT)
  {
    hide ReduceOk, Tables.ShiftAction, Tables.Goto;
    var T, G, C := NEST_TABLES, NEST_GRAMMAR, NEST_CERT;
    NestStands(NEST);
    forall s, x | 0 <= s < |T.shiftOfst| && 0 <= x < G.nTerm
      ensures ActionOk(T, G, C, s, x, T.ShiftAction(s, x))
    {
      NestLookup(s, x);
      if x == 0 {
        NestReduces(s, x, if s == 2 then 0 else 2);
      }
    }
    forall st, x | 0 <= x < G.nTerm && st >= YY_MIN_REDUCE
      ensures PendingOk(T, G, C, st, x)
    {
      var r := st - YY_MIN_REDUCE;
      if r != 2 && r <= 3 {
        NestReduces(st, x, r);
      }
    }
  }

  const OPEN := Token(LP, "(")
  const END := Token(0, "")

  function Opens(k: nat): seq<Token> {
    seq(k, i => OPEN)
  }

  /** The top entry has the last item parked in it, or there is none yet. */
  predicate Nested(st: St, k: nat) {
    && |st.stack| == k + 1 && st.lost == []
    && if k == 0 then st.stack[0].stateno == 0
       else Top(st.stack).stateno == PARKED_ITEM && Top(st.stack).minor == Leaf(OPEN) && st.stack[k - 1].stateno <= 1
  }

  /** The parked item is reduced in place on any lookahead. */
  lemma ItemReduced(cap: Depth, st: St, tok: Token, k: nat)
    requires k > 0 && Nested(st, k) && Ready(NEST_TABLES, st.stack, tok.major)
    ensures var next := Step(NEST_TABLES, cap, st, tok);
            && !next.done && next.st.lost == []
            && next.st.stack == st.stack[..k] + [StackEntry(1, ITEM, Node(3, [Leaf(OPEN)]))]
  {
    hide Tables.ShiftAction, Tables.Goto, Tables.WellFormed;
    NestGoto(st.stack[k - 1].stateno, ITEM);
    assert Minors(st.stack[k..]) == [Leaf(OPEN)];
  }

  /** From state 0 or 1, with room for one entry, a parenthesis is shifted with its item parked. */
  lemma OpenShifted(n: nat, st: St)
    requires 1 < n && 0 < |st.stack| < n && Top(st.stack).stateno <= 1 && st.lost == []
    ensures Ready(NEST_TABLES, st.stack, LP)
    ensures var next := Step(NEST_TABLES, Some(n), st, OPEN);
            next.done && Nested(next.st, |st.stack|)
  {
    hide Tables.ShiftAction;
    NestLookup(Top(st.stack).stateno, LP);
  }

  /** Fewer than `n` opening parentheses are all shifted. */
  lemma {:induction false} OpensAreShifted(n: nat, k: nat)
    requires 1 < n && k < n
    ensures Certified(NEST_TABLES, NEST_GRAMMAR, NEST_CERT) && Tokens(NEST_GRAMMAR, Opens(k))
    ensures Good(NEST_TABLES, NEST_GRAMMAR, NEST_CERT, INIT.stack)
    ensures Nested(Run(NEST_TABLES, NEST_GRAMMAR, NEST_CERT, Some(n), INIT, Opens(k)), k)
    decreases k
  {
    hide Certified, Good, Step, Potential;
    var T, G, C := NEST_TABLES, NEST_GRAMMAR, NEST_CERT;
    NestCertified();
    NestStands(NEST);
    InitGood(T, G, C);
    if k > 0 {
      OpensAreShifted(n, k - 1);
      assert Opens(k)[..k - 1] == Opens(k - 1);
      var st := Run(T, G, C, Some(n), INIT, Opens(k - 1));
      FeedUnfolds(T, G, C, Some(n), st, OPEN);
      if k > 1 {
        ItemReduced(Some(n), st, OPEN, k - 1);
        st := Step(T, Some(n), st, OPEN).st;
        FeedUnfolds(T, G, C, Some(n), st, OPEN);
      }
      OpenShifted(n, st);
    }
  }

  /** On a full stack the end of the input asks for the empty rule, and the item on top is lost. */
  lemma ItemLost(n: nat, st: St)
    requires 1 < n && |st.stack| == n && Top(st.stack) == StackEntry(1, ITEM, Node(3, [Leaf(OPEN)])) && st.lost == []
    ensures Ready(NEST_TABLES, st.stack, 0)
    ensures var next := Step(NEST_TABLES, Some(n), st, END);
            next.done && next.st.lost == [Node(3, [Leaf(OPEN)])]
  {
    hide Tables.ShiftAction, Tables.Goto, Drain;
    NestLookup(1, 0);
    NestGoto(1, NEST);
  }

  /** On a stack of any depth, that of the parser included, a run can lose a value built by a reduction:
      `n - 1` opening parentheses fill `n` entries, and at the end of the input the last item is dropped
      without its destructor. */
  lemma ValuesCanBeLost(n: nat)
    requires n > 1
    ensures Certified(NEST_TABLES, NEST_GRAMMAR, NEST_CERT) && Tokens(NEST_GRAMMAR, Opens(n - 1) + [END])
    ensures Good(NEST_TABLES, NEST_GRAMMAR, NEST_CERT, INIT.stack)
    ensures Run(NEST_TABLES, NEST_GRAMMAR, NEST_CERT, Some(n), INIT, Opens(n - 1) + [END]).lost == [Node(3, [Leaf(OPEN)])]
  {
    hide Certified, Good, Step, Potential;
    var T, G, C, toks := NEST_TABLES, NEST_GRAMMAR, NEST_CERT, Opens(n - 1) + [END];
    OpensAreShifted(n, n - 1);
    assert toks[..|toks| - 1] == Opens(n - 1);
    var st := Run(T, G, C, Some(n), INIT, Opens(n - 1));
    FeedUnfolds(T, G, C, Some(n), st, END);
    ItemReduced(Some(n), st, END, n - 1);
    var st' := Step(T, Some(n), st, END).st;
    FeedUnfolds(T, G, C, Some(n), st', END);
    ItemLost(n, st');
  }
}
