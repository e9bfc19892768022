/** The parsing tables of the generated LALR(1) parser and the two lookups made in them.

    All the action codes keep the numbering of the generated file.  The tables themselves are
    a parameter: every property below holds for all tables that satisfy the stated conditions. */
module LrTables {
  import opened Wrappers

  const YYNOCODE := 252
  const YYWILDCARD := 96
  const YYSTACKDEPTH := 100
  const YY_MAX_SHIFT := 459
  const YY_MIN_SHIFTREDUCE := 672
  const YY_MAX_SHIFTREDUCE := 1003
  const YY_MIN_REDUCE := 1004
  const YY_MAX_REDUCE := 1335
  const YY_ERROR_ACTION := 1336
  const YY_ACCEPT_ACTION := 1337
  const YY_REDUCE_USE_DFLT := -130

  datatype RuleInfo = RuleInfo(lhs: nat, nrhs: nat)

  datatype Tables = Tables(
    action: seq<nat>,        // yy_action
    lookahead: seq<nat>,     // yy_lookahead
    shiftOfst: seq<int>,     // yy_shift_ofst
    reduceOfst: seq<int>,    // yy_reduce_ofst
    dflt: seq<nat>,          // yy_default
    fallback: seq<nat>,      // yyFallback
    ruleInfo: seq<RuleInfo>) // yyRuleInfo
  {
    /** What the lookups take for granted about the generated arrays. */
    ghost predicate WellFormed() {
      && |lookahead| == |action|
      && |dflt| == |shiftOfst| <= YY_MAX_SHIFT + 1
      && |reduceOfst| <= |shiftOfst|
      && |ruleInfo| <= YY_MAX_REDUCE - YY_MIN_REDUCE + 1
      && (forall s :: 0 <= s < |shiftOfst| ==> 0 <= shiftOfst[s] + YYWILDCARD)
      && (forall x :: 0 <= x < |fallback| ==> fallback[x] < |fallback| && fallback[fallback[x]] == 0)
    }

    /** The action stored for symbol `x` in the row at offset `ofst`, if the slot is that row's own. */
    function Hit(ofst: int, x: nat): Option<nat>
      requires |lookahead| == |action|
    {
      var i := ofst + x;
      if 0 <= i < |action| && lookahead[i] == x then Some(action[i]) else None
    }

    /** The fallback of token `x`, or 0. */
    function Fallback(x: nat): nat {
      if x < |fallback| then fallback[x] else 0
    }

    /** The action of state `s` on token `x` as a priority choice: the exact entry, the fallback
        token's entry, the wildcard's entry (never for the end-of-input token 0), the default. */
    function ShiftAction(s: nat, x: nat): nat
      requires s < |shiftOfst| == |dflt| && |lookahead| == |action|
    {
      var exact := Hit(shiftOfst[s], x);
      var viaFallback := if Fallback(x) == 0 then None else Hit(shiftOfst[s], Fallback(x));
      var viaWildcard := if x == 0 then None else Hit(shiftOfst[s], YYWILDCARD);
      if exact.Some? then exact.value
      else if viaFallback.Some? then viaFallback.value
      else if viaWildcard.Some? then viaWildcard.value
      else dflt[s]
    }

    /** The goto entry of state `s` on nonterminal `x`; None where the parser would assert. */
    function Goto(s: nat, x: nat): Option<nat>
      requires |lookahead| == |action|
    {
      if s < |reduceOfst| && reduceOfst[s] != YY_REDUCE_USE_DFLT then Hit(reduceOfst[s], x) else None
    }
  }

  /** The stack entry's `stateno` for a shift or goto action: a pending reduce is kept as the code
      of the reduce action. */
  function Target(act: nat): nat {
    if act > YY_MAX_SHIFT then act + (YY_MIN_REDUCE - YY_MIN_SHIFTREDUCE) else act
  }

  // ---- The compressed tables against the sparse rows they encode ----

  type Row = map<nat, nat>

  /** Every entry of every row has been put into the shared arrays. */
  ghost predicate Stored(T: Tables, ofst: seq<int>, rows: seq<Row>)
    requires |T.lookahead| == |T.action| && |ofst| == |rows|
  {
    forall s, x :: 0 <= s < |rows| && x in rows[s] ==>
      0 <= ofst[s] + x < |T.action| && T.lookahead[ofst[s] + x] == x && T.action[ofst[s] + x] == rows[s][x]
  }

  /** The symbols a family of rows may be asked about: terminals for one family, nonterminals for the other. */
  ghost predicate Owned(T: Tables, ofst: seq<int>, rows: seq<Row>, domain: iset<nat>)
    requires |T.lookahead| == |T.action| && |ofst| == |rows|
  {
    forall i :: 0 <= i < |T.lookahead| && T.lookahead[i] in domain ==>
      exists s :: 0 <= s < |rows| && ofst[s] + T.lookahead[i] == i && T.lookahead[i] in rows[s]
  }

  ghost predicate SharersAgree(ofst: seq<int>, rows: seq<Row>)
    requires |ofst| == |rows|
  {
    forall s, t :: 0 <= s < |rows| && 0 <= t < |rows| && ofst[s] == ofst[t] ==> rows[s] == rows[t]
  }

  ghost predicate LookupExact(T: Tables, ofst: seq<int>, rows: seq<Row>, domain: iset<nat>)
    requires |T.lookahead| == |T.action| && |ofst| == |rows|
  {
    forall s, x :: 0 <= s < |rows| && x in domain ==>
      T.Hit(ofst[s], x) == if x in rows[s] then Some(rows[s][x]) else None
  }

  lemma AgreementSuffices(T: Tables, ofst: seq<int>, rows: seq<Row>, domain: iset<nat>, s: nat, x: nat)
    requires |T.lookahead| == |T.action| && |ofst| == |rows|
    requires Stored(T, ofst, rows) && Owned(T, ofst, rows, domain) && SharersAgree(ofst, rows)
    requires s < |rows| && x in domain
    ensures T.Hit(ofst[s], x) == if x in rows[s] then Some(rows[s][x]) else None
  {
  }

  /** Collision detection through yy_lookahead is exact if and only if states that share an offset
      have identical rows. */
  lemma CompressionExact(T: Tables, ofst: seq<int>, rows: seq<Row>, domain: iset<nat>)
    requires |T.lookahead| == |T.action| && |ofst| == |rows|
    requires forall s, x :: 0 <= s < |rows| && x in rows[s] ==> x in domain
    requires Stored(T, ofst, rows) && Owned(T, ofst, rows, domain)
    ensures LookupExact(T, ofst, rows, domain) <==> SharersAgree(ofst, rows)
  {
    if SharersAgree(ofst, rows) {
      forall s: nat, x | s < |rows| && x in domain
        ensures T.Hit(ofst[s], x) == if x in rows[s] then Some(rows[s][x]) else None
      {
        AgreementSuffices(T, ofst, rows, domain, s, x);
      }
    }
    if LookupExact(T, ofst, rows, domain) {
      forall s, t | 0 <= s < |rows| && 0 <= t < |rows| && ofst[s] == ofst[t]
        ensures rows[s] == rows[t]
      {
        ExactRowsAgree(T, ofst, rows, domain, s, t);
      }
    }
  }

  lemma ExactRowsAgree(T: Tables, ofst: seq<int>, rows: seq<Row>, domain: iset<nat>, s: nat, t: nat)
    requires |T.lookahead| == |T.action| && |ofst| == |rows|
    requires forall s, x :: 0 <= s < |rows| && x in rows[s] ==> x in domain
    requires LookupExact(T, ofst, rows, domain)
    requires s < |rows| && t < |rows| && ofst[s] == ofst[t]
    ensures rows[s] == rows[t]
  {
    forall x
      ensures x in rows[s] <==> x in rows[t]
      ensures x in rows[s] ==> rows[s][x] == rows[t][x]
    {
      if x in domain {
        assert T.Hit(ofst[s], x) == T.Hit(ofst[t], x);
      }
    }
  }

  /** The same priority choice made in the sparse row of one state. */
  function SparseAction(row: Row, fallback: nat, x: nat, default: nat): nat {
    if x in row then row[x]
    else if fallback != 0 && fallback in row then row[fallback]
    else if x != 0 && YYWILDCARD in row then row[YYWILDCARD]
    else default
  }

  /** Looking an action up in the shared arrays, with fallback and wildcard, is choosing it in the state's
      own row, on every token. */
  lemma ShiftRefinesSparse(T: Tables, rows: seq<Row>, domain: iset<nat>, s: nat, x: nat)
    requires T.WellFormed() && |rows| == |T.shiftOfst| && s < |rows|
    requires Stored(T, T.shiftOfst, rows) && Owned(T, T.shiftOfst, rows, domain) && SharersAgree(T.shiftOfst, rows)
    requires x in domain && T.Fallback(x) in domain && YYWILDCARD in domain
    ensures T.ShiftAction(s, x) == SparseAction(rows[s], T.Fallback(x), x, T.dflt[s])
  {
    hide Stored, Owned, SharersAgree, T.Hit;
    AgreementSuffices(T, T.shiftOfst, rows, domain, s, x);
    AgreementSuffices(T, T.shiftOfst, rows, domain, s, T.Fallback(x));
    AgreementSuffices(T, T.shiftOfst, rows, domain, s, YYWILDCARD);
  }

  /** The goto lookup, which the parser makes without a test, finds the entry of the state's own sparse row
      where there is one; a state with YY_REDUCE_USE_DFLT, or past the end of the offsets, has none. */
  lemma GotoRefinesSparse(T: Tables, rows: seq<Row>, domain: iset<nat>, s: nat, x: nat)
    requires T.WellFormed() && |rows| == |T.reduceOfst| && x in domain
    requires Stored(T, T.reduceOfst, rows) && Owned(T, T.reduceOfst, rows, domain) && SharersAgree(T.reduceOfst, rows)
    requires forall t :: 0 <= t < |rows| && T.reduceOfst[t] == YY_REDUCE_USE_DFLT ==> rows[t] == map[]
    ensures T.Goto(s, x) == if s < |rows| && x in rows[s] then Some(rows[s][x]) else None
  {
    hide Stored, Owned, SharersAgree, Tables.Hit;
    if s < |rows| {
      AgreementSuffices(T, T.reduceOfst, rows, domain, s, x);
    }
  }

  /** A state without a row of its own is given the offset YY_ACTTAB_COUNT and always takes its
      default. */
  lemma UseDefaultAlwaysMisses(T: Tables, s: nat, x: nat)
    requires T.WellFormed() && s < |T.shiftOfst| && T.shiftOfst[s] == |T.action|
    ensures T.ShiftAction(s, x) == T.dflt[s]
  {
  }
}
