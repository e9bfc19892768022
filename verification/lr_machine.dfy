/** The push-down automaton of the driver as a function on states, the certificate that makes a set of
    tables safe to run, and the invariant of every reachable stack. */
module LrMachine {
  import opened Wrappers
  import opened LrTables
  import opened Grammars

  datatype StackEntry = StackEntry(stateno: nat, major: nat, minor: Tree)

  /** What the driver does to the outside world: destructor calls and calls of the %syntax_error,
      %stack_overflow and %parse_accept code, together with each successful shift. */
  datatype Event =
    | Shifted(tok: Token)
    | SyntaxError(tok: Token)
    | StackOverflow
    | Destroyed(major: nat, minor: Tree)
    | Accepted(tree: Tree)

  /** The events so far, latest first. */
  datatype Log = Start | After(prev: Log, event: Event)

  /** `lost` records the semantic values that are dropped without a destructor call. */
  datatype St = St(stack: seq<StackEntry>, log: Log, lost: seq<Tree>)

  const BOTTOM := StackEntry(0, 0, Leaf(Token(0, "")))
  const INIT := St([BOTTOM], Start, [])

  function Top(stack: seq<StackEntry>): StackEntry
    requires stack != []
  {
    stack[|stack| - 1]
  }

  function Minors(entries: seq<StackEntry>): seq<Tree> {
    seq(|entries|, i requires 0 <= i < |entries| => entries[i].minor)
  }

  // ---- One step of the driver loop ----

  /** The destructor calls that empty the stack down to slot 0, top entry first. */
  function Drain(log: Log, stack: seq<StackEntry>): Log
    decreases |stack|
  {
    if |stack| <= 1 then log
    else Drain(After(log, Destroyed(Top(stack).major, Top(stack).minor)), stack[..|stack| - 1])
  }

  function Overflow(st: St): St
    requires st.stack != []
  {
    St(st.stack[..1], After(Drain(st.log, st.stack), StackOverflow), st.lost)
  }

  /** The number of slots; None is the unbounded machine. */
  type Depth = d: Option<nat> | d.Some? ==> d.value > 1 witness None

  predicate Full(cap: Depth, n: nat) {
    cap.Some? && n >= cap.value
  }

  function Act(T: Tables, stateno: nat, x: nat): nat
    requires T.WellFormed()
    requires stateno < |T.shiftOfst| || stateno >= YY_MIN_REDUCE
  {
    if stateno >= YY_MIN_REDUCE then stateno else T.ShiftAction(stateno, x)
  }

  function Shift(cap: Depth, st: St, act: nat, tok: Token): St
    requires st.stack != []
  {
    if Full(cap, |st.stack|) then Overflow(st)
    else St(st.stack + [StackEntry(Target(act), tok.major, Leaf(tok))], After(st.log, Shifted(tok)), st.lost)
  }

  /** Rule `r` finds its right-hand side above slot 0 and a goto entry below it. */
  predicate Reducible(T: Tables, stack: seq<StackEntry>, r: nat) {
    && |T.lookahead| == |T.action| && r < |T.ruleInfo| && T.ruleInfo[r].nrhs < |stack|
    && T.Goto(stack[|stack| - 1 - T.ruleInfo[r].nrhs].stateno, T.ruleInfo[r].lhs).Some?
  }

  /** Before an empty rule overflows the stack, the handler steps back over an entry that was never
      pushed, and so drops the top entry. */
  function LoseTop(st: St): St
    requires st.stack != []
  {
    St(st.stack[..|st.stack| - 1], st.log, st.lost + [Top(st.stack).minor])
  }

  /** Replace the right-hand side by the left-hand side, or accept. */
  function Combine(T: Tables, st: St, r: nat): St
    requires Reducible(T, st.stack, r)
  {
    var h, n, lhs := |st.stack|, T.ruleInfo[r].nrhs, T.ruleInfo[r].lhs;
    var tree := Node(r, Minors(st.stack[h - n..]));
    var act := T.Goto(st.stack[h - 1 - n].stateno, lhs).value;
    if act <= YY_MAX_SHIFTREDUCE then
      St(st.stack[..h - n] + [StackEntry(Target(act), lhs, tree)], st.log, st.lost)
    else
      St(st.stack[..h - n], After(st.log, Accepted(tree)), st.lost)
  }

  function Reduce(T: Tables, cap: Depth, st: St, r: nat): St
    requires Reducible(T, st.stack, r)
  {
    if T.ruleInfo[r].nrhs == 0 && Full(cap, |st.stack|) then Overflow(LoseTop(st)) else Combine(T, st, r)
  }

  ghost predicate Ready(T: Tables, stack: seq<StackEntry>, x: nat) {
    && T.WellFormed() && stack != []
    && (Top(stack).stateno < |T.shiftOfst| || Top(stack).stateno >= YY_MIN_REDUCE)
    && var act := Act(T, Top(stack).stateno, x);
       YY_MAX_SHIFTREDUCE < act <= YY_MAX_REDUCE ==> Reducible(T, stack, act - YY_MIN_REDUCE)
  }

  /** `done` is the negation of the loop condition: the token is used up or the stack is empty. */
  datatype Stepped = Stepped(st: St, done: bool)

  function Step(T: Tables, cap: Depth, st: St, tok: Token): Stepped
    requires Ready(T, st.stack, tok.major)
  {
    var act := Act(T, Top(st.stack).stateno, tok.major);
    if act <= YY_MAX_SHIFTREDUCE then
      Stepped(Shift(cap, st, act, tok), true)
    else if act <= YY_MAX_REDUCE then
      var st' := Reduce(T, cap, st, act - YY_MIN_REDUCE);
      Stepped(st', |st'.stack| == 1)
    else
      Stepped(St(st.stack, After(st.log, SyntaxError(tok)), st.lost), true)
  }

  // ---- The certificate of a set of tables ----

  /** What is known about one entry near the top of the stack: the symbols it may hold and the states
      of the entry below it. */
  datatype Past = Past(majors: set<nat>, states: set<nat>)

  /** `past(s)[j]` describes the entry `j` places below the top when the top is in state `s`.  `fuel(s, x)`
      bounds the reductions of empty rules that can follow state `s` on lookahead `x`.  `level` orders the
      symbols along the one-symbol rules, up to `top`. */
  datatype Cert = Cert(past: nat -> seq<Past>, fuel: (nat, nat) -> nat, level: nat -> nat, top: nat)

  ghost predicate IsState(T: Tables, G: Grammar, st: nat)
    requires Matches(T, G)
  {
    || 0 < st < |T.shiftOfst|
    || (YY_MIN_REDUCE <= st < YY_MIN_REDUCE + |G.rhs| && G.rhs[st - YY_MIN_REDUCE] != [])
  }

  /** The machine may move from state `s` to state `t` by pushing symbol `x`. */
  ghost predicate EdgeOk(T: Tables, G: Grammar, C: Cert, s: nat, x: nat, t: nat)
    requires Matches(T, G)
  {
    && IsState(T, G, t)
    && |C.past(t)| <= |C.past(s)| + 1
    && (C.past(t) != [] ==> x in C.past(t)[0].majors && s in C.past(t)[0].states)
    && (forall j :: 0 <= j < |C.past(t)| - 1 ==>
          C.past(s)[j].majors <= C.past(t)[j + 1].majors && C.past(s)[j].states <= C.past(t)[j + 1].states)
  }

  /** The one-symbol rules are acyclic: each leads to a lower symbol, and the symbols that a token is read as
      are no higher than the token. */
  ghost predicate Acyclic(T: Tables, G: Grammar, C: Cert)
    requires Matches(T, G)
  {
    && (forall x :: C.level(x) <= C.top)
    && (forall r, y :: 0 <= r < |G.rhs| && |G.rhs[r]| == 1 && y in G.rhs[r][0] ==> C.level(T.ruleInfo[r].lhs) < C.level(y))
    && (forall x, y :: 0 <= x < G.nTerm && 0 <= y && TokenReads(T, x, y) ==> C.level(y) <= C.level(x))
  }

  /** After reducing by rule `r` on lookahead `x` in state `st`, the uncovered state `q` has a goto entry;
      the bound on empty reductions does not rise, and falls if `r` is empty. */
  ghost predicate GotoOk(T: Tables, G: Grammar, C: Cert, q: nat, st: nat, x: nat, r: nat)
    requires T.WellFormed() && Matches(T, G) && r < |G.rhs|
  {
    var lhs := T.ruleInfo[r].lhs;
    var entry := T.Goto(q, lhs);
    && q < |T.shiftOfst| && entry.Some?
    && if entry.value <= YY_MAX_SHIFTREDUCE then
         && EdgeOk(T, G, C, q, lhs, Target(entry.value))
         && C.fuel(Target(entry.value), x) <= C.fuel(st, x)
         && (G.rhs[r] == [] ==> C.fuel(Target(entry.value), x) < C.fuel(st, x))
       else
         entry.value == YY_ACCEPT_ACTION && q == 0 && lhs == G.start && x == 0
  }

  /** In state `st` the top of the stack spells the right-hand side of rule `r`. */
  ghost predicate ReduceOk(T: Tables, G: Grammar, C: Cert, st: nat, x: nat, r: nat)
    requires T.WellFormed() && Matches(T, G)
  {
    && r < |G.rhs|
    && var n := |G.rhs[r]|;
    && n <= |C.past(st)|
    && (forall i, X :: 0 <= i < n && X in C.past(st)[n - 1 - i].majors ==> Stands(T, G, X, G.rhs[r][i]))
    && (if n == 0 then GotoOk(T, G, C, st, st, x, r)
        else forall q :: q in C.past(st)[n - 1].states ==> GotoOk(T, G, C, q, st, x, r))
  }

  ghost predicate ActionOk(T: Tables, G: Grammar, C: Cert, s: nat, x: nat, act: nat)
    requires T.WellFormed() && Matches(T, G)
  {
    if act <= YY_MAX_SHIFTREDUCE then x != 0 && EdgeOk(T, G, C, s, x, Target(act))
    else if act <= YY_MAX_REDUCE then ReduceOk(T, G, C, s, x, act - YY_MIN_REDUCE)
    else act == YY_ERROR_ACTION
  }

  ghost predicate PendingOk(T: Tables, G: Grammar, C: Cert, st: nat, x: nat)
    requires T.WellFormed() && Matches(T, G) && st >= YY_MIN_REDUCE
  {
    IsState(T, G, st) ==> ReduceOk(T, G, C, st, x, st - YY_MIN_REDUCE)
  }

  /** The conditions on a set of tables.  They concern single entries, and each holds vacuously for a number that is no
      state, symbol or rule of the tables, apart from `level`, which stays below `top` everywhere. */
  ghost predicate Certified(T: Tables, G: Grammar, C: Cert) {
    && T.WellFormed() && Matches(T, G) && |T.shiftOfst| > 0
    && C.past(0) == [] && Acyclic(T, G, C)
    && (forall s, x :: 0 <= s < |T.shiftOfst| && 0 <= x < G.nTerm ==> ActionOk(T, G, C, s, x, T.ShiftAction(s, x)))
    && (forall st, x :: 0 <= x < G.nTerm && st >= YY_MIN_REDUCE ==> PendingOk(T, G, C, st, x))
  }

  lemma CertifiedTables(T: Tables, G: Grammar, C: Cert)
    requires Certified(T, G, C)
    ensures T.WellFormed() && Matches(T, G) && G.nTerm <= YYNOCODE && C.past(0) == []
  {
  }

  // ---- The invariant of every reachable stack ----

  ghost predicate EntryOk(T: Tables, G: Grammar, C: Cert, stack: seq<StackEntry>, k: nat)
    requires Matches(T, G) && 0 < k < |stack|
  {
    var e := stack[k];
    var past := C.past(e.stateno);
    && IsState(T, G, e.stateno)
    && e.major == Root(T, e.minor) && WellParsed(T, G, e.minor)
    && |past| <= k
    && (forall j :: 0 <= j < |past| ==> stack[k - j].major in past[j].majors && stack[k - j - 1].stateno in past[j].states)
  }

  /** Slot 0 keeps state 0 and major 0, every slot below the top holds a real state, only the top may
      hold a pending reduce, and neighbouring entries are joined by the tables. */
  ghost predicate Good(T: Tables, G: Grammar, C: Cert, stack: seq<StackEntry>)
    requires Matches(T, G)
  {
    && stack != [] && stack[0].stateno == 0 && stack[0].major == 0
    && (forall k :: 0 <= k < |stack| - 1 ==> stack[k].stateno < |T.shiftOfst|)
    && (forall k :: 0 < k < |stack| ==> EntryOk(T, G, C, stack, k))
  }

  /** The work that is left on lookahead `x`. */
  function Potential(C: Cert, stack: seq<StackEntry>, x: nat): nat
    requires stack != []
  {
    (2 * C.fuel(Top(stack).stateno, x) + |stack|) * (C.top + 1) + C.level(Top(stack).major)
  }

  lemma PrefixGood(T: Tables, G: Grammar, C: Cert, stack: seq<StackEntry>, k: nat)
    requires Matches(T, G) && Good(T, G, C, stack) && 0 < k <= |stack|
    ensures Good(T, G, C, stack[..k])
  {
    forall i | 0 < i < k
      ensures EntryOk(T, G, C, stack[..k], i)
    {
      assert EntryOk(T, G, C, stack, i);
    }
  }

  lemma PushGood(T: Tables, G: Grammar, C: Cert, stack: seq<StackEntry>, e: StackEntry)
    requires Matches(T, G) && Good(T, G, C, stack) && Top(stack).stateno < |T.shiftOfst|
    requires |stack| == 1 ==> C.past(0) == []
    requires EdgeOk(T, G, C, Top(stack).stateno, e.major, e.stateno)
    requires e.major == Root(T, e.minor) && WellParsed(T, G, e.minor)
    ensures Good(T, G, C, stack + [e])
  {
    var stack', m := stack + [e], |stack|;
    forall i | 0 < i < m
      ensures EntryOk(T, G, C, stack', i)
    {
      assert EntryOk(T, G, C, stack, i);
      assert stack'[i] == stack[i];
    }
    var past, below := C.past(e.stateno), C.past(stack[m - 1].stateno);
    if m > 1 {
      assert EntryOk(T, G, C, stack, m - 1);
    }
    assert EntryOk(T, G, C, stack', m) by {
      forall j | 0 <= j < |past|
        ensures stack'[m - j].major in past[j].majors && stack'[m - j - 1].stateno in past[j].states
      {
        if j > 0 {
          assert stack[m - 1 - (j - 1)].major in below[j - 1].majors;
          assert below[j - 1].majors <= past[j - 1 + 1].majors && below[j - 1].states <= past[j - 1 + 1].states;
        }
      }
    }
  }

  /** In a good stack the table lookups cannot miss. */
  lemma GoodReady(T: Tables, G: Grammar, C: Cert, stack: seq<StackEntry>, x: nat)
    requires Certified(T, G, C) && Good(T, G, C, stack) && x < G.nTerm
    ensures Ready(T, stack, x)
    ensures var act := Act(T, Top(stack).stateno, x);
            ActionOk(T, G, C, Top(stack).stateno, x, act)
  {
    var top := |stack| - 1;
    if top > 0 {
      assert EntryOk(T, G, C, stack, top);
    }
    var s := stack[top].stateno;
    var act := Act(T, s, x);
    if s >= YY_MIN_REDUCE {
      assert PendingOk(T, G, C, s, x);
    } else {
      assert ActionOk(T, G, C, s, x, T.ShiftAction(s, x));
    }
    if YY_MAX_SHIFTREDUCE < act <= YY_MAX_REDUCE {
      ReduceUncovers(T, G, C, stack, x, act - YY_MIN_REDUCE);
    }
  }

  /** The entries popped by a reduction are there, and the state below them passed the goto check. */
  lemma ReduceUncovers(T: Tables, G: Grammar, C: Cert, stack: seq<StackEntry>, x: nat, r: nat)
    requires T.WellFormed() && Matches(T, G) && Good(T, G, C, stack)
    requires |stack| == 1 ==> C.past(0) == []
    requires ReduceOk(T, G, C, Top(stack).stateno, x, r)
    ensures |G.rhs[r]| < |stack| && Reducible(T, stack, r)
    ensures GotoOk(T, G, C, stack[|stack| - 1 - |G.rhs[r]|].stateno, Top(stack).stateno, x, r)
    ensures forall i :: 0 <= i < |G.rhs[r]| ==> Stands(T, G, stack[|stack| - |G.rhs[r]| + i].major, G.rhs[r][i])
  {
    var top, n := |stack| - 1, |G.rhs[r]|;
    var past := C.past(stack[top].stateno);
    if top > 0 {
      assert EntryOk(T, G, C, stack, top);
    }
    forall i | 0 <= i < n
      ensures Stands(T, G, stack[|stack| - n + i].major, G.rhs[r][i])
    {
      assert stack[top - (n - 1 - i)].major in past[n - 1 - i].majors;
    }
    var q := stack[top - n].stateno;
    if n > 0 {
      assert stack[top - (n - 1) - 1].stateno in past[n - 1].states;
    }
    assert GotoOk(T, G, C, q, stack[top].stateno, x, r);
  }

  lemma {:induction false} UnitPathDescends(T: Tables, G: Grammar, C: Cert, x: nat, path: seq<nat>, y: nat)
    requires Matches(T, G) && Acyclic(T, G, C) && UnitPath(T, G, x, path, y)
    ensures C.level(y) <= C.level(x)
    decreases path
  {
    if path != [] {
      assert x in G.rhs[path[0]][0];
      UnitPathDescends(T, G, C, T.ruleInfo[path[0]].lhs, path[1..], y);
    }
  }

  lemma StandsNoHigher(T: Tables, G: Grammar, C: Cert, x: nat, alternatives: set<nat>) returns (y: nat)
    requires Matches(T, G) && Acyclic(T, G, C) && Stands(T, G, x, alternatives)
    ensures y in alternatives && C.level(y) <= C.level(x)
  {
    y :| y in alternatives && Reads(T, G, x, y);
    if x >= G.nTerm {
      var path :| UnitPath(T, G, x, path, y);
      UnitPathDescends(T, G, C, x, path, y);
    }
  }

  /** `e` on top of a stack of `h` entries comes lexicographically before `e0` on top of `h0` entries. */
  predicate Below(C: Cert, h: nat, e: StackEntry, h0: nat, e0: StackEntry) {
    h < h0 || (h == h0 && C.level(e.major) < C.level(e0.major))
  }

  /** Where the one-symbol rules are acyclic, every reduction by a rule with a non-empty right-hand side
      lowers the stack, or keeps its height and lowers the top symbol. */
  lemma NonEmptyReductionDescends(T: Tables, G: Grammar, C: Cert, st: St, r: nat)
    requires Matches(T, G) && Acyclic(T, G, C) && Reducible(T, st.stack, r) && G.rhs[r] != []
    requires forall i :: 0 <= i < |G.rhs[r]| ==> Stands(T, G, st.stack[|st.stack| - |G.rhs[r]| + i].major, G.rhs[r][i])
    ensures var st' := Combine(T, st, r);
            Below(C, |st'.stack|, Top(st'.stack), |st.stack|, Top(st.stack))
  {
    if |G.rhs[r]| == 1 {
      assert Stands(T, G, st.stack[|st.stack| - 1 + 0].major, G.rhs[r][0]);
      var y := StandsNoHigher(T, G, C, Top(st.stack).major, G.rhs[r][0]);
    }
  }

  /** Height and level may be traded for fuel: an empty reduction burns fuel for one more entry. */
  lemma PotentialFalls(fuel: nat, h: nat, level: nat, fuel': nat, h': nat, level': nat, top: nat)
    requires level <= top && level' <= top && fuel' <= fuel
    requires (fuel' < fuel && h' == h + 1) || h' < h || (h' == h && level' < level)
    ensures (2 * fuel' + h') * (top + 1) + level' < (2 * fuel + h) * (top + 1) + level
  {
    if 2 * fuel' + h' < 2 * fuel + h {
      Scaled(2 * fuel' + h', 2 * fuel + h, top + 1);
    }
  }

  lemma {:induction false} Scaled(a: nat, b: nat, m: nat)
    requires a < b
    ensures a * m + m <= b * m
    decreases b
  {
    OneMore(b - 1, m);
    if a + 1 < b {
      Scaled(a, b - 1, m);
    }
  }

  lemma OneMore(a: nat, m: nat)
    ensures (a + 1) * m == a * m + m
  {
  }

  lemma CombineGood(T: Tables, G: Grammar, C: Cert, st: St, x: nat, r: nat)
    requires Certified(T, G, C) && Good(T, G, C, st.stack)
    requires ReduceOk(T, G, C, Top(st.stack).stateno, x, r)
    ensures Reducible(T, st.stack, r)
    ensures var st' := Combine(T, st, r);
            && Good(T, G, C, st'.stack)
            && if st'.log == st.log then
                 |st'.stack| > 1 && Potential(C, st'.stack, x) < Potential(C, st.stack, x)
               else
                 x == 0 && |st'.stack| == 1 && T.ruleInfo[r].lhs == G.start && WellParsed(T, G, st'.log.event.tree)
  {
    hide Potential, Acyclic;
    var stack, n, lhs := st.stack, |G.rhs[r]|, T.ruleInfo[r].lhs;
    ReduceUncovers(T, G, C, stack, x, r);
    NodeWellParsed(T, G, C, stack, r);
    var base, tree := stack[..|stack| - n], Node(r, Minors(stack[|stack| - n..]));
    PrefixGood(T, G, C, stack, |stack| - n);
    var q := stack[|stack| - 1 - n].stateno;
    assert Top(base).stateno == q;
    var act := T.Goto(q, lhs).value;
    if act <= YY_MAX_SHIFTREDUCE {
      PushGood(T, G, C, base, StackEntry(Target(act), lhs, tree));
      CombineLowers(T, G, C, st, x, r);
    } else {
      SlotZeroOnly(T, G, C, base);
    }
  }

  lemma CombineLowers(T: Tables, G: Grammar, C: Cert, st: St, x: nat, r: nat)
    requires Matches(T, G) && Acyclic(T, G, C) && Reducible(T, st.stack, r)
    requires forall i :: 0 <= i < |G.rhs[r]| ==> Stands(T, G, st.stack[|st.stack| - |G.rhs[r]| + i].major, G.rhs[r][i])
    requires T.WellFormed() && GotoOk(T, G, C, st.stack[|st.stack| - 1 - |G.rhs[r]|].stateno, Top(st.stack).stateno, x, r)
    requires Combine(T, st, r).log == st.log
    ensures Potential(C, Combine(T, st, r).stack, x) < Potential(C, st.stack, x)
  {
    hide Stands, EdgeOk, Tables.Goto, Minors, Tables.WellFormed;
    var s', s := Combine(T, st, r).stack, st.stack;
    if G.rhs[r] != [] {
      NonEmptyReductionDescends(T, G, C, st, r);
    }
    PotentialFalls(C.fuel(Top(s).stateno, x), |s|, C.level(Top(s).major),
                   C.fuel(Top(s').stateno, x), |s'|, C.level(Top(s').major), C.top);
  }

  lemma SlotZeroOnly(T: Tables, G: Grammar, C: Cert, stack: seq<StackEntry>)
    requires Matches(T, G) && Good(T, G, C, stack) && Top(stack).stateno == 0
    ensures |stack| == 1
  {
    assert |stack| > 1 ==> !EntryOk(T, G, C, stack, |stack| - 1);
  }

  lemma NodeWellParsed(T: Tables, G: Grammar, C: Cert, stack: seq<StackEntry>, r: nat)
    requires Matches(T, G) && Good(T, G, C, stack) && r < |G.rhs| && |G.rhs[r]| < |stack|
    requires forall i :: 0 <= i < |G.rhs[r]| ==> Stands(T, G, stack[|stack| - |G.rhs[r]| + i].major, G.rhs[r][i])
    ensures WellParsed(T, G, Node(r, Minors(stack[|stack| - |G.rhs[r]|..])))
  {
    var n := |G.rhs[r]|;
    var kids := Minors(stack[|stack| - n..]);
    forall i | 0 <= i < n
      ensures WellParsed(T, G, kids[i]) && Stands(T, G, Root(T, kids[i]), G.rhs[r][i])
    {
      assert EntryOk(T, G, C, stack, |stack| - n + i);
    }
  }

  lemma OverflowGood(T: Tables, G: Grammar, C: Cert, st: St)
    requires Matches(T, G) && Good(T, G, C, st.stack)
    ensures Good(T, G, C, Overflow(st).stack) && |Overflow(st).stack| == 1
    ensures |st.stack| > 1 ==> Overflow(LoseTop(st)).stack == Overflow(st).stack
  {
    hide Drain;
    PrefixGood(T, G, C, st.stack, 1);
  }

  lemma ShiftGood(T: Tables, G: Grammar, C: Cert, cap: Depth, st: St, act: nat, tok: Token)
    requires Certified(T, G, C) && Good(T, G, C, st.stack) && tok.major < G.nTerm
    requires Top(st.stack).stateno < |T.shiftOfst| && EdgeOk(T, G, C, Top(st.stack).stateno, tok.major, Target(act))
    ensures Good(T, G, C, Shift(cap, st, act, tok).stack)
  {
    hide Good, EdgeOk, Target, Acyclic;
    if Full(cap, |st.stack|) {
      OverflowGood(T, G, C, st);
    } else {
      PushGood(T, G, C, st.stack, StackEntry(Target(act), tok.major, Leaf(tok)));
    }
  }

  lemma ReduceGood(T: Tables, G: Grammar, C: Cert, cap: Depth, st: St, x: nat, r: nat)
    requires Certified(T, G, C) && Good(T, G, C, st.stack)
    requires ReduceOk(T, G, C, Top(st.stack).stateno, x, r)
    ensures Reducible(T, st.stack, r)
    ensures var st' := Reduce(T, cap, st, r);
            && Good(T, G, C, st'.stack)
            && (|st'.stack| != 1 ==> Potential(C, st'.stack, x) < Potential(C, st.stack, x))
  {
    hide Good, ReduceOk, Potential, Combine, Certified, Overflow;
    CertifiedTables(T, G, C);
    CombineGood(T, G, C, st, x, r);
    OverflowGood(T, G, C, st);
  }

  /** Every step keeps the invariant, and a step that does not end the loop lowers the potential. */
  lemma StepGood(T: Tables, G: Grammar, C: Cert, cap: Depth, st: St, tok: Token)
    requires Certified(T, G, C) && Good(T, G, C, st.stack) && tok.major < G.nTerm
    ensures Ready(T, st.stack, tok.major)
    ensures var next := Step(T, cap, st, tok);
            && Good(T, G, C, next.st.stack)
            && (!next.done ==> Potential(C, next.st.stack, tok.major) < Potential(C, st.stack, tok.major))
  {
    hide Good, ReduceOk, EdgeOk, Potential, Shift, Reduce, Acyclic;
    GoodReady(T, G, C, st.stack, tok.major);
    var act := Act(T, Top(st.stack).stateno, tok.major);
    if act <= YY_MAX_SHIFTREDUCE {
      ShiftGood(T, G, C, cap, st, act, tok);
    } else if act <= YY_MAX_REDUCE {
      ReduceGood(T, G, C, cap, st, tok.major, act - YY_MIN_REDUCE);
    }
  }

  lemma InitGood(T: Tables, G: Grammar, C: Cert)
    requires Certified(T, G, C)
    ensures Matches(T, G) && Good(T, G, C, INIT.stack)
  {
  }

  // ---- One call of the driver, and a whole run ----

  /** The driver loop for one token.  Its termination is part of the definition. */
  ghost function Feed(T: Tables, G: Grammar, C: Cert, cap: Depth, st: St, tok: Token): (st': St)
    requires Certified(T, G, C) && Good(T, G, C, st.stack) && tok.major < G.nTerm
    ensures Good(T, G, C, st'.stack)
    decreases Potential(C, st.stack, tok.major)
  {
    StepGood(T, G, C, cap, st, tok);
    var next := Step(T, cap, st, tok);
    if next.done then next.st else Feed(T, G, C, cap, next.st, tok)
  }

  /** One turn of the loop. */
  lemma FeedUnfolds(T: Tables, G: Grammar, C: Cert, cap: Depth, st: St, tok: Token)
    requires Certified(T, G, C) && Good(T, G, C, st.stack) && tok.major < G.nTerm
    ensures Ready(T, st.stack, tok.major)
    ensures var next := Step(T, cap, st, tok);
            && Good(T, G, C, next.st.stack)
            && (!next.done ==> Potential(C, next.st.stack, tok.major) < Potential(C, st.stack, tok.major))
            && Feed(T, G, C, cap, st, tok) == if next.done then next.st else Feed(T, G, C, cap, next.st, tok)
  {
    StepGood(T, G, C, cap, st, tok);
  }

  ghost predicate Tokens(G: Grammar, toks: seq<Token>) {
    forall i :: 0 <= i < |toks| ==> toks[i].major < G.nTerm
  }

  ghost function Run(T: Tables, G: Grammar, C: Cert, cap: Depth, st: St, toks: seq<Token>): (st': St)
    requires Certified(T, G, C) && Good(T, G, C, st.stack) && Tokens(G, toks)
    ensures Good(T, G, C, st'.stack)
    decreases |toks|
  {
    if toks == [] then st
    else
      Feed(T, G, C, cap, Run(T, G, C, cap, st, toks[..|toks| - 1]), toks[|toks| - 1])
  }
}
