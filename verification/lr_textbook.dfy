/** The driver against the textbook shift/reduce machine.

    The textbook machine has a move for every state and terminal and a goto for every state and
    nonterminal.  Every move enters a real state: there are no parked reductions, no unit rules optimised
    out, no fallback tokens and no packed arrays. */
module LrTextbook {
  import opened Wrappers
  import opened LrTables
  import opened Grammars
  import opened LrMachine
  import opened LrBounds
  import opened LrUnitRules

  datatype Move = ShiftTo(state: nat) | ReduceBy(rule: nat) | Fail
  datatype Next = GoTo(state: nat) | Accept
  datatype Lr = Lr(move: (nat, nat) -> Move, next: (nat, nat) -> Option<Next>, rules: seq<RuleInfo>)

  // ---- The textbook machine ----

  /** The move in this configuration can be made. */
  predicate CanMove(P: Lr, stack: seq<StackEntry>, x: nat) {
    && stack != []
    && match P.move(Top(stack).stateno, x)
       case ReduceBy(r) =>
         && r < |P.rules| && P.rules[r].nrhs < |stack|
         && P.next(stack[|stack| - 1 - P.rules[r].nrhs].stateno, P.rules[r].lhs).Some?
       case _ => true
  }

  function PlainReduce(P: Lr, cap: Depth, st: St, r: nat): St
    requires r < |P.rules| && P.rules[r].nrhs < |st.stack|
    requires P.next(st.stack[|st.stack| - 1 - P.rules[r].nrhs].stateno, P.rules[r].lhs).Some?
  {
    var h, n, lhs := |st.stack|, P.rules[r].nrhs, P.rules[r].lhs;
    var tree := Node(r, Minors(st.stack[h - n..]));
    if n == 0 && Full(cap, h) then Overflow(LoseTop(st))
    else
      match P.next(st.stack[h - 1 - n].stateno, lhs).value
      case GoTo(s) => St(st.stack[..h - n] + [StackEntry(s, lhs, tree)], st.log, st.lost)
      case Accept => St(st.stack[..h - n], After(st.log, Accepted(tree)), st.lost)
  }

  function PlainStep(P: Lr, cap: Depth, st: St, tok: Token): Stepped
    requires CanMove(P, st.stack, tok.major)
  {
    match P.move(Top(st.stack).stateno, tok.major)
    case ShiftTo(s) =>
      Stepped(if Full(cap, |st.stack|) then Overflow(st)
              else St(st.stack + [StackEntry(s, tok.major, Leaf(tok))], After(st.log, Shifted(tok)), st.lost), true)
    case ReduceBy(r) =>
      var st' := PlainReduce(P, cap, st, r);
      Stepped(st', |st'.stack| == 1)
    case Fail =>
      Stepped(St(st.stack, After(st.log, SyntaxError(tok)), st.lost), true)
  }

  /** One token, in at most `turns` steps; None if the machine is stuck or not done by then. */
  function PlainCall(P: Lr, cap: Depth, st: St, tok: Token, turns: nat): Option<St>
    decreases turns
  {
    if turns == 0 || !CanMove(P, st.stack, tok.major) then None
    else
      var next := PlainStep(P, cap, st, tok);
      if next.done then Some(next.st) else PlainCall(P, cap, next.st, tok, turns - 1)
  }

  ghost predicate Processes(P: Lr, cap: Depth, st: St, tok: Token, st': St) {
    exists turns: nat :: PlainCall(P, cap, st, tok, turns) == Some(st')
  }

  /** The textbook machine can process `toks` and is in `st` afterwards. */
  ghost predicate PlainRun(P: Lr, cap: Depth, toks: seq<Token>, st: St)
    decreases |toks|
  {
    if toks == [] then st == INIT
    else
      var front, tok := toks[..|toks| - 1], toks[|toks| - 1];
      exists before: St :: PlainRun(P, cap, front, before) && Processes(P, cap, before, tok, st)
  }

  // ---- What parked tables stand for ----

  /** The real state behind a stack entry's `stateno`: `own(r)` if the reduction by `r` is parked in it. */
  function StateOf(stateno: nat, own: nat -> nat): nat {
    if stateno >= YY_MIN_REDUCE then own(stateno - YY_MIN_REDUCE) else stateno
  }

  function MoveOf(act: nat, own: nat -> nat): Move {
    if act <= YY_MAX_SHIFTREDUCE then ShiftTo(StateOf(Target(act), own))
    else if act <= YY_MAX_REDUCE then ReduceBy(act - YY_MIN_REDUCE)
    else Fail
  }

  function NextOf(act: nat, own: nat -> nat): Next {
    if act <= YY_MAX_SHIFTREDUCE then GoTo(StateOf(Target(act), own)) else Accept
  }

  ghost predicate ReducesOnly(P: Lr, G: Grammar, s: nat, r: nat) {
    forall x :: 0 <= x < G.nTerm ==> P.move(s, x) == ReduceBy(r)
  }

  /** If the entry `stateno` parks a rule, the real state behind it reduces that rule on every token. */
  ghost predicate Backed(P: Lr, G: Grammar, own: nat -> nat, stateno: nat) {
    stateno >= YY_MIN_REDUCE ==> ReducesOnly(P, G, own(stateno - YY_MIN_REDUCE), stateno - YY_MIN_REDUCE)
  }

  /** `T` is `P` with every entry to a state that only reduces replaced by the parked reduction. */
  ghost predicate Parks(P: Lr, T: Tables, G: Grammar, own: nat -> nat) {
    && T.WellFormed() && P.rules == T.ruleInfo
    && (forall s, x :: 0 <= s < |T.shiftOfst| && 0 <= x < G.nTerm ==> ParksMove(P, T, G, own, s, x))
    && (forall s, x :: 0 <= s < |T.shiftOfst| && x >= G.nTerm && T.Goto(s, x).Some? ==> ParksNext(P, T, G, own, s, x))
  }

  ghost predicate ParksMove(P: Lr, T: Tables, G: Grammar, own: nat -> nat, s: nat, x: nat)
    requires T.WellFormed() && s < |T.shiftOfst|
  {
    var act := T.ShiftAction(s, x);
    P.move(s, x) == MoveOf(act, own) && (act <= YY_MAX_SHIFTREDUCE ==> Backed(P, G, own, Target(act)))
  }

  ghost predicate ParksNext(P: Lr, T: Tables, G: Grammar, own: nat -> nat, s: nat, x: nat)
    requires T.WellFormed() && T.Goto(s, x).Some?
  {
    var act := T.Goto(s, x).value;
    P.next(s, x) == Some(NextOf(act, own)) && (act <= YY_MAX_SHIFTREDUCE ==> Backed(P, G, own, Target(act)))
  }

  /** Every table is the parked form of some textbook machine, with one state more for each rule. */
  ghost function PlainForm(T: Tables): Lr
    requires T.WellFormed()
  {
    var n := |T.shiftOfst|;
    var own := (r: nat) => n + r;
    Lr((s: nat, x: nat) => if s < n then MoveOf(T.ShiftAction(s, x), own) else ReduceBy(s - n),
       (s: nat, x: nat) => if T.Goto(s, x).Some? then Some(NextOf(T.Goto(s, x).value, own)) else None,
       T.ruleInfo)
  }

  lemma EveryTableParks(T: Tables, G: Grammar)
    requires T.WellFormed()
    ensures Parks(PlainForm(T), T, G, (r: nat) => |T.shiftOfst| + r)
  {
    hide Tables.ShiftAction, Tables.Goto, Tables.WellFormed;
  }

  // ---- The simulation ----

  /** The textbook state behind a state of the driver: the same but for the top entry's `stateno`. */
  function Unparked(st: St, own: nat -> nat): St
    requires st.stack != []
  {
    St(UnparkedStack(st.stack, own), st.log, st.lost)
  }

  function UnparkedStack(stack: seq<StackEntry>, own: nat -> nat): seq<StackEntry>
    requires stack != []
  {
    stack[|stack| - 1 := Top(stack).(stateno := StateOf(Top(stack).stateno, own))]
  }

  lemma {:induction false} DrainIgnoresStates(log: Log, s0: seq<StackEntry>, s1: seq<StackEntry>)
    requires |s0| == |s1| && forall k :: 0 <= k < |s0| ==> s0[k].major == s1[k].major && s0[k].minor == s1[k].minor
    ensures Drain(log, s0) == Drain(log, s1)
    decreases |s0|
  {
    if |s0| > 1 {
      DrainIgnoresStates(After(log, Destroyed(Top(s0).major, Top(s0).minor)), s0[..|s0| - 1], s1[..|s1| - 1]);
    }
  }

  /** After an overflow only slot 0 is left, which parks nothing. */
  lemma OverflowsAlike(st: St, own: nat -> nat)
    requires |st.stack| > 1 && st.stack[0].stateno == 0
    ensures Overflow(Unparked(st, own)) == Unparked(Overflow(st), own)
    ensures Overflow(LoseTop(Unparked(st, own))) == Unparked(Overflow(LoseTop(st)), own)
  {
    hide Drain;
    DrainIgnoresStates(st.log, UnparkedStack(st.stack, own), st.stack);
    assert UnparkedStack(st.stack, own)[..|st.stack| - 1] == st.stack[..|st.stack| - 1];
    assert UnparkedStack(st.stack, own)[..1] == st.stack[..1];
  }

  lemma PushUnparked(base: seq<StackEntry>, e: StackEntry, own: nat -> nat)
    ensures UnparkedStack(base + [e], own) == base + [e.(stateno := StateOf(e.stateno, own))]
  {
  }

  lemma UnparkedMinors(stack: seq<StackEntry>, own: nat -> nat, k: nat)
    requires stack != [] && k <= |stack|
    ensures Minors(UnparkedStack(stack, own)[k..]) == Minors(stack[k..])
    ensures k < |stack| ==> UnparkedStack(stack, own)[..k] == stack[..k]
    ensures Top(stack).stateno < YY_MIN_REDUCE ==> UnparkedStack(stack, own) == stack
  {
  }

  lemma ShiftsAlike(cap: Depth, st: St, act: nat, tok: Token, own: nat -> nat)
    requires st.stack != [] && st.stack[0].stateno == 0 && Top(st.stack).stateno < YY_MIN_REDUCE
    ensures Unparked(Shift(cap, st, act, tok), own)
            == if Full(cap, |st.stack|) then Overflow(st)
               else St(st.stack + [StackEntry(StateOf(Target(act), own), tok.major, Leaf(tok))],
                       After(st.log, Shifted(tok)), st.lost)
  {
    hide Overflow, StateOf, Target;
    if Full(cap, |st.stack|) {
      OverflowsAlike(st, own);
      UnparkedMinors(st.stack, own, 0);
    } else {
      PushUnparked(st.stack, StackEntry(Target(act), tok.major, Leaf(tok)), own);
    }
  }

  lemma CombinesAlike(P: Lr, T: Tables, st: St, r: nat, own: nat -> nat)
    requires Reducible(T, st.stack, r) && P.rules == T.ruleInfo
    requires var q, lhs := st.stack[|st.stack| - 1 - T.ruleInfo[r].nrhs].stateno, T.ruleInfo[r].lhs;
             q < YY_MIN_REDUCE && P.next(q, lhs) == Some(NextOf(T.Goto(q, lhs).value, own))
    ensures var s0 := UnparkedStack(st.stack, own);
            && P.rules[r].nrhs < |s0| == |st.stack| && P.next(s0[|s0| - 1 - P.rules[r].nrhs].stateno, P.rules[r].lhs).Some?
            && PlainReduce(P, None, Unparked(st, own), r) == Unparked(Combine(T, st, r), own)
  {
    hide Tables.Goto, Minors, StateOf, Target;
    var h, n, lhs := |st.stack|, T.ruleInfo[r].nrhs, T.ruleInfo[r].lhs;
    var base, q := st.stack[..h - n], st.stack[h - 1 - n].stateno;
    RealUnchanged(st.stack, own, h - n);
    UnparkedMinors(st.stack, own, h - n);
    var act, tree := T.Goto(q, lhs).value, Node(r, Minors(st.stack[h - n..]));
    assert Top(base).stateno == q;
    RealUnchanged(base, own, |base|);
    if act <= YY_MAX_SHIFTREDUCE {
      PushUnparked(base, StackEntry(Target(act), lhs, tree), own);
    } else {
      assert base[..|base|] == base && UnparkedStack(base, own)[..|base|] == UnparkedStack(base, own);
    }
  }

  /** The entries up to one with a real state are the same in both machines. */
  lemma RealUnchanged(stack: seq<StackEntry>, own: nat -> nat, k: nat)
    requires 0 < k <= |stack| && stack[k - 1].stateno < YY_MIN_REDUCE
    ensures UnparkedStack(stack, own)[..k] == stack[..k]
    ensures UnparkedStack(stack, own)[k - 1] == stack[k - 1]
  {
  }

  lemma ReducesAlike(P: Lr, T: Tables, G: Grammar, C: Cert, cap: Depth, st: St, x: nat, r: nat, own: nat -> nat)
    requires Certified(T, G, C) && Good(T, G, C, st.stack) && Parks(P, T, G, own)
    requires ReduceOk(T, G, C, Top(st.stack).stateno, x, r)
    ensures Reducible(T, st.stack, r)
    ensures var n, s0 := T.ruleInfo[r].nrhs, UnparkedStack(st.stack, own);
            && r < |P.rules| && P.rules[r] == T.ruleInfo[r] && n < |s0|
            && P.next(s0[|s0| - 1 - n].stateno, P.rules[r].lhs).Some?
            && PlainReduce(P, cap, Unparked(st, own), r) == Unparked(Reduce(T, cap, st, r), own)
            && Backed(P, G, own, Top(Reduce(T, cap, st, r).stack).stateno)
  {
    hide Good, Overflow, LoseTop, Tables.Goto, Tables.WellFormed, Matches, Acyclic, EdgeOk, Minors, UnparkedStack, Stands,
         ReduceOk, NextOf, Backed;
    CertifiedTables(T, G, C);
    ReduceUncovers(T, G, C, st.stack, x, r);
    LhsIsNonterminal(T, G, r);
    GotoIsReflected(P, T, G, C, st, x, r, own);
    CombinesAlike(P, T, st, r, own);
    if T.ruleInfo[r].nrhs == 0 && Full(cap, |st.stack|) {
      SlotZero(T, G, C, st.stack);
      OverflowsAlike(st, own);
      OverflowedBacked(P, G, own, st);
    }
  }

  lemma OverflowedBacked(P: Lr, G: Grammar, own: nat -> nat, st: St)
    requires |st.stack| > 1 && st.stack[0].stateno == 0
    ensures Backed(P, G, own, Top(Overflow(st).stack).stateno)
    ensures Backed(P, G, own, Top(Overflow(LoseTop(st)).stack).stateno)
  {
  }

  /** The entry pushed by a reduction stands for a real state, and so does slot 0 after an acceptance. */
  lemma GotoIsReflected(P: Lr, T: Tables, G: Grammar, C: Cert, st: St, x: nat, r: nat, own: nat -> nat)
    requires Matches(T, G) && Parks(P, T, G, own) && r < |G.rhs| && Reducible(T, st.stack, r)
    requires GotoOk(T, G, C, st.stack[|st.stack| - 1 - |G.rhs[r]|].stateno, Top(st.stack).stateno, x, r)
    ensures var q, lhs := st.stack[|st.stack| - 1 - T.ruleInfo[r].nrhs].stateno, T.ruleInfo[r].lhs;
            q < YY_MIN_REDUCE && P.next(q, lhs) == Some(NextOf(T.Goto(q, lhs).value, own))
    ensures Backed(P, G, own, Top(Combine(T, st, r).stack).stateno)
  {
    hide Tables.Goto, NextOf, EdgeOk, ReducesOnly, Minors;
    var q, lhs := st.stack[|st.stack| - 1 - T.ruleInfo[r].nrhs].stateno, T.ruleInfo[r].lhs;
    LhsIsNonterminal(T, G, r);
    assert ParksNext(P, T, G, own, q, lhs);
  }

  lemma SlotZero(T: Tables, G: Grammar, C: Cert, stack: seq<StackEntry>)
    requires Matches(T, G) && Good(T, G, C, stack)
    ensures stack[0].stateno == 0
  {
  }

  lemma LhsIsNonterminal(T: Tables, G: Grammar, r: nat)
    requires Matches(T, G) && r < |G.rhs|
    ensures r < |T.ruleInfo| && T.ruleInfo[r].lhs >= G.nTerm && T.ruleInfo[r].nrhs == |G.rhs[r]|
  {
  }

  /** What the simulation keeps besides equality: the top entry stands for a real state. */
  ghost predicate Simulated(P: Lr, T: Tables, G: Grammar, C: Cert, own: nat -> nat, st: St)
    requires Matches(T, G)
  {
    st.stack != [] && Good(T, G, C, st.stack) && Backed(P, G, own, Top(st.stack).stateno)
  }

  lemma MovesAlike(P: Lr, T: Tables, G: Grammar, C: Cert, own: nat -> nat, st: St, x: nat)
    requires Certified(T, G, C) && Parks(P, T, G, own) && Simulated(P, T, G, C, own, st) && x < G.nTerm
    ensures Ready(T, st.stack, x)
    ensures var act := Act(T, Top(st.stack).stateno, x);
            && P.move(Top(UnparkedStack(st.stack, own)).stateno, x) == MoveOf(act, own)
            && (act <= YY_MAX_SHIFTREDUCE ==> Top(st.stack).stateno < YY_MIN_REDUCE && Backed(P, G, own, Target(act)))
            && (Top(st.stack).stateno >= YY_MIN_REDUCE ==> YY_MAX_SHIFTREDUCE < act <= YY_MAX_REDUCE)
  {
    hide Certified, Acyclic, ReduceOk, EdgeOk, Tables.ShiftAction, Tables.WellFormed, Stands;
    CertifiedTables(T, G, C);
    GoodReady(T, G, C, st.stack, x);
    var s := Top(st.stack).stateno;
    if s < YY_MIN_REDUCE {
      assert ParksMove(P, T, G, own, s, x);
    } else {
      PendingIsRule(T, G, C, st.stack);
    }
  }

  lemma PendingIsRule(T: Tables, G: Grammar, C: Cert, stack: seq<StackEntry>)
    requires T.WellFormed() && Matches(T, G) && Good(T, G, C, stack) && Top(stack).stateno >= YY_MIN_REDUCE
    ensures Top(stack).stateno <= YY_MAX_REDUCE
  {
    assert EntryOk(T, G, C, stack, |stack| - 1);
  }

  /** One step of the driver is one step of the textbook machine. */
  lemma StepsAlike(P: Lr, T: Tables, G: Grammar, C: Cert, own: nat -> nat, cap: Depth, st: St, tok: Token)
    requires Certified(T, G, C) && Parks(P, T, G, own) && Simulated(P, T, G, C, own, st) && tok.major < G.nTerm
    ensures Ready(T, st.stack, tok.major) && CanMove(P, UnparkedStack(st.stack, own), tok.major)
    ensures var next, plain := Step(T, cap, st, tok), PlainStep(P, cap, Unparked(st, own), tok);
            && Simulated(P, T, G, C, own, next.st)
            && plain == Stepped(Unparked(next.st, own), next.done)
  {
    hide Good, Certified, Acyclic, ReduceOk, EdgeOk, Tables.ShiftAction, Tables.WellFormed, Stands, Parks, Reduce, PlainReduce, Shift,
         Potential, Backed, Overflow, Target, StateOf, Matches;
    CertifiedTables(T, G, C);
    StepGood(T, G, C, cap, st, tok);
    GoodReady(T, G, C, st.stack, tok.major);
    MovesAlike(P, T, G, C, own, st, tok.major);
    SlotZero(T, G, C, st.stack);
    NotEmpty(T, G, C, Step(T, cap, st, tok).st.stack);
    var act := Act(T, Top(st.stack).stateno, tok.major);
    if act <= YY_MAX_SHIFTREDUCE {
      ShiftsAlike(cap, st, act, tok, own);
      ShiftedBacked(P, G, own, cap, st, act, tok);
      UnparkedMinors(st.stack, own, 0);
    } else if act <= YY_MAX_REDUCE {
      ReducesAlike(P, T, G, C, cap, st, tok.major, act - YY_MIN_REDUCE, own);
    }
  }

  lemma NotEmpty(T: Tables, G: Grammar, C: Cert, stack: seq<StackEntry>)
    requires Matches(T, G) && Good(T, G, C, stack)
    ensures stack != []
  {
  }

  lemma ShiftedBacked(P: Lr, G: Grammar, own: nat -> nat, cap: Depth, st: St, act: nat, tok: Token)
    requires st.stack != [] && st.stack[0].stateno == 0 && Backed(P, G, own, Target(act))
    ensures Shift(cap, st, act, tok).stack != [] && Backed(P, G, own, Top(Shift(cap, st, act, tok).stack).stateno)
  {
  }

  /** One call of the driver is one call of the textbook machine, in the same number of turns. */
  lemma {:induction false} CallsAlike(P: Lr, T: Tables, G: Grammar, C: Cert, own: nat -> nat, cap: Depth, st: St, tok: Token, turns: nat)
    requires Certified(T, G, C) && Parks(P, T, G, own) && Simulated(P, T, G, C, own, st) && tok.major < G.nTerm
    ensures var st' := Feed(T, G, C, cap, st, tok);
            && Simulated(P, T, G, C, own, st')
            && PlainCall(P, cap, Unparked(st, own), tok, turns)
               == if turns < Turns(T, G, C, cap, st, tok) then None else Some(Unparked(st', own))
    decreases Potential(C, st.stack, tok.major)
  {
    hide Good, Certified, Acyclic, Parks, Step, PlainStep, Potential, UnparkedStack, Backed, CanMove;
    CertifiedTables(T, G, C);
    StepsAlike(P, T, G, C, own, cap, st, tok);
    FeedUnfolds(T, G, C, cap, st, tok);
    var next := Step(T, cap, st, tok);
    if !next.done {
      CallsAlike(P, T, G, C, own, cap, next.st, tok, if turns == 0 then 0 else turns - 1);
    }
  }

  /** On every token stream the driver's run is the textbook machine's run: that machine gets through, and
      the events, values and stacks are equal but for the `stateno` of the top entry, in which the driver may
      park a reduction for which the textbook machine has a state of its own. */
  lemma {:induction false} ParkingIsPlain(P: Lr, T: Tables, G: Grammar, C: Cert, own: nat -> nat, cap: Depth, toks: seq<Token>, st0: St)
    requires Certified(T, G, C) && Parks(P, T, G, own) && Tokens(G, toks)
    ensures Good(T, G, C, INIT.stack) && Simulated(P, T, G, C, own, Run(T, G, C, cap, INIT, toks))
    ensures PlainRun(P, cap, toks, st0) <==> st0 == Unparked(Run(T, G, C, cap, INIT, toks), own)
    decreases |toks|
  {
    hide Good, Certified, Acyclic, Parks, Backed, Unparked, PlainCall;
    CertifiedTables(T, G, C);
    InitGood(T, G, C);
    InitUnparked(P, G, own);
    if toks != [] {
      var front, tok := toks[..|toks| - 1], toks[|toks| - 1];
      var st := Run(T, G, C, cap, INIT, front);
      ParkingIsPlain(P, T, G, C, own, cap, front, INIT);
      forall before: St
        ensures PlainRun(P, cap, front, before) <==> before == Unparked(st, own)
      {
        ParkingIsPlain(P, T, G, C, own, cap, front, before);
      }
      ProcessesAlike(P, T, G, C, own, cap, st, tok, st0);
    }
  }

  lemma ProcessesAlike(P: Lr, T: Tables, G: Grammar, C: Cert, own: nat -> nat, cap: Depth, st: St, tok: Token, st0: St)
    requires Certified(T, G, C) && Parks(P, T, G, own) && Simulated(P, T, G, C, own, st) && tok.major < G.nTerm
    ensures Simulated(P, T, G, C, own, Feed(T, G, C, cap, st, tok))
    ensures Processes(P, cap, Unparked(st, own), tok, st0) <==> st0 == Unparked(Feed(T, G, C, cap, st, tok), own)
  {
    hide Good, Certified, Acyclic, Parks, Backed, Unparked, PlainCall;
    CallsAlike(P, T, G, C, own, cap, st, tok, 0);
    forall turns: nat
      ensures PlainCall(P, cap, Unparked(st, own), tok, turns)
              == if turns < Turns(T, G, C, cap, st, tok) then None else Some(Unparked(Feed(T, G, C, cap, st, tok), own))
    {
      CallsAlike(P, T, G, C, own, cap, st, tok, turns);
    }
    assert PlainCall(P, cap, Unparked(st, own), tok, Turns(T, G, C, cap, st, tok)) == Some(Unparked(Feed(T, G, C, cap, st, tok), own));
  }

  lemma InitUnparked(P: Lr, G: Grammar, own: nat -> nat)
    ensures Unparked(INIT, own) == INIT && Backed(P, G, own, Top(INIT.stack).stateno)
  {
  }

  // ---- Both optimisations together ----

  /** The optimised driver against the textbook machine in which every rule, unit rules included, has its own
      reduction: on every token stream the textbook machine gets through, in one way, and there are the same
      shifts, syntax errors, overflows and acceptances in the same order, with the same trees up to unit nodes,
      in the events and on the stack. */
  lemma OptimisedRefinesTextbook(P: Lr, T0: Tables, T1: Tables, G: Grammar, C0: Cert, C1: Cert, own: nat -> nat,
                                 cap: Depth, toks: seq<Token>) returns (st0: St)
    requires Parks(P, T0, Plain(G), own) && Optimises(T0, T1, G)
    requires Certified(T0, Plain(G), C0) && Certified(T1, G, C1) && Tokens(G, toks)
    ensures forall st :: PlainRun(P, cap, toks, st) <==> st == st0
    ensures Good(T1, G, C1, INIT.stack)
    ensures var st1 := Run(T1, G, C1, cap, INIT, toks);
            && LogsAgree(G, st0.log, st1.log) && LossesAgree(G, st0.lost, st1.lost)
            && |st0.stack| == |st1.stack|
            && forall k :: 0 <= k < |st0.stack| ==> SameTree(G, st0.stack[k].minor, st1.stack[k].minor)
  {
    hide Good, Certified, Parks, SameTree, LogsAgree, Optimises, PlainRun, StateOf;
    OptimisedTables(T0, T1, G);
    ParkingIsPlain(P, T0, Plain(G), C0, own, cap, toks, INIT);
    st0 := Unparked(Run(T0, Plain(G), C0, cap, INIT, toks), own);
    forall st
      ensures PlainRun(P, cap, toks, st) <==> st == st0
    {
      ParkingIsPlain(P, T0, Plain(G), C0, own, cap, toks, st);
    }
    UnitRulesMayBeOptimisedOut(T0, T1, G, C0, C1, cap, toks);
    AgreeingTrees(T1, G, Run(T0, Plain(G), C0, cap, INIT, toks), Run(T1, G, C1, cap, INIT, toks));
  }

  lemma AgreeingTrees(T1: Tables, G: Grammar, st0: St, st1: St)
    requires Matches(T1, G) && T1.WellFormed() && Agree(T1, G, st0, st1)
    ensures |st0.stack| == |st1.stack| > 0 && LogsAgree(G, st0.log, st1.log) && LossesAgree(G, st0.lost, st1.lost)
    ensures forall k :: 0 <= k < |st0.stack| ==> SameTree(G, st0.stack[k].minor, st1.stack[k].minor)
  {
    hide SameTree, LogsAgree;
    assert SameEntry(G, Top(st0.stack), Top(st1.stack)) || Lagging(T1, G, st0.stack, st1.stack);
  }
}
