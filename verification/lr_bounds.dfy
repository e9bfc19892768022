/** The 100-entry stack against an unbounded one, and a bound on the work of one call. */
module LrBounds {
  import opened Wrappers
  import opened LrTables
  import opened Grammars
  import opened LrMachine
  import opened LrSoundness

  function Max(a: nat, b: nat): nat {
    if a < b then b else a
  }

  /** The greatest number of entries the unbounded machine has on its stack during one call. */
  ghost function Peak(T: Tables, G: Grammar, C: Cert, st: St, tok: Token): nat
    requires Certified(T, G, C) && Good(T, G, C, st.stack) && tok.major < G.nTerm
    decreases Potential(C, st.stack, tok.major)
  {
    FeedUnfolds(T, G, C, None, st, tok);
    var next := Step(T, None, st, tok);
    Max(|st.stack|, if next.done then |next.st.stack| else Peak(T, G, C, next.st, tok))
  }

  ghost function RunPeak(T: Tables, G: Grammar, C: Cert, toks: seq<Token>): nat
    requires Certified(T, G, C) && Good(T, G, C, INIT.stack) && Tokens(G, toks)
    decreases |toks|
  {
    if toks == [] then 1
    else
      var front := toks[..|toks| - 1];
      Max(RunPeak(T, G, C, front), Peak(T, G, C, Run(T, G, C, None, INIT, front), toks[|toks| - 1]))
  }

  /** The overflow report of one call: everything destroyed but slot 0, one event at the end. */
  ghost predicate Overflowed(before: Log, st: St) {
    && |st.stack| == 1 && st.log.After? && st.log.event == StackOverflow
    && OverflowCount(st.log) == OverflowCount(before) + 1
  }

  lemma OverflowedBy(st: St)
    requires st.stack != []
    ensures Overflowed(st.log, Overflow(st))
  {
    DrainReleases(st.log, st.stack);
  }

  lemma StepAgrees(T: Tables, G: Grammar, C: Cert, n: nat, st: St, tok: Token)
    requires Certified(T, G, C) && Good(T, G, C, st.stack) && tok.major < G.nTerm
    requires n > 1 && |st.stack| <= n
    ensures Ready(T, st.stack, tok.major)
    ensures var bounded, free := Step(T, Some(n), st, tok), Step(T, None, st, tok);
            && OverflowCount(free.st.log) == OverflowCount(st.log)
            && if |free.st.stack| <= n then bounded == free else bounded.done && Overflowed(st.log, bounded.st)
  {
    hide Good, ReduceOk, EdgeOk, Certified, Matches, Overflow, Overflowed, T.WellFormed;
    GoodReady(T, G, C, st.stack, tok.major);
    OverflowedBy(st);
    if |st.stack| > 1 {
      OverflowedBy(LoseTop(st));
    }
    var act := Act(T, Top(st.stack).stateno, tok.major);
    if YY_MAX_SHIFTREDUCE < act <= YY_MAX_REDUCE {
      CombineGood(T, G, C, st, tok.major, act - YY_MIN_REDUCE);
    }
  }

  /** One call of the bounded machine does what the unbounded machine does, unless that machine would
      need one entry more than there are; then it reports the overflow once and keeps slot 0 only. */
  lemma {:induction false} FeedAgrees(T: Tables, G: Grammar, C: Cert, n: nat, st: St, tok: Token)
    requires Certified(T, G, C) && Good(T, G, C, st.stack) && tok.major < G.nTerm
    requires n > 1 && |st.stack| <= n
    ensures var bounded, free := Feed(T, G, C, Some(n), st, tok), Feed(T, G, C, None, st, tok);
            if Peak(T, G, C, st, tok) <= n then
              bounded == free && OverflowCount(free.log) == OverflowCount(st.log) && |free.stack| <= n
            else Overflowed(st.log, bounded)
    decreases Potential(C, st.stack, tok.major)
  {
    hide Step, Good, Certified;
    FeedUnfolds(T, G, C, None, st, tok);
    FeedUnfolds(T, G, C, Some(n), st, tok);
    StepAgrees(T, G, C, n, st, tok);
    var free := Step(T, None, st, tok);
    if !free.done && |free.st.stack| <= n {
      FeedAgrees(T, G, C, n, free.st, tok);
    }
    PeakCovers(T, G, C, st, tok);
  }

  lemma PeakCovers(T: Tables, G: Grammar, C: Cert, st: St, tok: Token)
    requires Certified(T, G, C) && Good(T, G, C, st.stack) && tok.major < G.nTerm
    ensures Ready(T, st.stack, tok.major)
    ensures var next := Step(T, None, st, tok);
            && |next.st.stack| <= Peak(T, G, C, st, tok)
            && (!next.done ==> Good(T, G, C, next.st.stack) && (Peak(T, G, C, st, tok) == Max(|st.stack|, Peak(T, G, C, next.st, tok))))
            && (next.done ==> Peak(T, G, C, st, tok) == Max(|st.stack|, |next.st.stack|))
  {
    FeedUnfolds(T, G, C, None, st, tok);
  }

  lemma {:induction false} CountKept(before: Log, log: Log)
    requires OnlyDestroys(before, log)
    ensures OverflowCount(log) == OverflowCount(before)
    decreases log
  {
    if log != before {
      CountKept(before, log.prev);
    }
  }

  /** A whole run of the bounded parser reports no overflow exactly when the unbounded machine never
      needs more than `n` entries, and then both make the same run. */
  lemma {:induction false} RunAgrees(T: Tables, G: Grammar, C: Cert, n: nat, toks: seq<Token>)
    requires Certified(T, G, C) && Tokens(G, toks) && n > 1
    ensures Good(T, G, C, INIT.stack)
    ensures var bounded := Run(T, G, C, Some(n), INIT, toks);
            && (OverflowCount(bounded.log) == 0 <==> RunPeak(T, G, C, toks) <= n)
            && (RunPeak(T, G, C, toks) <= n ==> bounded == Run(T, G, C, None, INIT, toks) && |bounded.stack| <= n)
    decreases |toks|
  {
    if toks != [] {
      var front, tok := toks[..|toks| - 1], toks[|toks| - 1];
      RunAgrees(T, G, C, n, front);
      var st := Run(T, G, C, Some(n), INIT, front);
      if RunPeak(T, G, C, front) <= n {
        FeedAgrees(T, G, C, n, st, tok);
      } else {
        FeedVerdict(T, G, C, Some(n), st, tok);
        CountNeverFalls(st.log, Feed(T, G, C, Some(n), st, tok).log, tok);
      }
    }
  }

  lemma CountNeverFalls(before: Log, after: Log, tok: Token)
    requires Verdict(before, after, tok)
    ensures OverflowCount(after) >= OverflowCount(before)
  {
    if after.event.StackOverflow? {
      CountKept(before, after.prev);
    }
  }

  // ---- Work per call ----

  /** The number of turns of the driver loop in one call. */
  ghost function Turns(T: Tables, G: Grammar, C: Cert, cap: Depth, st: St, tok: Token): nat
    requires Certified(T, G, C) && Good(T, G, C, st.stack) && tok.major < G.nTerm
    decreases Potential(C, st.stack, tok.major)
  {
    FeedUnfolds(T, G, C, cap, st, tok);
    var next := Step(T, cap, st, tok);
    1 + if next.done then 0 else Turns(T, G, C, cap, next.st, tok)
  }

  /** The turns of one call are bounded by the height of the stack, the bound on empty reductions and the
      height of the order of the symbols. */
  lemma {:induction false} TurnsBounded(T: Tables, G: Grammar, C: Cert, cap: Depth, st: St, tok: Token)
    requires Certified(T, G, C) && Good(T, G, C, st.stack) && tok.major < G.nTerm
    ensures Turns(T, G, C, cap, st, tok)
            <= 1 + (2 * C.fuel(Top(st.stack).stateno, tok.major) + |st.stack|) * (C.top + 1) + C.level(Top(st.stack).major)
    decreases Potential(C, st.stack, tok.major)
  {
    hide Step, Good, Certified;
    FeedUnfolds(T, G, C, cap, st, tok);
    var next := Step(T, cap, st, tok);
    if !next.done {
      TurnsBounded(T, G, C, cap, next.st, tok);
    }
  }

  predicate ReducesEmpty(T: Tables, st: St, x: nat)
    requires T.WellFormed() && st.stack != [] && (Top(st.stack).stateno < |T.shiftOfst| || Top(st.stack).stateno >= YY_MIN_REDUCE)
  {
    var act := Act(T, Top(st.stack).stateno, x);
    YY_MAX_SHIFTREDUCE < act <= YY_MAX_REDUCE && act - YY_MIN_REDUCE < |T.ruleInfo| && T.ruleInfo[act - YY_MIN_REDUCE].nrhs == 0
  }

  /** The number of turns of one call that reduce an empty rule and are not the last. */
  ghost function EmptyTurns(T: Tables, G: Grammar, C: Cert, cap: Depth, st: St, tok: Token): nat
    requires Certified(T, G, C) && Good(T, G, C, st.stack) && tok.major < G.nTerm
    decreases Potential(C, st.stack, tok.major)
  {
    FeedUnfolds(T, G, C, cap, st, tok);
    var next := Step(T, cap, st, tok);
    if next.done then 0
    else (if ReducesEmpty(T, st, tok.major) then 1 else 0) + EmptyTurns(T, G, C, cap, next.st, tok)
  }

  lemma CombineBurns(T: Tables, G: Grammar, C: Cert, st: St, x: nat, r: nat)
    requires T.WellFormed() && Matches(T, G) && Reducible(T, st.stack, r) && r < |G.rhs|
    requires GotoOk(T, G, C, st.stack[|st.stack| - 1 - |G.rhs[r]|].stateno, Top(st.stack).stateno, x, r)
    requires Combine(T, st, r).log == st.log
    ensures var s', s := Top(Combine(T, st, r).stack).stateno, Top(st.stack).stateno;
            C.fuel(s', x) <= C.fuel(s, x) && (T.ruleInfo[r].nrhs == 0 ==> C.fuel(s', x) < C.fuel(s, x))
  {
    hide EdgeOk, Tables.Goto, Minors, Tables.WellFormed, Target;
  }

  lemma StepBurns(T: Tables, G: Grammar, C: Cert, cap: Depth, st: St, tok: Token)
    requires Certified(T, G, C) && Good(T, G, C, st.stack) && tok.major < G.nTerm
    ensures Ready(T, st.stack, tok.major)
    ensures var next, x := Step(T, cap, st, tok), tok.major;
            !next.done ==>
              && next.st.stack != []
              && C.fuel(Top(next.st.stack).stateno, x) <= C.fuel(Top(st.stack).stateno, x)
              && (ReducesEmpty(T, st, x) ==> C.fuel(Top(next.st.stack).stateno, x) < C.fuel(Top(st.stack).stateno, x))
  {
    hide Good, GotoOk, Combine, Overflow, Tables.ShiftAction, Tables.WellFormed, Certified, Matches, Shift, Potential, EdgeOk;
    CertifiedTables(T, G, C);
    GoodReady(T, G, C, st.stack, tok.major);
    OverflowGood(T, G, C, st);
    var act := Act(T, Top(st.stack).stateno, tok.major);
    if YY_MAX_SHIFTREDUCE < act <= YY_MAX_REDUCE {
      var r := act - YY_MIN_REDUCE;
      ReduceUncovers(T, G, C, st.stack, tok.major, r);
      CombineGood(T, G, C, st, tok.major, r);
      if Combine(T, st, r).log == st.log {
        CombineBurns(T, G, C, st, tok.major, r);
      }
    }
  }

  /** The certificate's bound is a bound: one call reduces at most that many empty rules before its last
      turn. */
  lemma {:induction false} EmptyReductionsBounded(T: Tables, G: Grammar, C: Cert, cap: Depth, st: St, tok: Token)
    requires Certified(T, G, C) && Good(T, G, C, st.stack) && tok.major < G.nTerm
    ensures EmptyTurns(T, G, C, cap, st, tok) <= C.fuel(Top(st.stack).stateno, tok.major)
    decreases Potential(C, st.stack, tok.major)
  {
    hide Step, Good, Certified, ReducesEmpty;
    FeedUnfolds(T, G, C, cap, st, tok);
    StepBurns(T, G, C, cap, st, tok);
    var next := Step(T, cap, st, tok);
    if !next.done {
      EmptyReductionsBounded(T, G, C, cap, next.st, tok);
    }
  }

  /** The number of turns at the start of a call that reduce non-empty rules and are not the last. */
  ghost function NonEmptyTurns(T: Tables, G: Grammar, C: Cert, cap: Depth, st: St, tok: Token): nat
    requires Certified(T, G, C) && Good(T, G, C, st.stack) && tok.major < G.nTerm
    decreases Potential(C, st.stack, tok.major)
  {
    FeedUnfolds(T, G, C, cap, st, tok);
    var next := Step(T, cap, st, tok);
    if next.done || ReducesEmpty(T, st, tok.major) then 0 else 1 + NonEmptyTurns(T, G, C, cap, next.st, tok)
  }

  /** Every turn that reduces a non-empty rule and is not the last descends lexicographically in stack height
      and level of the top symbol. */
  lemma StepDescends(T: Tables, G: Grammar, C: Cert, cap: Depth, st: St, tok: Token)
    requires Certified(T, G, C) && Good(T, G, C, st.stack) && tok.major < G.nTerm
    ensures Ready(T, st.stack, tok.major)
    ensures var next := Step(T, cap, st, tok);
            !next.done && !ReducesEmpty(T, st, tok.major) ==>
              next.st.stack != [] && Below(C, |next.st.stack|, Top(next.st.stack), |st.stack|, Top(st.stack))
  {
    hide Good, GotoOk, Combine, Overflow, Tables.ShiftAction, Tables.WellFormed, Acyclic, Shift, Potential, EdgeOk, Stands, Below;
    CertifiedTables(T, G, C);
    GoodReady(T, G, C, st.stack, tok.major);
    var act := Act(T, Top(st.stack).stateno, tok.major);
    if YY_MAX_SHIFTREDUCE < act <= YY_MAX_REDUCE {
      var r := act - YY_MIN_REDUCE;
      ReduceUncovers(T, G, C, st.stack, tok.major, r);
      CombineGood(T, G, C, st, tok.major, r);
      if G.rhs[r] != [] {
        NonEmptyReductionDescends(T, G, C, st, r);
      }
    }
  }

  /** A stretch of non-empty reductions on one lookahead is bounded by the stack and the symbol order alone. */
  lemma {:induction false} NonEmptyReductionsBounded(T: Tables, G: Grammar, C: Cert, cap: Depth, st: St, tok: Token)
    requires Certified(T, G, C) && Good(T, G, C, st.stack) && tok.major < G.nTerm
    ensures NonEmptyTurns(T, G, C, cap, st, tok) <= |st.stack| * (C.top + 1) + C.level(Top(st.stack).major)
    decreases Potential(C, st.stack, tok.major)
  {
    hide Step, Good, Certified, ReducesEmpty, Potential;
    FeedUnfolds(T, G, C, cap, st, tok);
    StepDescends(T, G, C, cap, st, tok);
    var next := Step(T, cap, st, tok);
    if !next.done && !ReducesEmpty(T, st, tok.major) {
      NonEmptyReductionsBounded(T, G, C, cap, next.st, tok);
      LevelsBounded(T, G, C);
      PotentialFalls(0, |st.stack|, C.level(Top(st.stack).major), 0, |next.st.stack|, C.level(Top(next.st.stack).major), C.top);
    }
  }

  lemma LevelsBounded(T: Tables, G: Grammar, C: Cert)
    requires Certified(T, G, C)
    ensures forall x :: C.level(x) <= C.top
  {
  }
}
