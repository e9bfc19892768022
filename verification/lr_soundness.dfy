/** What holds over whole runs: acceptance is sound, every call ends in exactly one verdict, semantic
    values are conserved, and reduce actions see the terminals their rules name. */
module LrSoundness {
  import opened LrTables
  import opened Grammars
  import opened LrMachine

  /** The tokens on the stack's account: those shifted since the stack was last emptied. */
  function Outstanding(log: Log): seq<Token> {
    match log
    case Start => []
    case After(prev, e) =>
      if e.Shifted? then Outstanding(prev) + [e.tok]
      else if e.StackOverflow? || e.Accepted? then []
      else Outstanding(prev)
  }

  /** All tokens ever shifted. */
  function Shifts(log: Log): seq<Token> {
    match log
    case Start => []
    case After(prev, e) => if e.Shifted? then Shifts(prev) + [e.tok] else Shifts(prev)
  }

  /** The tokens inside values that were destroyed or handed off with an accepted tree. */
  function Released(log: Log): seq<Token> {
    match log
    case Start => []
    case After(prev, e) =>
      if e.Destroyed? then Released(prev) + Yield(e.minor)
      else if e.Accepted? then Released(prev) + Yield(e.tree)
      else Released(prev)
  }

  function OverflowCount(log: Log): nat {
    match log
    case Start => 0
    case After(prev, e) => OverflowCount(prev) + if e.StackOverflow? then 1 else 0
  }

  function StackYield(stack: seq<StackEntry>): seq<Token> {
    if |stack| <= 1 then [] else StackYield(stack[..|stack| - 1]) + Yield(Top(stack).minor)
  }

  /** Every accepted tree is a parse tree of the tokens outstanding when it was accepted. */
  ghost predicate AcceptSound(T: Tables, G: Grammar, log: Log)
    requires Matches(T, G)
  {
    match log
    case Start => true
    case After(prev, e) =>
      && AcceptSound(T, G, prev)
      && (e.Accepted? ==> WellParsed(T, G, e.tree) && Root(T, e.tree) == G.start && Yield(e.tree) == Outstanding(prev))
  }

  /** Every token ever shifted is in exactly one place: under one stack entry, in one value that was
      destroyed or handed off, or in one lost value. */
  ghost predicate Conserved(st: St) {
    multiset(Shifts(st.log)) == multiset(StackYield(st.stack)) + multiset(Released(st.log)) + multiset(Yields(st.lost))
  }

  ghost predicate Accounts(T: Tables, G: Grammar, st: St)
    requires Matches(T, G)
  {
    StackYield(st.stack) == Outstanding(st.log) && AcceptSound(T, G, st.log) && Conserved(st)
  }

  ghost predicate Inv(T: Tables, G: Grammar, C: Cert, st: St)
    requires Matches(T, G)
  {
    Good(T, G, C, st.stack) && Accounts(T, G, st)
  }

  // ---- Stack contents under push and pop ----

  lemma PushYield(stack: seq<StackEntry>, e: StackEntry)
    requires stack != []
    ensures StackYield(stack + [e]) == StackYield(stack) + Yield(e.minor)
  {
    assert (stack + [e])[..|stack|] == stack;
  }

  lemma YieldsLast(ts: seq<Tree>, t: Tree)
    ensures Yields(ts + [t]) == Yields(ts) + Yield(t)
  {
    assert (ts + [t])[..|ts|] == ts;
  }

  lemma {:induction false} SplitYield(stack: seq<StackEntry>, k: nat)
    requires 0 < k <= |stack|
    ensures StackYield(stack) == StackYield(stack[..k]) + Yields(Minors(stack[k..]))
    decreases |stack|
  {
    hide Yield;
    if k == |stack| {
      assert stack[..k] == stack;
    } else {
      hide Yields;
      var front, top := stack[..|stack| - 1], Top(stack);
      SplitYield(front, k);
      assert front[..k] == stack[..k];
      YieldsLast(Minors(front[k..]), top.minor);
      assert Minors(stack[k..]) == Minors(front[k..]) + [top.minor];
    }
  }

  /** Emptying the stack by destructor calls releases exactly what was on it. */
  lemma {:induction false} DrainReleases(log: Log, stack: seq<StackEntry>)
    ensures var log' := Drain(log, stack);
            && Outstanding(log') == Outstanding(log)
            && Shifts(log') == Shifts(log)
            && OverflowCount(log') == OverflowCount(log)
            && multiset(Released(log')) == multiset(Released(log)) + multiset(StackYield(stack))
    decreases |stack|
  {
    if |stack| > 1 {
      DrainReleases(After(log, Destroyed(Top(stack).major, Top(stack).minor)), stack[..|stack| - 1]);
    }
  }

  lemma {:induction false} DrainAcceptSound(T: Tables, G: Grammar, log: Log, stack: seq<StackEntry>)
    requires Matches(T, G) && AcceptSound(T, G, log)
    ensures AcceptSound(T, G, Drain(log, stack))
    decreases |stack|
  {
    if |stack| > 1 {
      DrainAcceptSound(T, G, After(log, Destroyed(Top(stack).major, Top(stack).minor)), stack[..|stack| - 1]);
    }
  }

  // ---- One step ----

  /** Handing `y` over from one account to another leaves the total unchanged. */
  lemma Transfer(total: seq<Token>, from: seq<Token>, y: seq<Token>, to: seq<Token>, rest: seq<Token>)
    requires multiset(total) == multiset(from + y) + multiset(to) + multiset(rest)
    ensures multiset(total) == multiset(from) + multiset(to + y) + multiset(rest)
    ensures multiset(total) == multiset(from) + multiset(to) + multiset(rest + y)
  {
  }

  lemma SlotZeroYields(stack: seq<StackEntry>)
    requires |stack| == 1
    ensures StackYield(stack) == []
  {
  }

  lemma LoseTopYields(st: St)
    requires |st.stack| > 1
    ensures StackYield(st.stack) == StackYield(LoseTop(st).stack) + Yield(Top(st.stack).minor)
    ensures Yields(LoseTop(st).lost) == Yields(st.lost) + Yield(Top(st.stack).minor)
  {
    var lost' := LoseTop(st).lost;
    assert lost'[..|lost'| - 1] == st.lost;
  }

  lemma OverflowLosingTopAccounts(T: Tables, G: Grammar, st: St)
    requires Matches(T, G) && |st.stack| > 1 && Accounts(T, G, st)
    ensures Accounts(T, G, Overflow(LoseTop(st)))
  {
    hide Drain, StackYield, Yields, Yield, Shifts, Released;
    var st' := LoseTop(st);
    LoseTopYields(st);
    Transfer(Shifts(st.log), StackYield(st'.stack), Yield(Top(st.stack).minor), Released(st.log), Yields(st.lost));
    assert Conserved(st');
    OverflowAccounts(T, G, st');
  }

  lemma OverflowAccounts(T: Tables, G: Grammar, st: St)
    requires Matches(T, G) && st.stack != [] && AcceptSound(T, G, st.log) && Conserved(st)
    ensures Accounts(T, G, Overflow(st))
  {
    hide Drain, StackYield, Yields;
    DrainReleases(st.log, st.stack);
    DrainAcceptSound(T, G, st.log, st.stack);
    SlotZeroYields(st.stack[..1]);
  }

  /** Replacing the top `n` entries by one entry that combines their values. */
  lemma CombineAccounts(T: Tables, G: Grammar, st: St, n: nat, e: StackEntry)
    requires Matches(T, G) && n < |st.stack| && Accounts(T, G, st)
    requires e.minor.Node? && e.minor.kids == Minors(st.stack[|st.stack| - n..])
    ensures Accounts(T, G, St(st.stack[..|st.stack| - n] + [e], st.log, st.lost))
  {
    hide StackYield, Yields, Outstanding, Shifts, Released, AcceptSound, Minors, Matches;
    SplitYield(st.stack, |st.stack| - n);
    PushYield(st.stack[..|st.stack| - n], e);
  }

  lemma WholeStackYield(stack: seq<StackEntry>, tree: Tree)
    requires stack != [] && tree.Node? && tree.kids == Minors(stack[1..])
    ensures StackYield(stack) == Yield(tree) && StackYield(stack[..1]) == []
  {
    SplitYield(stack, 1);
  }

  lemma AcceptAccounts(T: Tables, G: Grammar, st: St, tree: Tree)
    requires Matches(T, G) && st.stack != [] && Accounts(T, G, st)
    requires tree.Node? && tree.kids == Minors(st.stack[1..])
    requires WellParsed(T, G, tree) && Root(T, tree) == G.start
    ensures Accounts(T, G, St(st.stack[..1], After(st.log, Accepted(tree)), st.lost))
  {
    hide StackYield, Yields, Yield, WellParsed, Matches;
    WholeStackYield(st.stack, tree);
    Transfer(Shifts(st.log), [], Yield(tree), Released(st.log), Yields(st.lost));
    assert [] + Yield(tree) == Yield(tree);
  }

  lemma CombinedAccounts(T: Tables, G: Grammar, st: St, r: nat)
    requires Matches(T, G) && Reducible(T, st.stack, r) && Accounts(T, G, st)
    requires Combine(T, st, r).log != st.log ==>
               && T.ruleInfo[r].nrhs + 1 == |st.stack| && T.ruleInfo[r].lhs == G.start
               && WellParsed(T, G, Combine(T, st, r).log.event.tree)
    ensures Accounts(T, G, Combine(T, st, r))
  {
    hide Accounts, WellParsed;
    var n, st' := T.ruleInfo[r].nrhs, Combine(T, st, r);
    if st'.log == st.log {
      CombineAccounts(T, G, st, n, Top(st'.stack));
    } else {
      AcceptAccounts(T, G, st, st'.log.event.tree);
    }
  }

  lemma ReduceAccounts(T: Tables, G: Grammar, C: Cert, cap: Depth, st: St, x: nat, r: nat)
    requires Certified(T, G, C) && Good(T, G, C, st.stack) && Accounts(T, G, st)
    requires ReduceOk(T, G, C, Top(st.stack).stateno, x, r)
    ensures Reducible(T, st.stack, r) && Accounts(T, G, Reduce(T, cap, st, r))
  {
    hide Accounts, Overflow, WellParsed, Good, ReduceOk, Potential;
    CombineGood(T, G, C, st, x, r);
    if T.ruleInfo[r].nrhs == 0 && Full(cap, |st.stack|) {
      OverflowLosingTopAccounts(T, G, st);
    } else {
      CombinedAccounts(T, G, st, r);
    }
  }

  lemma PushAccounts(T: Tables, G: Grammar, st: St, e: StackEntry, tok: Token)
    requires Matches(T, G) && st.stack != [] && e.minor == Leaf(tok) && Accounts(T, G, st)
    ensures Accounts(T, G, St(st.stack + [e], After(st.log, Shifted(tok)), st.lost))
  {
    PushYield(st.stack, e);
  }

  lemma ShiftAccounts(T: Tables, G: Grammar, cap: Depth, st: St, act: nat, tok: Token)
    requires Matches(T, G) && st.stack != [] && Accounts(T, G, st)
    ensures Accounts(T, G, Shift(cap, st, act, tok))
  {
    hide Conserved, Outstanding, StackYield, Overflow;
    if Full(cap, |st.stack|) {
      OverflowAccounts(T, G, st);
    } else {
      PushAccounts(T, G, st, StackEntry(Target(act), tok.major, Leaf(tok)), tok);
    }
  }

  lemma ErrorAccounts(T: Tables, G: Grammar, st: St, tok: Token)
    requires Matches(T, G) && Accounts(T, G, st)
    ensures Accounts(T, G, St(st.stack, After(st.log, SyntaxError(tok)), st.lost))
  {
  }

  lemma StepAccounts(T: Tables, G: Grammar, C: Cert, cap: Depth, st: St, tok: Token)
    requires Certified(T, G, C) && Good(T, G, C, st.stack) && Accounts(T, G, st) && tok.major < G.nTerm
    ensures Ready(T, st.stack, tok.major) && Accounts(T, G, Step(T, cap, st, tok).st)
  {
    hide Accounts, Shift, Reduce, Good, ReduceOk, EdgeOk;
    GoodReady(T, G, C, st.stack, tok.major);
    var act := Act(T, Top(st.stack).stateno, tok.major);
    if act <= YY_MAX_SHIFTREDUCE {
      ShiftAccounts(T, G, cap, st, act, tok);
    } else if act <= YY_MAX_REDUCE {
      ReduceAccounts(T, G, C, cap, st, tok.major, act - YY_MIN_REDUCE);
    } else {
      ErrorAccounts(T, G, st, tok);
    }
  }

  // ---- Whole runs ----

  lemma {:induction false} FeedInv(T: Tables, G: Grammar, C: Cert, cap: Depth, st: St, tok: Token)
    requires Certified(T, G, C) && Inv(T, G, C, st) && tok.major < G.nTerm
    ensures Inv(T, G, C, Feed(T, G, C, cap, st, tok))
    decreases Potential(C, st.stack, tok.major)
  {
    StepAccounts(T, G, C, cap, st, tok);
    StepGood(T, G, C, cap, st, tok);
    var next := Step(T, cap, st, tok);
    if !next.done {
      FeedInv(T, G, C, cap, next.st, tok);
    }
  }

  /** The invariant of every run: the symbols on the stack yield exactly the tokens shifted since the
      stack was last empty, accepted trees are parse trees of what was shifted, nothing is duplicated. */
  lemma {:induction false} RunInv(T: Tables, G: Grammar, C: Cert, cap: Depth, toks: seq<Token>)
    requires Certified(T, G, C) && Tokens(G, toks)
    ensures Inv(T, G, C, INIT) && Inv(T, G, C, Run(T, G, C, cap, INIT, toks))
    decreases |toks|
  {
    if toks != [] {
      var front := toks[..|toks| - 1];
      RunInv(T, G, C, cap, front);
      FeedInv(T, G, C, cap, Run(T, G, C, cap, INIT, front), toks[|toks| - 1]);
    }
  }

  /** At each acceptance recorded in the log, the outstanding tokens were a sentence. */
  ghost predicate AcceptsSentences(T: Tables, G: Grammar, log: Log)
    requires Matches(T, G)
  {
    match log
    case Start => true
    case After(prev, e) => AcceptsSentences(T, G, prev) && (e.Accepted? ==> InLanguage(T, G, Outstanding(prev)))
  }

  lemma {:induction false} AcceptedAreSentences(T: Tables, G: Grammar, log: Log)
    requires Matches(T, G) && AcceptSound(T, G, log)
    ensures AcceptsSentences(T, G, log)
    decreases log
  {
    if log.After? {
      AcceptedAreSentences(T, G, log.prev);
      if log.event.Accepted? {
        ParsedIsInLanguage(T, G, log.event.tree);
      }
    }
  }

  /** Soundness of acceptance: whenever a run accepts, the tokens shifted since the stack was last
      empty, each read as itself, as its fallback or as ANY, are derivable from the start symbol. */
  lemma AcceptanceIsSound(T: Tables, G: Grammar, C: Cert, cap: Depth, toks: seq<Token>)
    requires Certified(T, G, C) && Tokens(G, toks)
    ensures Good(T, G, C, INIT.stack)
    ensures AcceptsSentences(T, G, Run(T, G, C, cap, INIT, toks).log)
  {
    RunInv(T, G, C, cap, toks);
    AcceptedAreSentences(T, G, Run(T, G, C, cap, INIT, toks).log);
  }

  // ---- The verdict of one call ----

  /** `log` is `before` followed by destructor calls only. */
  ghost predicate OnlyDestroys(before: Log, log: Log) {
    log == before || (log.After? && log.event.Destroyed? && OnlyDestroys(before, log.prev))
  }

  /** How one call of the driver extends the log: by one shift, one syntax error, one overflow report
      after destructor calls, or - on the end of input only - one acceptance. */
  ghost predicate Verdict(before: Log, after: Log, tok: Token) {
    && after.After?
    && match after.event
       case Shifted(t) => t == tok && tok.major != 0 && after.prev == before
       case SyntaxError(t) => t == tok && after.prev == before
       case StackOverflow => OnlyDestroys(before, after.prev)
       case Accepted(_) => tok.major == 0 && after.prev == before
       case Destroyed(_, _) => false
  }

  lemma {:induction false} DrainOnlyDestroys(before: Log, log: Log, stack: seq<StackEntry>)
    requires OnlyDestroys(before, log)
    ensures OnlyDestroys(before, Drain(log, stack))
    decreases |stack|
  {
    if |stack| > 1 {
      DrainOnlyDestroys(before, After(log, Destroyed(Top(stack).major, Top(stack).minor)), stack[..|stack| - 1]);
    }
  }

  lemma DestroysNothing(log: Log)
    ensures OnlyDestroys(log, log)
  {
  }

  lemma StepVerdict(T: Tables, G: Grammar, C: Cert, cap: Depth, st: St, tok: Token)
    requires Certified(T, G, C) && Good(T, G, C, st.stack) && tok.major < G.nTerm
    ensures Ready(T, st.stack, tok.major)
    ensures var next := Step(T, cap, st, tok);
            if next.done then
              && Verdict(st.log, next.st.log, tok)
              && (next.st.log.event.StackOverflow? || next.st.log.event.Accepted? ==> |next.st.stack| == 1)
            else next.st.log == st.log
  {
    hide Drain, OnlyDestroys, Good, ReduceOk, EdgeOk, WellParsed;
    GoodReady(T, G, C, st.stack, tok.major);
    var act := Act(T, Top(st.stack).stateno, tok.major);
    var st' := Step(T, cap, st, tok).st;
    DestroysNothing(st.log);
    if act <= YY_MAX_SHIFTREDUCE {
      assert st' == Shift(cap, st, act, tok);
      DrainOnlyDestroys(st.log, st.log, st.stack);
    } else if act <= YY_MAX_REDUCE {
      assert st' == Reduce(T, cap, st, act - YY_MIN_REDUCE);
      CombineGood(T, G, C, st, tok.major, act - YY_MIN_REDUCE);
      DrainOnlyDestroys(st.log, st.log, LoseTop(st).stack);
    }
  }

  /** Each call of the driver ends in exactly one verdict; in particular its token is shifted at most
      once.  After an overflow or an acceptance only slot 0 is left. */
  lemma {:induction false} FeedVerdict(T: Tables, G: Grammar, C: Cert, cap: Depth, st: St, tok: Token)
    requires Certified(T, G, C) && Good(T, G, C, st.stack) && tok.major < G.nTerm
    ensures var st' := Feed(T, G, C, cap, st, tok);
            && Verdict(st.log, st'.log, tok)
            && (st'.log.event.StackOverflow? || st'.log.event.Accepted? ==> |st'.stack| == 1)
    decreases Potential(C, st.stack, tok.major)
  {
    StepGood(T, G, C, cap, st, tok);
    StepVerdict(T, G, C, cap, st, tok);
    var next := Step(T, cap, st, tok);
    if !next.done {
      FeedVerdict(T, G, C, cap, next.st, tok);
    }
  }

  // ---- Error-free parses ----

  ghost predicate Clean(log: Log) {
    match log
    case Start => true
    case After(prev, e) => Clean(prev) && !e.SyntaxError? && !e.StackOverflow?
  }

  lemma FeedClean(T: Tables, G: Grammar, C: Cert, cap: Depth, st: St, tok: Token)
    requires Certified(T, G, C) && Good(T, G, C, st.stack) && tok.major < G.nTerm
    requires Clean(Feed(T, G, C, cap, st, tok).log)
    ensures var log := Feed(T, G, C, cap, st, tok).log;
            log.After? && log.prev == st.log && (log.event == Shifted(tok) || (log.event.Accepted? && tok.major == 0))
    ensures tok.major == 0 ==> Feed(T, G, C, cap, st, tok).log.event.Accepted?
  {
    FeedVerdict(T, G, C, cap, st, tok);
  }

  /** Before the end of input, an error-free run has shifted exactly the tokens it was given. */
  lemma {:induction false} CleanRunShiftsAll(T: Tables, G: Grammar, C: Cert, cap: Depth, toks: seq<Token>)
    requires Certified(T, G, C) && Tokens(G, toks)
    requires forall i :: 0 <= i < |toks| ==> toks[i].major != 0
    ensures Good(T, G, C, INIT.stack)
    ensures var log := Run(T, G, C, cap, INIT, toks).log;
            Clean(log) ==> Outstanding(log) == toks
    decreases |toks|
  {
    if toks != [] {
      var front, tok := toks[..|toks| - 1], toks[|toks| - 1];
      CleanRunShiftsAll(T, G, C, cap, front);
      var st := Run(T, G, C, cap, INIT, front);
      if Clean(Feed(T, G, C, cap, st, tok).log) {
        FeedClean(T, G, C, cap, st, tok);
        assert toks == front + [tok];
      }
    }
  }

  /** An error-free run over a token stream closed by the end of input accepts, and what it accepts is a
      parse tree of exactly that stream, which therefore is a sentence. */
  lemma CleanRunRecognises(T: Tables, G: Grammar, C: Cert, cap: Depth, toks: seq<Token>, eoi: Token)
    requires Certified(T, G, C) && Tokens(G, toks + [eoi]) && eoi.major == 0
    requires forall i :: 0 <= i < |toks| ==> toks[i].major != 0
    requires Good(T, G, C, INIT.stack) && Clean(Run(T, G, C, cap, INIT, toks + [eoi]).log)
    ensures var log := Run(T, G, C, cap, INIT, toks + [eoi]).log;
            log.After? && log.event.Accepted? && Yield(log.event.tree) == toks
    ensures InLanguage(T, G, toks)
  {
    var all := toks + [eoi];
    assert all[..|all| - 1] == toks;
    assert Tokens(G, toks) by {
      assert forall i :: 0 <= i < |toks| ==> all[i] == toks[i];
    }
    RunInv(T, G, C, cap, all);
    CleanRunShiftsAll(T, G, C, cap, toks);
    FeedClean(T, G, C, cap, Run(T, G, C, cap, INIT, toks), eoi);
    ParsedIsInLanguage(T, G, Run(T, G, C, cap, INIT, all).log.event.tree);
  }

  // ---- Conservation ----

  ghost predicate EmptyRuleOverflow(T: Tables, cap: Depth, st: St, x: nat)
    requires Ready(T, st.stack, x)
  {
    var act := Act(T, Top(st.stack).stateno, x);
    YY_MAX_SHIFTREDUCE < act <= YY_MAX_REDUCE && T.ruleInfo[act - YY_MIN_REDUCE].nrhs == 0 && Full(cap, |st.stack|)
  }

  /** A step loses a value only when a rule with an empty right-hand side meets a full stack: then the
      overflow is reported once and exactly the top entry's value is lost. */
  lemma StepLoses(T: Tables, cap: Depth, st: St, tok: Token)
    requires Ready(T, st.stack, tok.major)
    ensures var st' := Step(T, cap, st, tok).st;
            && st'.lost == (if EmptyRuleOverflow(T, cap, st, tok.major) then st.lost + [Top(st.stack).minor] else st.lost)
            && (EmptyRuleOverflow(T, cap, st, tok.major) ==> OverflowCount(st'.log) == OverflowCount(st.log) + 1)
  {
    hide Drain, T.WellFormed, Minors;
    if EmptyRuleOverflow(T, cap, st, tok.major) {
      DrainReleases(st.log, LoseTop(st).stack);
    }
  }

  /** The destructor calls, in order: the symbol that selects the destructor, and the value. */
  function Destructions(log: Log): seq<(nat, Tree)> {
    match log
    case Start => []
    case After(prev, e) => if e.Destroyed? then Destructions(prev) + [(e.major, e.minor)] else Destructions(prev)
  }

  /** The symbols and values above slot 0, top first. */
  function TopDown(stack: seq<StackEntry>): seq<(nat, Tree)> {
    seq(|stack| - if stack == [] then 0 else 1,
        i requires 0 <= i < |stack| - 1 => (stack[|stack| - 1 - i].major, stack[|stack| - 1 - i].minor))
  }

  /** Emptying the stack calls the destructor of its own symbol for the value of every entry above slot 0,
      exactly once, top first, whether or not the value holds tokens. */
  lemma {:induction false} DrainDestroysEach(log: Log, stack: seq<StackEntry>)
    ensures Destructions(Drain(log, stack)) == Destructions(log) + TopDown(stack)
    decreases |stack|
  {
    if |stack| > 1 {
      var front := stack[..|stack| - 1];
      DrainDestroysEach(After(log, Destroyed(Top(stack).major, Top(stack).minor)), front);
      assert TopDown(stack) == [(Top(stack).major, Top(stack).minor)] + TopDown(front);
    }
  }

  /** A step calls a destructor only when it overflows: a shift then destroys every value on the stack once,
      an empty rule every value but the lost one. */
  lemma StepDestroys(T: Tables, cap: Depth, st: St, tok: Token)
    requires Ready(T, st.stack, tok.major)
    ensures var next := Step(T, cap, st, tok).st;
            Destructions(next.log) == Destructions(st.log)
              + (if !(next.log.After? && next.log.event.StackOverflow? && next.log != st.log) then []
                 else if EmptyRuleOverflow(T, cap, st, tok.major) then TopDown(st.stack[..|st.stack| - 1])
                 else TopDown(st.stack))
  {
    hide Drain, T.WellFormed, Minors, TopDown;
    DrainDestroysEach(st.log, st.stack);
    DrainDestroysEach(st.log, LoseTop(st).stack);
  }

  // ---- Each value meets the destructor of its own symbol ----

  /** Every destructor call is made for the symbol at the root of the value. */
  ghost predicate ByRoot(T: Tables, log: Log) {
    match log
    case Start => true
    case After(prev, e) => ByRoot(T, prev) && (e.Destroyed? ==> e.major == Root(T, e.minor))
  }

  ghost predicate Rooted(T: Tables, stack: seq<StackEntry>) {
    forall k :: 0 < k < |stack| ==> stack[k].major == Root(T, stack[k].minor)
  }

  lemma GoodIsRooted(T: Tables, G: Grammar, C: Cert, stack: seq<StackEntry>)
    requires Matches(T, G) && Good(T, G, C, stack)
    ensures stack != [] && Rooted(T, stack)
  {
    forall k | 0 < k < |stack|
      ensures stack[k].major == Root(T, stack[k].minor)
    {
      assert EntryOk(T, G, C, stack, k);
    }
  }

  lemma {:induction false} DrainByRoot(T: Tables, log: Log, stack: seq<StackEntry>)
    requires ByRoot(T, log) && Rooted(T, stack)
    ensures ByRoot(T, Drain(log, stack))
    decreases |stack|
  {
    if |stack| > 1 {
      DrainByRoot(T, After(log, Destroyed(Top(stack).major, Top(stack).minor)), stack[..|stack| - 1]);
    }
  }

  lemma StepByRoot(T: Tables, cap: Depth, st: St, tok: Token)
    requires Ready(T, st.stack, tok.major) && ByRoot(T, st.log) && Rooted(T, st.stack)
    ensures ByRoot(T, Step(T, cap, st, tok).st.log)
  {
    hide Drain, T.WellFormed, Minors, Tables.Goto, Tables.ShiftAction, Target, Root;
    DrainByRoot(T, st.log, st.stack);
    DrainByRoot(T, st.log, st.stack[..|st.stack| - 1]);
  }

  lemma {:induction false} FeedByRoot(T: Tables, G: Grammar, C: Cert, cap: Depth, st: St, tok: Token)
    requires Certified(T, G, C) && Good(T, G, C, st.stack) && tok.major < G.nTerm && ByRoot(T, st.log)
    ensures ByRoot(T, Feed(T, G, C, cap, st, tok).log)
    decreases Potential(C, st.stack, tok.major)
  {
    hide Step, Good, Certified, ByRoot, Rooted;
    CertifiedTables(T, G, C);
    FeedUnfolds(T, G, C, cap, st, tok);
    GoodIsRooted(T, G, C, st.stack);
    StepByRoot(T, cap, st, tok);
    var next := Step(T, cap, st, tok);
    if !next.done {
      FeedByRoot(T, G, C, cap, next.st, tok);
    }
  }

  /** In every run, and in every run followed by freeing the parser, each value is given to the destructor of
      the symbol it is a value of. */
  lemma {:induction false} RunDestroysByRoot(T: Tables, G: Grammar, C: Cert, cap: Depth, toks: seq<Token>)
    requires Certified(T, G, C) && Tokens(G, toks)
    ensures Good(T, G, C, INIT.stack)
    ensures var st := Run(T, G, C, cap, INIT, toks);
            ByRoot(T, st.log) && ByRoot(T, Drain(st.log, st.stack))
    decreases |toks|
  {
    hide Certified, Good, Rooted, Drain, Matches;
    CertifiedTables(T, G, C);
    InitGood(T, G, C);
    var st := Run(T, G, C, cap, INIT, toks);
    if toks != [] {
      var front := toks[..|toks| - 1];
      RunDestroysByRoot(T, G, C, cap, front);
      FeedByRoot(T, G, C, cap, Run(T, G, C, cap, INIT, front), toks[|toks| - 1]);
    }
    GoodIsRooted(T, G, C, st.stack);
    DrainByRoot(T, st.log, st.stack);
  }

  // ---- Reduce actions that read `major` ----

  lemma {:induction false} UnitPathEnds(T: Tables, G: Grammar, x: nat, path: seq<nat>, y: nat)
    requires Matches(T, G) && UnitPath(T, G, x, path, y) && x >= G.nTerm
    ensures y >= G.nTerm
    decreases path
  {
    if path != [] {
      UnitPathEnds(T, G, T.ruleInfo[path[0]].lhs, path[1..], y);
    }
  }

  /** When rule `r` is about to be reduced and its `i`-th symbol is a terminal (or a choice of terminals)
      that is neither ANY nor a fallback target, the slot's `major` is that very terminal. */
  lemma ActionsSeeTheirTerminals(T: Tables, G: Grammar, C: Cert, stack: seq<StackEntry>, x: nat, r: nat, i: nat)
    requires Certified(T, G, C) && Good(T, G, C, stack) && x < G.nTerm
    requires ReduceOk(T, G, C, Top(stack).stateno, x, r) && i < |G.rhs[r]|
    requires forall y :: y in G.rhs[r][i] ==> y < G.nTerm && y != YYWILDCARD && y !in T.fallback
    ensures |G.rhs[r]| < |stack| && stack[|stack| - |G.rhs[r]| + i].major in G.rhs[r][i]
  {
    ReduceUncovers(T, G, C, stack, x, r);
    var X := stack[|stack| - |G.rhs[r]| + i].major;
    assert Stands(T, G, X, G.rhs[r][i]);
    var y :| y in G.rhs[r][i] && Reads(T, G, X, y);
    if X >= G.nTerm {
      var path :| UnitPath(T, G, X, path, y);
      UnitPathEnds(T, G, X, path, y);
      assert false;
    }
  }
}
