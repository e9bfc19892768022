/** Semantic values over whole runs: every value that a shift or a reduction makes is owned exactly once, and
    values are lost exactly when an empty rule overflows the stack. */
module LrValues {
  import opened Wrappers
  import opened LrTables
  import opened Grammars
  import opened LrMachine
  import opened LrSoundness
  import opened LrBounds

  // ---- Loss ----

  /** Some turn of this call meets a full stack with an empty rule. */
  ghost predicate MeetsEmptyOverflow(T: Tables, G: Grammar, C: Cert, cap: Depth, st: St, tok: Token)
    requires Certified(T, G, C) && Good(T, G, C, st.stack) && tok.major < G.nTerm
    decreases Potential(C, st.stack, tok.major)
  {
    FeedUnfolds(T, G, C, cap, st, tok);
    var next := Step(T, cap, st, tok);
    EmptyRuleOverflow(T, cap, st, tok.major) || (!next.done && MeetsEmptyOverflow(T, G, C, cap, next.st, tok))
  }

  /** The number of calls of a run in which that happens. */
  ghost function EmptyOverflows(T: Tables, G: Grammar, C: Cert, cap: Depth, toks: seq<Token>): nat
    requires Certified(T, G, C) && Good(T, G, C, INIT.stack) && Tokens(G, toks)
    decreases |toks|
  {
    if toks == [] then 0
    else
      var front := toks[..|toks| - 1];
      EmptyOverflows(T, G, C, cap, front)
      + if MeetsEmptyOverflow(T, G, C, cap, Run(T, G, C, cap, INIT, front), toks[|toks| - 1]) then 1 else 0
  }

  lemma EmptyOverflowEnds(T: Tables, cap: Depth, st: St, tok: Token)
    requires Ready(T, st.stack, tok.major) && EmptyRuleOverflow(T, cap, st, tok.major)
    ensures Step(T, cap, st, tok).done
  {
    hide Drain;
  }

  /** One call loses one value if it meets a full stack with an empty rule, and none otherwise. */
  lemma {:induction false} FeedLoses(T: Tables, G: Grammar, C: Cert, cap: Depth, st: St, tok: Token)
    requires Certified(T, G, C) && Good(T, G, C, st.stack) && tok.major < G.nTerm
    ensures |Feed(T, G, C, cap, st, tok).lost|
            == |st.lost| + if MeetsEmptyOverflow(T, G, C, cap, st, tok) then 1 else 0
    decreases Potential(C, st.stack, tok.major)
  {
    hide Step, Good, Certified, EmptyRuleOverflow;
    FeedUnfolds(T, G, C, cap, st, tok);
    StepLoses(T, cap, st, tok);
    if EmptyRuleOverflow(T, cap, st, tok.major) {
      EmptyOverflowEnds(T, cap, st, tok);
    }
    var next := Step(T, cap, st, tok);
    if !next.done {
      FeedLoses(T, G, C, cap, next.st, tok);
    }
  }

  /** A run loses as many values as it has calls that meet a full stack with an empty rule; in particular it
      loses none if and only if no turn does. */
  lemma {:induction false} RunLoses(T: Tables, G: Grammar, C: Cert, cap: Depth, toks: seq<Token>)
    requires Certified(T, G, C) && Tokens(G, toks)
    ensures Good(T, G, C, INIT.stack)
    ensures |Run(T, G, C, cap, INIT, toks).lost| == EmptyOverflows(T, G, C, cap, toks)
    decreases |toks|
  {
    if toks != [] {
      var front := toks[..|toks| - 1];
      RunLoses(T, G, C, cap, front);
      FeedLoses(T, G, C, cap, Run(T, G, C, cap, INIT, front), toks[|toks| - 1]);
    }
  }

  lemma {:induction false} UnboundedNeverMeets(T: Tables, G: Grammar, C: Cert, st: St, tok: Token)
    requires Certified(T, G, C) && Good(T, G, C, st.stack) && tok.major < G.nTerm
    ensures !MeetsEmptyOverflow(T, G, C, None, st, tok)
    decreases Potential(C, st.stack, tok.major)
  {
    hide Step, Good, Certified;
    FeedUnfolds(T, G, C, None, st, tok);
    var next := Step(T, None, st, tok);
    if !next.done {
      UnboundedNeverMeets(T, G, C, next.st, tok);
    }
  }

  lemma {:induction false} UnboundedLosesNothing(T: Tables, G: Grammar, C: Cert, toks: seq<Token>)
    requires Certified(T, G, C) && Tokens(G, toks)
    ensures Good(T, G, C, INIT.stack) && Run(T, G, C, None, INIT, toks).lost == []
    decreases |toks|
  {
    if toks != [] {
      var front := toks[..|toks| - 1];
      var st := Run(T, G, C, None, INIT, front);
      UnboundedLosesNothing(T, G, C, front);
      UnboundedNeverMeets(T, G, C, st, toks[|toks| - 1]);
      FeedLoses(T, G, C, None, st, toks[|toks| - 1]);
    }
  }

  /** A run that never needs more than `n` entries loses nothing on a stack of `n`. */
  lemma FittingRunsLoseNothing(T: Tables, G: Grammar, C: Cert, n: nat, toks: seq<Token>)
    requires Certified(T, G, C) && Tokens(G, toks) && n > 1
    ensures Good(T, G, C, INIT.stack)
    ensures RunPeak(T, G, C, toks) <= n ==> Run(T, G, C, Some(n), INIT, toks).lost == []
  {
    RunAgrees(T, G, C, n, toks);
    UnboundedLosesNothing(T, G, C, toks);
  }

  // ---- Ownership ----

  /** A value and the values it was made of, with their numbers of occurrences. */
  function Parts(t: Tree): multiset<Tree>
    decreases t, 0
  {
    match t
    case Leaf(_) => multiset{t}
    case Node(_, kids) => multiset{t} + PartsOf(kids)
  }

  function PartsOf(ts: seq<Tree>): multiset<Tree>
    decreases ts, 1
  {
    if ts == [] then multiset{} else PartsOf(ts[..|ts| - 1]) + Parts(ts[|ts| - 1])
  }

  lemma {:induction false} PartsAppend(a: seq<Tree>, b: seq<Tree>)
    ensures PartsOf(a + b) == PartsOf(a) + PartsOf(b)
    decreases |b|
  {
    if b == [] {
      assert a + b == a;
    } else {
      assert (a + b)[..|a + b| - 1] == a + b[..|b| - 1];
      PartsAppend(a, b[..|b| - 1]);
    }
  }

  lemma PartsOne(t: Tree)
    ensures PartsOf([t]) == Parts(t)
  {
    assert [t][..0] == [];
  }

  /** The trees handed off by acceptances. */
  function AcceptedValues(log: Log): seq<Tree> {
    match log
    case Start => []
    case After(prev, e) => if e.Accepted? then AcceptedValues(prev) + [e.tree] else AcceptedValues(prev)
  }

  function Values(ds: seq<(nat, Tree)>): seq<Tree> {
    seq(|ds|, i requires 0 <= i < |ds| => ds[i].1)
  }

  /** The values given to destructors. */
  function DestroyedValues(log: Log): seq<Tree> {
    Values(Destructions(log))
  }

  lemma ValuesAppend(a: seq<(nat, Tree)>, b: seq<(nat, Tree)>)
    ensures Values(a + b) == Values(a) + Values(b)
  {
  }

  function OnStack(stack: seq<StackEntry>): multiset<Tree> {
    if |stack| <= 1 then multiset{} else PartsOf(Minors(stack[1..]))
  }

  /** Everything that is owned: by the stack, by the destructor, by an accepting caller, or lost. */
  function Held(st: St): multiset<Tree> {
    OnStack(st.stack) + PartsOf(DestroyedValues(st.log)) + PartsOf(AcceptedValues(st.log)) + PartsOf(st.lost)
  }

  /** The value that one turn makes: a shifted token, or what a reduction combines. */
  function Made(T: Tables, cap: Depth, st: St, tok: Token): multiset<Tree>
    requires Ready(T, st.stack, tok.major)
  {
    var act := Act(T, Top(st.stack).stateno, tok.major);
    if act <= YY_MAX_SHIFTREDUCE then if Full(cap, |st.stack|) then multiset{} else multiset{Leaf(tok)}
    else if act <= YY_MAX_REDUCE then
      var r := act - YY_MIN_REDUCE;
      var n := T.ruleInfo[r].nrhs;
      if n == 0 && Full(cap, |st.stack|) then multiset{} else multiset{Node(r, Minors(st.stack[|st.stack| - n..]))}
    else multiset{}
  }

  lemma PushOwned(base: seq<StackEntry>, e: StackEntry)
    requires base != []
    ensures OnStack(base + [e]) == OnStack(base) + Parts(e.minor)
  {
    hide Parts;
    assert (base + [e])[1..] == base[1..] + [e];
    assert Minors(base[1..] + [e]) == Minors(base[1..]) + [e.minor];
    PartsAppend(Minors(base[1..]), [e.minor]);
    PartsOne(e.minor);
  }

  lemma OnStackIs(stack: seq<StackEntry>)
    requires stack != []
    ensures OnStack(stack) == PartsOf(Minors(stack[1..]))
  {
  }

  lemma SplitOwned(stack: seq<StackEntry>, k: nat)
    requires 0 < k <= |stack|
    ensures OnStack(stack) == OnStack(stack[..k]) + PartsOf(Minors(stack[k..]))
  {
    hide PartsOf, OnStack;
    OnStackIs(stack);
    OnStackIs(stack[..k]);
    assert stack[1..] == stack[..k][1..] + stack[k..];
    assert Minors(stack[1..]) == Minors(stack[..k][1..]) + Minors(stack[k..]);
    PartsAppend(Minors(stack[..k][1..]), Minors(stack[k..]));
  }

  lemma TopDownFirst(stack: seq<StackEntry>)
    requires |stack| > 1
    ensures Values(TopDown(stack)) == [Top(stack).minor] + Values(TopDown(stack[..|stack| - 1]))
  {
    assert TopDown(stack) == [(Top(stack).major, Top(stack).minor)] + TopDown(stack[..|stack| - 1]);
  }

  lemma {:induction false} TopDownOwned(stack: seq<StackEntry>)
    ensures PartsOf(Values(TopDown(stack))) == OnStack(stack)
    decreases |stack|
  {
    if |stack| > 1 {
      hide TopDown, Values, Parts;
      var front, top := stack[..|stack| - 1], Top(stack);
      TopDownOwned(front);
      TopDownFirst(stack);
      PartsAppend([top.minor], Values(TopDown(front)));
      PartsOne(top.minor);
      PushOwned(front, top);
      assert stack == front + [top];
    }
  }

  lemma {:induction false} DrainAcceptsNothing(log: Log, stack: seq<StackEntry>)
    ensures AcceptedValues(Drain(log, stack)) == AcceptedValues(log)
    decreases |stack|
  {
    if |stack| > 1 {
      DrainAcceptsNothing(After(log, Destroyed(Top(stack).major, Top(stack).minor)), stack[..|stack| - 1]);
    }
  }

  lemma OverflowOwned(st: St)
    requires st.stack != []
    ensures Held(Overflow(st)) == Held(st)
  {
    hide Drain, TopDown, PartsOf, Values;
    DrainDestroysEach(st.log, st.stack);
    DrainAcceptsNothing(st.log, st.stack);
    ValuesAppend(Destructions(st.log), TopDown(st.stack));
    PartsAppend(DestroyedValues(st.log), Values(TopDown(st.stack)));
    TopDownOwned(st.stack);
  }

  lemma LoseTopOwned(st: St)
    requires |st.stack| > 1
    ensures Held(LoseTop(st)) == Held(st)
  {
    hide PartsOf, OnStack;
    var front, top := st.stack[..|st.stack| - 1], Top(st.stack);
    assert st.stack == front + [top];
    PushOwned(front, top);
    PartsAppend(st.lost, [top.minor]);
    PartsOne(top.minor);
  }

  lemma NodeParts(r: nat, kids: seq<Tree>)
    ensures Parts(Node(r, kids)) == multiset{Node(r, kids)} + PartsOf(kids)
  {
  }

  lemma CombineOwned(T: Tables, st: St, r: nat)
    requires Reducible(T, st.stack, r)
    requires Combine(T, st, r).log != st.log ==> |Combine(T, st, r).stack| == 1
    ensures Held(Combine(T, st, r)) == Held(st) + multiset{Node(r, Minors(st.stack[|st.stack| - T.ruleInfo[r].nrhs..]))}
  {
    hide PartsOf, Parts, OnStack, Tables.Goto, Minors, Target;
    var h, n := |st.stack|, T.ruleInfo[r].nrhs;
    var base, kids, st' := st.stack[..h - n], Minors(st.stack[h - n..]), Combine(T, st, r);
    SplitOwned(st.stack, h - n);
    NodeParts(r, kids);
    if st'.log == st.log {
      PushOwned(base, Top(st'.stack));
    } else {
      PartsAppend(AcceptedValues(st.log), [Node(r, kids)]);
      PartsOne(Node(r, kids));
    }
  }

  lemma ShiftOwned(cap: Depth, st: St, act: nat, tok: Token)
    requires st.stack != []
    ensures Held(Shift(cap, st, act, tok)) == Held(st) + if Full(cap, |st.stack|) then multiset{} else multiset{Leaf(tok)}
  {
    hide PartsOf, OnStack, Overflow, Target;
    OverflowOwned(st);
    PushOwned(st.stack, StackEntry(Target(act), tok.major, Leaf(tok)));
  }

  lemma ReduceOwned(T: Tables, G: Grammar, C: Cert, cap: Depth, st: St, x: nat, r: nat)
    requires Certified(T, G, C) && Good(T, G, C, st.stack) && ReduceOk(T, G, C, Top(st.stack).stateno, x, r)
    ensures Reducible(T, st.stack, r)
    ensures var n := T.ruleInfo[r].nrhs;
            Held(Reduce(T, cap, st, r)) == Held(st)
              + if n == 0 && Full(cap, |st.stack|) then multiset{} else multiset{Node(r, Minors(st.stack[|st.stack| - n..]))}
  {
    hide Held, Overflow, LoseTop, Combine, Certified, Good, ReduceOk, Tables.Goto, Minors;
    CombineGood(T, G, C, st, x, r);
    if T.ruleInfo[r].nrhs == 0 && Full(cap, |st.stack|) {
      LoseTopOwned(st);
      OneLess(st);
      OverflowOwned(LoseTop(st));
    } else {
      CombineOwned(T, st, r);
    }
  }

  lemma OneLess(st: St)
    requires |st.stack| > 1
    ensures LoseTop(st).stack != []
  {
  }

  /** Every turn adds exactly the value it makes to what is owned. */
  lemma StepOwned(T: Tables, G: Grammar, C: Cert, cap: Depth, st: St, tok: Token)
    requires Certified(T, G, C) && Good(T, G, C, st.stack) && tok.major < G.nTerm
    ensures Ready(T, st.stack, tok.major)
    ensures Held(Step(T, cap, st, tok).st) == Held(st) + Made(T, cap, st, tok)
  {
    hide Held, Shift, Reduce, Certified, Good, ReduceOk, EdgeOk, Minors, Tables.ShiftAction, Tables.WellFormed, Acyclic;
    GoodReady(T, G, C, st.stack, tok.major);
    var act := Act(T, Top(st.stack).stateno, tok.major);
    if act <= YY_MAX_SHIFTREDUCE {
      ShiftOwned(cap, st, act, tok);
    } else if act <= YY_MAX_REDUCE {
      ReduceOwned(T, G, C, cap, st, tok.major, act - YY_MIN_REDUCE);
    } else {
      ErrorOwned(st, tok);
    }
  }

  lemma ErrorOwned(st: St, tok: Token)
    ensures Held(St(st.stack, After(st.log, SyntaxError(tok)), st.lost)) == Held(st)
  {
  }

  ghost function FeedMade(T: Tables, G: Grammar, C: Cert, cap: Depth, st: St, tok: Token): multiset<Tree>
    requires Certified(T, G, C) && Good(T, G, C, st.stack) && tok.major < G.nTerm
    decreases Potential(C, st.stack, tok.major)
  {
    FeedUnfolds(T, G, C, cap, st, tok);
    var next := Step(T, cap, st, tok);
    Made(T, cap, st, tok) + if next.done then multiset{} else FeedMade(T, G, C, cap, next.st, tok)
  }

  /** All values that a run makes. */
  ghost function RunMade(T: Tables, G: Grammar, C: Cert, cap: Depth, toks: seq<Token>): multiset<Tree>
    requires Certified(T, G, C) && Good(T, G, C, INIT.stack) && Tokens(G, toks)
    decreases |toks|
  {
    if toks == [] then multiset{}
    else
      var front := toks[..|toks| - 1];
      RunMade(T, G, C, cap, front) + FeedMade(T, G, C, cap, Run(T, G, C, cap, INIT, front), toks[|toks| - 1])
  }

  lemma {:induction false} FeedOwned(T: Tables, G: Grammar, C: Cert, cap: Depth, st: St, tok: Token)
    requires Certified(T, G, C) && Good(T, G, C, st.stack) && tok.major < G.nTerm
    ensures Held(Feed(T, G, C, cap, st, tok)) == Held(st) + FeedMade(T, G, C, cap, st, tok)
    decreases Potential(C, st.stack, tok.major)
  {
    hide Step, Good, Certified, Held, Made;
    FeedUnfolds(T, G, C, cap, st, tok);
    StepOwned(T, G, C, cap, st, tok);
    var next := Step(T, cap, st, tok);
    if !next.done {
      FeedOwned(T, G, C, cap, next.st, tok);
    }
  }

  /** Conservation of values: in every reachable state each value ever made, of an empty rule or not, is owned
      exactly once. */
  lemma {:induction false} RunOwned(T: Tables, G: Grammar, C: Cert, cap: Depth, toks: seq<Token>)
    requires Certified(T, G, C) && Tokens(G, toks)
    ensures Good(T, G, C, INIT.stack)
    ensures Held(Run(T, G, C, cap, INIT, toks)) == RunMade(T, G, C, cap, toks)
    decreases |toks|
  {
    if toks != [] {
      var front := toks[..|toks| - 1];
      RunOwned(T, G, C, cap, front);
      FeedOwned(T, G, C, cap, Run(T, G, C, cap, INIT, front), toks[|toks| - 1]);
    }
  }

  /** After any run followed by freeing the parser, each value ever made was destroyed exactly once, by itself
      or inside a value made of it, or was handed off by an acceptance, or was lost. */
  lemma FreeConservesValues(T: Tables, G: Grammar, C: Cert, cap: Depth, toks: seq<Token>)
    requires Certified(T, G, C) && Tokens(G, toks)
    ensures Good(T, G, C, INIT.stack)
    ensures var st := Run(T, G, C, cap, INIT, toks);
            RunMade(T, G, C, cap, toks)
            == PartsOf(DestroyedValues(Drain(st.log, st.stack))) + PartsOf(AcceptedValues(st.log)) + PartsOf(st.lost)
  {
    hide PartsOf, TopDown, Drain, Values;
    RunOwned(T, G, C, cap, toks);
    var st := Run(T, G, C, cap, INIT, toks);
    DrainDestroysEach(st.log, st.stack);
    ValuesAppend(Destructions(st.log), TopDown(st.stack));
    PartsAppend(DestroyedValues(st.log), Values(TopDown(st.stack)));
    TopDownOwned(st.stack);
  }
}
