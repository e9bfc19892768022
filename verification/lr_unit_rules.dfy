/** Tables with unit rules optimised out against tables that keep them.

    In tables that keep a unit rule, the goto entry for its right-hand side parks the rule's reduction.  In
    the optimised tables that entry already is the entry for the left-hand side, so the reduction never
    happens.  Both give the same verdicts and build the same trees up to the nodes of those rules.  How
    parked reductions relate to the textbook machine, and both optimisations together, is in LrTextbook. */
module LrUnitRules {
  import opened Wrappers
  import opened LrTables
  import opened Grammars
  import opened LrMachine

  /** The same grammar with every rule in place. */
  function Plain(G: Grammar): Grammar {
    G.(units := {})
  }

  /** A goto action that parks a reduction by one of the rules to be optimised out. */
  predicate ParksUnit(G: Grammar, act: nat) {
    YY_MIN_SHIFTREDUCE <= act <= YY_MAX_SHIFTREDUCE && act - YY_MIN_SHIFTREDUCE in G.units
  }

  /** `T1` is `T0` with each goto entry that parks a unit rule redirected to the entry for that rule's
      left-hand side, which in turn may have been redirected; the redirection never reaches acceptance. */
  ghost predicate Optimises(T0: Tables, T1: Tables, G: Grammar) {
    && T0.WellFormed() && T1.WellFormed() && Matches(T1, G)
    && T0.ruleInfo == T1.ruleInfo && |T0.shiftOfst| == |T1.shiftOfst|
    && (forall s, x :: 0 <= s < |T0.shiftOfst| && 0 <= x < G.nTerm ==> T0.ShiftAction(s, x) == T1.ShiftAction(s, x))
    && (forall s, x :: 0 <= s && x >= G.nTerm && T0.Goto(s, x).Some? ==> Redirected(T0, T1, G, s, x))
  }

  ghost predicate Redirected(T0: Tables, T1: Tables, G: Grammar, s: nat, x: nat)
    requires T0.WellFormed() && T1.WellFormed() && Matches(T1, G) && T0.Goto(s, x).Some?
  {
    var act := T0.Goto(s, x).value;
    if ParksUnit(G, act) then
      var onward := T1.Goto(s, T1.ruleInfo[act - YY_MIN_SHIFTREDUCE].lhs);
      onward.Some? && onward.value <= YY_MAX_SHIFTREDUCE && T1.Goto(s, x) == onward
    else
      T1.Goto(s, x) == Some(act)
  }

  // ---- Trees up to unit nodes ----

  function Strip(G: Grammar, t: Tree): Tree {
    match t
    case Leaf(_) => t
    case Node(r, kids) =>
      if r in G.units && |kids| == 1 then Strip(G, kids[0])
      else Node(r, seq(|kids|, i requires 0 <= i < |kids| => Strip(G, kids[i])))
  }

  predicate SameTree(G: Grammar, t0: Tree, t1: Tree) {
    Strip(G, t0) == Strip(G, t1)
  }

  lemma NodesAgree(G: Grammar, r: nat, kids0: seq<Tree>, kids1: seq<Tree>)
    requires |kids0| == |kids1| && forall i :: 0 <= i < |kids0| ==> SameTree(G, kids0[i], kids1[i])
    ensures SameTree(G, Node(r, kids0), Node(r, kids1))
  {
    assert seq(|kids0|, i requires 0 <= i < |kids0| => Strip(G, kids0[i]))
        == seq(|kids1|, i requires 0 <= i < |kids1| => Strip(G, kids1[i]));
  }

  /** Unit nodes carry no tokens: trees that agree have the same leaves. */
  lemma {:induction false} StripKeepsYield(G: Grammar, t: Tree)
    ensures Yield(Strip(G, t)) == Yield(t)
    decreases t, 0
  {
    if t.Node? {
      if t.rule in G.units && |t.kids| == 1 {
        StripKeepsYield(G, t.kids[0]);
        assert Yields(t.kids[..0]) == [];
      } else {
        StripsKeepYields(G, t.kids);
      }
    }
  }

  lemma {:induction false} StripsKeepYields(G: Grammar, ts: seq<Tree>)
    ensures Yields(seq(|ts|, i requires 0 <= i < |ts| => Strip(G, ts[i]))) == Yields(ts)
    decreases ts, 1
  {
    if ts != [] {
      var last, all := |ts| - 1, seq(|ts|, i requires 0 <= i < |ts| => Strip(G, ts[i]));
      StripsKeepYields(G, ts[..last]);
      StripKeepsYield(G, ts[last]);
      assert all[..last] == seq(last, i requires 0 <= i < last => Strip(G, ts[..last][i]));
    }
  }

  // ---- The simulation relation ----

  predicate SameEntry(G: Grammar, e0: StackEntry, e1: StackEntry) {
    e0.stateno == e1.stateno && SameTree(G, e0.minor, e1.minor)
  }

  /** The unoptimised machine has the unit rule parked in its top entry; the optimised one has moved on. */
  ghost predicate Lagging(T1: Tables, G: Grammar, s0: seq<StackEntry>, s1: seq<StackEntry>)
    requires Matches(T1, G) && T1.WellFormed()
  {
    && |s0| == |s1| > 1 && Top(s0).stateno >= YY_MIN_REDUCE && Top(s0).stateno - YY_MIN_REDUCE in G.units
    && SameTree(G, Top(s0).minor, Top(s1).minor)
    && var onward := T1.Goto(s0[|s0| - 2].stateno, T1.ruleInfo[Top(s0).stateno - YY_MIN_REDUCE].lhs);
       onward.Some? && onward.value <= YY_MAX_SHIFTREDUCE && Top(s1).stateno == Target(onward.value)
  }

  ghost predicate StacksAgree(T1: Tables, G: Grammar, s0: seq<StackEntry>, s1: seq<StackEntry>)
    requires Matches(T1, G) && T1.WellFormed()
  {
    && |s0| == |s1| > 0
    && (forall k :: 0 <= k < |s0| - 1 ==> SameEntry(G, s0[k], s1[k]))
    && (SameEntry(G, Top(s0), Top(s1)) || Lagging(T1, G, s0, s1))
  }

  predicate EventsAgree(G: Grammar, e0: Event, e1: Event) {
    match e0
    case Destroyed(_, minor) => e1.Destroyed? && SameTree(G, minor, e1.minor)
    case Accepted(tree) => e1.Accepted? && SameTree(G, tree, e1.tree)
    case _ => e0 == e1
  }

  /** The same shifts, errors, overflows and acceptances in the same order. */
  predicate LogsAgree(G: Grammar, l0: Log, l1: Log) {
    match l0
    case Start => l1.Start?
    case After(prev, e) => l1.After? && LogsAgree(G, prev, l1.prev) && EventsAgree(G, e, l1.event)
  }

  /** The same number of lost values, and pairwise the same trees. */
  predicate LossesAgree(G: Grammar, lost0: seq<Tree>, lost1: seq<Tree>) {
    |lost0| == |lost1| && forall k :: 0 <= k < |lost0| ==> SameTree(G, lost0[k], lost1[k])
  }

  ghost predicate Agree(T1: Tables, G: Grammar, st0: St, st1: St)
    requires Matches(T1, G) && T1.WellFormed()
  {
    StacksAgree(T1, G, st0.stack, st1.stack) && LogsAgree(G, st0.log, st1.log) && LossesAgree(G, st0.lost, st1.lost)
  }

  lemma {:induction false} DrainsAgree(T1: Tables, G: Grammar, l0: Log, s0: seq<StackEntry>, l1: Log, s1: seq<StackEntry>)
    requires |s0| == |s1| && forall k :: 0 <= k < |s0| ==> SameTree(G, s0[k].minor, s1[k].minor)
    requires LogsAgree(G, l0, l1)
    ensures LogsAgree(G, Drain(l0, s0), Drain(l1, s1))
    decreases |s0|
  {
    if |s0| > 1 {
      var m := |s0| - 1;
      DrainsAgree(T1, G, After(l0, Destroyed(s0[m].major, s0[m].minor)), s0[..m],
                  After(l1, Destroyed(s1[m].major, s1[m].minor)), s1[..m]);
    }
  }

  lemma OverflowsAgree(T1: Tables, G: Grammar, st0: St, st1: St)
    requires Matches(T1, G) && T1.WellFormed()
    requires |st0.stack| == |st1.stack| > 0 && st0.stack[0].stateno == st1.stack[0].stateno
    requires forall k :: 0 <= k < |st0.stack| ==> SameTree(G, st0.stack[k].minor, st1.stack[k].minor)
    requires LogsAgree(G, st0.log, st1.log) && LossesAgree(G, st0.lost, st1.lost)
    ensures Agree(T1, G, Overflow(st0), Overflow(st1))
  {
    hide SameTree, Matches, T1.WellFormed;
    DrainsAgree(T1, G, st0.log, st0.stack, st1.log, st1.stack);
  }

  // ---- One step ----

  /** The unoptimised machine reduces the unit rule; the optimised machine waits. */
  lemma SettleStep(T0: Tables, T1: Tables, G: Grammar, C0: Cert, cap: Depth, st0: St, st1: St, tok: Token)
    requires Optimises(T0, T1, G) && Certified(T0, Plain(G), C0)
    requires Good(T0, Plain(G), C0, st0.stack) && tok.major < G.nTerm
    requires Agree(T1, G, st0, st1) && Lagging(T1, G, st0.stack, st1.stack)
    ensures Ready(T0, st0.stack, tok.major)
    ensures var next := Step(T0, cap, st0, tok);
            !next.done && Agree(T1, G, next.st, st1)
  {
    var s0 := st0.stack;
    GoodReady(T0, Plain(G), C0, s0, tok.major);
    var r := Top(s0).stateno - YY_MIN_REDUCE;
    CombineGood(T0, Plain(G), C0, st0, tok.major, r);
    var q, lhs := s0[|s0| - 2].stateno, T0.ruleInfo[r].lhs;
    assert T0.Goto(q, lhs).Some? && Redirected(T0, T1, G, q, lhs);
    var kids := Minors(s0[|s0| - 1..]);
    assert kids == [Top(s0).minor];
    assert SameTree(G, Node(r, kids), Top(s0).minor);
  }

  lemma KidsAgree(G: Grammar, s0: seq<StackEntry>, s1: seq<StackEntry>, n: nat, r: nat)
    requires |s0| == |s1| && n <= |s0| && forall k :: 0 <= k < |s0| ==> SameEntry(G, s0[k], s1[k])
    ensures SameTree(G, Node(r, Minors(s0[|s0| - n..])), Node(r, Minors(s1[|s1| - n..])))
  {
    hide SameTree;
    var kids0, kids1, h := Minors(s0[|s0| - n..]), Minors(s1[|s1| - n..]), |s0|;
    forall i | 0 <= i < n
      ensures SameTree(G, kids0[i], kids1[i])
    {
      assert SameEntry(G, s0[h - n + i], s1[h - n + i]);
    }
    NodesAgree(G, r, kids0, kids1);
  }

  /** Pushing the left-hand side onto agreeing stacks, in the original and in the redirected goto state. */
  lemma PushesAgree(T0: Tables, T1: Tables, G: Grammar, s0: seq<StackEntry>, s1: seq<StackEntry>, lhs: nat, t0: Tree, t1: Tree)
    requires Optimises(T0, T1, G) && |s0| == |s1| > 0 && lhs >= G.nTerm
    requires forall k :: 0 <= k < |s0| ==> SameEntry(G, s0[k], s1[k])
    requires T0.Goto(Top(s0).stateno, lhs).Some? && SameTree(G, t0, t1)
    ensures var a0, a1 := T0.Goto(Top(s0).stateno, lhs).value, T1.Goto(Top(s0).stateno, lhs);
            && a1.Some? && (a0 <= YY_MAX_SHIFTREDUCE <==> a1.value <= YY_MAX_SHIFTREDUCE)
            && (a0 <= YY_MAX_SHIFTREDUCE ==>
                  StacksAgree(T1, G, s0 + [StackEntry(Target(a0), lhs, t0)], s1 + [StackEntry(Target(a1.value), lhs, t1)]))
  {
    hide SameTree, T0.WellFormed, T1.WellFormed;
    assert Redirected(T0, T1, G, Top(s0).stateno, lhs);
  }

  lemma CombinesAgree(T0: Tables, T1: Tables, G: Grammar, st0: St, st1: St, r: nat)
    requires Optimises(T0, T1, G) && LogsAgree(G, st0.log, st1.log) && LossesAgree(G, st0.lost, st1.lost)
    requires |st0.stack| == |st1.stack| && forall k :: 0 <= k < |st0.stack| ==> SameEntry(G, st0.stack[k], st1.stack[k])
    requires Reducible(T0, st0.stack, r) && Reducible(T1, st1.stack, r)
    ensures Agree(T1, G, Combine(T0, st0, r), Combine(T1, st1, r))
    ensures |Combine(T0, st0, r).stack| == |Combine(T1, st1, r).stack|
  {
    hide SameTree, Lagging, Minors, Redirected, Target;
    var s0, s1, h, n, lhs := st0.stack, st1.stack, |st0.stack|, T0.ruleInfo[r].nrhs, T0.ruleInfo[r].lhs;
    KidsAgree(G, s0, s1, n, r);
    var base0, base1 := s0[..h - n], s1[..h - n];
    assert Top(base0) == s0[h - 1 - n] && SameEntry(G, s0[h - 1 - n], s1[h - 1 - n]);
    PushesAgree(T0, T1, G, base0, base1, lhs, Node(r, Minors(s0[h - n..])), Node(r, Minors(s1[h - n..])));
  }

  lemma ReducesAgree(T0: Tables, T1: Tables, G: Grammar, cap: Depth, st0: St, st1: St, r: nat)
    requires Optimises(T0, T1, G) && LogsAgree(G, st0.log, st1.log) && LossesAgree(G, st0.lost, st1.lost)
    requires |st0.stack| == |st1.stack| && forall k :: 0 <= k < |st0.stack| ==> SameEntry(G, st0.stack[k], st1.stack[k])
    requires Reducible(T0, st0.stack, r) && Reducible(T1, st1.stack, r)
    ensures Agree(T1, G, Reduce(T0, cap, st0, r), Reduce(T1, cap, st1, r))
    ensures |Reduce(T0, cap, st0, r).stack| == |Reduce(T1, cap, st1, r).stack|
  {
    hide SameTree, Agree, Overflow, Combine, LogsAgree, T0.WellFormed, T1.WellFormed;
    CombinesAgree(T0, T1, G, st0, st1, r);
    if T0.ruleInfo[r].nrhs == 0 && Full(cap, |st0.stack|) {
      OverflowsAgree(T1, G, LoseTop(st0), LoseTop(st1));
      OneEntryLeft(LoseTop(st0));
      OneEntryLeft(LoseTop(st1));
    }
  }

  lemma OneEntryLeft(st: St)
    requires st.stack != []
    ensures |Overflow(st).stack| == 1
  {
  }

  lemma ShiftsAgree(T1: Tables, G: Grammar, cap: Depth, st0: St, st1: St, act: nat, tok: Token)
    requires Matches(T1, G) && T1.WellFormed() && LogsAgree(G, st0.log, st1.log) && LossesAgree(G, st0.lost, st1.lost)
    requires |st0.stack| == |st1.stack| > 0 && forall k :: 0 <= k < |st0.stack| ==> SameEntry(G, st0.stack[k], st1.stack[k])
    ensures Agree(T1, G, Shift(cap, st0, act, tok), Shift(cap, st1, act, tok))
  {
    hide Overflow, Lagging, T1.WellFormed, Matches;
    OverflowsAgree(T1, G, st0, st1);
  }

  lemma MatchStep(T0: Tables, T1: Tables, G: Grammar, C0: Cert, C1: Cert, cap: Depth, st0: St, st1: St, tok: Token)
    requires Optimises(T0, T1, G) && Certified(T0, Plain(G), C0) && Certified(T1, G, C1)
    requires Good(T0, Plain(G), C0, st0.stack) && Good(T1, G, C1, st1.stack) && tok.major < G.nTerm
    requires Agree(T1, G, st0, st1) && SameEntry(G, Top(st0.stack), Top(st1.stack))
    ensures Ready(T0, st0.stack, tok.major) && Ready(T1, st1.stack, tok.major)
    ensures var next0, next1 := Step(T0, cap, st0, tok), Step(T1, cap, st1, tok);
            next0.done == next1.done && Agree(T1, G, next0.st, next1.st)
  {
    hide Good, ReduceOk, EdgeOk, Certified, Shift, Reduce, SameTree, Lagging, LogsAgree, Redirected;
    GoodReady(T0, Plain(G), C0, st0.stack, tok.major);
    GoodReady(T1, G, C1, st1.stack, tok.major);
    assert forall k :: 0 <= k < |st0.stack| ==> SameEntry(G, st0.stack[k], st1.stack[k]);
    var act := Act(T0, Top(st0.stack).stateno, tok.major);
    if act <= YY_MAX_SHIFTREDUCE {
      ShiftsAgree(T1, G, cap, st0, st1, act, tok);
    } else if act <= YY_MAX_REDUCE {
      ReducesAgree(T0, T1, G, cap, st0, st1, act - YY_MIN_REDUCE);
    } else {
      ErrorsAgree(T1, G, st0, st1, tok);
    }
  }

  lemma ErrorsAgree(T1: Tables, G: Grammar, st0: St, st1: St, tok: Token)
    requires Matches(T1, G) && T1.WellFormed() && Agree(T1, G, st0, st1)
    ensures Agree(T1, G, St(st0.stack, After(st0.log, SyntaxError(tok)), st0.lost), St(st1.stack, After(st1.log, SyntaxError(tok)), st1.lost))
  {
    hide StacksAgree;
  }

  // ---- Calls and runs ----

  lemma {:induction false} FeedsAgree(T0: Tables, T1: Tables, G: Grammar, C0: Cert, C1: Cert, cap: Depth, st0: St, st1: St, tok: Token)
    requires Optimises(T0, T1, G) && Certified(T0, Plain(G), C0) && Certified(T1, G, C1)
    requires Good(T0, Plain(G), C0, st0.stack) && Good(T1, G, C1, st1.stack) && tok.major < G.nTerm
    requires Agree(T1, G, st0, st1)
    ensures Agree(T1, G, Feed(T0, Plain(G), C0, cap, st0, tok), Feed(T1, G, C1, cap, st1, tok))
    decreases Potential(C0, st0.stack, tok.major)
  {
    hide Step, Good, Certified, SameEntry, Lagging, Optimises, LogsAgree;
    OptimisedTables(T0, T1, G);
    FeedUnfolds(T0, Plain(G), C0, cap, st0, tok);
    FeedUnfolds(T1, G, C1, cap, st1, tok);
    var next0 := Step(T0, cap, st0, tok);
    if SameEntry(G, Top(st0.stack), Top(st1.stack)) {
      MatchStep(T0, T1, G, C0, C1, cap, st0, st1, tok);
      if !next0.done {
        FeedsAgree(T0, T1, G, C0, C1, cap, next0.st, Step(T1, cap, st1, tok).st, tok);
      }
    } else {
      SettleStep(T0, T1, G, C0, cap, st0, st1, tok);
      FeedsAgree(T0, T1, G, C0, C1, cap, next0.st, st1, tok);
    }
  }

  lemma OptimisedTables(T0: Tables, T1: Tables, G: Grammar)
    requires Optimises(T0, T1, G)
    ensures T0.WellFormed() && T1.WellFormed() && Matches(T1, G)
  {
  }

  /** On every token stream the optimised tables and the tables that keep the unit rules report the same shifts, syntax
      errors, overflows and acceptances, with the same trees up to the optimised-out nodes. */
  lemma {:induction false} UnitRulesMayBeOptimisedOut(T0: Tables, T1: Tables, G: Grammar, C0: Cert, C1: Cert, cap: Depth, toks: seq<Token>)
    requires Optimises(T0, T1, G) && Certified(T0, Plain(G), C0) && Certified(T1, G, C1) && Tokens(G, toks)
    ensures Good(T0, Plain(G), C0, INIT.stack) && Good(T1, G, C1, INIT.stack)
    ensures Agree(T1, G, Run(T0, Plain(G), C0, cap, INIT, toks), Run(T1, G, C1, cap, INIT, toks))
    decreases |toks|
  {
    hide Certified, Optimises, SameTree;
    OptimisedTables(T0, T1, G);
    InitGood(T0, Plain(G), C0);
    InitGood(T1, G, C1);
    InitAgrees(T1, G);
    if toks != [] {
      var front, tok := toks[..|toks| - 1], toks[|toks| - 1];
      UnitRulesMayBeOptimisedOut(T0, T1, G, C0, C1, cap, front);
      FeedsAgree(T0, T1, G, C0, C1, cap, Run(T0, Plain(G), C0, cap, INIT, front), Run(T1, G, C1, cap, INIT, front), tok);
    }
  }

  lemma InitAgrees(T1: Tables, G: Grammar)
    requires Matches(T1, G) && T1.WellFormed()
    ensures Agree(T1, G, INIT, INIT)
  {
  }
}
