/** The driver itself: a fixed array of 100 stack entries, the index `yytos` of the top, and the
    routines that change them in place.  Each is proved against the functional machine. */
module LrParser {
  import opened Wrappers
  import opened LrTables
  import opened Grammars
  import opened LrMachine

  const BOUNDED: Depth := Some(YYSTACKDEPTH)

  class YyParser {
    const T: Tables
    ghost const G: Grammar
    ghost const C: Cert
    const yystack: array<StackEntry>
    var yytos: int
    var log: Log
    ghost var lost: seq<Tree>

    ghost predicate Valid()
      reads this, yystack
    {
      && yystack.Length == YYSTACKDEPTH && 0 <= yytos < YYSTACKDEPTH
      && Certified(T, G, C) && Good(T, G, C, yystack[..yytos + 1])
    }

    ghost function State(): St
      requires 0 <= yytos < yystack.Length
      reads this, yystack
    {
      St(yystack[..yytos + 1], log, lost)
    }

    /** sqlite3ParserAlloc */
    constructor (T: Tables, ghost G: Grammar, ghost C: Cert)
      requires Certified(T, G, C)
      ensures Valid() && fresh(yystack) && State() == INIT
      ensures this.T == T && this.G == G && this.C == C
    {
      this.T, this.G, this.C := T, G, C;
      yystack := new StackEntry[YYSTACKDEPTH](_ => BOTTOM);
      yytos, log, lost := 0, Start, [];
    }

    /** yy_destructor */
    method YyDestructor(major: nat, minor: Tree)
      modifies `log
      ensures log == After(old(log), Destroyed(major, minor))
    {
      log := After(log, Destroyed(major, minor));
    }

    method YyPopParserStack()
      requires 0 < yytos < yystack.Length
      modifies `yytos, `log
      ensures yytos == old(yytos) - 1
      ensures log == After(old(log), Destroyed(yystack[old(yytos)].major, yystack[old(yytos)].minor))
    {
      var top := yystack[yytos];
      yytos := yytos - 1;
      YyDestructor(top.major, top.minor);
    }

    method PopAll()
      requires 0 <= yytos < yystack.Length
      modifies `yytos, `log
      ensures yytos == 0 && log == Drain(old(log), yystack[..old(yytos) + 1])
    {
      while yytos > 0
        invariant 0 <= yytos < yystack.Length
        invariant Drain(log, yystack[..yytos + 1]) == Drain(old(log), yystack[..old(yytos) + 1])
      {
        ghost var stack := yystack[..yytos + 1];
        assert stack[..|stack| - 1] == yystack[..yytos];
        YyPopParserStack();
      }
    }

    /** sqlite3ParserFree: the destructors of everything still on the stack run, top first. */
    method Sqlite3ParserFree()
      requires Valid()
      modifies `yytos, `log
      ensures Valid() && State().stack == [yystack[0]]
      ensures log == Drain(old(log), old(State().stack))
    {
      PrefixGood(T, G, C, yystack[..yytos + 1], 1);
      assert yystack[..yytos + 1][..1] == yystack[..1];
      PopAll();
    }

    /** yyStackOverflow: called with `yytos` one above the last entry that will be destroyed. */
    method YyStackOverflow()
      requires 0 < yytos <= yystack.Length
      modifies `yytos, `log
      ensures yytos == 0
      ensures log == After(Drain(old(log), yystack[..old(yytos)]), StackOverflow)
    {
      yytos := yytos - 1;
      PopAll();
      log := After(log, StackOverflow);
    }

    method YyFindShiftAction(iLookAhead: nat) returns (act: nat)
      requires 0 <= yytos < yystack.Length && Ready(T, State().stack, iLookAhead)
      ensures act == Act(T, Top(State().stack).stateno, iLookAhead)
    {
      var stateno := yystack[yytos].stateno;
      if stateno >= YY_MIN_REDUCE {
        return stateno;
      }
      var x := iLookAhead;
      while true
        invariant x == iLookAhead || (x == T.Fallback(iLookAhead) != 0 && T.Hit(T.shiftOfst[stateno], iLookAhead) == None)
        decreases T.Fallback(x)
      {
        var i := T.shiftOfst[stateno] + x;
        if i < 0 || i >= |T.action| || T.lookahead[i] != x {
          if x < |T.fallback| && T.fallback[x] != 0 {
            x := T.fallback[x];
          } else {
            var j := i - x + YYWILDCARD;
            if j < |T.action| && T.lookahead[j] == YYWILDCARD && x > 0 {
              return T.action[j];
            }
            return T.dflt[stateno];
          }
        } else {
          return T.action[i];
        }
      }
    }

    method YyFindReduceAction(stateno: nat, iLookAhead: nat) returns (act: nat)
      requires T.WellFormed() && T.Goto(stateno, iLookAhead).Some?
      ensures act == T.Goto(stateno, iLookAhead).value
    {
      var i := T.reduceOfst[stateno] + iLookAhead;
      act := T.action[i];
    }

    method YyShift(yyNewState: nat, tok: Token)
      requires yystack.Length == YYSTACKDEPTH && 0 <= yytos < YYSTACKDEPTH
      modifies `yytos, `log, yystack
      ensures 0 <= yytos < YYSTACKDEPTH && lost == old(lost)
      ensures State() == Shift(BOUNDED, old(State()), yyNewState, tok)
    {
      ghost var stack := yystack[..yytos + 1];
      yytos := yytos + 1;
      if yytos >= YYSTACKDEPTH {
        assert yystack[..yytos] == stack;
        YyStackOverflow();
        return;
      }
      var stateno := yyNewState;
      if stateno > YY_MAX_SHIFT {
        stateno := stateno + (YY_MIN_REDUCE - YY_MIN_SHIFTREDUCE);
      }
      yystack[yytos] := StackEntry(stateno, tok.major, Leaf(tok));
      log := After(log, Shifted(tok));
      assert yystack[..yytos + 1] == stack + [yystack[yytos]];
    }

    /** The end of yy_reduce: the left-hand side takes the place of the `yysize` top entries. */
    method PushReduced(yyact: nat, yygoto: nat, yysize: nat, yylhsminor: Tree)
      requires yystack.Length == YYSTACKDEPTH && yysize <= yytos < YYSTACKDEPTH
      requires yysize == 0 ==> yytos < YYSTACKDEPTH - 1
      modifies `yytos, yystack
      ensures 0 <= yytos < YYSTACKDEPTH
      ensures yystack[..yytos + 1] == old(yystack[..yytos + 1 - yysize]) + [StackEntry(Target(yyact), yygoto, yylhsminor)]
    {
      ghost var base := yystack[..yytos + 1 - yysize];
      var stateno := yyact;
      if stateno > YY_MAX_SHIFT {
        stateno := stateno + (YY_MIN_REDUCE - YY_MIN_SHIFTREDUCE);
      }
      yytos := yytos - yysize + 1;
      yystack[yytos] := StackEntry(stateno, yygoto, yylhsminor);
      assert yystack[..yytos] == base;
    }

    /** The other end of yy_reduce and yy_accept, which asserts that only slot 0 is left. */
    method YyAccept(yysize: nat, yylhsminor: Tree)
      requires 0 <= yytos < yystack.Length && yysize == yytos
      modifies `yytos, `log
      ensures yytos == 0 && log == After(old(log), Accepted(yylhsminor))
    {
      yytos := yytos - yysize;
      assert yytos == 0;
      log := After(log, Accepted(yylhsminor));
    }

    /** The overflow test of yy_reduce failed: the handler steps back over an entry that was not pushed. */
    method OverflowOnEmptyRule()
      requires yystack.Length == YYSTACKDEPTH && yytos == YYSTACKDEPTH - 1
      modifies `yytos, `log, `lost
      ensures yytos == 0 && State() == Overflow(LoseTop(old(State())))
    {
      ghost var stack := yystack[..yytos + 1];
      lost := lost + [yystack[yytos].minor];
      assert yystack[..yytos] == stack[..|stack| - 1];
      YyStackOverflow();
    }

    method YyReduce(yyruleno: nat)
      requires yystack.Length == YYSTACKDEPTH && 0 <= yytos < YYSTACKDEPTH && T.WellFormed()
      requires Reducible(T, State().stack, yyruleno)
      requires Combine(T, State(), yyruleno).log != log ==> |Combine(T, State(), yyruleno).stack| == 1
      modifies `yytos, `log, `lost, yystack
      ensures 0 <= yytos < YYSTACKDEPTH
      ensures State() == Reduce(T, BOUNDED, old(State()), yyruleno)
    {
      hide Overflow, LoseTop, Tables.Goto, Tables.WellFormed, Minors, Target;
      ghost var stack := yystack[..yytos + 1];
      var yysize, yygoto := T.ruleInfo[yyruleno].nrhs, T.ruleInfo[yyruleno].lhs;
      if yysize == 0 && yytos >= YYSTACKDEPTH - 1 {
        OverflowOnEmptyRule();
        return;
      }
      assert stack[|stack| - yysize..] == yystack[yytos - yysize + 1..yytos + 1];
      assert stack[..|stack| - yysize] == yystack[..yytos + 1 - yysize];
      var yylhsminor := Node(yyruleno, Minors(yystack[yytos - yysize + 1..yytos + 1]));
      var yyact := YyFindReduceAction(yystack[yytos - yysize].stateno, yygoto);
      if yyact <= YY_MAX_SHIFTREDUCE {
        PushReduced(yyact, yygoto, yysize, yylhsminor);
      } else {
        YyAccept(yysize, yylhsminor);
      }
    }

    /** sqlite3Parser: feed one token. */
    method Sqlite3Parser(tok: Token)
      requires Valid() && tok.major < G.nTerm
      modifies `yytos, `log, `lost, yystack
      ensures Valid() && State() == Feed(T, G, C, BOUNDED, old(State()), tok)
      ensures yystack.Length == 100 && 0 <= yytos <= 99
    {
      hide Feed, Shift, Reduce, Combine, Certified, Matches, Good, ReduceOk, EdgeOk, Potential, Tables.WellFormed, Reducible;
      CertifiedTables(T, G, C);
      var yymajor := tok.major;
      while true
        invariant Valid() && yymajor == tok.major
        invariant Feed(T, G, C, BOUNDED, State(), tok) == Feed(T, G, C, BOUNDED, old(State()), tok)
        decreases Potential(C, yystack[..yytos + 1], tok.major)
      {
        ghost var before := State();
        FeedUnfolds(T, G, C, BOUNDED, before, tok);
        GoodReady(T, G, C, before.stack, tok.major);
        var yyact := YyFindShiftAction(yymajor);
        if yyact <= YY_MAX_SHIFTREDUCE {
          YyShift(yyact, tok);
          yymajor := YYNOCODE;
        } else if yyact <= YY_MAX_REDUCE {
          CombineGood(T, G, C, before, tok.major, yyact - YY_MIN_REDUCE);
          YyReduce(yyact - YY_MIN_REDUCE);
        } else {
          log := After(log, SyntaxError(tok));
          yymajor := YYNOCODE;
        }
        assert State() == Step(T, BOUNDED, before, tok).st;
        if yymajor == YYNOCODE || yytos == 0 {
          return;
        }
      }
    }
  }
}
