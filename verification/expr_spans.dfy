/** The text covered by an expression: what the actions record against the tokens themselves. */
module ExprSpans {
  import opened Wrappers
  import opened ExprMeaning

  // ---- What the actions record ----

  function SpanStart(e: Sql): nat
    decreases e
  {
    match e
    case Literal(tok, _, _) => tok.z
    case Word(tok, _) => tok.z
    case Dotted(first, _, _) => first.z
    case Enclosed(first, _, _, _) => first.z
    case Call(first, _, _, _, _) => first.z
    case Cast(first, _, _, _, _, _) => first.z
    case Paren(lp, _, _) => lp.z
    case Prefix(opTok, _, _) => opTok.z
    case Case(caseTok, _, _, _, _) => caseTok.z
    case _ => SpanStart(e.l)
  }

  function SpanEnd(e: Sql): nat
    decreases e
  {
    match e
    case Literal(tok, _, _) => tok.End()
    case Word(tok, _) => tok.End()
    case Dotted(_, _, last) => last.End()
    case Enclosed(_, _, _, last) => last.End()
    case Call(_, _, _, _, last) => last.End()
    case Cast(_, _, _, _, _, last) => last.End()
    case Collate(_, _, last) => last.End()
    case Paren(_, _, rp) => rp.End()
    case Binary(_, _, _, r) => SpanEnd(r)
    case Is(_, _, _, r) => SpanEnd(r)
    case Postfix(_, _, last, _) => last.End()
    case Prefix(_, _, r) => SpanEnd(r)
    case Like(_, _, _, r, escape) => if escape == None then SpanEnd(r) else SpanEnd(escape.value)
    case Between(_, _, _, _, _, hi) => SpanEnd(hi)
    case InList(_, _, _, _, rp) => rp.End()
    case InSelect(_, _, _, _, rp) => rp.End()
    case InTable(_, _, _, nm, dbnm, _) => if dbnm == None then nm.End() else dbnm.value.End()
    case Case(_, _, _, _, endTok) => endTok.End()
  }

  // ---- The tokens of an expression, in order (separators inside lists left out) ----

  function Tokens(e: Sql): (ts: seq<Token>)
    ensures ts != []
    decreases e
  {
    match e
    case Literal(tok, _, _) => [tok]
    case Word(tok, _) => [tok]
    case Dotted(first, mid, last) => DottedNames(first, mid, last)
    case Enclosed(first, _, toks, last) => [first] + toks + [last]
    case Call(first, _, toks, args, last) => [first] + (toks + ListTokens(args)) + [last]
    case Cast(first, toks, x, asToks, _, last) => [first] + (toks + Tokens(x) + asToks) + [last]
    case Collate(l, collateTok, last) => Tokens(l) + [collateTok] + [last]
    case Paren(lp, x, rp) => [lp] + Tokens(x) + [rp]
    case Binary(l, _, opTok, r) => Tokens(l) + [opTok] + Tokens(r)
    case Is(l, isToks, _, r) => Tokens(l) + isToks + Tokens(r)
    case Postfix(l, toks, last, _) => Tokens(l) + toks + [last]
    case Prefix(opTok, _, r) => [opTok] + Tokens(r)
    case Like(l, notToks, likeTok, r, escape) =>
      Tokens(l) + (notToks + [likeTok]) + if escape == None then Tokens(r) else Tokens(r) + Tokens(escape.value)
    case Between(l, _, toks, lo, andTok, hi) => Tokens(l) + (toks + Tokens(lo) + [andTok]) + Tokens(hi)
    case InList(l, _, toks, list, rp) => Tokens(l) + (toks + ListTokens(list)) + [rp]
    case InSelect(l, _, toks, _, rp) => Tokens(l) + toks + [rp]
    case InTable(l, _, toks, nm, dbnm, parens) =>
      Tokens(l) + toks + ([nm] + (if dbnm == None then [] else [dbnm.value])) + ArgTokens(parens)
    case Case(caseTok, operand, whens, els, endTok) =>
      [caseTok] + ((if operand == None then [] else Tokens(operand.value)) + WhenTokens(whens)
                   + (if els == None then [] else Tokens(els.value))) + [endTok]
  }

  function ListTokens(list: seq<Sql>): seq<Token>
    decreases list
  {
    if list == [] then [] else Tokens(list[0]) + ListTokens(list[1..])
  }

  function ArgTokens(parens: Option<Args>): seq<Token>
    decreases parens
  {
    if parens == None then [] else [parens.value.lp] + ListTokens(parens.value.list) + [parens.value.rp]
  }

  function WhenTokens(whens: Whens): seq<Token>
    decreases whens
  {
    (if whens.First? then [] else WhenTokens(whens.prev)) + Tokens(whens.cond) + Tokens(whens.result)
  }

  /** Tokens follow one another in the text and are not empty. */
  ghost predicate Ordered(ts: seq<Token>) {
    && (forall i :: 0 <= i < |ts| ==> ts[i].n > 0)
    && (forall i, j :: 0 <= i < j < |ts| ==> ts[i].End() <= ts[j].z)
  }

  function LastEnd(ts: seq<Token>): nat
    requires ts != []
  {
    ts[|ts| - 1].End()
  }

  /** The expression does not end in the parenthesised arguments of IN table(...). */
  predicate EndsClean(e: Sql)
    decreases e
  {
    match e
    case Binary(_, _, _, r) => EndsClean(r)
    case Is(_, _, _, r) => EndsClean(r)
    case Prefix(_, _, r) => EndsClean(r)
    case Like(_, _, _, r, escape) => if escape == None then EndsClean(r) else EndsClean(escape.value)
    case Between(_, _, _, _, _, hi) => EndsClean(hi)
    case InTable(_, _, _, _, _, parens) => parens == None
    case _ => true
  }

  /** The last operand of an expression that ends in an operand. */
  function LastOperand(e: Sql): Option<Sql> {
    match e
    case Binary(_, _, _, r) => Some(r)
    case Is(_, _, _, r) => Some(r)
    case Prefix(_, _, r) => Some(r)
    case Like(_, _, _, r, escape) => if escape == None then Some(r) else escape
    case Between(_, _, _, _, _, hi) => Some(hi)
    case _ => None
  }

  lemma PrefixOrdered(pre: seq<Token>, ts: seq<Token>)
    requires Ordered(pre + ts)
    ensures Ordered(pre)
  {
    hide Token.End;
    assert forall i :: 0 <= i < |pre| ==> (pre + ts)[i] == pre[i];
  }

  lemma TailOrdered(pre: seq<Token>, ts: seq<Token>)
    requires Ordered(pre + ts)
    ensures Ordered(ts)
  {
    hide Token.End;
    forall i | 0 <= i < |ts|
      ensures ts[i].n > 0 && forall j :: i < j < |ts| ==> ts[i].End() <= ts[j].z
    {
      assert (pre + ts)[|pre| + i] == ts[i];
      forall j | i < j < |ts|
        ensures ts[i].End() <= ts[j].z
      {
        assert (pre + ts)[|pre| + j] == ts[j];
      }
    }
  }

  lemma SuffixOrdered(pre: seq<Token>, ts: seq<Token>)
    requires Ordered(pre + ts)
    ensures Ordered(pre) && Ordered(ts)
    ensures pre != [] && ts != [] ==> LastEnd(pre) <= ts[0].z
    ensures ts != [] ==> LastEnd(pre + ts) == LastEnd(ts)
  {
    hide Token.End;
    PrefixOrdered(pre, ts);
    TailOrdered(pre, ts);
    if pre != [] && ts != [] {
      assert (pre + ts)[|pre| - 1] == pre[|pre| - 1] && (pre + ts)[|pre|] == ts[0];
    }
  }

  /** An expression that ends in an operand ends in that operand's tokens. */
  lemma EndsInOperand(e: Sql) returns (pre: seq<Token>)
    requires LastOperand(e).Some?
    ensures Tokens(e) == pre + Tokens(LastOperand(e).value)
    ensures SpanEnd(e) == SpanEnd(LastOperand(e).value) && EndsClean(e) == EndsClean(LastOperand(e).value)
  {
    match e
    case Binary(l, _, opTok, r) => pre := Tokens(l) + [opTok];
    case Is(l, isToks, _, r) => pre := Tokens(l) + isToks;
    case Prefix(opTok, _, r) => pre := [opTok];
    case Like(l, notToks, likeTok, r, escape) =>
      pre := Tokens(l) + (notToks + [likeTok]) + if escape == None then [] else Tokens(r);
    case Between(l, _, toks, lo, andTok, hi) => pre := Tokens(l) + (toks + Tokens(lo) + [andTok]);
  }

  lemma {:induction false} StartIsExact(e: Sql)
    ensures SpanStart(e) == Tokens(e)[0].z
    decreases e
  {
    if !(Primary(e) || e.Call? || e.Cast? || e.Paren? || e.Prefix? || e.Case?) {
      StartIsExact(e.l);
      assert Tokens(e)[0] == Tokens(e.l)[0];
    }
  }

  /** The recorded span starts with the first byte of the first token.  It ends with the last byte of the last
      token exactly when the expression does not end in the arguments of IN table(...), and before it
      otherwise. */
  lemma {:induction false} SpanIsExact(e: Sql)
    requires Ordered(Tokens(e))
    ensures SpanStart(e) == Tokens(e)[0].z < SpanEnd(e) <= LastEnd(Tokens(e))
    ensures SpanEnd(e) == LastEnd(Tokens(e)) <==> EndsClean(e)
    decreases e
  {
    hide Tokens, SpanStart;
    StartIsExact(e);
    if LastOperand(e).Some? {
      var pre := EndsInOperand(e);
      var x := LastOperand(e).value;
      SuffixOrdered(pre, Tokens(x));
      LastOperandIsSmaller(e);
      SpanIsExact(x);
      assert pre != [] ==> Tokens(e)[0] == pre[0];
    } else {
      ClosedSpanIsExact(e);
    }
  }

  /** The span of `x IN t(y)` stops after `t`. */
  lemma TableArgumentsAreOutside()
    ensures var x, y := Word(Token(0, 1), TkId), Word(Token(7, 1), TkId);
            var e := InTable(x, false, [Token(2, 2)], Token(5, 1), None, Some(Args(Token(6, 1), [y], Token(8, 1))));
            Ordered(Tokens(e)) && SpanEnd(e) == 6 && LastEnd(Tokens(e)) == 9
  {
    var x, y := Word(Token(0, 1), TkId), Word(Token(7, 1), TkId);
    var parens := Some(Args(Token(6, 1), [y], Token(8, 1)));
    assert ListTokens([y][1..]) == [] && ListTokens([y]) == [Token(7, 1)];
    assert ArgTokens(parens) == [Token(6, 1), Token(7, 1), Token(8, 1)];
    assert Tokens(InTable(x, false, [Token(2, 2)], Token(5, 1), None, parens))
        == [Token(0, 1), Token(2, 2), Token(5, 1), Token(6, 1), Token(7, 1), Token(8, 1)];
  }

  lemma LastOperandIsSmaller(e: Sql)
    requires LastOperand(e).Some?
    ensures LastOperand(e).value < e
  {
  }

  lemma ClosedSpanIsExact(e: Sql)
    requires LastOperand(e) == None && Ordered(Tokens(e))
    ensures Tokens(e)[0].z < SpanEnd(e) <= LastEnd(Tokens(e))
    ensures SpanEnd(e) == LastEnd(Tokens(e)) <==> EndsClean(e)
  {
    hide Ordered, Token.End;
    var ts := Tokens(e);
    if e.InTable? {
      TableTokens(e);
      var head := (Tokens(e.l) + e.toks) + TableName(e);
      var args := ArgTokens(e.parens);
      assert ts == head + args && LastEnd(head) == SpanEnd(e);
      SuffixOrdered(head, args);
      assert head[0] == ts[0];
      FirstBeforeLast(head);
      if args != [] {
        FirstBeforeLast(args);
      }
    } else {
      assert LastEnd(ts) == SpanEnd(e);
      FirstBeforeLast(ts);
    }
  }

  lemma FirstBeforeLast(ts: seq<Token>)
    requires ts != [] && Ordered(ts)
    ensures ts[0].z < LastEnd(ts)
  {
  }

  // ---- Operands lie inside ----

  /** The operands whose text the span covers: all but the arguments of a table. */
  function Operands(e: Sql): seq<Sql> {
    match e
    case Literal(_, _, _) => []
    case Word(_, _) => []
    case Dotted(_, _, _) => []
    case Enclosed(_, _, _, _) => []
    case Call(_, _, _, args, _) => args
    case Cast(_, _, x, _, _, _) => [x]
    case Collate(l, _, _) => [l]
    case Paren(_, x, _) => [x]
    case Binary(l, _, _, r) => [l, r]
    case Is(l, _, _, r) => [l, r]
    case Postfix(l, _, _, _) => [l]
    case Prefix(_, _, r) => [r]
    case Like(l, _, _, r, escape) => [l, r] + if escape == None then [] else [escape.value]
    case Between(l, _, _, lo, _, hi) => [l, lo, hi]
    case InList(l, _, _, list, _) => [l] + list
    case InSelect(l, _, _, _, _) => [l]
    case InTable(l, _, _, _, _, _) => [l]
    case Case(_, operand, whens, els, _) =>
      (if operand == None then [] else [operand.value]) + WhenOperands(whens) + (if els == None then [] else [els.value])
  }

  function WhenOperands(whens: Whens): seq<Sql> {
    (if whens.First? then [] else WhenOperands(whens.prev)) + [whens.cond, whens.result]
  }

  /** The tokens of `x` are a stretch of `ts` that ends before `ts` does. */
  ghost predicate Before(x: Sql, ts: seq<Token>, rest: seq<Token>) {
    exists pre, post :: ts == pre + Tokens(x) + post + rest
  }

  lemma BeforeInContext(x: Sql, ts: seq<Token>, pre: seq<Token>, post: seq<Token>, rest: seq<Token>)
    requires Before(x, ts, [])
    ensures Before(x, pre + ts + post + rest, rest)
  {
    var a, b :| ts == a + Tokens(x) + b + [];
    assert pre + ts + post + rest == (pre + a) + Tokens(x) + (b + post) + rest;
  }

  lemma BeforeItself(x: Sql)
    ensures Before(x, Tokens(x), [])
  {
    assert Tokens(x) == [] + Tokens(x) + [] + [];
  }

  lemma {:induction false} InListTokens(list: seq<Sql>, x: Sql)
    requires x in list
    ensures Before(x, ListTokens(list), [])
    decreases |list|
  {
    if x == list[0] {
      BeforeItself(x);
      BeforeInContext(x, Tokens(x), [], ListTokens(list[1..]), []);
      assert [] + Tokens(x) + ListTokens(list[1..]) + [] == ListTokens(list);
    } else {
      InListTokens(list[1..], x);
      BeforeInContext(x, ListTokens(list[1..]), Tokens(list[0]), [], []);
      assert Tokens(list[0]) + ListTokens(list[1..]) + [] + [] == ListTokens(list);
    }
  }

  lemma WhenTokensShape(whens: Whens)
    ensures WhenTokens(whens)
            == (if whens.First? then [] else WhenTokens(whens.prev)) + Tokens(whens.cond) + Tokens(whens.result)
  {
    hide Tokens;
  }

  lemma {:induction false} InWhenTokens(whens: Whens, x: Sql)
    requires x in WhenOperands(whens)
    ensures Before(x, WhenTokens(whens), [])
    decreases whens
  {
    hide Tokens, Before, WhenTokens;
    WhenTokensShape(whens);
    BeforeItself(x);
    var front := if whens.First? then [] else WhenTokens(whens.prev);
    if x == whens.cond {
      BeforeInContext(x, Tokens(x), front, Tokens(whens.result), []);
      NothingAfter(front + Tokens(x) + Tokens(whens.result));
    } else if x == whens.result {
      BeforeInContext(x, Tokens(x), front + Tokens(whens.cond), [], []);
      NothingAfter(front + Tokens(whens.cond) + Tokens(x));
    } else {
      InWhenTokens(whens.prev, x);
      BeforeInContext(x, front, [], Tokens(whens.cond) + Tokens(whens.result), []);
      Regroup(front, Tokens(whens.cond), Tokens(whens.result));
    }
  }

  lemma NothingAfter(ts: seq<Token>)
    ensures ts + [] == ts
  {
  }

  lemma Regroup(a: seq<Token>, b: seq<Token>, c: seq<Token>)
    ensures [] + a + (b + c) + [] == a + b + c
  {
  }

  /** A stretch of tokens that is over before `rest` begins lies inside any span that reaches into `rest`. */
  lemma BeforeIsInside(e: Sql, x: Sql, rest: seq<Token>)
    requires Ordered(Tokens(e)) && Before(x, Tokens(e), rest) && rest != [] && rest[0].z < SpanEnd(e)
    ensures SpanStart(e) <= SpanStart(x) && SpanEnd(x) <= SpanEnd(e)
  {
    hide Tokens, SpanStart, SpanEnd, Ordered, Token.End;
    var pre, post :| Tokens(e) == pre + Tokens(x) + post + rest;
    assert Tokens(e) == pre + (Tokens(x) + post + rest) && Tokens(x) + post + rest == Tokens(x) + (post + rest);
    assert post + rest == (post + rest);
    SuffixOrdered(pre, Tokens(x) + (post + rest));
    SuffixOrdered(Tokens(x), post + rest);
    SuffixOrdered(post, rest);
    SpanIsExact(x);
    StartIsExact(e);
    StartNotAfter(pre, Tokens(x) + (post + rest));
    StartNotAfter(post, rest);
    assert (Tokens(x) + (post + rest))[0] == Tokens(x)[0];
  }

  lemma StartNotAfter(pre: seq<Token>, ts: seq<Token>)
    requires Ordered(pre + ts) && ts != []
    ensures (pre + ts)[0].z <= ts[0].z
  {
    if pre != [] {
      assert (pre + ts)[0].End() <= (pre + ts)[|pre|].z;
    }
  }

  /** The span of an expression contains the spans of its operands. */
  lemma SpanContainsOperands(e: Sql, x: Sql)
    requires Ordered(Tokens(e)) && x in Operands(e)
    ensures SpanStart(e) <= SpanStart(x) && SpanEnd(x) <= SpanEnd(e)
  {
    if LastOperand(e) == Some(x) {
      var pre := EndsInOperand(e);
      SuffixOrdered(pre, Tokens(x));
      StartIsExact(e);
      StartIsExact(x);
      StartNotAfter(pre, Tokens(x));
    } else if LastOperand(e).Some? {
      FrontOperandIsInside(e, x);
    } else if e.InTable? {
      TableOperandIsInside(e);
    } else {
      ClosedOperandIsInside(e, x);
    }
  }

  lemma FrontOperandIsInside(e: Sql, x: Sql)
    requires Ordered(Tokens(e)) && x in Operands(e) && LastOperand(e).Some? && LastOperand(e) != Some(x)
    ensures SpanStart(e) <= SpanStart(x) && SpanEnd(x) <= SpanEnd(e)
  {
    hide SpanStart, SpanEnd, Ordered, Tokens, Before, EndsClean;
    var r := LastOperand(e).value;
    FrontOperandIsBefore(e, x);
    var pre := EndsInOperand(e);
    SuffixOrdered(pre, Tokens(r));
    SpanIsExact(r);
    BeforeIsInside(e, x, Tokens(r));
  }

  lemma FrontOperandIsBefore(e: Sql, x: Sql)
    requires x in Operands(e) && LastOperand(e).Some? && LastOperand(e) != Some(x)
    ensures Before(x, Tokens(e), Tokens(LastOperand(e).value))
  {
    hide Tokens, Before;
    if e.Like? {
      LikeOperandIsBefore(e, x);
    } else if e.Between? {
      BetweenOperandIsBefore(e, x);
    } else {
      var mid := LeftAndLast(e);
      BeforeItself(x);
      BeforeInContext(x, Tokens(x), [], mid, Tokens(LastOperand(e).value));
    }
  }

  lemma LeftAndLast(e: Sql) returns (mid: seq<Token>)
    requires e.Binary? || e.Is?
    ensures Tokens(e) == [] + Tokens(e.l) + mid + Tokens(e.r)
  {
    mid := if e.Binary? then [e.opTok] else e.isToks;
    assert [] + Tokens(e.l) == Tokens(e.l);
  }

  lemma LikeOperandIsBefore(e: Sql, x: Sql)
    requires e.Like? && x in Operands(e) && LastOperand(e) != Some(x)
    ensures Before(x, Tokens(e), Tokens(LastOperand(e).value))
  {
    hide Tokens, Before;
    var op := e.notToks + [e.likeTok];
    BeforeItself(x);
    LikeTokens(e);
    if e.escape == None {
      BeforeInContext(x, Tokens(x), [], op, Tokens(e.r));
    } else if x == e.l {
      BeforeInContext(x, Tokens(x), [], op + Tokens(e.r), Tokens(e.escape.value));
    } else {
      BeforeInContext(x, Tokens(x), Tokens(e.l) + op, [], Tokens(e.escape.value));
    }
  }

  lemma LikeTokens(e: Sql)
    requires e.Like?
    ensures var op := e.notToks + [e.likeTok];
            if e.escape == None then Tokens(e) == [] + Tokens(e.l) + op + Tokens(e.r)
            else
              && Tokens(e) == [] + Tokens(e.l) + (op + Tokens(e.r)) + Tokens(e.escape.value)
              && Tokens(e) == Tokens(e.l) + op + Tokens(e.r) + [] + Tokens(e.escape.value)
  {
    var op := e.notToks + [e.likeTok];
    if e.escape == None {
      assert [] + Tokens(e.l) == Tokens(e.l);
    } else {
      Reassociate(Tokens(e.l), op, Tokens(e.r), Tokens(e.escape.value));
    }
  }

  lemma Reassociate(a: seq<Token>, b: seq<Token>, c: seq<Token>, d: seq<Token>)
    ensures a + b + (c + d) == [] + a + (b + c) + d == a + b + c + [] + d
    ensures a + (b + c) + d == a + b + c + d
    ensures a + (b + c + d) == a + b + c + d == [] + a + (b + c + d)
  {
  }

  lemma BetweenOperandIsBefore(e: Sql, x: Sql)
    requires e.Between? && x in Operands(e) && LastOperand(e) != Some(x)
    ensures Before(x, Tokens(e), Tokens(e.hi))
  {
    hide Tokens, Before;
    var mid := e.toks + Tokens(e.lo) + [e.andTok];
    BeforeItself(x);
    BetweenTokens(e);
    if x == e.l {
      BeforeInContext(x, Tokens(x), [], mid, Tokens(e.hi));
    } else {
      BeforeInContext(x, Tokens(x), Tokens(e.l) + e.toks, [e.andTok], Tokens(e.hi));
    }
  }

  lemma BetweenTokens(e: Sql)
    requires e.Between?
    ensures Tokens(e) == [] + Tokens(e.l) + (e.toks + Tokens(e.lo) + [e.andTok]) + Tokens(e.hi)
    ensures Tokens(e) == (Tokens(e.l) + e.toks) + Tokens(e.lo) + [e.andTok] + Tokens(e.hi)
  {
    Reassociate(Tokens(e.l), e.toks, Tokens(e.lo), [e.andTok]);
  }

  lemma TableOperandIsInside(e: Sql)
    requires Ordered(Tokens(e)) && e.InTable?
    ensures SpanStart(e) <= SpanStart(e.l) && SpanEnd(e.l) <= SpanEnd(e)
  {
    hide Tokens, Before, SpanStart, SpanEnd, Ordered, Token.End;
    var rest := TableName(e) + ArgTokens(e.parens);
    BeforeItself(e.l);
    BeforeInContext(e.l, Tokens(e.l), [], e.toks, rest);
    TableTokens(e);
    SuffixOrdered(Tokens(e.l) + e.toks, rest);
    SuffixOrdered(TableName(e), ArgTokens(e.parens));
    FirstBeforeLast(TableName(e));
    BeforeIsInside(e, e.l, rest);
  }

  function TableName(e: Sql): seq<Token>
    requires e.InTable?
  {
    [e.nm] + if e.dbnm == None then [] else [e.dbnm.value]
  }

  lemma TableTokens(e: Sql)
    requires e.InTable?
    ensures Tokens(e) == [] + Tokens(e.l) + e.toks + (TableName(e) + ArgTokens(e.parens))
    ensures Tokens(e) == (Tokens(e.l) + e.toks) + (TableName(e) + ArgTokens(e.parens))
    ensures LastEnd(TableName(e)) == SpanEnd(e)
  {
    assert [] + Tokens(e.l) == Tokens(e.l);
    assert Tokens(e) == Tokens(e.l) + e.toks + TableName(e) + ArgTokens(e.parens);
  }

  /** The arguments of IN table(...) begin after the span has ended. */
  lemma ArgumentsAreOutside(e: Sql, x: Sql)
    requires Ordered(Tokens(e)) && e.InTable? && e.parens.Some? && x in e.parens.value.list
    ensures SpanEnd(e) <= SpanStart(x)
  {
    hide Tokens, Before, SpanStart, SpanEnd, Ordered, Token.End, ListTokens;
    var Args(lp, list, rp) := e.parens.value;
    TableTokens(e);
    SuffixOrdered(Tokens(e.l) + e.toks, TableName(e) + ArgTokens(e.parens));
    SuffixOrdered(TableName(e), ArgTokens(e.parens));
    InListTokens(list, x);
    var a, b := Surroundings(list, x);
    ArgumentTokens(e.parens.value, a, Tokens(x), b);
    StartNotAfter([lp] + a, Tokens(x) + (b + [rp]));
    StartIsExact(x);
    assert (Tokens(x) + (b + [rp]))[0] == Tokens(x)[0];
  }

  lemma Surroundings(list: seq<Sql>, x: Sql) returns (a: seq<Token>, b: seq<Token>)
    requires Before(x, ListTokens(list), [])
    ensures ListTokens(list) == a + Tokens(x) + b
  {
    hide Tokens, ListTokens;
    a, b :| ListTokens(list) == a + Tokens(x) + b + [];
    NothingAfter(a + Tokens(x) + b);
  }

  lemma ArgumentTokens(args: Args, a: seq<Token>, ts: seq<Token>, b: seq<Token>)
    requires ListTokens(args.list) == a + ts + b
    ensures ArgTokens(Some(args)) == ([args.lp] + a) + (ts + (b + [args.rp])) && ArgTokens(Some(args))[0] == args.lp
  {
    hide ListTokens;
    assert [args.lp] + (a + ts + b) + [args.rp] == ([args.lp] + a) + (ts + (b + [args.rp]));
  }

  lemma ClosedOperandIsInside(e: Sql, x: Sql)
    requires Ordered(Tokens(e)) && x in Operands(e) && LastOperand(e) == None && !e.InTable?
    ensures SpanStart(e) <= SpanStart(x) && SpanEnd(x) <= SpanEnd(e)
  {
    hide SpanStart, SpanEnd, Ordered, Tokens, Before, Operands;
    var last := Closing(e);
    ClosedOperandIsBefore(e, x);
    var pre := EndsInClosing(e);
    SuffixOrdered(pre, [last]);
    FirstIsPositive(last);
    BeforeIsInside(e, x, [last]);
  }

  lemma FirstIsPositive(t: Token)
    requires Ordered([t])
    ensures t.z < t.End()
  {
    assert [t][0].n > 0;
  }

  /** The closing token of an expression that has operands but does not end in one. */
  function Closing(e: Sql): Token
    requires Operands(e) != [] && LastOperand(e) == None && !e.InTable?
  {
    match e
    case Call(_, _, _, _, last) => last
    case Cast(_, _, _, _, _, last) => last
    case Collate(_, _, last) => last
    case Paren(_, _, rp) => rp
    case Postfix(_, _, last, _) => last
    case InList(_, _, _, _, rp) => rp
    case InSelect(_, _, _, _, rp) => rp
    case Case(_, _, _, _, endTok) => endTok
  }

  lemma EndsInClosing(e: Sql) returns (pre: seq<Token>)
    requires Operands(e) != [] && LastOperand(e) == None && !e.InTable?
    ensures Tokens(e) == pre + [Closing(e)] && SpanEnd(e) == Closing(e).End()
  {
    pre := Tokens(e)[..|Tokens(e)| - 1];
    assert Tokens(e)[|Tokens(e)| - 1] == Closing(e);
  }

  lemma ClosedOperandIsBefore(e: Sql, x: Sql)
    requires x in Operands(e) && LastOperand(e) == None && !e.InTable?
    ensures Before(x, Tokens(e), [Closing(e)])
  {
    hide Tokens, Before;
    BeforeItself(x);
    match e
    case Paren(lp, _, rp) =>
      ParenTokens(e);
      BeforeInContext(x, Tokens(x), [lp], [], [rp]);
    case Call(_, _, _, _, _) => CallOperandIsBefore(e, x);
    case Cast(first, toks, _, asToks, _, last) =>
      CastTokens(e);
      BeforeInContext(x, Tokens(x), [first] + toks, asToks, [last]);
    case Collate(_, collateTok, last) =>
      LeftAndClosing(e, [collateTok]);
      BeforeInContext(x, Tokens(x), [], [collateTok], [last]);
    case Postfix(_, toks, last, _) =>
      LeftAndClosing(e, toks);
      BeforeInContext(x, Tokens(x), [], toks, [last]);
    case InSelect(_, _, toks, _, rp) =>
      LeftAndClosing(e, toks);
      BeforeInContext(x, Tokens(x), [], toks, [rp]);
    case InList(_, _, _, _, _) => InListOperandIsBefore(e, x);
    case Case(_, _, _, _, _) => CaseOperandIsBefore(e, x);
  }

  lemma ParenTokens(e: Sql)
    requires e.Paren?
    ensures Tokens(e) == [e.lp] + Tokens(e.e) + [] + [e.rp]
  {
    NothingAfter([e.lp] + Tokens(e.e));
  }

  lemma CastTokens(e: Sql)
    requires e.Cast?
    ensures Tokens(e) == ([e.first] + e.toks) + Tokens(e.e) + e.asToks + [e.last]
  {
    Reassociate([e.first], e.toks, Tokens(e.e), e.asToks);
  }

  lemma CallTokens(e: Sql)
    requires e.Call?
    ensures Tokens(e) == ([e.first] + e.toks) + ListTokens(e.args) + [] + [e.last]
  {
    NothingAfter(([e.first] + e.toks) + ListTokens(e.args));
    assert [e.first] + (e.toks + ListTokens(e.args)) == ([e.first] + e.toks) + ListTokens(e.args);
  }

  lemma CallOperandIsBefore(e: Sql, x: Sql)
    requires e.Call? && x in e.args
    ensures Before(x, Tokens(e), [e.last])
  {
    hide Tokens, Before, ListTokens;
    CallTokens(e);
    InListTokens(e.args, x);
    BeforeInContext(x, ListTokens(e.args), [e.first] + e.toks, [], [e.last]);
  }

  lemma LeftAndClosing(e: Sql, mid: seq<Token>)
    requires (e.Postfix? && mid == e.toks) || (e.Collate? && mid == [e.collateTok]) || (e.InSelect? && mid == e.toks)
             || (e.InList? && mid == e.toks + ListTokens(e.list))
    ensures Tokens(e) == [] + Tokens(e.l) + mid + [Closing(e)]
  {
    assert [] + Tokens(e.l) == Tokens(e.l);
  }

  lemma InListOperandIsBefore(e: Sql, x: Sql)
    requires e.InList? && x in Operands(e)
    ensures Before(x, Tokens(e), [e.rp])
  {
    hide Tokens, Before, ListTokens;
    var inner := ListTokens(e.list);
    LeftAndClosing(e, e.toks + inner);
    if x == e.l {
      BeforeItself(x);
      BeforeInContext(x, Tokens(x), [], e.toks + inner, [e.rp]);
    } else {
      InListTokens(e.list, x);
      BeforeInContext(x, inner, Tokens(e.l) + e.toks, [], [e.rp]);
      Reassociate(Tokens(e.l), e.toks, inner, [e.rp]);
      NothingAfter(Tokens(e.l) + e.toks + inner);
      Reassociate([], Tokens(e.l), e.toks + inner, [e.rp]);
    }
  }

  lemma CaseOperandIsBefore(e: Sql, x: Sql)
    requires e.Case? && x in Operands(e)
    ensures Before(x, Tokens(e), [e.endTok])
  {
    hide Tokens, Before, WhenTokens;
    var a := if e.operand == None then [] else Tokens(e.operand.value);
    var w := WhenTokens(e.whens);
    var b := if e.els == None then [] else Tokens(e.els.value);
    CaseTokens(e, a, w, b);
    BeforeItself(x);
    if e.operand == Some(x) {
      BeforeInContext(x, a, [e.caseTok], w + b, [e.endTok]);
    } else if x in WhenOperands(e.whens) {
      InWhenTokens(e.whens, x);
      BeforeInContext(x, w, [e.caseTok] + a, b, [e.endTok]);
    } else {
      BeforeInContext(x, b, [e.caseTok] + a + w, [], [e.endTok]);
    }
  }

  lemma CaseTokens(e: Sql, a: seq<Token>, w: seq<Token>, b: seq<Token>)
    requires e.Case? && w == WhenTokens(e.whens)
    requires a == if e.operand == None then [] else Tokens(e.operand.value)
    requires b == if e.els == None then [] else Tokens(e.els.value)
    ensures Tokens(e) == [e.caseTok] + a + (w + b) + [e.endTok]
    ensures Tokens(e) == ([e.caseTok] + a) + w + b + [e.endTok]
    ensures Tokens(e) == ([e.caseTok] + a + w) + b + [] + [e.endTok]
  {
    hide WhenTokens;
    CaseGroups([e.caseTok], a, w, b);
    assert Tokens(e) == [e.caseTok] + (a + w + b) + [e.endTok];
  }

  lemma CaseGroups(c: seq<Token>, a: seq<Token>, w: seq<Token>, b: seq<Token>)
    ensures c + (a + w + b) == c + a + (w + b) == (c + a) + w + b == (c + a + w) + b + []
  {
  }
}
