/** The reduce actions for expressions.  Each works in place on the value slots of the parser stack, where one
    union member is overwritten by another; together they build exactly the lowered tree and its text span. */
module ExprBuild {
  import opened Wrappers
  import opened ExprMeaning
  import opened ExprSpans
  import opened ExprNormal

  /** The union member a slot was last written through.  The parts of a span are written one at a time: a
      part that is None still holds whatever another member left there. */
  datatype Minor =
    | TokenM(tok: Token)
    | SpanM(pExpr: Option<Expr>, zStart: Option<nat>, zEnd: Option<nat>)
    | ListM(list: seq<Expr>)
    | IntM(i: int)
    | ExprM(expr: Option<Expr>)
    | SelectM(select: nat)

  function Spanned(e: Expr, zStart: nat, zEnd: nat): Minor {
    SpanM(Some(e), Some(zStart), Some(zEnd))
  }

  function Flag(b: bool): int {
    if b then 1 else 0
  }

  predicate IsSpanned(m: Minor) {
    m.SpanM? && m.pExpr.Some? && m.zStart.Some? && m.zEnd.Some?
  }

  class Slot {
    var major: Op
    var minor: Minor

    constructor (major: Op, minor: Minor)
      ensures this.major == major && this.minor == minor
    {
      this.major, this.minor := major, minor;
    }

    method SetStart(z: nat)
      modifies this`minor
      ensures minor == if old(minor).SpanM? then old(minor).(zStart := Some(z)) else SpanM(None, Some(z), None)
    {
      minor := if minor.SpanM? then minor.(zStart := Some(z)) else SpanM(None, Some(z), None);
    }

    method SetEnd(z: nat)
      modifies this`minor
      ensures minor == if old(minor).SpanM? then old(minor).(zEnd := Some(z)) else SpanM(None, None, Some(z))
    {
      minor := if minor.SpanM? then minor.(zEnd := Some(z)) else SpanM(None, None, Some(z));
    }

    method SetExpr(e: Expr)
      modifies this`minor
      ensures minor == if old(minor).SpanM? then old(minor).(pExpr := Some(e)) else SpanM(Some(e), None, None)
    {
      minor := if minor.SpanM? then minor.(pExpr := Some(e)) else SpanM(Some(e), None, None);
    }
  }

  // ---- The bit of a length that carries the NOT of NOT LIKE ----

  function Flagged(negated: bool, n: bv32): bv32 {
    if negated then n | 0x8000_0000 else n
  }

  function NotFlag(n: bv32): bool {
    n & 0x8000_0000 != 0
  }

  function Length(n: bv32): bv32 {
    n & 0x7fff_ffff
  }

  /** The flag and the length of a LIKE token are both recovered exactly when the length is below 2^31. */
  lemma NotBitRoundTrip(negated: bool, n: bv32)
    ensures NotFlag(Flagged(negated, n)) == negated && Length(Flagged(negated, n)) == n <==> n < 0x8000_0000
  {
    SetBit(n);
    FreeBit(n);
  }

  lemma SetBit(n: bv32)
    ensures (n | 0x8000_0000) & 0x8000_0000 != 0 && (n | 0x8000_0000) & 0x7fff_ffff == n & 0x7fff_ffff
  {
  }

  lemma FreeBit(n: bv32)
    ensures n & 0x7fff_ffff == n <==> n < 0x8000_0000
    ensures n & 0x8000_0000 == 0 <==> n < 0x8000_0000
  {
  }

  // ---- Helper routines ----

  /** spanSet.  `pOut` may be the slot of the start token but not that of the end token, whose length is read
      after the start has been written. */
  method SpanSet(pOut: Slot, pStart: Slot, pEnd: Slot)
    requires pStart.minor.TokenM? && pEnd.minor.TokenM? && pOut != pEnd
    modifies pOut`minor
    ensures pOut.minor.SpanM? && pOut.minor.pExpr == if old(pOut.minor).SpanM? then old(pOut.minor).pExpr else None
    ensures pOut.minor.zStart == Some(old(pStart.minor.tok.z)) && pOut.minor.zEnd == Some(old(pEnd.minor.tok.End()))
  {
    pOut.SetStart(pStart.minor.tok.z);
    pOut.SetEnd(pEnd.minor.tok.End());
  }

  /** spanExpr; the token is passed by value, so the slot that held it may receive the span. */
  method SpanExpr(pOut: Slot, op: Op, t: Token, content: Content)
    modifies pOut`minor
    ensures pOut.minor == Spanned(Expr(op, None, None, [], content), t.z, t.End())
  {
    pOut.SetExpr(Expr(op, None, None, [], content));
    pOut.SetStart(t.z);
    pOut.SetEnd(t.End());
  }

  /** spanBinaryExpr */
  method SpanBinaryExpr(op: Op, pLeft: Slot, pRight: Slot)
    requires IsSpanned(pLeft.minor) && IsSpanned(pRight.minor)
    modifies pLeft`minor
    ensures pLeft.minor == Spanned(PExpr(op, old(pLeft.minor.pExpr), old(pRight.minor.pExpr)),
                                   old(pLeft.minor.zStart.value), old(pRight.minor.zEnd.value))
  {
    hide PExpr;
    pLeft.SetExpr(PExpr(op, pLeft.minor.pExpr, pRight.minor.pExpr));
    pLeft.SetEnd(pRight.minor.zEnd.value);
  }

  /** exprNot */
  method ExprNot(doNot: bool, pSpan: Slot)
    requires pSpan.minor.SpanM? && pSpan.minor.pExpr.Some?
    modifies pSpan`minor
    ensures pSpan.minor == old(pSpan.minor).(pExpr := Some(Negated(doNot, old(pSpan.minor.pExpr.value))))
  {
    if doNot {
      pSpan.SetExpr(PExpr(TkNot, pSpan.minor.pExpr, None));
    }
  }

  /** spanUnaryPostfix */
  method SpanUnaryPostfix(op: Op, pOperand: Slot, pPostOp: Slot)
    requires IsSpanned(pOperand.minor) && pPostOp.minor.TokenM?
    modifies pOperand`minor
    ensures pOperand.minor == Spanned(PExpr(op, old(pOperand.minor.pExpr), None),
                                      old(pOperand.minor.zStart.value), old(pPostOp.minor.tok.End()))
  {
    hide PExpr;
    pOperand.SetExpr(PExpr(op, pOperand.minor.pExpr, None));
    pOperand.SetEnd(pPostOp.minor.tok.End());
  }

  /** spanUnaryPrefix; `pOut` and `pPreOp` are one slot in every rule that calls it. */
  method SpanUnaryPrefix(pOut: Slot, op: Op, pOperand: Slot, pPreOp: Slot)
    requires IsSpanned(pOperand.minor) && pPreOp.minor.TokenM? && pOut != pOperand
    modifies pOut`minor
    ensures pOut.minor == Spanned(PExpr(op, pOperand.minor.pExpr, None),
                                  old(pPreOp.minor.tok.z), pOperand.minor.zEnd.value)
  {
    hide PExpr;
    pOut.SetStart(pPreOp.minor.tok.z);
    pOut.SetExpr(PExpr(op, pOperand.minor.pExpr, None));
    pOut.SetEnd(pOperand.minor.zEnd.value);
  }

  /** binaryToUnaryIfNull on the node just built in `pA` */
  method BinaryToUnaryIfNull(pY: Slot, pA: Slot, op: Op)
    requires IsSpanned(pY.minor) && IsSpanned(pA.minor)
    modifies pA`minor
    ensures pA.minor == old(pA.minor).(pExpr := Some(UnaryIfNull(old(pY.minor.pExpr.value), old(pA.minor.pExpr.value), op)))
  {
    if pY.minor.pExpr.value.op == TkNull {
      pA.SetExpr(pA.minor.pExpr.value.(op := op, pRight := None));
    }
  }

  // ---- The rules; the arguments are the slots yymsp[-k], left to right, and the first receives the value ----

  /** expr ::= LP expr RP */
  method ReduceParen(y2: Slot, y1: Slot, y0: Slot)
    requires y2.minor.TokenM? && IsSpanned(y1.minor) && y0.minor.TokenM? && y2 != y0
    modifies y2`minor
    ensures y2.minor == Spanned(old(y1.minor.pExpr.value), old(y2.minor.tok.z), old(y0.minor.tok.End()))
  {
    SpanSet(y2, y2, y0);
    y2.SetExpr(y1.minor.pExpr.value);
  }

  /** expr ::= nm DOT nm */
  method ReduceDotted(y2: Slot, y0: Slot)
    requires y2.minor.TokenM? && y0.minor.TokenM? && y2 != y0
    modifies y2`minor
    ensures y2.minor == Spanned(DottedNode(old(y2.minor.tok), None, old(y0.minor.tok)),
                                old(y2.minor.tok.z), old(y0.minor.tok.End()))
  {
    var temp1 := Leaf(TkId, Named(y2.minor.tok));
    var temp2 := Leaf(TkId, Named(y0.minor.tok));
    SpanSet(y2, y2, y0);
    y2.SetExpr(PExpr(TkDot, Some(temp1), Some(temp2)));
  }

  /** expr ::= nm DOT nm DOT nm */
  method ReduceDottedTwice(y4: Slot, y2: Slot, y0: Slot)
    requires y4.minor.TokenM? && y2.minor.TokenM? && y0.minor.TokenM? && y4 != y0
    modifies y4`minor
    ensures y4.minor == Spanned(DottedNode(old(y4.minor.tok), Some(old(y2.minor.tok)), old(y0.minor.tok)),
                                old(y4.minor.tok.z), old(y0.minor.tok.End()))
  {
    var temp1 := Leaf(TkId, Named(y4.minor.tok));
    var temp2 := Leaf(TkId, Named(y2.minor.tok));
    var temp3 := Leaf(TkId, Named(y0.minor.tok));
    var temp4 := PExpr(TkDot, Some(temp2), Some(temp3));
    SpanSet(y4, y4, y0);
    y4.SetExpr(PExpr(TkDot, Some(temp1), Some(temp4)));
  }

  /** term ::= CTIME_KW; the value is built aside, since its slot holds the token for both ends. */
  method ReduceCurrentTime(y0: Slot)
    requires y0.minor.TokenM?
    modifies y0`minor
    ensures y0.minor == Spanned(Leaf(TkFunction, Named(old(y0.minor.tok))), old(y0.minor.tok.z), old(y0.minor.tok.End()))
  {
    var lhs := new Slot(TkOther(0), SelectM(0));
    lhs.SetExpr(ExprFunction([], y0.minor.tok));
    SpanSet(lhs, y0, y0);
    y0.minor := lhs.minor;
  }

  /** The rules between a first and a last token whose node has no operands in slots: LP select RP, EXISTS LP
      select RP, RAISE LP IGNORE RP and RAISE LP raisetype COMMA nm RP. */
  method ReduceEnclosed(pFirst: Slot, node: Expr, pLast: Slot)
    requires pFirst.minor.TokenM? && pLast.minor.TokenM? && pFirst != pLast
    modifies pFirst`minor
    ensures pFirst.minor == Spanned(node, old(pFirst.minor.tok.z), old(pLast.minor.tok.End()))
  {
    SpanSet(pFirst, pFirst, pLast);
    pFirst.SetExpr(node);
  }

  /** expr ::= ID|INDEXED LP distinct exprlist RP */
  method ReduceCall(y4: Slot, y2: Slot, y1: Slot, y0: Slot)
    requires y4.minor.TokenM? && y2.minor.IntM? && y1.minor.ListM? && y0.minor.TokenM?
    modifies y4`minor
    ensures y4.minor == Spanned(CallNode(old(y4.minor.tok), Function(old(y2.minor.i) != 0), old(y1.minor.list)),
                                old(y4.minor.tok.z), old(y0.minor.tok.End()))
  {
    var lhs := new Slot(TkOther(0), SelectM(0));
    lhs.SetExpr(ExprFunction(y1.minor.list, y4.minor.tok));
    SpanSet(lhs, y4, y0);
    if y2.minor.i != 0 {
      lhs.SetExpr(lhs.minor.pExpr.value.(content := Distinct(y4.minor.tok)));
    }
    y4.minor := lhs.minor;
  }

  /** expr ::= ID|INDEXED LP STAR RP */
  method ReduceCallStar(y3: Slot, y0: Slot)
    requires y3.minor.TokenM? && y0.minor.TokenM?
    modifies y3`minor
    ensures y3.minor == Spanned(CallNode(old(y3.minor.tok), Star, []), old(y3.minor.tok.z), old(y0.minor.tok.End()))
  {
    var lhs := new Slot(TkOther(0), SelectM(0));
    lhs.SetExpr(ExprFunction([], y3.minor.tok));
    SpanSet(lhs, y3, y0);
    y3.minor := lhs.minor;
  }

  /** expr ::= LP nexprlist COMMA expr RP */
  method ReduceRowValue(y4: Slot, y3: Slot, y1: Slot, y0: Slot)
    requires y4.minor.TokenM? && y3.minor.ListM? && IsSpanned(y1.minor) && y0.minor.TokenM?
    modifies y4`minor
    ensures y4.minor == Spanned(CallNode(old(y4.minor.tok), RowValue, old(y3.minor.list) + [old(y1.minor.pExpr.value)]),
                                old(y4.minor.tok.z), old(y0.minor.tok.End()))
  {
    var pList := y3.minor.list + [y1.minor.pExpr.value];
    var lhs := new Slot(TkOther(0), SelectM(0));
    lhs.SetExpr(PExpr(TkVector, None, None));
    lhs.SetExpr(lhs.minor.pExpr.value.(list := pList));
    SpanSet(lhs, y4, y0);
    y4.minor := lhs.minor;
  }

  /** expr ::= CAST LP expr AS typetoken RP */
  method ReduceCast(y5: Slot, y3: Slot, y1: Slot, y0: Slot)
    requires y5.minor.TokenM? && IsSpanned(y3.minor) && y1.minor.TokenM? && y0.minor.TokenM? && y5 != y0 && y5 != y1
    modifies y5`minor
    ensures y5.minor == Spanned(Expr(TkCast, old(y3.minor.pExpr), None, [], Named(old(y1.minor.tok))),
                                old(y5.minor.tok.z), old(y0.minor.tok.End()))
  {
    SpanSet(y5, y5, y0);
    y5.SetExpr(PExpr(TkCast, y3.minor.pExpr, None).(content := Named(y1.minor.tok)));
  }

  /** expr ::= expr COLLATE ID|STRING */
  method ReduceCollate(y2: Slot, y0: Slot)
    requires IsSpanned(y2.minor) && y0.minor.TokenM?
    modifies y2`minor
    ensures y2.minor == Spanned(Expr(TkCollate, old(y2.minor.pExpr), None, [], Named(old(y0.minor.tok))),
                                old(y2.minor.zStart.value), old(y0.minor.tok.End()))
  {
    y2.SetExpr(Expr(TkCollate, y2.minor.pExpr, None, [], Named(y0.minor.tok)));
    y2.SetEnd(y0.minor.tok.End());
  }

  /** likeop ::= NOT LIKE_KW|MATCH */
  method ReduceNotLike(y1: Slot, y0: Slot)
    requires y0.minor.TokenM?
    modifies y1`minor
    ensures y1.minor == TokenM(old(y0.minor.tok).(n := Flagged(true, old(y0.minor.tok.n))))
  {
    y1.minor := y0.minor;
    y1.minor := TokenM(y1.minor.tok.(n := y1.minor.tok.n | 0x8000_0000));
  }

  /** expr ::= expr likeop expr */
  method ReduceLike(y2: Slot, y1: Slot, y0: Slot)
    requires IsSpanned(y2.minor) && y1.minor.TokenM? && IsSpanned(y0.minor) && y2 != y0
    modifies y2`minor, y1`minor
    ensures y2.minor == Spanned(Liked([y0.minor.pExpr.value, old(y2.minor.pExpr.value)], old(y1.minor.tok)),
                                old(y2.minor.zStart.value), y0.minor.zEnd.value)
  {
    hide NotFlag, Length;
    var bNot := NotFlag(y1.minor.tok.n);
    y1.minor := TokenM(y1.minor.tok.(n := Length(y1.minor.tok.n)));
    var pList := [y0.minor.pExpr.value];
    pList := pList + [y2.minor.pExpr.value];
    assert pList == [y0.minor.pExpr.value, old(y2.minor.pExpr.value)];
    y2.SetExpr(ExprFunction(pList, y1.minor.tok));
    ExprNot(bNot, y2);
    y2.SetEnd(y0.minor.zEnd.value);
  }

  /** expr ::= expr likeop expr ESCAPE expr */
  method ReduceLikeEscape(y4: Slot, y3: Slot, y2: Slot, y0: Slot)
    requires IsSpanned(y4.minor) && y3.minor.TokenM? && IsSpanned(y2.minor) && IsSpanned(y0.minor)
    requires y4 != y2 && y4 != y0
    modifies y4`minor, y3`minor
    ensures y4.minor == Spanned(Liked([y2.minor.pExpr.value, old(y4.minor.pExpr.value), y0.minor.pExpr.value], old(y3.minor.tok)),
                                old(y4.minor.zStart.value), y0.minor.zEnd.value)
  {
    hide NotFlag, Length;
    var bNot := NotFlag(y3.minor.tok.n);
    y3.minor := TokenM(y3.minor.tok.(n := Length(y3.minor.tok.n)));
    var pList := [y2.minor.pExpr.value];
    pList := pList + [y4.minor.pExpr.value];
    pList := pList + [y0.minor.pExpr.value];
    assert pList == [y2.minor.pExpr.value, old(y4.minor.pExpr.value), y0.minor.pExpr.value];
    y4.SetExpr(ExprFunction(pList, y3.minor.tok));
    ExprNot(bNot, y4);
    y4.SetEnd(y0.minor.zEnd.value);
  }

  /** The call a LIKE rule makes of a likeop token. */
  function Liked(list: seq<Expr>, likeop: Token): Expr {
    Negated(NotFlag(likeop.n), ExprFunction(list, likeop.(n := Length(likeop.n))))
  }

  /** expr ::= expr between_op expr AND expr */
  method ReduceBetween(y4: Slot, y3: Slot, y2: Slot, y0: Slot)
    requires IsSpanned(y4.minor) && y3.minor.IntM? && IsSpanned(y2.minor) && IsSpanned(y0.minor)
    requires y4 != y3 && y4 != y2 && y4 != y0
    modifies y4`minor
    ensures y4.minor == Spanned(Negated(y3.minor.i != 0, Expr(TkBetween, old(y4.minor.pExpr), None,
                                                            [y2.minor.pExpr.value, y0.minor.pExpr.value], Nothing)),
                                old(y4.minor.zStart.value), y0.minor.zEnd.value)
  {
    var pList := [y2.minor.pExpr.value];
    pList := pList + [y0.minor.pExpr.value];
    assert pList == [y2.minor.pExpr.value, y0.minor.pExpr.value];
    y4.SetExpr(PExpr(TkBetween, y4.minor.pExpr, None));
    y4.SetExpr(y4.minor.pExpr.value.(list := pList));
    ExprNot(y3.minor.i != 0, y4);
    y4.SetEnd(y0.minor.zEnd.value);
  }

  /** expr ::= expr in_op LP exprlist RP */
  method ReduceInList(y4: Slot, y3: Slot, y1: Slot, y0: Slot)
    requires IsSpanned(y4.minor) && y3.minor.IntM? && y1.minor.ListM? && y0.minor.TokenM?
    modifies y4`minor
    ensures y4.minor == Spanned(InExprs(old(y4.minor.pExpr.value), old(y3.minor.i) != 0, old(y1.minor.list)),
                                old(y4.minor.zStart.value), old(y0.minor.tok.End()))
  {
    hide PExpr;
    var list := y1.minor.list;
    if list == [] {
      y4.SetExpr(Integer(if y3.minor.i != 0 then 1 else 0));
    } else if |list| == 1 {
      y4.SetExpr(PExpr(if y3.minor.i != 0 then TkNe else TkEq, y4.minor.pExpr, Some(list[0])));
    } else {
      y4.SetExpr(PExpr(TkIn, y4.minor.pExpr, None));
      y4.SetExpr(y4.minor.pExpr.value.(list := list));
      ExprNot(y3.minor.i != 0, y4);
    }
    y4.SetEnd(y0.minor.tok.End());
  }

  /** expr ::= expr in_op LP select RP */
  method ReduceInSelect(y4: Slot, y3: Slot, y1: Slot, y0: Slot)
    requires IsSpanned(y4.minor) && y3.minor.IntM? && y1.minor.SelectM? && y0.minor.TokenM?
    modifies y4`minor
    ensures y4.minor == Spanned(Negated(old(y3.minor.i) != 0, Expr(TkIn, old(y4.minor.pExpr), None, [], FromSelect(old(y1.minor.select)))),
                                old(y4.minor.zStart.value), old(y0.minor.tok.End()))
  {
    y4.SetExpr(PExpr(TkIn, y4.minor.pExpr, None));
    y4.SetExpr(y4.minor.pExpr.value.(content := FromSelect(y1.minor.select)));
    ExprNot(y3.minor.i != 0, y4);
    y4.SetEnd(y0.minor.tok.End());
  }

  /** expr ::= expr in_op nm dbnm paren_exprlist; an absent dbnm is a token with a null pointer */
  method ReduceInTable(y4: Slot, y3: Slot, y2: Slot, y1: Slot, y0: Slot)
    requires IsSpanned(y4.minor) && y3.minor.IntM? && y2.minor.TokenM? && y1.minor.TokenM? && y0.minor.ListM?
    modifies y4`minor
    ensures y4.minor
            == Spanned(Negated(old(y3.minor.i) != 0,
                               Expr(TkIn, old(y4.minor.pExpr), None, [],
                                    FromTable(old(y2.minor.tok), Named0(old(y1.minor.tok)), old(y0.minor.list)))),
                       old(y4.minor.zStart.value),
                       old(if y1.minor.tok.z != 0 then y1.minor.tok.End() else y2.minor.tok.End()))
  {
    var content := FromTable(y2.minor.tok, Named0(y1.minor.tok), y0.minor.list);
    y4.SetExpr(PExpr(TkIn, y4.minor.pExpr, None));
    y4.SetExpr(y4.minor.pExpr.value.(content := content));
    ExprNot(y3.minor.i != 0, y4);
    y4.SetEnd(if y1.minor.tok.z != 0 then y1.minor.tok.End() else y2.minor.tok.End());
  }

  function Named0(tok: Token): Option<Token> {
    if tok.z == 0 then None else Some(tok)
  }

  /** expr ::= CASE case_operand case_exprlist case_else END */
  method ReduceCase(y4: Slot, y3: Slot, y2: Slot, y1: Slot, y0: Slot)
    requires y4.minor.TokenM? && y3.minor.ExprM? && y2.minor.ListM? && y1.minor.ExprM? && y0.minor.TokenM? && y4 != y0
    modifies y4`minor
    ensures y4.minor == Spanned(Expr(TkCase, old(y3.minor.expr), None,
                                     old(y2.minor.list) + (if old(y1.minor.expr) == None then [] else [old(y1.minor.expr.value)]), Nothing),
                                old(y4.minor.tok.z), old(y0.minor.tok.End()))
  {
    SpanSet(y4, y4, y0);
    y4.SetExpr(PExpr(TkCase, y3.minor.expr, None));
    var pList := if y1.minor.expr.Some? then y2.minor.list + [y1.minor.expr.value] else y2.minor.list;
    assert y1.minor.expr == None ==> pList == y2.minor.list + [];
    y4.SetExpr(y4.minor.pExpr.value.(list := pList));
  }

  /** case_exprlist ::= WHEN expr THEN expr */
  method ReduceFirstWhen(y3: Slot, y2: Slot, y0: Slot)
    requires IsSpanned(y2.minor) && IsSpanned(y0.minor) && y3 != y2 && y3 != y0
    modifies y3`minor
    ensures y3.minor == ListM([y2.minor.pExpr.value, y0.minor.pExpr.value])
  {
    y3.minor := ListM([y2.minor.pExpr.value]);
    y3.minor := ListM(y3.minor.list + [y0.minor.pExpr.value]);
  }

  /** case_exprlist ::= case_exprlist WHEN expr THEN expr */
  method ReduceNextWhen(y4: Slot, y2: Slot, y0: Slot)
    requires y4.minor.ListM? && IsSpanned(y2.minor) && IsSpanned(y0.minor)
    modifies y4`minor
    ensures y4.minor == ListM(old(y4.minor.list) + [old(y2.minor.pExpr.value), old(y0.minor.pExpr.value)])
  {
    y4.minor := ListM(y4.minor.list + [y2.minor.pExpr.value]);
    y4.minor := ListM(y4.minor.list + [y0.minor.pExpr.value]);
  }

  // ---- Whole expressions ----

  /** A LIKE rule makes the call as written, negated as written, exactly when the length of the LIKE token
      leaves its top bit free. */
  lemma LikeTokenExact(list: seq<Expr>, negated: bool, tok: Token)
    ensures Liked(list, tok.(n := Flagged(negated, tok.n))) == Negated(negated, ExprFunction(list, tok)) <==> tok.n < 0x8000_0000
  {
    hide Flagged, NotFlag, Length;
    NotBitRoundTrip(negated, tok.n);
  }

  /** What the tokenizer and the grammar supply: LIKE tokens shorter than 2^31 bytes, real database names, and
      NOT NULL as the only postfix operator of two tokens. */
  predicate Scanned(e: Sql)
    decreases e
  {
    match e
    case Literal(_, _, _) => true
    case Word(_, op) => op == TkId || op == TkVariable || op == TkFunction
    case Dotted(_, _, _) => true
    case Enclosed(_, _, _, _) => true
    case Call(_, kind, _, args, _) =>
      (kind.Star? ==> args == []) && (kind.RowValue? ==> |args| >= 2) && forall x :: x in args ==> Scanned(x)
    case Cast(_, _, x, _, _, _) => Scanned(x)
    case Collate(l, _, _) => Scanned(l)
    case Paren(_, x, _) => Scanned(x)
    case Binary(l, _, _, r) => Scanned(l) && Scanned(r)
    case Is(l, _, _, r) => Scanned(l) && Scanned(r)
    case Postfix(l, toks, _, notNull) => Scanned(l) && (toks != [] ==> notNull)
    case Prefix(_, _, r) => Scanned(r)
    case Like(l, _, likeTok, r, escape) =>
      likeTok.n < 0x8000_0000 && Scanned(l) && Scanned(r) && (escape.Some? ==> Scanned(escape.value))
    case Between(l, _, _, lo, _, hi) => Scanned(l) && Scanned(lo) && Scanned(hi)
    case InList(l, _, _, list, _) => Scanned(l) && forall x :: x in list ==> Scanned(x)
    case InSelect(l, _, _, _, _) => Scanned(l)
    case InTable(l, _, _, _, dbnm, parens) =>
      Scanned(l) && (dbnm.Some? ==> dbnm.value.z != 0) && (parens.Some? ==> forall x :: x in parens.value.list ==> Scanned(x))
    case Case(_, operand, whens, els, _) =>
      (operand.Some? ==> Scanned(operand.value)) && ScannedWhens(whens) && (els.Some? ==> Scanned(els.value))
  }

  predicate ScannedWhens(whens: Whens)
    decreases whens
  {
    Scanned(whens.cond) && Scanned(whens.result) && (whens.More? ==> ScannedWhens(whens.prev))
  }

  ghost predicate Built(out: Slot, e: Sql)
    reads out`minor
  {
    out.minor == Spanned(Lower(e), SpanStart(e), SpanEnd(e))
  }

  /** The slot a shifted token is stored in. */
  method Shifted(major: Op, tok: Token) returns (y: Slot)
    ensures fresh(y) && y.major == major && y.minor == TokenM(tok)
  {
    y := new Slot(major, TokenM(tok));
  }

  /** The reductions of an expression, in the order the parser makes them. */
  method Build(e: Sql) returns (out: Slot)
    requires Scanned(e)
    ensures fresh(out) && Built(out, e)
    decreases e
  {
    hide Scanned, Built;
    match e
    case Literal(_, _, _) => out := BuildPrimary(e);
    case Word(_, _) => out := BuildPrimary(e);
    case Dotted(_, _, _) => out := BuildPrimary(e);
    case Enclosed(_, _, _, _) => out := BuildPrimary(e);
    case Call(_, _, _, _, _) => out := BuildCall(e);
    case Cast(_, _, _, _, _, _) => out := BuildOneOperand(e);
    case Collate(_, _, _) => out := BuildOneOperand(e);
    case Paren(_, _, _) => out := BuildOneOperand(e);
    case Postfix(_, _, _, _) => out := BuildOneOperand(e);
    case Prefix(_, _, _) => out := BuildOneOperand(e);
    case Binary(_, _, _, _) => out := BuildTwoOperands(e);
    case Is(_, _, _, _) => out := BuildTwoOperands(e);
    case Like(_, _, _, _, _) => out := BuildLike(e);
    case Between(_, _, _, _, _, _) => out := BuildBetween(e);
    case InList(_, _, _, _, _) => out := BuildIn(e);
    case InSelect(_, _, _, _, _) => out := BuildIn(e);
    case InTable(_, _, _, _, _, _) => out := BuildInTable(e);
    case Case(_, _, _, _, _) => out := BuildCase(e);
  }

  method BuildOneOperand(e: Sql) returns (out: Slot)
    requires Scanned(e) && (e.Cast? || e.Collate? || e.Paren? || e.Postfix? || e.Prefix?)
    ensures fresh(out) && Built(out, e)
    decreases e, 0
  {
    hide PExpr, ScannedWhens;
    match e
    case Cast(first, _, x, _, typ, last) =>
      out := Shifted(TkCast, first);
      var y3 := Build(x);
      var y1 := Shifted(TkId, typ);
      var y0 := Shifted(TkOther(0), last);
      ReduceCast(out, y3, y1, y0);
    case Collate(l, _, last) =>
      out := Build(l);
      var y0 := Shifted(TkId, last);
      ReduceCollate(out, y0);
    case Paren(lp, x, rp) =>
      out := Shifted(TkOther(0), lp);
      var y1 := Build(x);
      var y0 := Shifted(TkOther(0), rp);
      ReduceParen(out, y1, y0);
    case Postfix(l, toks, last, notNull) =>
      out := Build(l);
      var y0 := Shifted(if toks != [] then TkNull else if notNull then TkNotNull else TkIsNull, last);
      SpanUnaryPostfix(if toks != [] then TkNotNull else y0.major, out, y0);
    case Prefix(opTok, op, r) =>
      out := Shifted(op, opTok);
      var y0 := Build(r);
      SpanUnaryPrefix(out, op, y0, out);
  }

  method BuildTwoOperands(e: Sql) returns (out: Slot)
    requires Scanned(e) && (e.Binary? || e.Is?)
    ensures fresh(out) && Built(out, e)
    decreases e, 0
  {
    hide PExpr, UnaryIfNull, ScannedWhens;
    match e
    case Binary(l, op, opTok, r) =>
      out := Build(l);
      var y1 := Shifted(op, opTok);
      var y0 := Build(r);
      SpanBinaryExpr(y1.major, out, y0);
    case Is(l, _, negated, r) =>
      out := Build(l);
      var y0 := Build(r);
      SpanBinaryExpr(if negated then TkIsNot else TkIs, out, y0);
      BinaryToUnaryIfNull(y0, out, if negated then TkNotNull else TkIsNull);
  }

  method BuildBetween(e: Sql) returns (out: Slot)
    requires Scanned(e) && e.Between?
    ensures fresh(out) && Built(out, e)
    decreases e, 0
  {
    hide PExpr, Negated, ScannedWhens;
    out := Build(e.l);
    var y3 := new Slot(TkBetween, IntM(Flag(e.negated)));
    var y2 := Build(e.lo);
    var y0 := Build(e.hi);
    ReduceBetween(out, y3, y2, y0);
    BetweenNode(Lower(e.l), [Lower(e.lo), Lower(e.hi)]);
  }

  method BuildPrimary(e: Sql) returns (out: Slot)
    requires Scanned(e) && Primary(e)
    ensures fresh(out) && Built(out, e)
  {
    hide DottedNode, FormNode;
    match e
    case Literal(tok, op, v) =>
      out := Shifted(op, tok);
      SpanExpr(out, out.major, out.minor.tok, Constant(v));
    case Word(tok, op) =>
      out := Shifted(op, tok);
      if op == TkFunction {
        ReduceCurrentTime(out);
      } else {
        SpanExpr(out, out.major, out.minor.tok, Named(tok));
      }
    case Dotted(first, mid, last) =>
      out := Shifted(TkId, first);
      var y0 := Shifted(TkId, last);
      if mid == None {
        ReduceDotted(out, y0);
      } else {
        var y2 := Shifted(TkId, mid.value);
        ReduceDottedTwice(out, y2, y0);
      }
    case Enclosed(first, form, _, last) =>
      out := Shifted(TkOther(0), first);
      var y0 := Shifted(TkOther(0), last);
      ReduceEnclosed(out, FormNode(form), y0);
  }

  method BuildCall(e: Sql) returns (out: Slot)
    requires Scanned(e) && e.Call?
    ensures fresh(out) && Built(out, e)
    decreases e, 0
  {
    hide CallNode, Scanned, ScannedWhens, LowerList;
    CallParts(e);
    out := Shifted(TkId, e.first);
    var y0 := Shifted(TkOther(0), e.last);
    if e.kind.RowValue? {
      var last := |e.args| - 1;
      var y3 := BuildList(e.args[..last]);
      var y1 := Build(e.args[last]);
      LowerLast(e.args, last);
      assert e.args[..last + 1] == e.args;
      ReduceRowValue(out, y3, y1, y0);
    } else if e.kind.Star? {
      ReduceCallStar(out, y0);
      LowerNothing();
    } else {
      var y2 := new Slot(TkOther(0), IntM(Flag(e.kind.distinct)));
      var y1 := BuildList(e.args);
      ReduceCall(out, y2, y1, y0);
    }
  }

  lemma LowerNothing()
    ensures LowerList([]) == []
  {
  }

  lemma CallParts(e: Sql)
    requires Scanned(e) && e.Call?
    ensures (e.kind.Star? ==> e.args == []) && (e.kind.RowValue? ==> |e.args| >= 2) && forall x :: x in e.args ==> Scanned(x)
  {
  }

  lemma BetweenNode(l: Expr, list: seq<Expr>)
    ensures PExpr(TkBetween, Some(l), None).(list := list) == Expr(TkBetween, Some(l), None, list, Nothing)
  {
  }

  lemma InNode(l: Expr, content: Content)
    ensures PExpr(TkIn, Some(l), None).(content := content) == Expr(TkIn, Some(l), None, [], content)
  {
  }

  /** likeop, with or without NOT */
  method BuildLikeOp(notToks: seq<Token>, likeTok: Token) returns (out: Slot)
    ensures fresh(out) && out.minor == TokenM(likeTok.(n := Flagged(notToks != [], likeTok.n)))
  {
    out := Shifted(TkOther(0), likeTok);
    if notToks != [] {
      var y0 := out;
      out := Shifted(TkNot, notToks[0]);
      ReduceNotLike(out, y0);
    }
  }

  method BuildLike(e: Sql) returns (out: Slot)
    requires Scanned(e) && e.Like?
    ensures fresh(out) && Built(out, e)
    decreases e, 0
  {
    hide PExpr, UnaryIfNull, LowerList, LowerWhens, InExprs, Negated, ExprFunction, Liked, Flagged, Scanned, ScannedWhens;
    var Like(l, notToks, likeTok, r, escape) := e;
    LikeParts(e);
    out := Build(l);
    var y1 := BuildLikeOp(notToks, likeTok);
    var y0 := Build(r);
    if escape == None {
      LikeTokenExact([Lower(r), Lower(l)], notToks != [], likeTok);
      assert [Lower(r), Lower(l)] + [] == [Lower(r), Lower(l)];
      ReduceLike(out, y1, y0);
    } else {
      var esc := Build(escape.value);
      LikeTokenExact([Lower(r), Lower(l), Lower(escape.value)], notToks != [], likeTok);
      assert [Lower(r), Lower(l)] + [Lower(escape.value)] == [Lower(r), Lower(l), Lower(escape.value)];
      ReduceLikeEscape(out, y1, y0, esc);
    }
  }

  lemma LikeParts(e: Sql)
    requires Scanned(e) && e.Like?
    ensures Scanned(e.l) && Scanned(e.r) && (e.escape.Some? ==> Scanned(e.escape.value)) && e.likeTok.n < 0x8000_0000
  {
  }

  method BuildIn(e: Sql) returns (out: Slot)
    requires Scanned(e) && (e.InList? || e.InSelect?)
    ensures fresh(out) && Built(out, e)
    decreases e, 0
  {
    hide PExpr, UnaryIfNull, LowerWhens, InExprs, Negated, Scanned, ScannedWhens, LowerList;
    InParts(e);
    out := Build(e.l);
    var y3 := new Slot(TkIn, IntM(Flag(e.negated)));
    var y0 := Shifted(TkOther(0), e.rp);
    if e.InList? {
      var y1 := BuildList(e.list);
      ReduceInList(out, y3, y1, y0);
    } else {
      var y1 := new Slot(TkOther(0), SelectM(e.select));
      ReduceInSelect(out, y3, y1, y0);
      InNode(Lower(e.l), FromSelect(e.select));
    }
  }

  method BuildInTable(e: Sql) returns (out: Slot)
    requires Scanned(e) && e.InTable?
    ensures fresh(out) && Built(out, e)
    decreases e, 0
  {
    hide PExpr, UnaryIfNull, LowerWhens, InExprs, Negated, Scanned, ScannedWhens, LowerList;
    InParts(e);
    out := Build(e.l);
    var y3 := new Slot(TkIn, IntM(Flag(e.negated)));
    var y2 := Shifted(TkId, e.nm);
    var y1 := Shifted(TkId, if e.dbnm == None then Token(0, 0) else e.dbnm.value);
    var y0 := BuildArgs(e.parens);
    ReduceInTable(out, y3, y2, y1, y0);
    InNode(Lower(e.l), FromTable(e.nm, e.dbnm, LowerArgs(e.parens)));
  }

  lemma InParts(e: Sql)
    requires Scanned(e) && (e.InList? || e.InSelect? || e.InTable?)
    ensures Scanned(e.l)
    ensures e.InList? ==> forall x :: x in e.list ==> Scanned(x)
    ensures e.InTable? ==> e.dbnm.Some? ==> e.dbnm.value.z != 0
    ensures e.InTable? ==> e.parens.Some? ==> forall x :: x in e.parens.value.list ==> Scanned(x)
  {
  }

  /** nexprlist and exprlist: an empty list is the null pointer. */
  method BuildList(list: seq<Sql>) returns (out: Slot)
    requires forall x :: x in list ==> Scanned(x)
    ensures fresh(out) && out.minor == ListM(LowerList(list))
    decreases list
  {
    hide Lower, Scanned;
    out := new Slot(TkOther(0), ListM([]));
    var k := 0;
    while k < |list|
      invariant 0 <= k <= |list| && fresh(out)
      invariant out.minor == ListM(LowerList(list[..k]))
    {
      var y0 := Build(list[k]);
      LowerLast(list, k);
      out.minor := ListM(out.minor.list + [y0.minor.pExpr.value]);
      k := k + 1;
    }
    assert list[..k] == list;
  }

  /** paren_exprlist */
  method BuildArgs(parens: Option<Args>) returns (out: Slot)
    requires parens.Some? ==> forall x :: x in parens.value.list ==> Scanned(x)
    ensures fresh(out) && out.minor == ListM(LowerArgs(parens))
    decreases parens
  {
    hide Lower, Scanned, LowerList;
    if parens == None {
      out := new Slot(TkOther(0), ListM([]));
    } else {
      out := Shifted(TkOther(0), parens.value.lp);
      var y1 := BuildList(parens.value.list);
      out.minor := y1.minor;
    }
  }

  lemma {:induction false} LowerLast(list: seq<Sql>, k: nat)
    requires k < |list|
    ensures LowerList(list[..k + 1]) == LowerList(list[..k]) + [Lower(list[k])]
    decreases k
  {
    hide Lower;
    if k == 0 {
      assert list[..1] == [list[0]] && list[..1][1..] == [];
    } else {
      LowerLast(list[1..], k - 1);
      assert list[..k + 1][1..] == list[1..][..k] && list[..k][1..] == list[1..][..k - 1];
    }
  }

  method BuildCase(e: Sql) returns (out: Slot)
    requires Scanned(e) && e.Case?
    ensures fresh(out) && Built(out, e)
    decreases e, 0
  {
    hide LowerWhens, Scanned, LowerList, ScannedWhens, UnaryIfNull, InExprs, Negated, ExprFunction;
    var Case(caseTok, operand, whens, els, endTok) := e;
    CaseParts(e);
    out := Shifted(TkCase, caseTok);
    var y3 := BuildOptional(operand);
    var y2 := BuildWhens(whens);
    var y1 := BuildOptional(els);
    var y0 := Shifted(TkOther(0), endTok);
    ReduceCase(out, y3, y2, y1, y0);
  }

  /** case_operand and case_else */
  method BuildOptional(e: Option<Sql>) returns (out: Slot)
    requires e.Some? ==> Scanned(e.value)
    ensures fresh(out) && out.minor == ExprM(if e == None then None else Some(Lower(e.value)))
    decreases e
  {
    hide Lower, Scanned;
    if e.Some? {
      out := Build(e.value);
      out.minor := ExprM(out.minor.pExpr);
    } else {
      out := new Slot(TkOther(0), ExprM(None));
    }
  }

  lemma CaseParts(e: Sql)
    requires Scanned(e) && e.Case?
    ensures (e.operand.Some? ==> Scanned(e.operand.value)) && ScannedWhens(e.whens) && (e.els.Some? ==> Scanned(e.els.value))
  {
  }

  method BuildWhens(whens: Whens) returns (out: Slot)
    requires ScannedWhens(whens)
    ensures fresh(out) && out.minor == ListM(LowerWhens(whens))
    decreases whens
  {
    hide Lower, Scanned;
    match whens
    case First(cond, result) =>
      out := Shifted(TkOther(0), Token(0, 0));
      var y2 := Build(cond);
      var y0 := Build(result);
      ReduceFirstWhen(out, y2, y0);
    case More(prev, cond, result) =>
      out := BuildWhens(prev);
      var y2 := Build(cond);
      var y0 := Build(result);
      ReduceNextWhen(out, y2, y0);
  }

  lemma LiteralNode(e: Sql)
    ensures e.Literal? ==> Lower(e) == Expr(e.op, None, None, [], Constant(e.value))
  {
  }

  /** Reducing an expression: the slot holds a tree in normal form that means what was written, a literal being
      a node with the operation code of its token, and a span that starts with the first token and ends with
      the last unless the expression ends in the arguments of IN table(...). */
  method Expression(e: Sql) returns (out: Slot)
    requires Scanned(e) && WellFormed(e) && Ordered(Tokens(e))
    ensures IsSpanned(out.minor)
    ensures Normal(out.minor.pExpr.value)
    ensures e.Literal? ==> out.minor.pExpr.value == Expr(e.op, None, None, [], Constant(e.value))
    ensures forall env: Env :: Eval(out.minor.pExpr.value, env) == Meaning(e, env)
    ensures out.minor.zStart.value == Tokens(e)[0].z < out.minor.zEnd.value <= LastEnd(Tokens(e))
    ensures out.minor.zEnd.value == LastEnd(Tokens(e)) <==> EndsClean(e)
  {
    hide Scanned, WellFormed, Ordered, Tokens, Eval, Meaning, Lower, SpanStart, SpanEnd, EndsClean, Normal;
    out := Build(e);
    LowerIsNormal(e);
    LiteralNode(e);
    SpanIsExact(e);
    forall env: Env
      ensures Eval(Lower(e), env) == Meaning(e, env)
    {
      LowerKeepsMeaning(e, env);
    }
  }
}
