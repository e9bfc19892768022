/** The shape of the trees that the actions build: each node has the operands its operation needs and no others,
    and no rewriting is left undone. */
module ExprNormal {
  import opened Wrappers
  import opened ExprMeaning

  predicate NoOperands(e: Expr) {
    e.pLeft == None && e.pRight == None && e.list == []
  }

  predicate LeftOnly(e: Expr) {
    e.pLeft.Some? && e.pRight == None
  }

  predicate Both(e: Expr) {
    e.pLeft.Some? && e.pRight.Some? && e.list == [] && e.content == Nothing
  }

  /** The literal 0 behind any number of signs. */
  predicate SignedZero(e: Expr)
    decreases e
  {
    || (e.op == TkInteger && e.content == Constant(Int(0)))
    || ((e.op == TkUPlus || e.op == TkUMinus) && e.pLeft.Some? && SignedZero(e.pLeft.value))
  }

  lemma {:induction false} ZeroIsSigned(e: Expr)
    ensures ExprIsInteger(e) == Some(0) <==> SignedZero(e)
    decreases e
  {
    if (e.op == TkUPlus || e.op == TkUMinus) && e.pLeft.Some? {
      ZeroIsSigned(e.pLeft.value);
    }
  }

  /** What one node looks like.  AND has no operand that is a signed zero, IS and IS NOT have no NULL node
      on the right, and a list of candidates has at least two. */
  predicate Shape(e: Expr) {
    match e.op
    case TkNull | TkInteger | TkFloat | TkString | TkBlob => NoOperands(e) && e.content.Constant? && LiteralFits(e.op, e.content.v)
    case TkId | TkVariable => NoOperands(e) && e.content.Named?
    case TkFunction => e.pLeft == None && e.pRight == None && (e.content.Named? || e.content.Distinct?)
    case TkVector => e.pLeft == None && e.pRight == None && |e.list| >= 2 && e.content == Nothing
    case TkSelect | TkExists => NoOperands(e) && e.content.FromSelect?
    case TkRaise => NoOperands(e) && e.content.Raised? && 1 <= e.content.action <= 4 && (e.content.action == 4 <==> e.content.msg == None)
    case TkCast | TkCollate => LeftOnly(e) && e.list == [] && e.content.Named?
    case TkNot | TkBitNot | TkUMinus | TkUPlus | TkIsNull | TkNotNull => LeftOnly(e) && e.list == [] && e.content == Nothing
    case TkIs | TkIsNot => Both(e) && e.pRight.value.op != TkNull
    case TkBetween => LeftOnly(e) && |e.list| == 2 && e.content == Nothing
    case TkIn => LeftOnly(e) && CandidatesShape(e)
    case TkCase => e.pRight == None && |e.list| >= 2 && e.content == Nothing
    case TkAnd => Both(e) && !SignedZero(e.pLeft.value) && !SignedZero(e.pRight.value)
    case TkDot | TkOr | TkEq | TkNe | TkOther(_) => Both(e)
  }

  predicate CandidatesShape(e: Expr) {
    match e.content
    case Nothing => |e.list| >= 2
    case FromSelect(_) => e.list == []
    case FromTable(_, _, _) => e.list == []
    case _ => false
  }

  predicate Normal(e: Expr)
    decreases e
  {
    && Shape(e)
    && (e.pLeft.Some? ==> Normal(e.pLeft.value))
    && (e.pRight.Some? ==> Normal(e.pRight.value))
    && AllNormal(e.list)
    && (e.content.FromTable? ==> AllNormal(e.content.args))
  }

  predicate AllNormal(list: seq<Expr>)
    decreases list
  {
    forall x :: x in list ==> Normal(x)
  }

  // ---- Nodes ----

  lemma BareIsNormal(op: Op, content: Content)
    requires Shape(Leaf(op, content)) && !content.FromTable?
    ensures Normal(Leaf(op, content))
  {
  }

  lemma LeftNodeIsNormal(op: Op, l: Expr, content: Content)
    requires Normal(l) && !content.FromTable? && Shape(Expr(op, Some(l), None, [], content))
    ensures Normal(Expr(op, Some(l), None, [], content))
  {
  }

  lemma BothIsNormal(op: Op, l: Expr, r: Expr)
    requires Normal(l) && Normal(r) && Shape(Expr(op, Some(l), Some(r), [], Nothing))
    ensures Normal(Expr(op, Some(l), Some(r), [], Nothing))
  {
  }

  lemma ListNodeIsNormal(op: Op, l: Option<Expr>, list: seq<Expr>, content: Content)
    requires (l.Some? ==> Normal(l.value)) && AllNormal(list) && !content.FromTable?
    requires Shape(Expr(op, l, None, list, content))
    ensures Normal(Expr(op, l, None, list, content))
  {
  }

  lemma NegatedIsNormal(negated: bool, e: Expr)
    requires Normal(e)
    ensures Normal(Negated(negated, e))
  {
    hide Normal, Shape;
    if negated {
      NotIsShaped(e);
      LeftNodeIsNormal(TkNot, e, Nothing);
    }
  }

  lemma NotIsShaped(e: Expr)
    ensures Shape(Expr(TkNot, Some(e), None, [], Nothing))
  {
  }

  lemma IntegerIsNormal(i: int)
    ensures Normal(Integer(i))
  {
    hide Normal;
    BareIsNormal(TkInteger, Constant(Int(i)));
  }

  /** A binary node is built in its final form. */
  lemma BinaryIsNormal(op: Op, l: Expr, r: Expr)
    requires op.TkAnd? || op.TkOr? || op.TkEq? || op.TkNe? || op.TkOther? || op.TkDot?
    requires Normal(l) && Normal(r)
    ensures Normal(PExpr(op, Some(l), Some(r)))
  {
    hide Normal, ExprIsInteger, SignedZero;
    ZeroIsSigned(l);
    ZeroIsSigned(r);
    if PExpr(op, Some(l), Some(r)) == Integer(0) {
      IntegerIsNormal(0);
    } else {
      BothIsNormal(op, l, r);
    }
  }

  lemma IsIsNormal(l: Expr, negated: bool, r: Expr)
    requires Normal(l) && Normal(r)
    ensures Normal(UnaryIfNull(r, PExpr(if negated then TkIsNot else TkIs, Some(l), Some(r)),
                               if negated then TkNotNull else TkIsNull))
  {
    hide Normal;
    if r.op == TkNull {
      LeftNodeIsNormal(if negated then TkNotNull else TkIsNull, l, Nothing);
    } else {
      BothIsNormal(if negated then TkIsNot else TkIs, l, r);
    }
  }

  lemma InIsNormal(l: Expr, negated: bool, list: seq<Expr>)
    requires Normal(l) && AllNormal(list)
    ensures Normal(InExprs(l, negated, list))
  {
    hide Normal, Negated;
    if list == [] {
      IntegerIsNormal(if negated then 1 else 0);
    } else if |list| == 1 {
      assert list[0] in list;
      BinaryIsNormal(if negated then TkNe else TkEq, l, list[0]);
    } else {
      ListNodeIsNormal(TkIn, Some(l), list, Nothing);
      NegatedIsNormal(negated, Expr(TkIn, Some(l), None, list, Nothing));
    }
  }

  lemma FromTableIsNormal(l: Expr, nm: Token, dbnm: Option<Token>, args: seq<Expr>)
    requires Normal(l) && AllNormal(args)
    ensures Normal(Expr(TkIn, Some(l), None, [], FromTable(nm, dbnm, args)))
  {
  }

  lemma DottedIsNormal(first: Token, mid: Option<Token>, last: Token)
    ensures Normal(DottedNode(first, mid, last))
  {
    hide Normal;
    var l, r := Leaf(TkId, Named(first)), Leaf(TkId, Named(last));
    BareIsNormal(TkId, Named(first));
    BareIsNormal(TkId, Named(last));
    if mid == None {
      BinaryIsNormal(TkDot, l, r);
    } else {
      BareIsNormal(TkId, Named(mid.value));
      BinaryIsNormal(TkDot, Leaf(TkId, Named(mid.value)), r);
      BinaryIsNormal(TkDot, l, PExpr(TkDot, Some(Leaf(TkId, Named(mid.value))), Some(r)));
    }
  }

  lemma FormIsNormal(form: Form)
    ensures Normal(FormNode(form))
  {
    hide Normal;
    match form
    case Subselect(select) => BareIsNormal(TkSelect, FromSelect(select));
    case ExistsIn(select) => BareIsNormal(TkExists, FromSelect(select));
    case RaiseIgnore => BareIsNormal(TkRaise, Raised(OE_IGNORE, None));
    case RaiseAction(action, msg) => BareIsNormal(TkRaise, Raised(action.Code(), Some(msg)));
  }

  lemma CallIsNormal(name: Token, kind: CallForm, args: seq<Expr>)
    requires AllNormal(args) && (kind.RowValue? ==> |args| >= 2)
    ensures Normal(CallNode(name, kind, args))
  {
    hide Normal, AllNormal;
    match kind
    case Function(distinct) => ListNodeIsNormal(TkFunction, None, args, if distinct then Distinct(name) else Named(name));
    case Star => ListNodeIsNormal(TkFunction, None, args, Named(name));
    case RowValue => ListNodeIsNormal(TkVector, None, args, Nothing);
  }

  // ---- Whole expressions ----

  /** Every expression is lowered to a tree in normal form. */
  lemma {:induction false} LowerIsNormal(e: Sql)
    requires WellFormed(e)
    ensures Normal(Lower(e))
    decreases e
  {
    hide Normal, Lower, WellFormed;
    if Primary(e) {
      PrimaryIsNormal(e);
    } else if e.Cast? || e.Collate? || e.Paren? || e.Postfix? || e.Prefix? {
      OneOperandIsNormal(e);
    } else if e.Binary? || e.Is? {
      TwoOperandsAreNormal(e);
    } else if e.InList? || e.InSelect? || e.InTable? {
      CandidatesAreNormal(e);
    } else {
      ListsAreNormal(e);
    }
  }

  lemma PrimaryIsNormal(e: Sql)
    requires WellFormed(e) && Primary(e)
    ensures Normal(Lower(e))
  {
    hide Normal, DottedNode, FormNode, WellFormedWhens;
    match e
    case Literal(_, op, v) => BareIsNormal(op, Constant(v));
    case Word(tok, op) => BareIsNormal(op, Named(tok));
    case Dotted(first, mid, last) => DottedIsNormal(first, mid, last);
    case Enclosed(_, form, _, _) => FormIsNormal(form);
  }

  lemma {:induction false} OneOperandIsNormal(e: Sql)
    requires WellFormed(e) && (e.Cast? || e.Collate? || e.Paren? || e.Postfix? || e.Prefix?)
    ensures Normal(Lower(e))
    decreases e, 0
  {
    hide Normal, WellFormedWhens;
    match e
    case Cast(_, _, x, _, typ, _) =>
      LowerIsNormal(x);
      LeftNodeIsNormal(TkCast, Lower(x), Named(typ));
    case Collate(l, _, last) =>
      LowerIsNormal(l);
      LeftNodeIsNormal(TkCollate, Lower(l), Named(last));
    case Paren(_, x, _) =>
      LowerIsNormal(x);
    case Postfix(l, _, _, notNull) =>
      LowerIsNormal(l);
      LeftNodeIsNormal(if notNull then TkNotNull else TkIsNull, Lower(l), Nothing);
    case Prefix(_, op, r) =>
      LowerIsNormal(r);
      LeftNodeIsNormal(op, Lower(r), Nothing);
  }

  lemma {:induction false} TwoOperandsAreNormal(e: Sql)
    requires WellFormed(e) && (e.Binary? || e.Is?)
    ensures Normal(Lower(e))
    decreases e, 0
  {
    hide Normal, PExpr, UnaryIfNull, WellFormedWhens;
    LowerIsNormal(e.l);
    LowerIsNormal(e.r);
    if e.Binary? {
      BinaryIsNormal(e.op, Lower(e.l), Lower(e.r));
    } else {
      IsIsNormal(Lower(e.l), e.negated, Lower(e.r));
    }
  }

  lemma {:induction false} CandidatesAreNormal(e: Sql)
    requires WellFormed(e) && (e.InList? || e.InSelect? || e.InTable?)
    ensures Normal(Lower(e))
    decreases e, 0
  {
    hide Normal, AllNormal, InExprs, Negated, LowerList, WellFormedWhens;
    LowerIsNormal(e.l);
    var l := Lower(e.l);
    if e.InList? {
      ListIsNormal(e.list);
      InIsNormal(l, e.negated, LowerList(e.list));
    } else if e.InSelect? {
      LeftNodeIsNormal(TkIn, l, FromSelect(e.select));
      NegatedIsNormal(e.negated, Expr(TkIn, Some(l), None, [], FromSelect(e.select)));
    } else {
      NothingIsNormal();
      if e.parens.Some? {
        ListIsNormal(e.parens.value.list);
      }
      FromTableIsNormal(l, e.nm, e.dbnm, LowerArgs(e.parens));
      NegatedIsNormal(e.negated, Expr(TkIn, Some(l), None, [], FromTable(e.nm, e.dbnm, LowerArgs(e.parens))));
    }
  }

  lemma NothingIsNormal()
    ensures AllNormal([])
  {
  }

  lemma {:induction false} ListsAreNormal(e: Sql)
    requires WellFormed(e) && (e.Call? || e.Like? || e.Between? || e.Case?)
    ensures Normal(Lower(e))
    decreases e, 1
  {
    hide Normal, Negated, LowerList, CallNode, LowerWhens, AllNormal, WellFormedWhens;
    match e
    case Call(first, kind, _, args, _) =>
      ListIsNormal(args);
      CallIsNormal(first, kind, LowerList(args));
    case Like(_, _, _, _, _) => LikeIsNormal(e);
    case Between(l, negated, _, lo, _, hi) =>
      LowerIsNormal(l);
      LowerIsNormal(lo);
      LowerIsNormal(hi);
      PairIsNormal(Lower(lo), Lower(hi));
      ListNodeIsNormal(TkBetween, Some(Lower(l)), [Lower(lo), Lower(hi)], Nothing);
      NegatedIsNormal(negated, Expr(TkBetween, Some(Lower(l)), None, [Lower(lo), Lower(hi)], Nothing));
    case Case(_, _, _, _, _) => CaseIsNormal(e);
  }

  lemma PairIsNormal(a: Expr, b: Expr)
    requires Normal(a) && Normal(b)
    ensures AllNormal([a, b])
  {
    hide Normal;
  }

  lemma JoinedIsNormal(a: seq<Expr>, b: seq<Expr>)
    requires AllNormal(a) && AllNormal(b)
    ensures AllNormal(a + b)
  {
    hide Normal;
  }

  lemma OneIsNormal(a: Expr)
    requires Normal(a)
    ensures AllNormal([a])
  {
    hide Normal;
  }

  lemma {:induction false} LikeIsNormal(e: Sql)
    requires WellFormed(e) && e.Like?
    ensures Normal(Lower(e))
    decreases e, 0
  {
    hide Normal, Negated, LowerList, LowerWhens, AllNormal, WellFormedWhens;
    LowerIsNormal(e.l);
    LowerIsNormal(e.r);
    PairIsNormal(Lower(e.r), Lower(e.l));
    var escaped := if e.escape == None then [] else [Lower(e.escape.value)];
    NothingIsNormal();
    if e.escape.Some? {
      LowerIsNormal(e.escape.value);
      OneIsNormal(Lower(e.escape.value));
    }
    var args := [Lower(e.r), Lower(e.l)] + escaped;
    JoinedIsNormal([Lower(e.r), Lower(e.l)], escaped);
    ListNodeIsNormal(TkFunction, None, args, Named(e.likeTok));
    NegatedIsNormal(e.notToks != [], ExprFunction(args, e.likeTok));
  }

  lemma {:induction false} CaseIsNormal(e: Sql)
    requires WellFormed(e) && e.Case?
    ensures Normal(Lower(e))
    decreases e, 0
  {
    hide Normal, LowerWhens, AllNormal, WellFormedWhens;
    var rest := if e.els == None then [] else [Lower(e.els.value)];
    NothingIsNormal();
    if e.operand.Some? {
      LowerIsNormal(e.operand.value);
    }
    if e.els.Some? {
      LowerIsNormal(e.els.value);
      OneIsNormal(Lower(e.els.value));
    }
    WhensAreNormal(e.whens);
    JoinedIsNormal(LowerWhens(e.whens), rest);
    var subject := if e.operand == None then None else Some(Lower(e.operand.value));
    ListNodeIsNormal(TkCase, subject, LowerWhens(e.whens) + rest, Nothing);
  }

  lemma {:induction false} ListIsNormal(list: seq<Sql>)
    requires forall x :: x in list ==> WellFormed(x)
    ensures AllNormal(LowerList(list))
    decreases list
  {
    hide Normal, Lower, WellFormed;
    if list != [] {
      LowerIsNormal(list[0]);
      ListIsNormal(list[1..]);
      OneIsNormal(Lower(list[0]));
      JoinedIsNormal([Lower(list[0])], LowerList(list[1..]));
    }
  }

  lemma {:induction false} WhensAreNormal(whens: Whens)
    requires WellFormedWhens(whens)
    ensures |LowerWhens(whens)| >= 2 && AllNormal(LowerWhens(whens))
    decreases whens
  {
    hide Normal, AllNormal, Lower, WellFormed;
    LowerIsNormal(whens.cond);
    LowerIsNormal(whens.result);
    PairIsNormal(Lower(whens.cond), Lower(whens.result));
    if whens.More? {
      WhensAreNormal(whens.prev);
      JoinedIsNormal(LowerWhens(whens.prev), [Lower(whens.cond), Lower(whens.result)]);
    }
  }
}
