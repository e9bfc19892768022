/** SQL expressions: their three-valued meaning as written, the expression trees they are lowered to, and the
    proof that the lowering keeps the meaning. */
module ExprMeaning {
  import opened Wrappers

  /** A token: the position of its text and its length, an unsigned 32-bit number. */
  datatype Token = Token(z: nat, n: bv32) {
    function End(): nat {
      z + n as nat
    }
  }

  datatype Value = Null | Int(i: int) | Real(r: real) | Text(s: string) | Blob(s: string)

  /** Operation codes of expression nodes. */
  datatype Op =
    | TkNull | TkInteger | TkFloat | TkString | TkBlob | TkId | TkVariable | TkFunction
    | TkAnd | TkOr | TkEq | TkNe | TkOther(code: nat)
    | TkIs | TkIsNot | TkIsNull | TkNotNull
    | TkNot | TkBitNot | TkUMinus | TkUPlus
    | TkBetween | TkIn | TkCase
    | TkDot | TkVector | TkSelect | TkExists | TkRaise | TkCast | TkCollate

  /** What the surroundings supply: names, functions, tables, subqueries, the operators whose meaning plays
      no part here, and the truth value of text. */
  datatype Env = Env(
    col: Token -> Value,
    dotted: seq<Token> -> Value,
    variable: Token -> Value,
    fn: (Token, seq<Value>) -> Value,
    distinctFn: (Token, seq<Value>) -> Value,
    vector: seq<Value> -> Value,
    cast: (Token, Value) -> Value,
    scalar: nat -> Value,
    existing: nat -> Value,
    collated: (Token, Value) -> Value,
    ignored: Value,
    raised: (RaiseType, Token) -> Value,
    table: (Token, Option<Token>, seq<Value>) -> seq<Value>,
    select: nat -> seq<Value>,
    op1: (Op, Value) -> Value,
    op2: (Op, Value, Value) -> Value,
    truth: string -> bool)

  // ---- Three-valued logic ----

  datatype Tri = True | False | Unknown

  function Truth(v: Value, env: Env): Tri {
    match v
    case Null => Unknown
    case Int(i) => if i != 0 then True else False
    case Real(r) => if r != 0.0 then True else False
    case Text(s) => if env.truth(s) then True else False
    case Blob(s) => if env.truth(s) then True else False
  }

  function AsValue(t: Tri): Value {
    match t
    case True => Int(1)
    case False => Int(0)
    case Unknown => Null
  }

  function Not3(t: Tri): Tri {
    match t
    case True => False
    case False => True
    case Unknown => Unknown
  }

  function And3(a: Tri, b: Tri): Tri {
    if a == False || b == False then False else if a == True && b == True then True else Unknown
  }

  function Or3(a: Tri, b: Tri): Tri {
    Not3(And3(Not3(a), Not3(b)))
  }

  /** Equality of values; numbers are compared as numbers. */
  predicate Same(a: Value, b: Value) {
    if a.Int? && b.Real? then a.i as real == b.r
    else if a.Real? && b.Int? then a.r == b.i as real
    else a == b
  }

  function Eq3(a: Value, b: Value): Tri {
    if a == Null || b == Null then Unknown else if Same(a, b) then True else False
  }

  function Bool(b: bool): Value {
    Int(if b then 1 else 0)
  }

  /** v IN (vals): false for no values, whatever `v` is. */
  function In3(v: Value, vals: seq<Value>): Tri {
    if vals == [] then False else Or3(In3(v, vals[..|vals| - 1]), Eq3(v, vals[|vals| - 1]))
  }

  function Between3(v: Value, lo: Value, hi: Value, env: Env): Tri {
    And3(Truth(env.op2(GE, v, lo), env), Truth(env.op2(LE, v, hi), env))
  }

  const INT_LIMIT := 0x8000_0000

  const GE := TkOther(41)
  const LE := TkOther(39)

  // ---- Expressions as written ----

  datatype Sql =
    | Literal(tok: Token, op: Op, value: Value)            // NULL, a number, a string, a blob
    | Word(tok: Token, op: Op)                             // a column, a variable, CURRENT_TIME and the like
    | Dotted(first: Token, mid: Option<Token>, last: Token)
    | Enclosed(first: Token, form: Form, toks: seq<Token>, last: Token)
    | Call(first: Token, kind: CallForm, toks: seq<Token>, args: seq<Sql>, last: Token)
    | Cast(first: Token, toks: seq<Token>, e: Sql, asToks: seq<Token>, typ: Token, last: Token)
    | Collate(l: Sql, collateTok: Token, last: Token)
    | Paren(lp: Token, e: Sql, rp: Token)
    | Binary(l: Sql, op: Op, opTok: Token, r: Sql)
    | Is(l: Sql, isToks: seq<Token>, negated: bool, r: Sql)
    | Postfix(l: Sql, toks: seq<Token>, last: Token, notNull: bool) // ISNULL, NOTNULL, NOT NULL
    | Prefix(opTok: Token, op: Op, r: Sql)
    | Like(l: Sql, notToks: seq<Token>, likeTok: Token, r: Sql, escape: Option<Sql>)
    | Between(l: Sql, negated: bool, toks: seq<Token>, lo: Sql, andTok: Token, hi: Sql)
    | InList(l: Sql, negated: bool, toks: seq<Token>, list: seq<Sql>, rp: Token)
    | InSelect(l: Sql, negated: bool, toks: seq<Token>, select: nat, rp: Token)
    | InTable(l: Sql, negated: bool, toks: seq<Token>, nm: Token, dbnm: Option<Token>, parens: Option<Args>)
    | Case(caseTok: Token, operand: Option<Sql>, whens: Whens, els: Option<Sql>, endTok: Token)

  /** Forms without operands: a subquery, EXISTS, RAISE(IGNORE), RAISE(action, message). */
  datatype Form = Subselect(select: nat) | ExistsIn(select: nat) | RaiseIgnore | RaiseAction(action: RaiseType, msg: Token)

  datatype RaiseType = Rollback | Abort | Fail {
    /** The OE_ code of the action. */
    function Code(): nat {
      match this
      case Rollback => OE_ROLLBACK
      case Abort => OE_ABORT
      case Fail => OE_FAIL
    }
  }

  const OE_ROLLBACK := 1
  const OE_ABORT := 2
  const OE_FAIL := 3
  const OE_IGNORE := 4

  /** Forms with a list of operands: a function, with or without DISTINCT, f(*), and a row value. */
  datatype CallForm = Function(distinct: bool) | Star | RowValue

  /** paren_exprlist */
  datatype Args = Args(lp: Token, list: seq<Sql>, rp: Token)

  /** case_exprlist: a left-recursive list of WHEN ... THEN ... */
  datatype Whens = First(cond: Sql, result: Sql) | More(prev: Whens, cond: Sql, result: Sql)

  function Negate(negated: bool, t: Tri): Value {
    AsValue(if negated then Not3(t) else t)
  }

  function Meaning(e: Sql, env: Env): Value
    decreases e
  {
    match e
    case Literal(_, _, v) => v
    case Word(tok, op) => WordMeaning(op, tok, env)
    case Dotted(first, mid, last) => env.dotted(DottedNames(first, mid, last))
    case Enclosed(_, form, _, _) => FormMeaning(form, env)
    case Call(first, form, _, args, _) => CallMeaning(first, form, Meanings(args, env), env)
    case Cast(_, _, x, _, typ, _) => env.cast(typ, Meaning(x, env))
    case Collate(l, _, last) => env.collated(last, Meaning(l, env))
    case Paren(_, x, _) => Meaning(x, env)
    case Binary(l, op, _, r) => Apply2(op, Meaning(l, env), Meaning(r, env), env)
    case Is(l, _, negated, r) => Bool(Same(Meaning(l, env), Meaning(r, env)) != negated)
    case Postfix(l, _, _, notNull) => Bool((Meaning(l, env) == Null) != notNull)
    case Prefix(_, op, r) => Apply1(op, Meaning(r, env), env)
    case Like(l, notToks, likeTok, r, escape) =>
      var escaped := if escape == None then [] else [Meaning(escape.value, env)];
      var matched := env.fn(likeTok, [Meaning(r, env), Meaning(l, env)] + escaped);
      if notToks == [] then matched else AsValue(Not3(Truth(matched, env)))
    case Between(l, negated, _, lo, _, hi) => Negate(negated, Between3(Meaning(l, env), Meaning(lo, env), Meaning(hi, env), env))
    case InList(l, negated, _, list, _) => Negate(negated, In3(Meaning(l, env), Meanings(list, env)))
    case InSelect(l, negated, _, select, _) => Negate(negated, In3(Meaning(l, env), env.select(select)))
    case InTable(l, negated, _, nm, dbnm, parens) =>
      Negate(negated, In3(Meaning(l, env), env.table(nm, dbnm, ArgMeanings(parens, env))))
    case Case(_, operand, whens, els, _) =>
      var subject := if operand == None then None else Some(Meaning(operand.value, env));
      CaseMeaning(subject, whens, if els == None then Null else Meaning(els.value, env), env)
  }

  function WordMeaning(op: Op, tok: Token, env: Env): Value {
    if op == TkVariable then env.variable(tok) else if op == TkFunction then env.fn(tok, []) else env.col(tok)
  }

  function DottedNames(first: Token, mid: Option<Token>, last: Token): seq<Token> {
    [first] + (if mid == None then [] else [mid.value]) + [last]
  }

  function FormMeaning(form: Form, env: Env): Value {
    match form
    case Subselect(select) => env.scalar(select)
    case ExistsIn(select) => env.existing(select)
    case RaiseIgnore => env.ignored
    case RaiseAction(action, msg) => env.raised(action, msg)
  }

  function CallMeaning(name: Token, form: CallForm, args: seq<Value>, env: Env): Value {
    match form
    case Function(distinct) => if distinct then env.distinctFn(name, args) else env.fn(name, args)
    case Star => env.fn(name, args)
    case RowValue => env.vector(args)
  }

  function Meanings(list: seq<Sql>, env: Env): seq<Value>
    decreases list
  {
    if list == [] then [] else [Meaning(list[0], env)] + Meanings(list[1..], env)
  }

  function ArgMeanings(parens: Option<Args>, env: Env): seq<Value>
    decreases parens
  {
    if parens == None then [] else Meanings(parens.value.list, env)
  }

  /** The first WHEN that is true, or equals the operand, gives the result; otherwise `default`. */
  function CaseMeaning(subject: Option<Value>, whens: Whens, default: Value, env: Env): Value
    decreases whens
  {
    var here := if Chosen(subject, Meaning(whens.cond, env), env) then Meaning(whens.result, env) else default;
    match whens
    case First(_, _) => here
    case More(prev, _, _) => CaseMeaning(subject, prev, here, env)
  }

  predicate Chosen(operand: Option<Value>, cond: Value, env: Env) {
    (if operand == None then Truth(cond, env) else Eq3(operand.value, cond)) == True
  }

  function Apply1(op: Op, v: Value, env: Env): Value {
    match op
    case TkNot => AsValue(Not3(Truth(v, env)))
    case TkUPlus => v
    case TkUMinus => if v.Int? && -INT_LIMIT < v.i < INT_LIMIT then Int(-v.i) else env.op1(op, v)
    case _ => env.op1(op, v)
  }

  function Apply2(op: Op, a: Value, b: Value, env: Env): Value {
    match op
    case TkAnd => AsValue(And3(Truth(a, env), Truth(b, env)))
    case TkOr => AsValue(Or3(Truth(a, env), Truth(b, env)))
    case TkEq => AsValue(Eq3(a, b))
    case TkNe => AsValue(Not3(Eq3(a, b)))
    case _ => env.op2(op, a, b)
  }

  // ---- Expression trees ----

  /** What a node carries besides its operands. */
  datatype Content =
    | Nothing
    | Constant(v: Value)
    | Named(tok: Token)
    | Distinct(tok: Token)                      // a function name under EP_Distinct
    | Raised(action: nat, msg: Option<Token>)   // the action is kept in the affinity field
    | FromTable(nm: Token, dbnm: Option<Token>, args: seq<Expr>)
    | FromSelect(select: nat)

  datatype Expr = Expr(op: Op, pLeft: Option<Expr>, pRight: Option<Expr>, list: seq<Expr>, content: Content)

  /** sqlite3ExprIsInteger: the value of a constant that fits in 32 bits, behind any number of signs. */
  function ExprIsInteger(e: Expr): Option<int>
    decreases e
  {
    match e.op
    case TkInteger => if e.content.Constant? && e.content.v.Int? && 0 <= e.content.v.i < INT_LIMIT then Some(e.content.v.i) else None
    case TkUPlus => if e.pLeft == None then None else ExprIsInteger(e.pLeft.value)
    case TkUMinus =>
      var v := if e.pLeft == None then None else ExprIsInteger(e.pLeft.value);
      if v == None then None else Some(-v.value)
    case _ => None
  }

  /** sqlite3ExprAnd: with an operand that is known to be zero, the result is the constant zero. */
  function ExprAnd(l: Expr, r: Expr): Expr {
    if ExprIsInteger(l) == Some(0) || ExprIsInteger(r) == Some(0) then Integer(0)
    else Expr(TkAnd, Some(l), Some(r), [], Nothing)
  }

  function Integer(i: int): Expr {
    Expr(TkInteger, None, None, [], Constant(Int(i)))
  }

  /** sqlite3PExpr */
  function PExpr(op: Op, pLeft: Option<Expr>, pRight: Option<Expr>): Expr {
    if op == TkAnd && pLeft.Some? && pRight.Some? then ExprAnd(pLeft.value, pRight.value)
    else Expr(op, pLeft, pRight, [], Nothing)
  }

  /** sqlite3ExprFunction */
  function ExprFunction(list: seq<Expr>, name: Token): Expr {
    Expr(TkFunction, None, None, list, Named(name))
  }

  function Eval(e: Expr, env: Env): Value
    decreases e
  {
    var l := if e.pLeft == None then Null else Eval(e.pLeft.value, env);
    var r := if e.pRight == None then Null else Eval(e.pRight.value, env);
    match e.op
    case TkNull => Null
    case TkInteger | TkFloat | TkString | TkBlob =>
      if e.content.Constant? && LiteralFits(e.op, e.content.v) then e.content.v else Null
    case TkId => if e.content.Named? then env.col(e.content.tok) else Null
    case TkVariable => if e.content.Named? then env.variable(e.content.tok) else Null
    case TkFunction =>
      var args := EvalList(e.list, env);
      if e.content.Named? then env.fn(e.content.tok, args) else if e.content.Distinct? then env.distinctFn(e.content.tok, args) else Null
    case TkDot => env.dotted(Names(e))
    case TkVector => env.vector(EvalList(e.list, env))
    case TkSelect => if e.content.FromSelect? then env.scalar(e.content.select) else Null
    case TkExists => if e.content.FromSelect? then env.existing(e.content.select) else Null
    case TkRaise => if e.content.Raised? then EvalRaise(e.content.action, e.content.msg, env) else Null
    case TkCast => if e.content.Named? then env.cast(e.content.tok, l) else Null
    case TkCollate => if e.content.Named? then env.collated(e.content.tok, l) else Null
    case TkIs => Bool(Same(l, r))
    case TkIsNot => Bool(!Same(l, r))
    case TkIsNull => Bool(l == Null)
    case TkNotNull => Bool(l != Null)
    case TkNot | TkBitNot | TkUMinus | TkUPlus => Apply1(e.op, l, env)
    case TkBetween => if |e.list| == 2 then AsValue(Between3(l, Eval(e.list[0], env), Eval(e.list[1], env), env)) else Null
    case TkIn =>
      var candidates := match e.content
                        case FromSelect(select) => env.select(select)
                        case FromTable(nm, dbnm, args) => env.table(nm, dbnm, EvalList(args, env))
                        case _ => EvalList(e.list, env);
      AsValue(In3(l, candidates))
    case TkCase => PickCase(if e.pLeft == None then None else Some(l), EvalList(e.list, env), env)
    case _ => Apply2(e.op, l, r, env)
  }

  /** The kind of constant that a literal node stands for. */
  predicate LiteralFits(op: Op, v: Value) {
    match op
    case TkNull => v.Null?
    case TkInteger => v.Int?
    case TkFloat => v.Real?
    case TkString => v.Text?
    case TkBlob => v.Blob?
    case _ => false
  }

  /** How a RAISE node is read: 4 ignores the row, 1 rolls back, 3 fails, 2 aborts. */
  function EvalRaise(action: nat, msg: Option<Token>, env: Env): Value {
    if action == 4 then env.ignored
    else if msg == None then Null
    else env.raised(if action == 1 then Rollback else if action == 3 then Fail else Abort, msg.value)
  }

  /** The names of a dotted name, from left to right. */
  function Names(e: Expr): seq<Token>
    decreases e
  {
    if e.op == TkDot then
      (if e.pLeft == None then [] else Names(e.pLeft.value)) + if e.pRight == None then [] else Names(e.pRight.value)
    else if e.content.Named? then [e.content.tok]
    else []
  }

  function EvalList(list: seq<Expr>, env: Env): seq<Value>
    decreases list
  {
    if list == [] then [] else [Eval(list[0], env)] + EvalList(list[1..], env)
  }

  /** The list of a CASE node: conditions and results in turn, and an odd last entry for ELSE. */
  function PickCase(subject: Option<Value>, vals: seq<Value>, env: Env): Value
    decreases |vals|
  {
    if vals == [] then Null
    else if |vals| == 1 then vals[0]
    else if Chosen(subject, vals[0], env) then vals[1]
    else PickCase(subject, vals[2..], env)
  }

  // ---- The lowering ----

  function Negated(negated: bool, e: Expr): Expr {
    if negated then PExpr(TkNot, Some(e), None) else e
  }

  /** binaryToUnaryIfNull on the node of x IS y or x IS NOT y. */
  function UnaryIfNull(y: Expr, a: Expr, op: Op): Expr {
    if y.op == TkNull then a.(op := op, pRight := None) else a
  }

  function Leaf(op: Op, content: Content): Expr {
    Expr(op, None, None, [], content)
  }

  function DottedNode(first: Token, mid: Option<Token>, last: Token): Expr {
    var l, r := Leaf(TkId, Named(first)), Leaf(TkId, Named(last));
    if mid == None then PExpr(TkDot, Some(l), Some(r))
    else PExpr(TkDot, Some(l), Some(PExpr(TkDot, Some(Leaf(TkId, Named(mid.value))), Some(r))))
  }

  function FormNode(form: Form): Expr {
    match form
    case Subselect(select) => Leaf(TkSelect, FromSelect(select))
    case ExistsIn(select) => Leaf(TkExists, FromSelect(select))
    case RaiseIgnore => Leaf(TkRaise, Raised(OE_IGNORE, None))
    case RaiseAction(action, msg) => Leaf(TkRaise, Raised(action.Code(), Some(msg)))
  }

  function CallNode(name: Token, form: CallForm, args: seq<Expr>): Expr {
    match form
    case Function(distinct) => if distinct then ExprFunction(args, name).(content := Distinct(name)) else ExprFunction(args, name)
    case Star => ExprFunction(args, name)
    case RowValue => PExpr(TkVector, None, None).(list := args)
  }

  function Lower(e: Sql): Expr
    decreases e
  {
    match e
    case Literal(_, op, v) => Leaf(op, Constant(v))
    case Word(tok, op) => Leaf(op, Named(tok))
    case Dotted(first, mid, last) => DottedNode(first, mid, last)
    case Enclosed(_, form, _, _) => FormNode(form)
    case Call(first, form, _, args, _) => CallNode(first, form, LowerList(args))
    case Cast(_, _, x, _, typ, _) => Expr(TkCast, Some(Lower(x)), None, [], Named(typ))
    case Collate(l, _, last) => Expr(TkCollate, Some(Lower(l)), None, [], Named(last))
    case Paren(_, x, _) => Lower(x)
    case Binary(l, op, _, r) => PExpr(op, Some(Lower(l)), Some(Lower(r)))
    case Is(l, _, negated, r) =>
      UnaryIfNull(Lower(r), PExpr(if negated then TkIsNot else TkIs, Some(Lower(l)), Some(Lower(r))),
                  if negated then TkNotNull else TkIsNull)
    case Postfix(l, _, _, notNull) => PExpr(if notNull then TkNotNull else TkIsNull, Some(Lower(l)), None)
    case Prefix(_, op, r) => PExpr(op, Some(Lower(r)), None)
    case Like(l, notToks, likeTok, r, escape) =>
      var escaped := if escape == None then [] else [Lower(escape.value)];
      Negated(notToks != [], ExprFunction([Lower(r), Lower(l)] + escaped, likeTok))
    case Between(l, negated, _, lo, _, hi) =>
      Negated(negated, PExpr(TkBetween, Some(Lower(l)), None).(list := [Lower(lo), Lower(hi)]))
    case InList(l, negated, _, list, _) =>
      InExprs(Lower(l), negated, LowerList(list))
    case InSelect(l, negated, _, select, _) =>
      Negated(negated, PExpr(TkIn, Some(Lower(l)), None).(content := FromSelect(select)))
    case InTable(l, negated, _, nm, dbnm, parens) =>
      Negated(negated, PExpr(TkIn, Some(Lower(l)), None).(content := FromTable(nm, dbnm, LowerArgs(parens))))
    case Case(_, operand, whens, els, _) =>
      var subject := if operand == None then None else Some(Lower(operand.value));
      var rest := if els == None then [] else [Lower(els.value)];
      PExpr(TkCase, subject, None).(list := LowerWhens(whens) + rest)
  }

  /** expr IN (list): a constant for no candidates, a comparison for one. */
  function InExprs(l: Expr, negated: bool, list: seq<Expr>): Expr {
    if list == [] then Integer(if negated then 1 else 0)
    else if |list| == 1 then PExpr(if negated then TkNe else TkEq, Some(l), Some(list[0]))
    else Negated(negated, PExpr(TkIn, Some(l), None).(list := list))
  }

  function LowerList(list: seq<Sql>): (r: seq<Expr>)
    ensures |r| == |list|
    decreases list
  {
    if list == [] then [] else [Lower(list[0])] + LowerList(list[1..])
  }

  function LowerArgs(parens: Option<Args>): seq<Expr>
    decreases parens
  {
    if parens == None then [] else LowerList(parens.value.list)
  }

  function LowerWhens(whens: Whens): seq<Expr>
    decreases whens
  {
    match whens
    case First(c, r) => [Lower(c), Lower(r)]
    case More(prev, c, r) => LowerWhens(prev) + [Lower(c), Lower(r)]
  }

  /** The operators a rule can be applied to: literal codes for literals, binary codes for binary ones. */
  predicate WellFormed(e: Sql)
    decreases e
  {
    match e
    case Literal(_, op, v) => LiteralFits(op, v)
    case Word(_, op) => op == TkId || op == TkVariable || op == TkFunction
    case Dotted(_, _, _) => true
    case Enclosed(_, _, _, _) => true
    case Call(_, kind, _, args, _) => (kind.RowValue? ==> |args| >= 2) && forall x :: x in args ==> WellFormed(x)
    case Cast(_, _, x, _, _, _) => WellFormed(x)
    case Collate(l, _, _) => WellFormed(l)
    case Paren(_, x, _) => WellFormed(x)
    case Binary(l, op, _, r) => (op.TkAnd? || op.TkOr? || op.TkEq? || op.TkNe? || op.TkOther?) && WellFormed(l) && WellFormed(r)
    case Is(l, _, _, r) => WellFormed(l) && WellFormed(r)
    case Postfix(l, _, _, _) => WellFormed(l)
    case Prefix(_, op, r) => (op.TkNot? || op.TkBitNot? || op.TkUMinus? || op.TkUPlus?) && WellFormed(r)
    case Like(l, _, _, r, escape) => WellFormed(l) && WellFormed(r) && (escape.Some? ==> WellFormed(escape.value))
    case Between(l, _, _, lo, _, hi) => WellFormed(l) && WellFormed(lo) && WellFormed(hi)
    case InList(l, _, _, list, _) => WellFormed(l) && forall x :: x in list ==> WellFormed(x)
    case InSelect(l, _, _, _, _) => WellFormed(l)
    case InTable(l, _, _, _, _, parens) => WellFormed(l) && (parens.Some? ==> forall x :: x in parens.value.list ==> WellFormed(x))
    case Case(_, operand, whens, els, _) =>
      (operand.Some? ==> WellFormed(operand.value)) && WellFormedWhens(whens) && (els.Some? ==> WellFormed(els.value))
  }

  predicate WellFormedWhens(whens: Whens)
    decreases whens
  {
    WellFormed(whens.cond) && WellFormed(whens.result) && (whens.More? ==> WellFormedWhens(whens.prev))
  }

  // ---- The lowering keeps the three-valued meaning ----

  lemma TruthOfTri(t: Tri, env: Env)
    ensures Truth(AsValue(t), env) == t
  {
  }

  lemma NegatedMeaning(negated: bool, e: Expr, t: Tri, env: Env)
    requires Eval(e, env) == AsValue(t)
    ensures Eval(Negated(negated, e), env) == Negate(negated, t)
  {
    TruthOfTri(t, env);
  }

  /** Only the literal NULL, possibly in parentheses, is lowered to a TK_NULL node. */
  lemma {:induction false} NullNodes(e: Sql, env: Env)
    requires WellFormed(e) && Lower(e).op == TkNull
    ensures Eval(Lower(e), env) == Null
    decreases e
  {
    if e.Paren? {
      NullNodes(e.e, env);
    }
  }

  lemma IsKeepsMeaning(l: Expr, negated: bool, r: Expr, env: Env)
    requires r.op == TkNull ==> Eval(r, env) == Null
    ensures Eval(UnaryIfNull(r, PExpr(if negated then TkIsNot else TkIs, Some(l), Some(r)),
                             if negated then TkNotNull else TkIsNull), env)
            == Bool(Same(Eval(l, env), Eval(r, env)) != negated)
  {
  }

  lemma {:induction false} IntegerValue(e: Expr, env: Env)
    requires ExprIsInteger(e).Some?
    ensures Eval(e, env) == Int(ExprIsInteger(e).value) && -INT_LIMIT < ExprIsInteger(e).value < INT_LIMIT
    decreases e
  {
    hide EvalList, Truth, PickCase, In3, Between3, Apply2;
    if e.op != TkInteger {
      IntegerValue(e.pLeft.value, env);
    }
  }

  lemma ZeroIsFalse(env: Env)
    ensures Truth(Int(0), env) == False
  {
  }

  lemma EvalZero(env: Env)
    ensures Eval(Integer(0), env) == Int(0)
  {
  }

  lemma EvalBinary(op: Op, l: Expr, r: Expr, env: Env)
    requires op.TkAnd? || op.TkOr? || op.TkEq? || op.TkNe? || op.TkOther?
    ensures Eval(Expr(op, Some(l), Some(r), [], Nothing), env) == Apply2(op, Eval(l, env), Eval(r, env), env)
  {
    hide Apply1, Apply2, EvalList, PickCase, In3, Between3, Names, EvalRaise, LiteralFits, Same, AsValue, Bool;
  }

  /** Replacing a conjunction that has a zero operand by zero does not change its value, even when the other
      operand is null. */
  lemma AndKeepsMeaning(l: Expr, r: Expr, env: Env)
    ensures Eval(ExprAnd(l, r), env) == AsValue(And3(Truth(Eval(l, env), env), Truth(Eval(r, env), env)))
  {
    hide ExprIsInteger, Eval, Truth;
    ZeroIsFalse(env);
    EvalBinary(TkAnd, l, r, env);
    EvalZero(env);
    if ExprIsInteger(l) == Some(0) {
      IntegerValue(l, env);
    }
    if ExprIsInteger(r) == Some(0) {
      IntegerValue(r, env);
    }
  }

  lemma InNothing(v: Value)
    ensures In3(v, []) == False
  {
  }

  lemma SingleIn(v: Value, x: Value)
    ensures In3(v, [x]) == Eq3(v, x)
  {
    assert [x][..0] == [];
  }

  lemma {:induction false} EvalAppend(a: seq<Expr>, b: seq<Expr>, env: Env)
    ensures EvalList(a + b, env) == EvalList(a, env) + EvalList(b, env)
    decreases |a|
  {
    if a == [] {
      assert a + b == b;
    } else {
      assert (a + b)[1..] == a[1..] + b;
      EvalAppend(a[1..], b, env);
    }
  }

  lemma EvalPair(c: Expr, r: Expr, env: Env)
    ensures EvalList([c, r], env) == [Eval(c, env), Eval(r, env)]
  {
    assert [c, r][1..] == [r];
    EvalSingle(r, env);
  }

  lemma EvalNothing(env: Env)
    ensures EvalList([], env) == []
  {
  }

  lemma EvalSingle(e: Expr, env: Env)
    ensures EvalList([e], env) == [Eval(e, env)]
  {
    assert [e][1..] == [];
  }

  lemma LiteralMeaning(op: Op, v: Value, env: Env)
    requires LiteralFits(op, v)
    ensures Eval(Leaf(op, Constant(v)), env) == v
  {
  }

  lemma WordKeepsMeaning(op: Op, tok: Token, env: Env)
    requires op == TkId || op == TkVariable || op == TkFunction
    ensures Eval(Leaf(op, Named(tok)), env) == WordMeaning(op, tok, env)
  {
  }

  lemma NamesOfPair(a: Token, r: Expr)
    ensures Names(PExpr(TkDot, Some(Leaf(TkId, Named(a))), Some(r))) == [a] + Names(r)
  {
  }

  lemma NamesOfLeaf(a: Token)
    ensures Names(Leaf(TkId, Named(a))) == [a]
  {
  }

  lemma EvalDot(l: Expr, r: Expr, env: Env)
    ensures Eval(PExpr(TkDot, Some(l), Some(r)), env) == env.dotted(Names(PExpr(TkDot, Some(l), Some(r))))
  {
    hide Names, EvalList, PickCase, In3, Between3, Truth;
  }

  lemma DottedKeepsMeaning(first: Token, mid: Option<Token>, last: Token, env: Env)
    ensures Eval(DottedNode(first, mid, last), env) == env.dotted(DottedNames(first, mid, last))
  {
    hide Names, Leaf, PExpr, Eval;
    var r := Leaf(TkId, Named(last));
    NamesOfLeaf(last);
    if mid == None {
      NamesOfPair(first, r);
      EvalDot(Leaf(TkId, Named(first)), r, env);
      assert [first] + [] + [last] == [first] + [last];
    } else {
      var inner := PExpr(TkDot, Some(Leaf(TkId, Named(mid.value))), Some(r));
      NamesOfPair(mid.value, r);
      NamesOfPair(first, inner);
      EvalDot(Leaf(TkId, Named(first)), inner, env);
      assert [first] + ([mid.value] + [last]) == [first] + [mid.value] + [last];
    }
  }

  lemma FormKeepsMeaning(form: Form, env: Env)
    ensures Eval(FormNode(form), env) == FormMeaning(form, env)
  {
  }

  lemma CallKeepsMeaning(name: Token, form: CallForm, args: seq<Expr>, env: Env)
    ensures Eval(CallNode(name, form, args), env) == CallMeaning(name, form, EvalList(args, env), env)
  {
    hide EvalList, PickCase, In3, Between3, Truth;
  }

  lemma BinaryKeepsMeaning(op: Op, l: Expr, r: Expr, env: Env)
    requires op.TkAnd? || op.TkOr? || op.TkEq? || op.TkNe? || op.TkOther?
    ensures Eval(PExpr(op, Some(l), Some(r)), env) == Apply2(op, Eval(l, env), Eval(r, env), env)
  {
    hide ExprAnd, Eval, Truth;
    AndKeepsMeaning(l, r, env);
    EvalBinary(op, l, r, env);
  }

  /** Forms without operands. */
  predicate Primary(e: Sql) {
    e.Literal? || e.Word? || e.Dotted? || e.Enclosed?
  }

  lemma PrimaryKeepsMeaning(e: Sql, env: Env)
    requires WellFormed(e) && Primary(e)
    ensures Eval(Lower(e), env) == Meaning(e, env)
  {
    hide Eval, Leaf, DottedNode, FormNode, WordMeaning, FormMeaning, DottedNames, WellFormedWhens;
    match e
    case Literal(_, op, v) => LiteralMeaning(op, v, env);
    case Word(tok, op) => WordKeepsMeaning(op, tok, env);
    case Dotted(first, mid, last) => DottedKeepsMeaning(first, mid, last, env);
    case Enclosed(_, form, _, _) => FormKeepsMeaning(form, env);
  }

  lemma CastNode(l: Expr, typ: Token, env: Env)
    ensures Eval(Expr(TkCast, Some(l), None, [], Named(typ)), env) == env.cast(typ, Eval(l, env))
  {
  }

  lemma CollateNode(l: Expr, name: Token, env: Env)
    ensures Eval(Expr(TkCollate, Some(l), None, [], Named(name)), env) == env.collated(name, Eval(l, env))
  {
  }

  lemma NullTestNode(l: Expr, notNull: bool, env: Env)
    ensures Eval(PExpr(if notNull then TkNotNull else TkIsNull, Some(l), None), env) == Bool((Eval(l, env) == Null) != notNull)
  {
    hide Apply1, Apply2, In3, Between3, PickCase, EvalList, Truth, Names, ExprAnd;
  }

  lemma PrefixNode(op: Op, l: Expr, env: Env)
    requires op.TkNot? || op.TkBitNot? || op.TkUMinus? || op.TkUPlus?
    ensures Eval(PExpr(op, Some(l), None), env) == Apply1(op, Eval(l, env), env)
  {
    hide Apply1, Apply2, In3, Between3, PickCase, EvalList, Truth, Names, ExprAnd;
  }

  lemma {:induction false} OneOperandKeepsMeaning(e: Sql, env: Env)
    requires WellFormed(e) && (e.Cast? || e.Collate? || e.Paren? || e.Postfix? || e.Prefix?)
    ensures Eval(Lower(e), env) == Meaning(e, env)
    decreases e, 0
  {
    hide Eval, PExpr, Apply1, WellFormedWhens;
    match e
    case Cast(_, _, x, _, typ, _) =>
      LowerKeepsMeaning(x, env);
      CastNode(Lower(x), typ, env);
    case Collate(l, _, last) =>
      LowerKeepsMeaning(l, env);
      CollateNode(Lower(l), last, env);
    case Paren(_, x, _) =>
      LowerKeepsMeaning(x, env);
    case Postfix(l, _, _, notNull) =>
      LowerKeepsMeaning(l, env);
      NullTestNode(Lower(l), notNull, env);
    case Prefix(_, op, r) =>
      LowerKeepsMeaning(r, env);
      PrefixNode(op, Lower(r), env);
  }

  lemma {:induction false} TwoOperandsKeepMeaning(e: Sql, env: Env)
    requires WellFormed(e) && (e.Binary? || e.Is?)
    ensures Eval(Lower(e), env) == Meaning(e, env)
    decreases e, 0
  {
    hide Eval, PExpr, Apply2, UnaryIfNull, WellFormedWhens;
    LowerKeepsMeaning(e.l, env);
    LowerKeepsMeaning(e.r, env);
    if e.Binary? {
      BinaryKeepsMeaning(e.op, Lower(e.l), Lower(e.r), env);
    } else {
      if Lower(e.r).op == TkNull {
        NullNodes(e.r, env);
      }
      IsKeepsMeaning(Lower(e.l), e.negated, Lower(e.r), env);
    }
  }

  lemma {:induction false} CallsKeepMeaning(e: Sql, env: Env)
    requires WellFormed(e) && e.Call?
    ensures Eval(Lower(e), env) == Meaning(e, env)
    decreases e, 0
  {
    hide Eval, EvalList, CallNode, CallMeaning, LowerList, Meanings, WellFormedWhens;
    ListKeepsMeaning(e.args, env);
    CallKeepsMeaning(e.first, e.kind, LowerList(e.args), env);
  }

  lemma {:induction false} LowerKeepsMeaning(e: Sql, env: Env)
    requires WellFormed(e)
    ensures Eval(Lower(e), env) == Meaning(e, env)
    decreases e
  {
    hide WellFormed, Eval, Lower, Meaning;
    match e
    case Literal(_, _, _) => PrimaryKeepsMeaning(e, env);
    case Word(_, _) => PrimaryKeepsMeaning(e, env);
    case Dotted(_, _, _) => PrimaryKeepsMeaning(e, env);
    case Enclosed(_, _, _, _) => PrimaryKeepsMeaning(e, env);
    case Call(_, _, _, _, _) => CallsKeepMeaning(e, env);
    case Cast(_, _, _, _, _, _) => OneOperandKeepsMeaning(e, env);
    case Collate(_, _, _) => OneOperandKeepsMeaning(e, env);
    case Paren(_, _, _) => OneOperandKeepsMeaning(e, env);
    case Postfix(_, _, _, _) => OneOperandKeepsMeaning(e, env);
    case Prefix(_, _, _) => OneOperandKeepsMeaning(e, env);
    case Binary(_, _, _, _) => TwoOperandsKeepMeaning(e, env);
    case Is(_, _, _, _) => TwoOperandsKeepMeaning(e, env);
    case Like(_, _, _, _, _) => LikeKeepsMeaning(e, env);
    case Between(_, _, _, _, _, _) => BetweenKeepsMeaning(e, env);
    case InList(_, _, _, _, _) => InListKeepsMeaning(e, env);
    case InSelect(_, _, _, _, _) => InSourceKeepsMeaning(e, env);
    case InTable(_, _, _, _, _, _) => InSourceKeepsMeaning(e, env);
    case Case(_, _, _, _, _) => CaseKeepsMeaning(e, env);
  }

  lemma {:induction false} LikeKeepsMeaning(e: Sql, env: Env)
    requires WellFormed(e) && e.Like?
    ensures Eval(Lower(e), env) == Meaning(e, env)
    decreases e, 0
  {
    hide EvalList, Apply2, In3, Between3, PickCase, CaseMeaning, UnaryIfNull, LowerList, Meanings, Truth, WellFormedWhens;
    var Like(l, notToks, likeTok, r, escape) := e;
    LowerKeepsMeaning(l, env);
    LowerKeepsMeaning(r, env);
    EvalPair(Lower(r), Lower(l), env);
    if escape.Some? {
      LowerKeepsMeaning(escape.value, env);
      EvalAppend([Lower(r), Lower(l)], [Lower(escape.value)], env);
      EvalSingle(Lower(escape.value), env);
    } else {
      assert [Lower(r), Lower(l)] + [] == [Lower(r), Lower(l)];
      assert [Meaning(r, env), Meaning(l, env)] + [] == [Meaning(r, env), Meaning(l, env)];
    }
  }

  lemma {:induction false} BetweenKeepsMeaning(e: Sql, env: Env)
    requires WellFormed(e) && e.Between?
    ensures Eval(Lower(e), env) == Meaning(e, env)
    decreases e, 0
  {
    hide Negated, Negate, Between3, PickCase, CaseMeaning, UnaryIfNull, LowerList, Meanings, EvalList;
    LowerKeepsMeaning(e.l, env);
    LowerKeepsMeaning(e.lo, env);
    LowerKeepsMeaning(e.hi, env);
    NegatedMeaning(e.negated, PExpr(TkBetween, Some(Lower(e.l)), None).(list := [Lower(e.lo), Lower(e.hi)]),
                   Between3(Meaning(e.l, env), Meaning(e.lo, env), Meaning(e.hi, env), env), env);
  }

  lemma {:induction false} InListKeepsMeaning(e: Sql, env: Env)
    requires WellFormed(e) && e.InList?
    ensures Eval(Lower(e), env) == Meaning(e, env)
    decreases e, 0
  {
    hide InExprs, In3, EvalList, Negate, LowerList, Meanings;
    LowerKeepsMeaning(e.l, env);
    ListKeepsMeaning(e.list, env);
    InExprsMeaning(Lower(e.l), e.negated, LowerList(e.list), env);
  }

  lemma InOneMeaning(l: Expr, negated: bool, x: Expr, env: Env)
    ensures Eval(PExpr(if negated then TkNe else TkEq, Some(l), Some(x)), env) == Negate(negated, Eq3(Eval(l, env), Eval(x, env)))
  {
    hide In3, Between3, PickCase, Truth, ExprAnd, Apply1, EvalList, Names, Eq3;
  }

  lemma InManyMeaning(l: Expr, negated: bool, list: seq<Expr>, env: Env)
    ensures Eval(Negated(negated, PExpr(TkIn, Some(l), None).(list := list)), env)
            == Negate(negated, In3(Eval(l, env), EvalList(list, env)))
  {
    hide Negated, Negate, In3, Between3, PickCase, Truth, ExprAnd, Apply1, Apply2, Names, EvalList;
    NegatedMeaning(negated, PExpr(TkIn, Some(l), None).(list := list), In3(Eval(l, env), EvalList(list, env)), env);
  }

  /** The constant and the comparison have the value that three-valued IN gives the list they replace. */
  lemma InExprsMeaning(l: Expr, negated: bool, list: seq<Expr>, env: Env)
    ensures Eval(InExprs(l, negated, list), env) == Negate(negated, In3(Eval(l, env), EvalList(list, env)))
  {
    hide Negated, In3, PExpr, Eq3, Names;
    if |list| == 1 {
      assert list == [list[0]];
      EvalSingle(list[0], env);
      SingleIn(Eval(l, env), Eval(list[0], env));
      InOneMeaning(l, negated, list[0], env);
    } else if list == [] {
      EvalNothing(env);
      InNothing(Eval(l, env));
    } else {
      InManyMeaning(l, negated, list, env);
    }
  }

  lemma {:induction false} InSourceKeepsMeaning(e: Sql, env: Env)
    requires WellFormed(e) && (e.InSelect? || e.InTable?)
    ensures Eval(Lower(e), env) == Meaning(e, env)
    decreases e, 0
  {
    hide Negated, Negate, Apply1, Apply2, In3, Between3, PickCase, CaseMeaning, UnaryIfNull, EvalList, LowerList, Meanings, Truth;
    LowerKeepsMeaning(e.l, env);
    if e.InSelect? {
      NegatedMeaning(e.negated, PExpr(TkIn, Some(Lower(e.l)), None).(content := FromSelect(e.select)),
                     In3(Meaning(e.l, env), env.select(e.select)), env);
    } else {
      EvalNothing(env);
      if e.parens.Some? {
        ListKeepsMeaning(e.parens.value.list, env);
      }
      NegatedMeaning(e.negated, PExpr(TkIn, Some(Lower(e.l)), None).(content := FromTable(e.nm, e.dbnm, LowerArgs(e.parens))),
                     In3(Meaning(e.l, env), env.table(e.nm, e.dbnm, ArgMeanings(e.parens, env))), env);
    }
  }

  lemma {:induction false} ListKeepsMeaning(list: seq<Sql>, env: Env)
    requires forall x :: x in list ==> WellFormed(x)
    ensures EvalList(LowerList(list), env) == Meanings(list, env)
    decreases list
  {
    if list != [] {
      LowerKeepsMeaning(list[0], env);
      ListKeepsMeaning(list[1..], env);
    }
  }

  lemma {:induction false} CaseKeepsMeaning(e: Sql, env: Env)
    requires WellFormed(e) && e.Case?
    ensures Eval(Lower(e), env) == Meaning(e, env)
    decreases e, 0
  {
    hide Negated, Negate, Apply1, Apply2, In3, Between3, CaseMeaning, UnaryIfNull, LowerList, Meanings, Truth, LowerWhens, EvalList,
         Eval, PickCase, PExpr;
    var Case(_, operand, whens, els, _) := e;
    EvalNothing(env);
    var subject := if operand == None then None else Some(Meaning(operand.value, env));
    var rest := if els == None then [] else [Lower(els.value)];
    if operand.Some? {
      LowerKeepsMeaning(operand.value, env);
    }
    if els.Some? {
      LowerKeepsMeaning(els.value, env);
      EvalSingle(Lower(els.value), env);
    }
    EvalAppend(LowerWhens(whens), rest, env);
    WhensKeepMeaning(subject, whens, EvalList(rest, env), env);
    EvalCase(if operand == None then None else Some(Lower(operand.value)), LowerWhens(whens) + rest, env);
    Fallthrough(subject, if els == None then None else Some(Meaning(els.value, env)), env);
  }

  lemma EvalCase(pLeft: Option<Expr>, list: seq<Expr>, env: Env)
    ensures Eval(PExpr(TkCase, pLeft, None).(list := list), env)
            == PickCase(if pLeft == None then None else Some(Eval(pLeft.value, env)), EvalList(list, env), env)
  {
    hide PickCase, EvalList;
  }

  /** With no condition left, CASE is its ELSE, or null. */
  lemma Fallthrough(subject: Option<Value>, els: Option<Value>, env: Env)
    ensures PickCase(subject, if els == None then [] else [els.value], env) == if els == None then Null else els.value
  {
  }

  lemma {:induction false} WhensKeepMeaning(subject: Option<Value>, whens: Whens, rest: seq<Value>, env: Env)
    requires WellFormedWhens(whens)
    ensures PickCase(subject, EvalList(LowerWhens(whens), env) + rest, env)
            == CaseMeaning(subject, whens, PickCase(subject, rest, env), env)
    decreases whens
  {
    var c, r := Lower(whens.cond), Lower(whens.result);
    LowerKeepsMeaning(whens.cond, env);
    LowerKeepsMeaning(whens.result, env);
    EvalPair(c, r, env);
    var here := [Eval(c, env), Eval(r, env)] + rest;
    assert here[2..] == rest;
    match whens
    case First(_, _) =>
    case More(prev, _, _) =>
      EvalAppend(LowerWhens(prev), [c, r], env);
      assert EvalList(LowerWhens(whens), env) + rest == EvalList(LowerWhens(prev), env) + here;
      WhensKeepMeaning(subject, prev, here, env);
  }

  // ---- The list of a CASE node can be taken apart again ----

  function WhenPairs(whens: Whens): seq<(Expr, Expr)> {
    var here := [(Lower(whens.cond), Lower(whens.result))];
    if whens.First? then here else WhenPairs(whens.prev) + here
  }

  function Pairs(list: seq<Expr>): seq<(Expr, Expr)> {
    if |list| < 2 then [] else [(list[0], list[1])] + Pairs(list[2..])
  }

  function OddLast(list: seq<Expr>): Option<Expr> {
    if |list| % 2 == 1 then Some(list[|list| - 1]) else None
  }

  lemma {:induction false} PairsAppend(a: seq<Expr>, b: seq<Expr>)
    requires |a| % 2 == 0
    ensures Pairs(a + b) == Pairs(a) + Pairs(b)
    decreases |a|
  {
    if a == [] {
      assert a + b == b;
    } else {
      assert (a + b)[2..] == a[2..] + b;
      PairsAppend(a[2..], b);
    }
  }

  lemma {:induction false} FlatWhens(whens: Whens)
    ensures |LowerWhens(whens)| % 2 == 0 && Pairs(LowerWhens(whens)) == WhenPairs(whens)
    decreases whens
  {
    var c, r := Lower(whens.cond), Lower(whens.result);
    assert [c, r][2..] == [] && Pairs([c, r]) == [(c, r)];
    if whens.More? {
      FlatWhens(whens.prev);
      PairsAppend(LowerWhens(whens.prev), [c, r]);
    }
  }

  /** The flattened list determines the WHEN/THEN pairs, and an ELSE is present exactly when its length is
      odd. */
  lemma CaseListRecoverable(whens: Whens, els: Option<Expr>)
    ensures var list := LowerWhens(whens) + if els == None then [] else [els.value];
            Pairs(list) == WhenPairs(whens) && OddLast(list) == els
  {
    FlatWhens(whens);
    var rest := if els == None then [] else [els.value];
    PairsAppend(LowerWhens(whens), rest);
  }
}
