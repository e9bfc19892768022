/** Compound SELECT statements: their meaning as written, the chain of terms they are lowered to, and the
    proof that the lowering keeps the meaning. */
module SelectMeaning {

  type Row = seq<int>

  /** The operator stored in a Select; a fresh one carries TK_SELECT. */
  datatype OpCode = TkSelect | TkUnion | TkAll | TkExcept | TkIntersect

  // ---- The statement as written ----

  /** oneselect: a plain SELECT, given by its result rows; SELECT * over a parenthesised select; VALUES. */
  datatype OneSelect =
    | Plain(rows: seq<Row>)
    | FromSub(sub: Query)
    | Values(first: Row, more: seq<Row>)

  /** selectnowith: terms joined by operators that associate to the left. */
  datatype Query = One(one: OneSelect) | Compound(left: Query, op: OpCode, right: OneSelect)

  function Distinct(rows: seq<Row>): seq<Row> {
    if rows == [] then []
    else
      var front, last := Distinct(rows[..|rows| - 1]), rows[|rows| - 1];
      if last in front then front else front + [last]
  }

  function Keep(rows: seq<Row>, other: seq<Row>, present: bool): seq<Row> {
    if rows == [] then []
    else
      var front, last := Keep(rows[..|rows| - 1], other, present), rows[|rows| - 1];
      if (last in other) == present then front + [last] else front
  }

  function Combine(op: OpCode, left: seq<Row>, right: seq<Row>): seq<Row> {
    match op
    case TkUnion => Distinct(left + right)
    case TkExcept => Distinct(Keep(left, right, false))
    case TkIntersect => Distinct(Keep(left, right, true))
    case _ => left + right
  }

  function MeaningOfOne(s: OneSelect): seq<Row>
    decreases s
  {
    match s
    case Plain(rows) => rows
    case FromSub(q) => Meaning(q)
    case Values(first, more) => [first] + more
  }

  function Meaning(q: Query): seq<Row>
    decreases q
  {
    match q
    case One(s) => MeaningOfOne(s)
    case Compound(left, op, right) => Combine(op, Meaning(left), MeaningOfOne(right))
  }

  // ---- The lowered chain ----

  /** One Select object: its operator and either its own rows or, with a null result list, all the rows
      of the subquery in its FROM clause.  A chain lists the terms from the innermost `pPrior` on. */
  datatype Term = Term(op: OpCode, core: Core)
  datatype Core = Own(rows: seq<Row>) | StarFrom(sub: seq<Term>)

  function TermRows(t: Term): seq<Row>
    decreases t
  {
    match t.core
    case Own(rows) => rows
    case StarFrom(sub) => Rows(sub)
  }

  /** The rows of a chain: its operators applied from the innermost term outwards. */
  function Rows(chain: seq<Term>): seq<Row>
    decreases chain
  {
    if chain == [] then []
    else
      var last := chain[|chain| - 1];
      if |chain| == 1 then TermRows(last)
      else Combine(last.op, Rows(chain[..|chain| - 1]), TermRows(last))
  }

  /** A right operand of several terms becomes the subquery of a single one. */
  function Wrapped(chain: seq<Term>): seq<Term> {
    if |chain| > 1 then [Term(TkSelect, StarFrom(chain))] else chain
  }

  function ValuesChain(first: Row, more: seq<Row>): seq<Term> {
    if more == [] then [Term(TkSelect, Own([first]))]
    else ValuesChain(first, more[..|more| - 1]) + [Term(TkAll, Own([more[|more| - 1]]))]
  }

  function LowerOne(s: OneSelect): (chain: seq<Term>)
    ensures chain != []
    decreases s
  {
    match s
    case Plain(rows) => [Term(TkSelect, Own(rows))]
    case FromSub(q) => [Term(TkSelect, StarFrom(Lower(q)))]
    case Values(first, more) => ValuesChain(first, more)
  }

  function Lower(q: Query): (chain: seq<Term>)
    ensures chain != []
    decreases q
  {
    match q
    case One(s) => LowerOne(s)
    case Compound(left, op, right) => Lower(left) + [Wrapped(LowerOne(right))[0].(op := op)]
  }

  // ---- The lowering keeps the meaning ----

  lemma AppendRows(chain: seq<Term>, t: Term)
    requires chain != []
    ensures Rows(chain + [t]) == Combine(t.op, Rows(chain), TermRows(t))
  {
    assert (chain + [t])[..|chain|] == chain;
  }

  lemma {:induction false} ValuesKeepRows(first: Row, more: seq<Row>)
    ensures Rows(ValuesChain(first, more)) == [first] + more
    decreases |more|
  {
    if more != [] {
      var front, last := more[..|more| - 1], more[|more| - 1];
      ValuesKeepRows(first, front);
      AppendRows(ValuesChain(first, front), Term(TkAll, Own([last])));
      assert [first] + front + [last] == [first] + more;
    }
  }

  lemma WrappedRows(chain: seq<Term>)
    requires chain != []
    ensures |Wrapped(chain)| == 1 && TermRows(Wrapped(chain)[0]) == Rows(chain)
  {
  }

  lemma {:induction false} LowerOneKeepsMeaning(s: OneSelect)
    ensures Rows(LowerOne(s)) == MeaningOfOne(s)
    decreases s
  {
    match s
    case Plain(_) =>
    case FromSub(q) => LowerKeepsMeaning(q);
    case Values(first, more) => ValuesKeepRows(first, more);
  }

  /** For every nesting of UNION, UNION ALL, EXCEPT, INTERSECT, multi-row VALUES and subqueries, folding the
      chain gives the rows of the left-associative statement. */
  lemma {:induction false} LowerKeepsMeaning(q: Query)
    ensures Rows(Lower(q)) == Meaning(q)
    decreases q
  {
    match q
    case One(s) => LowerOneKeepsMeaning(s);
    case Compound(left, op, right) =>
      LowerKeepsMeaning(left);
      LowerOneKeepsMeaning(right);
      WrappedRows(LowerOne(right));
      AppendRows(Lower(left), Wrapped(LowerOne(right))[0].(op := op));
  }

  /** Why the right operand is wrapped: linked in row by row, a multi-row VALUES would have the operator
      applied to its first row only. */
  lemma {:induction false} UnwrappedWouldMean(chain: seq<Term>, op: OpCode, first: Row, more: seq<Row>)
    requires chain != []
    ensures Rows(chain + [Term(op, Own([first]))] + ValuesChain(first, more)[1..]) == Combine(op, Rows(chain), [first]) + more
    decreases |more|
  {
    var linked := chain + [Term(op, Own([first]))];
    if more == [] {
      AppendRows(chain, Term(op, Own([first])));
      assert linked + ValuesChain(first, more)[1..] == linked;
    } else {
      var front, last := more[..|more| - 1], more[|more| - 1];
      var row := Term(TkAll, Own([last]));
      ValuesLength(first, front);
      UnwrappedWouldMean(chain, op, first, front);
      AppendRows(linked + ValuesChain(first, front)[1..], row);
      assert linked + ValuesChain(first, more)[1..] == linked + ValuesChain(first, front)[1..] + [row];
      assert Combine(op, Rows(chain), [first]) + front + [last] == Combine(op, Rows(chain), [first]) + more;
    }
  }

  /** A chain starts with a fresh Select and ends with the operator of the statement. */
  lemma {:induction false} ChainOperators(q: Query)
    ensures Lower(q)[0].op == TkSelect && (q.Compound? ==> Lower(q)[|Lower(q)| - 1].op == q.op)
    decreases q
  {
    match q
    case One(Values(first, more)) => ValuesOperators(first, more);
    case One(_) =>
    case Compound(left, _, _) => ChainOperators(left);
  }

  lemma {:induction false} ValuesOperators(first: Row, more: seq<Row>)
    ensures var chain := ValuesChain(first, more);
            chain[0].op == TkSelect && forall k :: 0 < k < |chain| ==> chain[k].op == TkAll
    decreases |more|
  {
    if more != [] {
      ValuesOperators(first, more[..|more| - 1]);
    }
  }

  // ---- What the operators mean ----

  predicate NoRepeats(rows: seq<Row>) {
    forall i, j :: 0 <= i < j < |rows| ==> rows[i] != rows[j]
  }

  /** `rows` is what the operator stands for between two operands with rows `l` and `r`. */
  ghost predicate OperatorLaw(op: OpCode, l: seq<Row>, r: seq<Row>, rows: seq<Row>) {
    match op
    case TkUnion => NoRepeats(rows) && forall x: Row :: x in rows <==> x in l || x in r
    case TkExcept => NoRepeats(rows) && forall x: Row :: x in rows <==> x in l && x !in r
    case TkIntersect => NoRepeats(rows) && forall x: Row :: x in rows <==> x in l && x in r
    case TkAll => multiset(rows) == multiset(l) + multiset(r)
    case TkSelect => true
  }

  lemma {:induction false} DistinctRows(rows: seq<Row>)
    ensures NoRepeats(Distinct(rows)) && forall x: Row :: x in Distinct(rows) <==> x in rows
    decreases |rows|
  {
    if rows != [] {
      var front, last := rows[..|rows| - 1], rows[|rows| - 1];
      DistinctRows(front);
      assert rows == front + [last];
    }
  }

  lemma {:induction false} KeptRows(rows: seq<Row>, other: seq<Row>, present: bool)
    ensures forall x: Row :: x in Keep(rows, other, present) <==> x in rows && (x in other) == present
    decreases |rows|
  {
    if rows != [] {
      var front, last := rows[..|rows| - 1], rows[|rows| - 1];
      KeptRows(front, other, present);
      assert rows == front + [last];
    }
  }

  lemma CombineObeysLaw(op: OpCode, l: seq<Row>, r: seq<Row>)
    ensures OperatorLaw(op, l, r, Combine(op, l, r))
  {
    hide Distinct, Keep;
    match op
    case TkUnion => DistinctRows(l + r);
    case TkExcept =>
      KeptRows(l, r, false);
      DistinctRows(Keep(l, r, false));
    case TkIntersect =>
      KeptRows(l, r, true);
      DistinctRows(Keep(l, r, true));
    case TkAll =>
    case TkSelect =>
  }

  /** The rows of a compound, both as written and from the lowered chain: in UNION the rows of either operand,
      in EXCEPT those of the left one that the right one lacks, in INTERSECT those of both, none of them twice,
      and in UNION ALL the rows of both with their repetitions. */
  lemma CompoundRows(q: Query)
    requires q.Compound?
    ensures OperatorLaw(q.op, Meaning(q.left), MeaningOfOne(q.right), Meaning(q))
    ensures OperatorLaw(q.op, Rows(Lower(q.left)), Rows(LowerOne(q.right)), Rows(Lower(q)))
  {
    hide OperatorLaw, Combine;
    CombineObeysLaw(q.op, Meaning(q.left), MeaningOfOne(q.right));
    LowerKeepsMeaning(q);
    LowerKeepsMeaning(q.left);
    LowerOneKeepsMeaning(q.right);
  }

  // ---- The limit on the number of terms ----

  /** Whether the head of the chain still is marked as the last row of a multi-row VALUES. */
  predicate HeadIsMultiValue(q: Query) {
    q.One? && q.one.Values? && q.one.more != []
  }

  predicate OverLimit(q: Query, mxSelect: int) {
    |Lower(q)| > 1 && !HeadIsMultiValue(q) && mxSelect > 0 && |Lower(q)| > mxSelect
  }

  function Terms(q: Query): nat {
    match q
    case One(Values(_, more)) => 1 + |more|
    case One(_) => 1
    case Compound(left, _, _) => Terms(left) + 1
  }

  lemma {:induction false} ValuesLength(first: Row, more: seq<Row>)
    ensures |ValuesChain(first, more)| == 1 + |more|
    decreases |more|
  {
    if more != [] {
      ValuesLength(first, more[..|more| - 1]);
    }
  }

  lemma {:induction false} ChainLength(q: Query)
    ensures |Lower(q)| == Terms(q)
    decreases q
  {
    match q
    case One(Values(first, more)) => ValuesLength(first, more);
    case One(_) =>
    case Compound(left, _, _) => ChainLength(left);
  }

  /** A VALUES list of any length is never too long by itself; a compound is when its operators and the
      rows of a leading VALUES together exceed a positive limit. */
  lemma LimitAppliesToCompounds(q: Query, mxSelect: int)
    ensures OverLimit(q, mxSelect) <==> q.Compound? && Terms(q) > mxSelect > 0
  {
    ChainLength(q);
  }

  /** The limit errors reported for the subqueries of a statement. */
  function ErrorsInOne(s: OneSelect, mxSelect: int): nat
    decreases s
  {
    match s
    case FromSub(q) => ErrorsIn(q, mxSelect) + if OverLimit(q, mxSelect) then 1 else 0
    case _ => 0
  }

  function ErrorsIn(q: Query, mxSelect: int): nat
    decreases q
  {
    match q
    case One(s) => ErrorsInOne(s, mxSelect)
    case Compound(left, _, right) => ErrorsIn(left, mxSelect) + ErrorsInOne(right, mxSelect)
  }

  /** Whether some operator of the statement is other than UNION ALL. */
  predicate OneHasCompound(s: OneSelect)
    decreases s
  {
    s.FromSub? && HasCompound(s.sub)
  }

  predicate HasCompound(q: Query)
    decreases q
  {
    match q
    case One(s) => OneHasCompound(s)
    case Compound(left, op, right) => op != TkAll || HasCompound(left) || OneHasCompound(right)
  }

  // ---- Operators and subqueries, listed ----

  /** All operators of a statement, those of its subqueries included. */
  function OperatorsOfOne(s: OneSelect): set<OpCode>
    decreases s
  {
    if s.FromSub? then Operators(s.sub) else {}
  }

  function Operators(q: Query): set<OpCode>
    decreases q
  {
    match q
    case One(s) => OperatorsOfOne(s)
    case Compound(left, op, right) => Operators(left) + {op} + OperatorsOfOne(right)
  }

  /** The flag stands for some operator other than UNION ALL, anywhere in the statement. */
  lemma {:induction false} CompoundFlag(q: Query)
    ensures HasCompound(q) <==> !(Operators(q) <= {TkAll})
    decreases q
  {
    match q
    case One(s) => CompoundFlagOfOne(s);
    case Compound(left, op, right) =>
      CompoundFlag(left);
      CompoundFlagOfOne(right);
      assert op in Operators(q);
  }

  lemma {:induction false} CompoundFlagOfOne(s: OneSelect)
    ensures OneHasCompound(s) <==> !(OperatorsOfOne(s) <= {TkAll})
    decreases s
  {
    if s.FromSub? {
      CompoundFlag(s.sub);
    }
  }

  /** All subqueries of a statement, at any depth. */
  function SubqueriesOfOne(s: OneSelect): seq<Query>
    decreases s
  {
    if s.FromSub? then Subqueries(s.sub) + [s.sub] else []
  }

  function Subqueries(q: Query): seq<Query>
    decreases q
  {
    match q
    case One(s) => SubqueriesOfOne(s)
    case Compound(left, _, right) => Subqueries(left) + SubqueriesOfOne(right)
  }

  /** The number of compounds among `qs` with more terms than a positive limit allows. */
  function TooLong(qs: seq<Query>, mxSelect: int): nat {
    if qs == [] then 0
    else
      var last := qs[|qs| - 1];
      TooLong(qs[..|qs| - 1], mxSelect) + if last.Compound? && Terms(last) > mxSelect > 0 then 1 else 0
  }

  lemma {:induction false} TooLongAppend(a: seq<Query>, b: seq<Query>, mxSelect: int)
    ensures TooLong(a + b, mxSelect) == TooLong(a, mxSelect) + TooLong(b, mxSelect)
    decreases |b|
  {
    if b == [] {
      assert a + b == a;
    } else {
      assert (a + b)[..|a + b| - 1] == a + b[..|b| - 1];
      TooLongAppend(a, b[..|b| - 1], mxSelect);
    }
  }

  /** The errors reported below a statement: one for each subquery that is a compound of too many terms. */
  lemma {:induction false} ErrorsCounted(q: Query, mxSelect: int)
    ensures ErrorsIn(q, mxSelect) == TooLong(Subqueries(q), mxSelect)
    decreases q
  {
    match q
    case One(s) => ErrorsCountedInOne(s, mxSelect);
    case Compound(left, _, right) =>
      ErrorsCounted(left, mxSelect);
      ErrorsCountedInOne(right, mxSelect);
      TooLongAppend(Subqueries(left), SubqueriesOfOne(right), mxSelect);
  }

  lemma {:induction false} ErrorsCountedInOne(s: OneSelect, mxSelect: int)
    ensures ErrorsInOne(s, mxSelect) == TooLong(SubqueriesOfOne(s), mxSelect)
    decreases s
  {
    if s.FromSub? {
      ErrorsCounted(s.sub, mxSelect);
      LimitAppliesToCompounds(s.sub, mxSelect);
      TooLongAppend(Subqueries(s.sub), [s.sub], mxSelect);
      assert [s.sub][..0] == [];
    }
  }
}
