/** The reduce actions that build Select objects in place, and the pass that links a finished chain in the
    other direction. */
module SelectBuild {
  import opened SelectMeaning

  datatype SelFlag = SfValues | SfMultiValue | SfCompound

  class Select {
    var op: OpCode
    var selFlags: set<SelFlag>
    var rows: seq<Row>    // the rows of the term's own result list
    var pSrc: Select?     // the subquery in FROM; with it, the result list is null and stands for *
    var pPrior: Select?
    var pNext: Select?
    ghost var Repr: set<Select>
    ghost var Chain: seq<Term>

    ghost predicate Valid()
      reads this`Repr, Repr`Repr, Repr`Chain, Repr`op, Repr`rows, Repr`pSrc, Repr`pPrior
      decreases Repr
    {
      && this in Repr
      && (pPrior != null ==> pPrior in Repr && pPrior.Repr <= Repr && this !in pPrior.Repr && pPrior.Valid())
      && (pSrc != null ==> pSrc in Repr && pSrc.Repr <= Repr && this !in pSrc.Repr && pSrc.Valid())
      && (pPrior != null && pSrc != null ==> pPrior.Repr !! pSrc.Repr)
      && Chain == (if pPrior == null then [] else pPrior.Chain)
                  + [Term(op, if pSrc == null then Own(rows) else StarFrom(pSrc.Chain))]
    }

    /** sqlite3SelectNew: rows of its own, or everything from a subquery. */
    constructor (rows: seq<Row>, pSrc: Select?, selFlags: set<SelFlag>)
      requires pSrc != null ==> pSrc.Valid()
      ensures Valid() && fresh(Repr - (if pSrc == null then {} else pSrc.Repr)) && pPrior == null
      ensures this.selFlags == selFlags && op == TkSelect && this.rows == rows && this.pSrc == pSrc
      ensures Chain == [Term(TkSelect, if pSrc == null then Own(rows) else StarFrom(pSrc.Chain))]
      ensures (pSrc != null ==> pSrc.AllLinked()) ==> SubsLinked()
    {
      this.op, this.selFlags, this.rows, this.pSrc := TkSelect, selFlags, rows, pSrc;
      pPrior, pNext := null, null;
      Repr := {this} + if pSrc == null then {} else pSrc.Repr;
      Chain := [Term(TkSelect, if pSrc == null then Own(rows) else StarFrom(pSrc.Chain))];
    }

    method ClearMultiValue()
      requires Valid()
      modifies this`selFlags
      ensures Valid() && selFlags == old(selFlags) - {SfMultiValue}
      ensures old(SubsLinked()) ==> SubsLinked()
    {
      selFlags := selFlags - {SfMultiValue};
    }

    /** The objects of the chain, head first. */
    ghost function Nodes(): (nodes: seq<Select>)
      requires Valid()
      reads this`Repr, Repr`Repr, Repr`Chain, Repr`op, Repr`rows, Repr`pSrc, Repr`pPrior
      ensures nodes != [] && nodes[0] == this && |nodes| == |Chain| && forall n :: n in nodes ==> n in Repr
      decreases Repr
    {
      if pPrior == null then [this] else [this] + pPrior.Nodes()
    }

    /** Every chain inside this one, at any depth, is linked in both directions and marked. */
    ghost predicate SubsLinked()
      requires Valid()
      reads this`Repr, Repr`Repr, Repr`Chain, Repr`op, Repr`rows, Repr`pSrc, Repr`pPrior, Repr`pNext, Repr`selFlags
      decreases Repr, 0
    {
      (pPrior != null ==> pPrior.SubsLinked()) && (pSrc != null ==> pSrc.AllLinked())
    }

    /** So is this one. */
    ghost predicate AllLinked()
      requires Valid()
      reads this`Repr, Repr`Repr, Repr`Chain, Repr`op, Repr`rows, Repr`pSrc, Repr`pPrior, Repr`pNext, Repr`selFlags
      decreases Repr, 1
    {
      SubsLinked() && (|Nodes()| > 1 ==> LinkedBack(Nodes()) && Marked(Nodes()))
    }
  }

  /** The node at a position, null outside the chain. */
  function At(nodes: seq<Select>, k: int): Select? {
    if 0 <= k < |nodes| then nodes[k] else null
  }

  /** The nodes of a chain are distinct and joined by `pPrior`. */
  ghost predicate Linked(nodes: seq<Select>)
    reads nodes`pPrior
  {
    && (forall a, b :: 0 <= a < b < |nodes| ==> nodes[a] != nodes[b])
    && (forall k :: 0 <= k < |nodes| ==> nodes[k].pPrior == At(nodes, k + 1))
  }

  lemma {:induction false} NodesAreLinked(p: Select)
    requires p.Valid()
    ensures Linked(p.Nodes())
    decreases p.Repr
  {
    if p.pPrior != null {
      var nodes, rest := p.Nodes(), p.pPrior.Nodes();
      NodesAreLinked(p.pPrior);
      assert nodes == [p] + rest && p !in rest;
      LinkedCons(p, rest);
    }
  }

  lemma LinkedCons(p: Select, rest: seq<Select>)
    requires Linked(rest) && rest != [] && p !in rest && p.pPrior == rest[0]
    ensures Linked([p] + rest)
  {
    var nodes := [p] + rest;
    forall a, b | 0 <= a < b < |nodes|
      ensures nodes[a] != nodes[b]
    {
      assert a > 0 ==> rest[a - 1] != rest[b - 1];
      assert nodes[b] == rest[b - 1];
    }
    forall k | 0 <= k < |nodes|
      ensures nodes[k].pPrior == At(nodes, k + 1)
    {
      assert k > 0 ==> rest[k - 1].pPrior == At(rest, k);
    }
  }

  lemma InOwnRepr(p: Select)
    requires p.Valid()
    ensures p in p.Repr
  {
  }

  lemma LinkAt(nodes: seq<Select>, at: nat)
    requires Linked(nodes) && at < |nodes|
    ensures forall k :: 0 <= k < |nodes| && k != at ==> nodes[k] != nodes[at]
    ensures nodes[at].pPrior == At(nodes, at + 1)
  {
  }

  /** `pNext` runs opposite to the chain; the head has none. */
  ghost predicate LinkedBack(nodes: seq<Select>)
    reads nodes`pNext
  {
    forall k :: 0 <= k < |nodes| ==> nodes[k].pNext == At(nodes, k - 1)
  }

  ghost predicate Marked(nodes: seq<Select>)
    reads nodes`selFlags
  {
    forall k :: 0 <= k < |nodes| ==> SfCompound in nodes[k].selFlags
  }

  /** Relinking the nodes of a chain leaves the chains inside it alone. */
  twostate lemma SubsKept(p: Select)
    requires old(p.Valid()) && p.Valid() && old(p.SubsLinked())
    requires forall n :: n in old(p.Repr) ==> unchanged(n`Repr, n`Chain, n`op, n`rows, n`pSrc, n`pPrior)
    requires forall n :: n in old(p.Repr) && n !in old(p.Nodes()) ==> unchanged(n`pNext, n`selFlags)
    ensures p.SubsLinked()
    decreases p.Repr
  {
    if p.pPrior != null {
      assert old(p.Nodes()) == [p] + old(p.pPrior.Nodes());
      SubsKept(p.pPrior);
    }
    if p.pSrc != null {
      assert forall n :: n in old(p.pSrc.Repr) ==> n !in old(p.Nodes());
    }
  }

  lemma NextInvertsPrior(nodes: seq<Select>)
    requires Linked(nodes) && LinkedBack(nodes)
    ensures forall n :: n in nodes && n.pPrior != null ==> n.pPrior.pNext == n
  {
    forall n | n in nodes && n.pPrior != null
      ensures n.pPrior.pNext == n
    {
      var k :| 0 <= k < |nodes| && nodes[k] == n;
      assert n.pPrior == nodes[k + 1];
    }
  }

  /** The part of the Parse object that these actions touch. */
  class Parse {
    const mxSelect: int   // aLimit[SQLITE_LIMIT_COMPOUND_SELECT]
    var hasCompound: bool
    var errors: nat       // "too many terms in compound SELECT"

    constructor (mxSelect: int)
      ensures this.mxSelect == mxSelect && !hasCompound && errors == 0
    {
      this.mxSelect, hasCompound, errors := mxSelect, false, 0;
    }

    /** The loop of parserDoubleLinkSelect. */
    method LinkBack(p: Select, ghost nodes: seq<Select>) returns (cnt: nat)
      requires nodes != [] && nodes[0] == p && Linked(nodes)
      modifies nodes`pNext, nodes`selFlags
      ensures cnt == |nodes| && LinkedBack(nodes)
      ensures forall k :: 0 <= k < |nodes| ==> nodes[k].selFlags == old(nodes[k].selFlags) + {SfCompound}
    {
      hide Linked;
      LinkAt(nodes, 0);
      var pNext: Select?, pLoop: Select? := null, p;
      cnt := 0;
      while pLoop != null
        invariant 0 <= cnt <= |nodes| && Linked(nodes)
        invariant pLoop == At(nodes, cnt)
        invariant pNext == At(nodes, cnt - 1)
        invariant forall k :: 0 <= k < cnt ==> nodes[k].pNext == At(nodes, k - 1)
        invariant forall k :: 0 <= k < cnt ==> nodes[k].selFlags == old(nodes[k].selFlags) + {SfCompound}
        invariant forall k :: cnt <= k < |nodes| ==> nodes[k].selFlags == old(nodes[k].selFlags)
        decreases |nodes| - cnt
      {
        LinkAt(nodes, cnt);
        pLoop.pNext := pNext;
        pLoop.selFlags := pLoop.selFlags + {SfCompound};
        pNext, pLoop, cnt := pLoop, pLoop.pPrior, cnt + 1;
      }
    }

    /** parserDoubleLinkSelect: on a chain of at least two terms, `pNext` becomes the inverse of `pPrior`,
        every term is marked, and the length is checked unless the head is a multi-row VALUES. */
    method DoubleLinkSelect(p: Select, ghost nodes: seq<Select>)
      requires p.Valid() && nodes == p.Nodes()
      modifies this`errors, nodes`pNext, nodes`selFlags
      ensures p.Valid() && p.Nodes() == nodes && Linked(nodes)
      ensures |nodes| > 1 ==> LinkedBack(nodes) && forall n :: n in nodes && n.pPrior != null ==> n.pPrior.pNext == n
      ensures |nodes| > 1 ==> forall k :: 0 <= k < |nodes| ==> nodes[k].selFlags == old(nodes[k].selFlags) + {SfCompound}
      ensures |nodes| == 1 ==> p.pNext == old(p.pNext) && p.selFlags == old(p.selFlags)
      ensures errors == old(errors) + if OverLong(|nodes|, old(p.selFlags)) then 1 else 0
      ensures p.Valid() && (old(p.SubsLinked()) ==> p.AllLinked())
    {
      hide Select.Valid, Linked, LinkedBack, Select.SubsLinked;
      NodesAreLinked(p);
      LinkAt(nodes, 0);
      if p.pPrior != null {
        var cnt := LinkBack(p, nodes);
        assert p == nodes[0];
        NextInvertsPrior(nodes);
        if old(p.SubsLinked()) {
          SubsKept(p);
        }
        if SfMultiValue !in p.selFlags && mxSelect > 0 && cnt > mxSelect {
          errors := errors + 1;
        }
      }
    }

    predicate OverLong(terms: nat, selFlags: set<SelFlag>) {
      terms > 1 && SfMultiValue !in selFlags && mxSelect > 0 && terms > mxSelect
    }

    /** select ::= with selectnowith */
    method FinishSelect(p: Select)
      requires p.Valid()
      modifies this`errors, p.Repr`pNext, p.Repr`selFlags
      ensures p.Valid() && p.Nodes() == old(p.Nodes()) && (|p.Nodes()| > 1 ==> LinkedBack(p.Nodes()))
      ensures errors == old(errors) + if OverLong(|p.Chain|, old(p.selFlags)) then 1 else 0
      ensures old(p.SubsLinked()) ==> p.AllLinked()
    {
      DoubleLinkSelect(p, p.Nodes());
    }

    /** values ::= VALUES LP nexprlist RP */
    method FirstRow(row: Row) returns (p: Select)
      ensures p.Valid() && fresh(p.Repr) && p.Chain == ValuesChain(row, [])
      ensures fresh(p) && p.selFlags == {SfValues} && p.SubsLinked()
    {
      p := new Select([row], null, {SfValues});
    }

    /** The assignments that make `pLeft` the prior of `pRight`. */
    method SetPrior(pRight: Select, pLeft: Select, op: OpCode)
      requires pLeft.Valid() && pRight.Valid() && pLeft.Repr !! pRight.Repr && pRight.pPrior == null
      modifies pRight`op, pRight`pPrior, pRight`Repr, pRight`Chain, pLeft`selFlags
      ensures pRight.Valid() && pRight.Repr == old(pRight.Repr) + old(pLeft.Repr)
      ensures pRight.Chain == old(pLeft.Chain) + [old(pRight.Chain)[0].(op := op)]
      ensures pRight.selFlags == old(pRight.selFlags) && pLeft.selFlags == old(pLeft.selFlags) - {SfMultiValue}
      ensures old(pLeft.SubsLinked()) && old(pRight.SubsLinked()) ==> pRight.SubsLinked()
    {
      ghost var term := pRight.Chain[0];
      pRight.op := op;
      pRight.pPrior := pLeft;
      pLeft.ClearMultiValue();
      pRight.Repr := pRight.Repr + pLeft.Repr;
      pRight.Chain := pLeft.Chain + [term.(op := op)];
    }

    /** values ::= values COMMA LP exprlist RP */
    method NextRow(pLeft: Select, row: Row) returns (pRight: Select)
      requires pLeft.Valid()
      modifies pLeft`selFlags
      ensures pRight.Valid() && fresh(pRight.Repr - pLeft.Repr)
      ensures pRight.Chain == pLeft.Chain + [Term(TkAll, Own([row]))]
      ensures pLeft.selFlags == old(pLeft.selFlags) - {SfMultiValue} && fresh(pRight) && pRight.selFlags == {SfValues, SfMultiValue}
      ensures old(pLeft.SubsLinked()) ==> pRight.SubsLinked()
    {
      pRight := new Select([row], null, {SfValues, SfMultiValue});
      SetPrior(pRight, pLeft, TkAll);
    }

    /** The first half of that rule: a right operand of several terms becomes a subquery. */
    method WrapRight(pRhs: Select) returns (p: Select)
      requires pRhs.Valid()
      modifies this`errors, pRhs.Repr`pNext, pRhs.Repr`selFlags
      ensures p.Valid() && fresh(p.Repr - pRhs.Repr) && p in p.Repr && p.pPrior == null
      ensures p.Chain == Wrapped(pRhs.Chain)
      ensures errors == old(errors) + if OverLong(|pRhs.Chain|, old(pRhs.selFlags)) then 1 else 0
      ensures p.selFlags == if |pRhs.Chain| > 1 then {} else old(pRhs.selFlags)
      ensures old(pRhs.SubsLinked()) ==> p.SubsLinked()
    {
      p := pRhs;
      if pRhs.pPrior != null {
        DoubleLinkSelect(pRhs, pRhs.Nodes());
        p := new Select([], pRhs, {});
      }
    }

    /** selectnowith ::= selectnowith multiselect_op oneselect */
    method Multiselect(pLhs: Select, op: OpCode, pRhs0: Select) returns (pRhs: Select)
      requires pLhs.Valid() && pRhs0.Valid() && pLhs.Repr !! pRhs0.Repr
      modifies this, pLhs`selFlags, pRhs0.Repr
      ensures pRhs.Valid() && fresh(pRhs.Repr - old(pLhs.Repr) - old(pRhs0.Repr))
      ensures pRhs.Chain == old(pLhs.Chain) + [Wrapped(old(pRhs0.Chain))[0].(op := op)]
      ensures pRhs.selFlags == if |old(pRhs0.Chain)| > 1 then {} else old(pRhs0.selFlags) - {SfMultiValue}
      ensures pLhs.selFlags == old(pLhs.selFlags) - {SfMultiValue}
      ensures hasCompound == (old(hasCompound) || op != TkAll)
      ensures errors == old(errors) + if OverLong(|old(pRhs0.Chain)|, old(pRhs0.selFlags)) then 1 else 0
      ensures old(pLhs.SubsLinked()) && old(pRhs0.SubsLinked()) ==> pRhs.SubsLinked()
    {
      hide Select.Valid, Select.SubsLinked, Select.AllLinked, Select.Nodes;
      InOwnRepr(pLhs);
      pRhs := WrapRight(pRhs0);
      SetPrior(pRhs, pLhs, op);
      pRhs.ClearMultiValue();
      if op != TkAll {
        hasCompound := true;
      }
    }

    // ---- The reductions of a whole statement, in the order the parser makes them ----

    method BuildOne(s: OneSelect) returns (p: Select)
      modifies this
      ensures p.Valid() && fresh(p.Repr) && p.Chain == LowerOne(s) && p.SubsLinked()
      ensures SfMultiValue in p.selFlags <==> HeadIsMultiValue(One(s))
      ensures p.selFlags - {SfMultiValue} == if s.Values? then {SfValues} else {}
      ensures errors == old(errors) + ErrorsInOne(s, mxSelect)
      ensures hasCompound == (old(hasCompound) || OneHasCompound(s))
      decreases s
    {
      match s
      case Plain(rows) =>
        p := new Select(rows, null, {});
      case FromSub(q) =>
        var sub := Build(q);
        FinishSelect(sub);
        p := new Select([], sub, {});
      case Values(first, more) =>
        p := BuildValues(first, more);
    }

    method BuildValues(first: Row, more: seq<Row>) returns (p: Select)
      ensures p.Valid() && fresh(p.Repr) && p.Chain == ValuesChain(first, more) && p.SubsLinked()
      ensures p.selFlags == {SfValues} + if more == [] then {} else {SfMultiValue}
    {
      hide Select.Valid, Select.SubsLinked, Select.AllLinked, Select.Nodes;
      p := FirstRow(first);
      var k := 0;
      while k < |more|
        invariant 0 <= k <= |more| && p.Valid() && fresh(p) && fresh(p.Repr) && p.SubsLinked()
        invariant p.Chain == ValuesChain(first, more[..k])
        invariant p.selFlags == {SfValues} + if k == 0 then {} else {SfMultiValue}
      {
        assert more[..k + 1][..k] == more[..k];
        p := NextRow(p, more[k]);
        k := k + 1;
      }
      assert more[..k] == more;
    }

    method Build(q: Query) returns (p: Select)
      modifies this
      ensures p.Valid() && fresh(p.Repr) && p.Chain == Lower(q) && p.SubsLinked()
      ensures SfMultiValue in p.selFlags <==> HeadIsMultiValue(q)
      ensures errors == old(errors) + ErrorsIn(q, mxSelect)
      ensures hasCompound == (old(hasCompound) || HasCompound(q))
      decreases q
    {
      match q
      case One(s) =>
        p := BuildOne(s);
      case Compound(left, op, right) =>
        var pLhs := Build(left);
        var pRhs := BuildOne(right);
        ChainLength(One(right));
        p := Multiselect(pLhs, op, pRhs);
    }

    /** A whole select statement: the chain that is handed over evaluates to the rows of the statement as
        written, and the limit error is reported once for each compound in it that is too long. */
    method SelectStatement(q: Query) returns (p: Select)
      modifies this
      ensures p.Valid() && fresh(p.Repr) && Rows(p.Chain) == Meaning(q)
      ensures p.AllLinked()
      ensures q.Compound? ==> OperatorLaw(q.op, Meaning(q.left), MeaningOfOne(q.right), Rows(p.Chain))
      ensures hasCompound == (old(hasCompound) || !(Operators(q) <= {TkAll}))
      ensures errors == old(errors) + TooLong(Subqueries(q) + [q], mxSelect)
    {
      hide OperatorLaw, Rows, Select.Valid, Select.SubsLinked, Select.AllLinked, Select.Nodes;
      p := Build(q);
      CompoundFlag(q);
      ErrorsCounted(q, mxSelect);
      TooLongAppend(Subqueries(q), [q], mxSelect);
      assert [q][..0] == [];
      if q.Compound? {
        CompoundRows(q);
      }
      LowerKeepsMeaning(q);
      LimitAppliesToCompounds(q, mxSelect);
      FinishSelect(p);
    }
  }
}
