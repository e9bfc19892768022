/** The referential actions of a foreign key, folded into the bytes of one integer. */
module Refargs {

  datatype Refact = SetNull | SetDefault | Cascade | Restrict | NoAction {
    /** The OE_ code of the action. */
    function Code(): (c: bv32)
      ensures c < 0x100
    {
      match this
      case SetNull => OE_SET_NULL
      case SetDefault => OE_SET_DFLT
      case Cascade => OE_CASCADE
      case Restrict => OE_RESTRICT
      case NoAction => OE_NONE
    }
  }

  const OE_RESTRICT: bv32 := 6
  const OE_SET_NULL: bv32 := 7
  const OE_SET_DFLT: bv32 := 8
  const OE_CASCADE: bv32 := 9

  /** actionName: how a stored action is read. */
  function ActionOf(action: bv32): Refact {
    if action == 7 then SetNull
    else if action == 8 then SetDefault
    else if action == 9 then Cascade
    else if action == 6 then Restrict
    else NoAction
  }

  /** The reader understands what the parser writes. */
  lemma CodesAreRead(act: Refact)
    ensures ActionOf(act.Code()) == act
  {
  }

  datatype Refarg = Match | OnInsert(act: Refact) | OnDelete(act: Refact) | OnUpdate(act: Refact)

  const OE_NONE: bv32 := 0

  /** The value and mask of a clause. */
  datatype Masked = Masked(value: bv32, mask: bv32)

  method ReduceRefarg(arg: Refarg) returns (r: Masked)
    ensures r == MaskedOf(arg)
  {
    match arg
    case Match => r := Masked(0, 0x000000);
    case OnInsert(_) => r := Masked(0, 0x000000);
    case OnDelete(act) => r := Masked(act.Code(), 0x0000ff);
    case OnUpdate(act) => r := Masked(act.Code() << 8, 0x00ff00);
  }

  function MaskedOf(arg: Refarg): Masked {
    match arg
    case OnDelete(act) => Masked(act.Code(), 0x0000ff)
    case OnUpdate(act) => Masked(act.Code() << 8, 0x00ff00)
    case _ => Masked(0, 0)
  }

  // ---- What the clauses mean ----

  /** The action of the last ON DELETE clause, and NO ACTION without one. */
  function LastDelete(args: seq<Refarg>): Refact {
    if args == [] then NoAction
    else if args[|args| - 1].OnDelete? then args[|args| - 1].act
    else LastDelete(args[..|args| - 1])
  }

  /** The action of the last ON UPDATE clause, and NO ACTION without one. */
  function LastUpdate(args: seq<Refarg>): Refact {
    if args == [] then NoAction
    else if args[|args| - 1].OnUpdate? then args[|args| - 1].act
    else LastUpdate(args[..|args| - 1])
  }

  /** How a foreign key reads its two actions back. */
  function DeleteAction(flags: bv32): bv32 {
    flags & 0xff
  }

  function UpdateAction(flags: bv32): bv32 {
    (flags >> 8) & 0xff
  }

  function Packed(d: bv32, u: bv32): bv32 {
    d | (u << 8)
  }

  // ---- Facts about the two bytes ----

  function Merge(flags: bv32, m: Masked): bv32 {
    (flags & !m.mask) | m.value
  }

  lemma PutDelete(d: bv32, u: bv32, act: Refact)
    requires d < 0x100 && u < 0x100
    ensures Merge(Packed(d, u), MaskedOf(OnDelete(act))) == Packed(act.Code(), u)
  {
  }

  lemma PutUpdate(d: bv32, u: bv32, act: Refact)
    requires d < 0x100 && u < 0x100
    ensures Merge(Packed(d, u), MaskedOf(OnUpdate(act))) == Packed(d, act.Code())
  {
  }

  lemma PutNothing(flags: bv32, arg: Refarg)
    requires arg.Match? || arg.OnInsert?
    ensures Merge(flags, MaskedOf(arg)) == flags
  {
  }

  /** Two codes survive packing exactly when each fits in a byte. */
  lemma PackedReadsBack(d: bv32, u: bv32)
    ensures DeleteAction(Packed(d, u)) == d && UpdateAction(Packed(d, u)) == u <==> d < 0x100 && u < 0x100
  {
  }

  function Folded(args: seq<Refarg>): bv32 {
    Packed(LastDelete(args).Code(), LastUpdate(args).Code())
  }

  /** refargs ::= and refargs ::= refargs refarg, over a whole list of clauses: read back, the low byte is the
      action of the last ON DELETE clause and the next byte that of the last ON UPDATE clause, NO ACTION where
      there is none, and nothing else is stored. */
  method ReduceRefargs(args: seq<Refarg>) returns (refargs: bv32)
    ensures ActionOf(DeleteAction(refargs)) == LastDelete(args)
    ensures ActionOf(UpdateAction(refargs)) == LastUpdate(args)
    ensures refargs < 0x1_0000
  {
    hide LastDelete, LastUpdate, DeleteAction, UpdateAction, MaskedOf, Refact.Code, Folded, ActionOf, Merge;
    refargs := OE_NONE * 0x0101;
    NoClauses();
    var k := 0;
    while k < |args|
      invariant 0 <= k <= |args|
      invariant refargs == Folded(args[..k])
    {
      var refarg := ReduceRefarg(args[k]);
      NextClause(args, k);
      refargs := Merge(refargs, refarg);
      k := k + 1;
    }
    assert args[..k] == args;
    FoldedIsRead(args);
  }

  lemma NoClauses()
    ensures OE_NONE * 0x0101 == Folded([])
  {
  }

  lemma NextClause(args: seq<Refarg>, k: nat)
    requires k < |args|
    ensures Merge(Folded(args[..k]), MaskedOf(args[k])) == Folded(args[..k + 1])
  {
    hide Packed, Merge, MaskedOf, Refact.Code;
    var d, u := LastDelete(args[..k]).Code(), LastUpdate(args[..k]).Code();
    assert args[..k + 1][..k] == args[..k] && args[..k + 1][k] == args[k];
    match args[k]
    case OnDelete(act) => PutDelete(d, u, act);
    case OnUpdate(act) => PutUpdate(d, u, act);
    case Match => PutNothing(Packed(d, u), args[k]);
    case OnInsert(_) => PutNothing(Packed(d, u), args[k]);
  }

  lemma PackedIsSmall(d: bv32, u: bv32)
    requires d < 0x100 && u < 0x100
    ensures Packed(d, u) < 0x1_0000
  {
  }

  lemma FoldedIsRead(args: seq<Refarg>)
    ensures ActionOf(DeleteAction(Folded(args))) == LastDelete(args)
    ensures ActionOf(UpdateAction(Folded(args))) == LastUpdate(args)
    ensures Folded(args) < 0x1_0000
  {
    hide Packed, DeleteAction, UpdateAction, Refact.Code, ActionOf, LastDelete, LastUpdate;
    var d, u := LastDelete(args), LastUpdate(args);
    PackedReadsBack(d.Code(), u.Code());
    PackedIsSmall(d.Code(), u.Code());
    CodesAreRead(d);
    CodesAreRead(u);
  }

  // ---- MATCH and ON INSERT ----

  function Effective(args: seq<Refarg>): seq<Refarg> {
    if args == [] then []
    else Effective(args[..|args| - 1]) + if args[|args| - 1].Match? || args[|args| - 1].OnInsert? then [] else [args[|args| - 1]]
  }

  /** Leaving out the MATCH and ON INSERT clauses changes neither action. */
  lemma {:induction false} MatchAndInsertAreIgnored(args: seq<Refarg>)
    ensures LastDelete(Effective(args)) == LastDelete(args) && LastUpdate(Effective(args)) == LastUpdate(args)
    decreases |args|
  {
    if args != [] {
      var front, last := args[..|args| - 1], args[|args| - 1];
      MatchAndInsertAreIgnored(front);
      if last.OnDelete? || last.OnUpdate? {
        assert Effective(args)[..|Effective(args)| - 1] == Effective(front);
      } else {
        assert Effective(args) == Effective(front);
      }
    }
  }
}
