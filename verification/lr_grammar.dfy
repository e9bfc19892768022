/** The grammar behind the tables, the parse trees that stand for semantic values, and the
    textbook definition of the language: rewriting of sentential forms. */
module Grammars {
  import opened LrTables

  datatype Token = Token(major: nat, text: string)

  /** The semantic value of a stack entry.  A reduce action combines the values of a rule's right-hand
      side, so keeping the combination itself covers every choice of actions. */
  datatype Tree = Leaf(tok: Token) | Node(rule: nat, kids: seq<Tree>)

  /** A right-hand side symbol is a set of symbol codes: a singleton, or the alternatives of a
      multi-terminal such as LT|GT|GE|LE.  `units` are the rules marked OPTIMIZED OUT. */
  datatype Grammar = Grammar(rhs: seq<seq<set<nat>>>, start: nat, nTerm: nat, units: set<nat>)

  ghost predicate Matches(T: Tables, G: Grammar) {
    && |G.rhs| == |T.ruleInfo|
    && G.nTerm <= YYNOCODE && G.start >= G.nTerm
    && (forall r :: 0 <= r < |G.rhs| ==> |G.rhs[r]| == T.ruleInfo[r].nrhs && T.ruleInfo[r].lhs >= G.nTerm)
    && (forall r :: r in G.units ==> r < |G.rhs| && |G.rhs[r]| == 1)
  }

  // ---- What may stand where the grammar names a symbol ----

  /** `path` lists optimised-out unit rules leading from symbol `x` up to symbol `y`. */
  ghost predicate UnitPath(T: Tables, G: Grammar, x: nat, path: seq<nat>, y: nat)
    requires Matches(T, G)
    decreases path
  {
    if path == [] then x == y
    else path[0] in G.units && G.rhs[path[0]][0] == {x} && UnitPath(T, G, T.ruleInfo[path[0]].lhs, path[1..], y)
  }

  /** A token can be read as itself, as its fallback, or as ANY; the end of input only as itself. */
  predicate TokenReads(T: Tables, x: nat, y: nat) {
    y == x || (T.Fallback(x) != 0 && y == T.Fallback(x)) || (x != 0 && y == YYWILDCARD)
  }

  ghost predicate Reads(T: Tables, G: Grammar, x: nat, y: nat)
    requires Matches(T, G)
  {
    if x < G.nTerm then TokenReads(T, x, y) else exists path :: UnitPath(T, G, x, path, y)
  }

  ghost predicate Stands(T: Tables, G: Grammar, x: nat, alternatives: set<nat>)
    requires Matches(T, G)
  {
    exists y :: y in alternatives && Reads(T, G, x, y)
  }

  // ---- Parse trees ----

  function Root(T: Tables, t: Tree): nat {
    match t
    case Leaf(tok) => tok.major
    case Node(r, _) => if r < |T.ruleInfo| then T.ruleInfo[r].lhs else YYNOCODE
  }

  ghost predicate WellParsed(T: Tables, G: Grammar, t: Tree)
    requires Matches(T, G)
  {
    match t
    case Leaf(tok) => tok.major < G.nTerm
    case Node(r, kids) =>
      && r < |G.rhs| && Fits(T, G, kids, G.rhs[r])
      && (forall i :: 0 <= i < |kids| ==> WellParsed(T, G, kids[i]))
  }

  ghost predicate Fits(T: Tables, G: Grammar, kids: seq<Tree>, rhs: seq<set<nat>>)
    requires Matches(T, G)
  {
    |kids| == |rhs| && forall i :: 0 <= i < |kids| ==> Stands(T, G, Root(T, kids[i]), rhs[i])
  }

  function Yield(t: Tree): seq<Token>
    decreases t, 0
  {
    match t
    case Leaf(tok) => [tok]
    case Node(_, kids) => Yields(kids)
  }

  function Yields(ts: seq<Tree>): seq<Token>
    decreases ts, 1
  {
    if ts == [] then [] else Yields(ts[..|ts| - 1]) + Yield(ts[|ts| - 1])
  }

  // ---- The language, by rewriting ----

  ghost predicate RewriteAt(T: Tables, G: Grammar, a: seq<nat>, b: seq<nat>, i: nat, r: nat, c: seq<nat>)
    requires Matches(T, G)
  {
    && i < |a| && r < |G.rhs| && a[i] == T.ruleInfo[r].lhs
    && Chosen(c, G.rhs[r])
    && b == a[..i] + c + a[i + 1..]
  }

  ghost predicate Rewrites(T: Tables, G: Grammar, a: seq<nat>, b: seq<nat>)
    requires Matches(T, G)
  {
    exists i: nat, r: nat, c :: RewriteAt(T, G, a, b, i, r, c)
  }

  ghost predicate Derivation(T: Tables, G: Grammar, d: seq<seq<nat>>)
    requires Matches(T, G)
  {
    d != [] && forall i :: 0 <= i < |d| - 1 ==> Rewrites(T, G, d[i], d[i + 1])
  }

  /** `b` is derived from `a` by rewriting. */
  ghost predicate Derives(T: Tables, G: Grammar, a: seq<nat>, b: seq<nat>)
    requires Matches(T, G)
  {
    exists d :: Derivation(T, G, d) && d[0] == a && d[|d| - 1] == b
  }

  /** `w` reads the tokens one by one as themselves, as their fallback or as ANY. */
  ghost predicate Reading(T: Tables, w: seq<nat>, toks: seq<Token>) {
    |w| == |toks| && forall i :: 0 <= i < |w| ==> TokenReads(T, toks[i].major, w[i])
  }

  ghost predicate InLanguage(T: Tables, G: Grammar, toks: seq<Token>)
    requires Matches(T, G)
  {
    exists w :: Reading(T, w, toks) && Derives(T, G, [G.start], w)
  }

  lemma RewritesInContext(T: Tables, G: Grammar, a: seq<nat>, b: seq<nat>, pre: seq<nat>, post: seq<nat>)
    requires Matches(T, G) && Rewrites(T, G, a, b)
    ensures Rewrites(T, G, pre + a + post, pre + b + post)
  {
    var i: nat, r: nat, c :| RewriteAt(T, G, a, b, i, r, c);
    var a', b' := pre + a + post, pre + b + post;
    assert a'[..|pre| + i] == pre + a[..i];
    assert a'[|pre| + i + 1..] == a[i + 1..] + post;
    assert RewriteAt(T, G, a', b', |pre| + i, r, c);
  }

  lemma DerivesInContext(T: Tables, G: Grammar, a: seq<nat>, b: seq<nat>, pre: seq<nat>, post: seq<nat>)
    requires Matches(T, G) && Derives(T, G, a, b)
    ensures Derives(T, G, pre + a + post, pre + b + post)
  {
    var d :| Derivation(T, G, d) && d[0] == a && d[|d| - 1] == b;
    var d' := seq(|d|, i requires 0 <= i < |d| => pre + d[i] + post);
    forall i | 0 <= i < |d'| - 1
      ensures Rewrites(T, G, d'[i], d'[i + 1])
    {
      RewritesInContext(T, G, d[i], d[i + 1], pre, post);
    }
    assert Derivation(T, G, d');
  }

  lemma DerivesTransitive(T: Tables, G: Grammar, a: seq<nat>, b: seq<nat>, c: seq<nat>)
    requires Matches(T, G) && Derives(T, G, a, b) && Derives(T, G, b, c)
    ensures Derives(T, G, a, c)
  {
    var d :| Derivation(T, G, d) && d[0] == a && d[|d| - 1] == b;
    var e :| Derivation(T, G, e) && e[0] == b && e[|e| - 1] == c;
    var f := d + e[1..];
    forall i | 0 <= i < |f| - 1
      ensures Rewrites(T, G, f[i], f[i + 1])
    {
      if i < |d| - 1 {
        assert f[i] == d[i] && f[i + 1] == d[i + 1];
      } else {
        var k := i - (|d| - 1);
        assert f[i] == e[k] && f[i + 1] == e[k + 1];
      }
    }
    assert Derivation(T, G, f);
  }

  lemma DerivesItself(T: Tables, G: Grammar, a: seq<nat>)
    requires Matches(T, G)
    ensures Derives(T, G, a, a)
  {
    assert Derivation(T, G, [a]);
  }

  lemma DerivesConcat(T: Tables, G: Grammar, a: seq<nat>, b: seq<nat>, c: seq<nat>, d: seq<nat>)
    requires Matches(T, G) && Derives(T, G, a, b) && Derives(T, G, c, d)
    ensures Derives(T, G, a + c, b + d)
  {
    DerivesInContext(T, G, a, b, [], c);
    DerivesInContext(T, G, c, d, b, []);
    assert [] + a + c == a + c && [] + b + c == b + c && b + c + [] == b + c && b + d + [] == b + d;
    DerivesTransitive(T, G, a + c, b + c, b + d);
  }

  lemma OneRule(T: Tables, G: Grammar, r: nat, c: seq<nat>)
    requires Matches(T, G) && r < |G.rhs|
    requires Chosen(c, G.rhs[r])
    ensures Derives(T, G, [T.ruleInfo[r].lhs], c)
  {
    var a := [T.ruleInfo[r].lhs];
    assert c == a[..0] + c + a[1..];
    assert RewriteAt(T, G, a, c, 0, r, c);
    assert Derivation(T, G, [a, c]);
  }

  lemma {:induction false} UnitPathDerives(T: Tables, G: Grammar, x: nat, path: seq<nat>, y: nat)
    requires Matches(T, G) && UnitPath(T, G, x, path, y)
    ensures Derives(T, G, [y], [x])
    decreases path
  {
    if path == [] {
      DerivesItself(T, G, [x]);
    } else {
      var up := T.ruleInfo[path[0]].lhs;
      UnitPathDerives(T, G, up, path[1..], y);
      OneRule(T, G, path[0], [x]);
      DerivesTransitive(T, G, [y], [up], [x]);
    }
  }

  lemma {:induction false} TreeDerives(T: Tables, G: Grammar, t: Tree, y: nat) returns (w: seq<nat>)
    requires Matches(T, G) && WellParsed(T, G, t) && Reads(T, G, Root(T, t), y)
    ensures Reading(T, w, Yield(t)) && Derives(T, G, [y], w)
    decreases t, 0
  {
    match t
    case Leaf(tok) =>
      w := [y];
      DerivesItself(T, G, w);
    case Node(r, kids) =>
      var x := T.ruleInfo[r].lhs;
      var path :| UnitPath(T, G, x, path, y);
      UnitPathDerives(T, G, x, path, y);
      var c;
      c, w := ForestDerives(T, G, kids, G.rhs[r]);
      OneRule(T, G, r, c);
      DerivesTransitive(T, G, [x], c, w);
      DerivesTransitive(T, G, [y], [x], w);
  }

  lemma {:induction false} ForestDerives(T: Tables, G: Grammar, kids: seq<Tree>, rhs: seq<set<nat>>)
    returns (c: seq<nat>, w: seq<nat>)
    requires Matches(T, G) && Fits(T, G, kids, rhs)
    requires forall i :: 0 <= i < |kids| ==> WellParsed(T, G, kids[i])
    ensures Chosen(c, rhs) && Reading(T, w, Yields(kids)) && Derives(T, G, c, w)
    decreases kids, 1
  {
    if kids == [] {
      c, w := [], [];
      DerivesItself(T, G, []);
    } else {
      var last := |kids| - 1;
      var front := kids[..last];
      assert Fits(T, G, front, rhs[..last]);
      var c0, w0 := ForestDerives(T, G, front, rhs[..last]);
      assert Stands(T, G, Root(T, kids[last]), rhs[last]);
      var y :| y in rhs[last] && Reads(T, G, Root(T, kids[last]), y);
      var w1 := TreeDerives(T, G, kids[last], y);
      c, w := c0 + [y], w0 + w1;
      DerivesConcat(T, G, c0, w0, [y], w1);
      ForestReading(T, c0, w0, y, w1, kids, rhs);
    }
  }

  /** One symbol from each set of alternatives. */
  predicate Chosen(c: seq<nat>, rhs: seq<set<nat>>) {
    |c| == |rhs| && forall i :: 0 <= i < |c| ==> c[i] in rhs[i]
  }

  lemma ForestReading(T: Tables, c: seq<nat>, v: seq<nat>, y: nat, w: seq<nat>, kids: seq<Tree>, rhs: seq<set<nat>>)
    requires kids != [] && |kids| == |rhs|
    requires Chosen(c, rhs[..|rhs| - 1]) && y in rhs[|rhs| - 1]
    requires Reading(T, v, Yields(kids[..|kids| - 1])) && Reading(T, w, Yield(kids[|kids| - 1]))
    ensures Chosen(c + [y], rhs) && Reading(T, v + w, Yields(kids))
  {
    ReadingConcat(T, v, Yields(kids[..|kids| - 1]), w, Yield(kids[|kids| - 1]));
  }

  lemma ReadingConcat(T: Tables, v: seq<nat>, a: seq<Token>, w: seq<nat>, b: seq<Token>)
    requires Reading(T, v, a) && Reading(T, w, b)
    ensures Reading(T, v + w, a + b)
  {
  }

  /** A well-parsed tree for the start symbol proves that its leaves are a sentence. */
  lemma ParsedIsInLanguage(T: Tables, G: Grammar, t: Tree)
    requires Matches(T, G) && WellParsed(T, G, t) && Root(T, t) == G.start
    ensures InLanguage(T, G, Yield(t))
  {
    assert UnitPath(T, G, G.start, [], G.start);
    var w := TreeDerives(T, G, t, G.start);
  }
}
