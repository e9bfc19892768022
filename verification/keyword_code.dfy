/** Keyword recognition: the hash-chain lookup of the generated code against a linear, case-insensitive
    search through the list of keywords. */
module KeywordCode {
  import opened KeywordTables
  import opened KeywordChars
  import opened KeywordFacts
  import opened KeywordList
  import opened KeywordMatch

  const TK_ID := 55
  const DEL: char := 127 as char

  // ---- The simple search ----

  predicate CaseEqual(z: seq<Byte>, word: string) {
    |z| == |word| && forall j :: 0 <= j < |z| ==> CharMap(z[j]) == CharMap(word[j])
  }

  function SearchFrom(z: seq<Byte>, i: nat): nat
    decreases N_LISTED - i
  {
    if i >= N_LISTED then TK_ID
    else if CaseEqual(z, Keywords(i).word) then Keywords(i).code
    else SearchFrom(z, i + 1)
  }

  /** The code of the first keyword of the list that equals `z` up to case, or TK_ID. */
  function LinearSearch(z: seq<Byte>): nat {
    SearchFrom(z, 0)
  }

  /** The lookup cannot tell the DEL character from an underscore. */
  function Underscored(z: seq<Byte>): seq<Byte> {
    seq(|z|, j requires 0 <= j < |z| => if z[j] == DEL then '_' else z[j])
  }

  function Folded(z: seq<Byte>): seq<Byte> {
    seq(|z|, j requires 0 <= j < |z| => Fold(z[j]))
  }

  // ---- How folding relates to case ----

  lemma FoldIsCase(c: Byte, k: char)
    requires Letter(k) || k == '_'
    ensures Fold(c) == k <==> CharMap(if c == DEL then '_' else c) == CharMap(k)
    ensures Fold(c) == k && Letter(k) ==> CharMap(c) == CharMap(k)
  {
  }

  lemma FoldedIsCaseEqual(z: seq<Byte>, word: string)
    requires Upper(word)
    ensures Folded(z) == word <==> CaseEqual(Underscored(z), word)
  {
    if |z| == |word| {
      forall j | 0 <= j < |z|
        ensures Folded(z)[j] == word[j] <==> CharMap(Underscored(z)[j]) == CharMap(word[j])
      {
        FoldIsCase(z[j], word[j]);
      }
    }
  }

  lemma {:induction false} FirstMatches(i: int, word: string)
    ensures var r := First(i, word); -1 <= r < N_KEYWORD && (r >= 0 ==> Keyword(r) == word)
    decreases i
  {
    hide Keyword, aNext;
    if 0 <= i < N_KEYWORD && aNext(i) <= i && Keyword(i) != word {
      FirstMatches(aNext(i) as int - 1, word);
    }
  }

  lemma SameHash(z: seq<Byte>, word: string)
    requires Upper(word) && Folded(z) == word
    ensures |z| == |word| && Hash(z[0], z[|z| - 1], |z|) == HashOf(word)
  {
    hide Mix;
    assert Folded(z)[0] == Fold(z[0]) && Folded(z)[|z| - 1] == Fold(z[|z| - 1]);
    FoldIsCase(z[0], word[0]);
    FoldIsCase(z[|z| - 1], word[|z| - 1]);
  }

  lemma Unique(i: nat, m: nat)
    requires i < N_KEYWORD && m < N_KEYWORD && Keyword(i) == Keyword(m)
    ensures i == m
  {
    hide First, Keyword, aHash, HashOf, Upper, aNext, aLen, aOffset;
    AllFound(i);
    AllFound(m);
  }

  /** Keywords are distinct, so the linear search may start anywhere before the match. */
  lemma {:induction false} SearchFinds(z: seq<Byte>, i: nat, m: nat)
    requires i <= m < N_KEYWORD && CaseEqual(Underscored(z), Keyword(m))
    ensures SearchFrom(Underscored(z), i) == aCode(m)
    decreases m - i
  {
    hide First, Keyword, Keywords, aCode, CaseEqual, Upper, aHash, aNext, HashOf, aLen, aOffset;
    TablesMatchList(i);
    TablesMatchList(m);
    AllFound(i);
    AllFound(m);
    FoldedIsCaseEqual(z, Keyword(i));
    FoldedIsCaseEqual(z, Keyword(m));
    if i < m {
      if CaseEqual(Underscored(z), Keyword(i)) {
        Unique(i, m);
      }
      SearchFinds(z, i + 1, m);
    }
  }

  lemma {:induction false} SearchMisses(z: seq<Byte>, i: nat)
    requires forall m :: i <= m < N_LISTED ==> !CaseEqual(z, Keywords(m).word)
    ensures SearchFrom(z, i) == TK_ID
    decreases N_LISTED - i
  {
    hide Keywords, CaseEqual;
    if i < N_LISTED {
      SearchMisses(z, i + 1);
    }
  }

  /** What the chain of the bucket of `z` yields is what the linear search yields. */
  lemma ChainIsSearch(z: seq<Byte>)
    requires 2 <= |z| < 0x8000_0000
    ensures var r := First(aHash(Hash(z[0], z[|z| - 1], |z|)) as int - 1, Folded(z));
            LinearSearch(Underscored(z)) == if r < 0 then TK_ID else aCode(r)
  {
    hide First, Keyword, Keywords, aCode, aHash, Mix;
    var start := aHash(Hash(z[0], z[|z| - 1], |z|)) as int - 1;
    var r := First(start, Folded(z));
    FirstMatches(start, Folded(z));
    if m :| 0 <= m < N_LISTED && CaseEqual(Underscored(z), Keywords(m).word) {
      TablesMatchList(m);
      AllFound(m);
      FoldedIsCaseEqual(z, Keyword(m));
      SameHash(z, Keyword(m));
      SearchFinds(z, 0, m);
    } else {
      SearchMisses(Underscored(z), 0);
      if r >= 0 {
        TablesMatchList(r);
        AllFound(r);
        FoldedIsCaseEqual(z, Keyword(r));
        assert false;
      }
    }
  }

  ghost predicate IsKeyword(z: seq<Byte>) {
    exists m :: 0 <= m < N_LISTED && CaseEqual(z, Keywords(m).word)
  }

  /** The search finds the code of the listed keyword that the input equals, and TK_ID if there is none. */
  lemma SearchIsExact(z: seq<Byte>)
    ensures forall m :: 0 <= m < N_LISTED && CaseEqual(Underscored(z), Keywords(m).word) ==>
              LinearSearch(Underscored(z)) == Keywords(m).code
    ensures !IsKeyword(Underscored(z)) ==> LinearSearch(Underscored(z)) == TK_ID
  {
    hide Keywords, CaseEqual, Keyword, aCode;
    forall m | 0 <= m < N_LISTED && CaseEqual(Underscored(z), Keywords(m).word)
      ensures LinearSearch(Underscored(z)) == Keywords(m).code
    {
      TablesMatchList(m);
      SearchFinds(z, 0, m);
    }
    if !IsKeyword(Underscored(z)) {
      SearchMisses(Underscored(z), 0);
    }
  }

  lemma TooShort(z: seq<Byte>)
    requires |z| < 2
    ensures LinearSearch(Underscored(z)) == TK_ID
  {
    hide First, Keyword, Keywords, aCode;
    forall m | 0 <= m < N_LISTED
      ensures !CaseEqual(Underscored(z), Keywords(m).word)
    {
      TablesMatchList(m);
      AllFound(m);
    }
    SearchMisses(Underscored(z), 0);
  }

  lemma BucketBound(b: nat)
    requires b < 127
    ensures aHash(b) <= N_KEYWORD
  {
  }

  /** keywordCode and sqlite3KeywordCode. */
  method SqlKeywordCode(z: seq<Byte>) returns (id: nat)
    requires |z| < 0x8000_0000
    ensures id == LinearSearch(Underscored(z))
    ensures forall m :: 0 <= m < N_LISTED && CaseEqual(Underscored(z), Keywords(m).word) ==> id == Keywords(m).code
    ensures !IsKeyword(Underscored(z)) ==> id == TK_ID
  {
    hide LinearSearch, Keywords, CaseEqual, IsKeyword, Mix, aHash, aNext, aLen, aOffset, aCode, zText, Fold;
    SearchIsExact(z);
    id := TK_ID;
    var n := |z|;
    if n >= 2 {
      var start := aHash(Hash(z[0], z[n - 1], n)) as int - 1;
      BucketBound(Hash(z[0], z[n - 1], n));
      ChainIsSearch(z);
      var i := start;
      while i >= 0
        invariant -1 <= i < N_KEYWORD
        invariant First(i, Folded(z)) == First(start, Folded(z))
        decreases i
      {
        AllFound(i);
        if aLen(i) == n {
          var j := 0;
          while j < n && Fold(z[j]) == zText(aOffset(i) + j)
            invariant j <= n && aOffset(i) + n <= N_TEXT
            invariant forall k :: 0 <= k < j ==> Fold(z[k]) == zText(aOffset(i) + k)
          {
            j := j + 1;
          }
          if j == n {
            assert Keyword(i) == Folded(z);
            id := aCode(i);
            return;
          }
          assert Keyword(i)[j] != Folded(z)[j];
        }
        assert Keyword(i) != Folded(z);
        i := aNext(i) as int - 1;
      }
    } else {
      TooShort(z);
    }
  }

  // ---- Exactly when the lookup is the plain case-insensitive search ----

  lemma CodesAreNotId(i: nat)
    requires i < N_KEYWORD
    ensures aCode(i) != TK_ID
  {
  }

  /** A keyword written with DEL in the place of an underscore is taken for that keyword; on every other
      input, in particular on every input free of DEL, the lookup agrees with the plain search. */
  lemma AgreesUnlessDel(z: seq<Byte>)
    ensures LinearSearch(Underscored(z)) == LinearSearch(z) <==> !(DEL in z && IsKeyword(Underscored(z)))
  {
    hide First, Keyword, Keywords, aCode, Found;
    if DEL !in z {
      assert Underscored(z) == z;
    } else {
      forall m | 0 <= m < N_LISTED
        ensures !CaseEqual(z, Keywords(m).word)
      {
        TablesMatchList(m);
        DelIsInNoKeyword(z, m);
      }
      SearchMisses(z, 0);
      if m :| 0 <= m < N_LISTED && CaseEqual(Underscored(z), Keywords(m).word) {
        TablesMatchList(m);
        SearchFinds(z, 0, m);
        CodesAreNotId(m);
      } else {
        SearchMisses(Underscored(z), 0);
      }
    }
  }

  lemma DelIsInNoKeyword(z: seq<Byte>, m: nat)
    requires DEL in z && m < N_KEYWORD
    ensures !CaseEqual(z, Keyword(m))
  {
    hide First, Keyword;
    AllFound(m);
    var j :| 0 <= j < |z| && z[j] == DEL;
    assert |z| == |Keyword(m)| ==> CharMap(z[j]) != CharMap(Keyword(m)[j]);
  }

  /** CURRENT_DATE with DEL for its underscore is taken for the keyword. */
  lemma DelTakenForUnderscore()
    ensures LinearSearch(Underscored("CURRENT" + [DEL] + "DATE")) != LinearSearch("CURRENT" + [DEL] + "DATE")
  {
    hide LinearSearch, First, Keyword, Found;
    var z: seq<Byte> := "CURRENT" + [DEL] + "DATE";
    K71();
    TablesMatchList(71);
    assert z[7] == DEL;
    assert CaseEqual(Underscored(z), "CURRENT_DATE");
    AgreesUnlessDel(z);
  }

  // ---- Tokens of LIKE, GLOB, REGEXP and MATCH ----

  const TK_MATCH := 30
  const TK_LIKE_KW := 31

  lemma LikeKeywordsAreShort(i: nat)
    requires i < N_KEYWORD && (aCode(i) == TK_LIKE_KW || aCode(i) == TK_MATCH)
    ensures aLen(i) <= 6
  {
    if i < 60 {
      FirstLikeKeywords(i);
    } else {
      LastLikeKeywords(i);
    }
  }

  lemma FirstLikeKeywords(i: nat)
    requires i < 60 && (aCode(i) == TK_LIKE_KW || aCode(i) == TK_MATCH)
    ensures i == 12
  {
  }

  lemma LastLikeKeywords(i: nat)
    requires 60 <= i < N_KEYWORD && (aCode(i) == TK_LIKE_KW || aCode(i) == TK_MATCH)
    ensures i == 64 || i == 76 || i == 109
  {
  }

  lemma {:induction false} SearchHits(z: seq<Byte>, i: nat) returns (m: nat)
    requires SearchFrom(z, i) != TK_ID
    ensures m < N_LISTED && CaseEqual(z, Keywords(m).word) && SearchFrom(z, i) == Keywords(m).code
    decreases N_LISTED - i
  {
    hide Keywords, CaseEqual;
    if CaseEqual(z, Keywords(i).word) {
      m := i;
    } else {
      m := SearchHits(z, i + 1);
    }
  }

  /** A token that the lookup takes for LIKE, GLOB, REGEXP or MATCH has at most six bytes. */
  lemma LikeTokensAreShort(z: seq<Byte>)
    requires LinearSearch(Underscored(z)) == TK_LIKE_KW || LinearSearch(Underscored(z)) == TK_MATCH
    ensures |z| <= 6
  {
    hide aCode, aLen, Keywords;
    var m := SearchHits(Underscored(z), 0);
    TablesMatchList(m);
    LikeKeywordsAreShort(m);
  }
}
