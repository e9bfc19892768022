/** The facts about the keyword tables on which the lookup relies, established entry by entry. */
module KeywordFacts {
  import opened KeywordTables
  import opened KeywordChars

  /** Keyword `i` as stored in the pool. */
  function Keyword(i: nat): string {
    seq(aLen(i), j requires 0 <= j < aLen(i) => zText(aOffset(i) + j))
  }

  predicate Upper(word: string) {
    && 2 <= |word| <= 17 && Letter(word[0]) && Letter(word[|word| - 1])
    && forall j :: 0 <= j < |word| ==> Letter(word[j]) || word[j] == '_'
  }

  function HashOf(word: string): nat
    requires Upper(word)
  {
    Hash(word[0], word[|word| - 1], |word|)
  }

  /** Keyword `i` is `word`, lies within the pool, hashes to `bucket`, and the next keyword on its chain is
      `next - 1`. */
  predicate Entry(i: nat, word: string, bucket: nat, next: nat) {
    && i < N_KEYWORD && Keyword(i) == word && aOffset(i) + aLen(i) <= N_TEXT
    && Upper(word) && HashOf(word) == bucket && aNext(i) == next <= i
  }

  /** The first index on the chain from `i` whose keyword is `word`, or -1. */
  function First(i: int, word: string): int
    decreases i
  {
    if !(0 <= i < N_KEYWORD && aNext(i) <= i) then -1
    else if Keyword(i) == word then i
    else First(aNext(i) as int - 1, word)
  }

  /** Keyword `i` is what the chain of its own bucket yields for its text. */
  predicate Found(i: nat) {
    && i < N_KEYWORD && Upper(Keyword(i)) && aOffset(i) + aLen(i) <= N_TEXT && aNext(i) <= i
    && First(aHash(HashOf(Keyword(i))) as int - 1, Keyword(i)) == i
  }

  // ---- The keywords ----

  predicate Spelt(r: nat, m: nat, word: string) {
    var a, b := TextRow(r), TextRow(r + 1);
    && m + |word| <= |a| + |b|
    && (forall j :: 0 <= j < |word| && m + j < |a| ==> a[m + j] == word[j])
    && (forall j :: 0 <= j < |word| && m + j >= |a| ==> b[m + j - |a|] == word[j])
  }

  lemma RowLengths(r: nat)
    ensures r < 30 ==> |TextRow(r)| == 18
    ensures r >= 30 ==> |TextRow(r)| == 13
  {
  }

  lemma RowsAreUpper(r: nat, m: nat)
    requires m < |TextRow(r)|
    ensures Letter(TextRow(r)[m]) || TextRow(r)[m] == '_'
  {
    if r < 4 {
      RowsFrom0(r, m);
    } else if r < 8 {
      RowsFrom4(r, m);
    } else if r < 12 {
      RowsFrom8(r, m);
    } else if r < 16 {
      RowsFrom12(r, m);
    } else if r < 20 {
      RowsFrom16(r, m);
    } else if r < 24 {
      RowsFrom20(r, m);
    } else if r < 28 {
      RowsFrom24(r, m);
    } else {
      RowsFrom28(r, m);
    }
  }

  lemma RowsFrom0(r: nat, m: nat)
    requires r < 4 && m < |TextRow(r)|
    ensures Letter(TextRow(r)[m]) || TextRow(r)[m] == '_'
  {
  }

  lemma RowsFrom4(r: nat, m: nat)
    requires 4 <= r < 8 && m < |TextRow(r)|
    ensures Letter(TextRow(r)[m]) || TextRow(r)[m] == '_'
  {
  }

  lemma RowsFrom8(r: nat, m: nat)
    requires 8 <= r < 12 && m < |TextRow(r)|
    ensures Letter(TextRow(r)[m]) || TextRow(r)[m] == '_'
  {
  }

  lemma RowsFrom12(r: nat, m: nat)
    requires 12 <= r < 16 && m < |TextRow(r)|
    ensures Letter(TextRow(r)[m]) || TextRow(r)[m] == '_'
  {
  }

  lemma RowsFrom16(r: nat, m: nat)
    requires 16 <= r < 20 && m < |TextRow(r)|
    ensures Letter(TextRow(r)[m]) || TextRow(r)[m] == '_'
  {
  }

  lemma RowsFrom20(r: nat, m: nat)
    requires 20 <= r < 24 && m < |TextRow(r)|
    ensures Letter(TextRow(r)[m]) || TextRow(r)[m] == '_'
  {
  }

  lemma RowsFrom24(r: nat, m: nat)
    requires 24 <= r < 28 && m < |TextRow(r)|
    ensures Letter(TextRow(r)[m]) || TextRow(r)[m] == '_'
  {
  }

  lemma RowsFrom28(r: nat, m: nat)
    requires r >= 28 && m < |TextRow(r)|
    ensures Letter(TextRow(r)[m]) || TextRow(r)[m] == '_'
  {
  }

  lemma WindowText(r: nat, m: nat, word: string, j: nat)
    requires r < 31 && m < 18 && Spelt(r, m, word) && j < |word| <= 17 && 18 * r + m + j < N_TEXT
    ensures zText(18 * r + m + j) == word[j] && (Letter(word[j]) || word[j] == '_')
  {
    hide TextRow, Letter;
    RowLengths(r);
    RowLengths(r + 1);
    var i := 18 * r + m + j;
    if m + j < 18 {
      assert i / 18 == r && i % 18 == m + j;
      RowsAreUpper(r, m + j);
    } else {
      assert i / 18 == r + 1 && i % 18 == m + j - 18;
      RowsAreUpper(r + 1, m + j - 18);
    }
  }

  /** Keyword `13 * ir + ic` starts in column `m` of text row `r`; `a` and `b` are the operands of its hash. */
  lemma Place(ir: nat, ic: nat, r: nat, m: nat, word: string, n: bv32, a: bv32, b: bv32, bucket: nat, next: nat)
    requires 13 * ir + ic < N_KEYWORD && ic < 13 && ic < |ALenRow(ir)| && ic < |AOffsetRow(ir)| && ic < |ANextRow(ir)|
    requires ANextRow(ir)[ic] == next <= 13 * ir + ic
    requires ALenRow(ir)[ic] == |word| == n as nat
    requires AOffsetRow(ir)[ic] == 18 * r + m && 18 * r + m + |word| <= N_TEXT && r < 31 && m < 18 && Spelt(r, m, word)
    requires 2 <= |word| <= 17 && Letter(word[0]) && CharMap(word[0]) as int * 4 == a as nat
    requires Letter(word[|word| - 1]) && CharMap(word[|word| - 1]) as int * 3 == b as nat
    requires a < 1024 && b < 1024 && n < 1024 && Xor(a, b, n) % 127 == bucket
    ensures Entry(13 * ir + ic, word, bucket, next)
  {
    hide Mix, zText, TextRow, ALenRow, AOffsetRow, ANextRow, CharMap, Xor;
    var i := 13 * ir + ic;
    assert i / 13 == ir && i % 13 == ic;
    MixIs(a, b, n, bucket);
    forall j | 0 <= j < |word|
      ensures zText(aOffset(i) + j) == word[j]
      ensures Letter(word[j]) || word[j] == '_'
    {
      WindowText(r, m, word, j);
    }
  }

  lemma BucketHead(hr: nat, hc: nat)
    requires hc < 13 && hc < |AHashRow(hr)|
    ensures aHash(13 * hr + hc) == AHashRow(hr)[hc]
  {
    hide AHashRow;
    assert (13 * hr + hc) / 13 == hr && (13 * hr + hc) % 13 == hc;
  }

  /** Keyword `i` heads the chain of bucket `13 * hr + hc`. */
  lemma Head(hr: nat, hc: nat, i: nat, word: string, next: nat)
    requires hc < 13 && hc < |AHashRow(hr)| && AHashRow(hr)[hc] == i + 1
    requires Entry(i, word, 13 * hr + hc, next)
    ensures Found(i)
  {
    hide AHashRow, Keyword, aHash, aNext, HashOf, Upper, aLen, aOffset;
    BucketHead(hr, hc);
  }

  /** Keyword `i` comes second, after `v`; third; fourth. */
  lemma Second(hr: nat, hc: nat, h: nat, v: string, i: nat, word: string, next: nat)
    requires hc < 13 && hc < |AHashRow(hr)| && AHashRow(hr)[hc] == h + 1 && v != word
    requires Entry(h, v, 13 * hr + hc, i + 1) && Entry(i, word, 13 * hr + hc, next)
    ensures Found(i)
  {
    hide AHashRow, Keyword, aHash, aNext, HashOf, Upper, aLen, aOffset;
    BucketHead(hr, hc);
    assert First(h, word) == First(i, word);
  }

  lemma Third(hr: nat, hc: nat, h: nat, v: string, k: nat, w: string, i: nat, word: string, next: nat)
    requires hc < 13 && hc < |AHashRow(hr)| && AHashRow(hr)[hc] == h + 1 && v != word && w != word
    requires Entry(h, v, 13 * hr + hc, k + 1) && Entry(k, w, 13 * hr + hc, i + 1) && Entry(i, word, 13 * hr + hc, next)
    ensures Found(i)
  {
    hide AHashRow, Keyword, aHash, aNext, HashOf, Upper, aLen, aOffset;
    BucketHead(hr, hc);
    assert First(h, word) == First(k, word) == First(i, word);
  }

  lemma Fourth(hr: nat, hc: nat, h: nat, v: string, k: nat, w: string, l: nat, x: string, i: nat, word: string, next: nat)
    requires hc < 13 && hc < |AHashRow(hr)| && AHashRow(hr)[hc] == h + 1 && v != word && w != word && x != word
    requires Entry(h, v, 13 * hr + hc, k + 1) && Entry(k, w, 13 * hr + hc, l + 1)
    requires Entry(l, x, 13 * hr + hc, i + 1) && Entry(i, word, 13 * hr + hc, next)
    ensures Found(i)
  {
    hide AHashRow, Keyword, aHash, aNext, HashOf, Upper, aLen, aOffset;
    BucketHead(hr, hc);
    assert First(h, word) == First(k, word) == First(l, word) == First(i, word);
  }

  // ---- The entries, one by one ----

  lemma K0() ensures Entry(0, "REINDEX", 40, 0) && Found(0)
  { hide Mix, Entry, Found; Place(0, 0, 0, 0, "REINDEX", 7, 456, 360, 40, 0); K68(); Second(3, 1, 68, "CASE", 0, "REINDEX", 0); }
  lemma K1() ensures Entry(1, "INDEXED", 16, 0) && Found(1)
  { hide Mix, Entry, Found; Place(0, 1, 0, 2, "INDEXED", 7, 420, 300, 16, 0); K14(); Second(1, 3, 14, "INSTEAD", 1, "INDEXED", 0); }
  lemma K2() ensures Entry(2, "INDEX", 74, 0) && Found(2)
  { hide Mix, Entry, Found; Place(0, 2, 0, 2, "INDEX", 5, 420, 360, 74, 0); K54(); Second(5, 9, 54, "GROUP", 2, "INDEX", 0); }
  lemma K3() ensures Entry(3, "DESC", 62, 0) && Found(3)
  { hide Mix, Entry, Found; Place(0, 3, 0, 8, "DESC", 4, 400, 297, 62, 0); K4(); Second(4, 10, 4, "ESCAPE", 3, "DESC", 0); }
  lemma K4() ensures Entry(4, "ESCAPE", 62, 4) && Found(4)
  { hide Mix, Entry, Found; Place(0, 4, 0, 9, "ESCAPE", 6, 404, 303, 62, 4); Head(4, 10, 4, "ESCAPE", 4); }
  lemma K5() ensures Entry(5, "EACH", 41, 0) && Found(5)
  { hide Mix, Entry, Found; Place(0, 5, 0, 14, "EACH", 4, 404, 312, 41, 0); Head(3, 2, 5, "EACH", 0); }
  lemma K6() ensures Entry(6, "CHECK", 73, 0) && Found(6)
  { hide Mix, Entry, Found; Place(0, 6, 0, 16, "CHECK", 5, 396, 321, 73, 0); K27(); Second(5, 8, 27, "ACTION", 6, "CHECK", 0); }
  lemma K7() ensures Entry(7, "KEY", 69, 0) && Found(7)
  { hide Mix, Entry, Found; Place(0, 7, 1, 2, "KEY", 3, 428, 363, 69, 0); K105(); K103(); Third(5, 4, 105, "DROP", 103, "DISTINCT", 7, "KEY", 0); }
  lemma K8() ensures Entry(8, "BEFORE", 34, 0) && Found(8)
  { hide Mix, Entry, Found; Place(0, 8, 1, 5, "BEFORE", 6, 392, 303, 34, 0); Head(2, 8, 8, "BEFORE", 0); }
  lemma K9() ensures Entry(9, "FOREIGN", 86, 0) && Found(9)
  { hide Mix, Entry, Found; Place(0, 9, 1, 7, "FOREIGN", 7, 408, 330, 86, 0); K91(); Second(6, 8, 91, "AUTOINCREMENT", 9, "FOREIGN", 0); }
  lemma K10() ensures Entry(10, "FOR", 78, 0) && Found(10)
  { hide Mix, Entry, Found; Place(0, 10, 1, 7, "FOR", 3, 408, 342, 78, 0); K99(); Second(6, 0, 99, "CURRENT_TIMESTAMP", 10, "FOR", 0); }
  lemma K11() ensures Entry(11, "IGNORE", 14, 0) && Found(11)
  { hide Mix, Entry, Found; Place(0, 11, 1, 11, "IGNORE", 6, 420, 303, 14, 0); Head(1, 1, 11, "IGNORE", 0); }
  lemma K12() ensures Entry(12, "REGEXP", 31, 0) && Found(12)
  { hide Mix, Entry, Found; Place(0, 12, 1, 15, "REGEXP", 6, 456, 336, 31, 0); K21(); Second(2, 5, 21, "THEN", 12, "REGEXP", 0); }
  lemma K13() ensures Entry(13, "EXPLAIN", 90, 0) && Found(13)
  { hide Mix, Entry, Found; Place(1, 0, 2, 0, "EXPLAIN", 7, 404, 330, 90, 0); Head(6, 12, 13, "EXPLAIN", 0); }
  lemma K14() ensures Entry(14, "INSTEAD", 16, 2) && Found(14)
  { hide Mix, Entry, Found; Place(1, 1, 2, 5, "INSTEAD", 7, 420, 300, 16, 2); Head(1, 3, 14, "INSTEAD", 2); }
  lemma K15() ensures Entry(15, "ADD", 44, 0) && Found(15)
  { hide Mix, Entry, Found; Place(1, 2, 2, 10, "ADD", 3, 388, 300, 44, 0); K89(); Second(3, 5, 89, "AND", 15, "ADD", 0); }
  lemma K16() ensures Entry(16, "DATABASE", 56, 0) && Found(16)
  { hide Mix, Entry, Found; Place(1, 3, 2, 12, "DATABASE", 8, 400, 303, 56, 0); Head(4, 4, 16, "DATABASE", 0); }
  lemma K17() ensures Entry(17, "AS", 96, 0) && Found(17)
  { hide Mix, Entry, Found; Place(1, 4, 2, 17, "AS", 2, 388, 345, 96, 0); Head(7, 5, 17, "AS", 0); }
  lemma K18() ensures Entry(18, "SELECT", 23, 0) && Found(18)
  { hide Mix, Entry, Found; Place(1, 5, 3, 0, "SELECT", 6, 460, 348, 23, 0); Head(1, 10, 18, "SELECT", 0); }
  lemma K19() ensures Entry(19, "TABLE", 123, 0) && Found(19)
  { hide Mix, Entry, Found; Place(1, 6, 3, 5, "TABLE", 5, 464, 303, 123, 0); Head(9, 6, 19, "TABLE", 0); }
  lemma K20() ensures Entry(20, "LEFT", 105, 0) && Found(20)
  { hide Mix, Entry, Found; Place(1, 7, 3, 8, "LEFT", 4, 432, 348, 105, 0); K45(); Second(8, 1, 45, "OR", 20, "LEFT", 0); }
  lemma K21() ensures Entry(21, "THEN", 31, 13) && Found(21)
  { hide Mix, Entry, Found; Place(1, 8, 3, 11, "THEN", 4, 464, 330, 31, 13); Head(2, 5, 21, "THEN", 13); }
  lemma K22() ensures Entry(22, "END", 60, 0) && Found(22)
  { hide Mix, Entry, Found; Place(1, 9, 3, 13, "END", 3, 404, 300, 60, 0); Head(4, 8, 22, "END", 0); }
  lemma S23() ensures Spelt(3, 15, "DEFERRABLE")
  { assert TextRow(3) == "SELECTABLEFTHENDEF" && TextRow(4) == "ERRABLELSEXCEPTRAN"; }
  lemma K23() ensures Entry(23, "DEFERRABLE", 54, 0) && Found(23)
  { hide Mix, Entry, Found, Spelt; S23(); Place(1, 10, 3, 15, "DEFERRABLE", 10, 400, 303, 54, 0); Head(4, 2, 23, "DEFERRABLE", 0); }
  lemma K24() ensures Entry(24, "ELSE", 64, 0) && Found(24)
  { hide Mix, Entry, Found; Place(1, 11, 4, 6, "ELSE", 4, 404, 303, 64, 0); Head(4, 12, 24, "ELSE", 0); }
  lemma K25() ensures Entry(25, "EXCEPT", 79, 0) && Found(25)
  { hide Mix, Entry, Found; Place(1, 12, 4, 9, "EXCEPT", 6, 404, 348, 79, 0); Head(6, 1, 25, "EXCEPT", 0); }
  lemma S26() ensures Spelt(4, 14, "TRANSACTION")
  { assert TextRow(4) == "ERRABLELSEXCEPTRAN" && TextRow(5) == "SACTIONATURALTERAI"; }
  lemma K26() ensures Entry(26, "TRANSACTION", 18, 0) && Found(26)
  { hide Mix, Entry, Found, Spelt; S26(); Place(2, 0, 4, 14, "TRANSACTION", 11, 464, 330, 18, 0); K115(); Second(1, 5, 115, "RIGHT", 26, "TRANSACTION", 0); }
  lemma K27() ensures Entry(27, "ACTION", 73, 7) && Found(27)
  { hide Mix, Entry, Found; Place(2, 1, 5, 1, "ACTION", 6, 388, 330, 73, 7); Head(5, 8, 27, "ACTION", 7); }
  lemma K28() ensures Entry(28, "ON", 117, 0) && Found(28)
  { hide Mix, Entry, Found; Place(2, 2, 5, 5, "ON", 2, 444, 330, 117, 0); Head(9, 0, 28, "ON", 0); }
  lemma K29() ensures Entry(29, "NATURAL", 124, 0) && Found(29)
  { hide Mix, Entry, Found; Place(2, 3, 5, 6, "NATURAL", 7, 440, 324, 124, 0); K60(); Second(9, 7, 60, "NOTNULL", 29, "NATURAL", 0); }
  lemma K30() ensures Entry(30, "ALTER", 88, 0) && Found(30)
  { hide Mix, Entry, Found; Place(2, 4, 5, 11, "ALTER", 5, 388, 342, 88, 0); K87(); Second(6, 10, 87, "AFTER", 30, "ALTER", 0); }
  lemma K31() ensures Entry(31, "RAISE", 99, 0) && Found(31)
  { hide Mix, Entry, Found; Place(2, 5, 5, 15, "RAISE", 5, 456, 303, 99, 0); Head(7, 8, 31, "RAISE", 0); }
  lemma K32() ensures Entry(32, "EXCLUSIVE", 51, 0) && Found(32)
  { hide Mix, Entry, Found; Place(2, 6, 6, 1, "EXCLUSIVE", 9, 404, 303, 51, 0); K43(); Second(3, 12, 43, "TEMPORARY", 32, "EXCLUSIVE", 0); }
  lemma K33() ensures Entry(33, "EXISTS", 76, 0) && Found(33)
  { hide Mix, Entry, Found; Place(2, 7, 6, 9, "EXISTS", 6, 404, 345, 76, 0); K90(); Second(5, 11, 90, "DEFAULT", 33, "EXISTS", 0); }
  lemma K34() ensures Entry(34, "SAVEPOINT", 26, 0) && Found(34)
  { hide Mix, Entry, Found; Place(2, 8, 6, 14, "SAVEPOINT", 9, 460, 348, 26, 0); K120(); Second(2, 0, 120, "VACUUM", 34, "SAVEPOINT", 0); }
  lemma K35() ensures Entry(35, "INTERSECT", 114, 0) && Found(35)
  { hide Mix, Entry, Found; Place(2, 9, 7, 2, "INTERSECT", 9, 420, 348, 114, 0); Head(8, 10, 35, "INTERSECT", 0); }
  lemma K36() ensures Entry(36, "TRIGGER", 2, 0) && Found(36)
  { hide Mix, Entry, Found; Place(2, 10, 7, 10, "TRIGGER", 7, 464, 342, 2, 0); K116(); Second(0, 2, 116, "ROLLBACK", 36, "TRIGGER", 0); }
  lemma S37() ensures Spelt(7, 16, "REFERENCES")
  { assert TextRow(7) == "POINTERSECTRIGGERE" && TextRow(8) == "FERENCESCONSTRAINT"; }
  lemma K37() ensures Entry(37, "REFERENCES", 28, 0) && Found(37)
  { hide Mix, Entry, Found, Spelt; S37(); Place(2, 11, 7, 16, "REFERENCES", 10, 456, 345, 28, 0); K118(); K82(); K64(); Fourth(2, 2, 118, "UNION", 82, "VIRTUAL", 64, "LIKE", 37, "REFERENCES", 0); }
  lemma S38() ensures Spelt(8, 8, "CONSTRAINT")
  { assert TextRow(8) == "FERENCESCONSTRAINT" && TextRow(9) == "OFFSETEMPORARYUNIQ"; }
  lemma K38() ensures Entry(38, "CONSTRAINT", 91, 0) && Found(38)
  { hide Mix, Entry, Found, Spelt; S38(); Place(2, 12, 8, 8, "CONSTRAINT", 10, 396, 348, 91, 0); Head(7, 0, 38, "CONSTRAINT", 0); }
  lemma K39() ensures Entry(39, "INTO", 110, 0) && Found(39)
  { hide Mix, Entry, Found; Place(3, 0, 8, 15, "INTO", 4, 420, 333, 110, 0); Head(8, 6, 39, "INTO", 0); }
  lemma K40() ensures Entry(40, "OFFSET", 103, 0) && Found(40)
  { hide Mix, Entry, Found; Place(3, 1, 9, 0, "OFFSET", 6, 444, 348, 103, 0); K112(); K74(); Third(7, 12, 112, "ISNULL", 74, "JOIN", 40, "OFFSET", 0); }
  lemma K41() ensures Entry(41, "OF", 13, 0) && Found(41)
  { hide Mix, Entry, Found; Place(3, 2, 9, 0, "OF", 2, 444, 306, 13, 0); Head(1, 0, 41, "OF", 0); }
  lemma K42() ensures Entry(42, "SET", 20, 0) && Found(42)
  { hide Mix, Entry, Found; Place(3, 3, 9, 3, "SET", 3, 460, 348, 20, 0); K53(); Second(1, 7, 53, "HAVING", 42, "SET", 0); }
  lemma K43() ensures Entry(43, "TEMPORARY", 51, 33) && Found(43)
  { hide Mix, Entry, Found; Place(3, 4, 9, 5, "TEMPORARY", 9, 464, 363, 51, 33); Head(3, 12, 43, "TEMPORARY", 33); }
  lemma K44() ensures Entry(44, "TEMP", 5, 0) && Found(44)
  { hide Mix, Entry, Found; Place(3, 5, 9, 5, "TEMP", 4, 464, 336, 5, 0); Head(0, 5, 44, "TEMP", 0); }
  lemma K45() ensures Entry(45, "OR", 105, 21) && Found(45)
  { hide Mix, Entry, Found; Place(3, 6, 9, 9, "OR", 2, 444, 342, 105, 21); Head(8, 1, 45, "OR", 21); }
  lemma K46() ensures Entry(46, "UNIQUE", 126, 0) && Found(46)
  { hide Mix, Entry, Found; Place(3, 7, 9, 14, "UNIQUE", 6, 468, 303, 126, 0); K55(); Second(9, 9, 55, "UPDATE", 46, "UNIQUE", 0); }
  lemma K47() ensures Entry(47, "QUERY", 43, 0) && Found(47)
  { hide Mix, Entry, Found; Place(3, 8, 9, 17, "QUERY", 5, 452, 363, 43, 0); Head(3, 4, 47, "QUERY", 0); }
  lemma K48() ensures Entry(48, "WITHOUT", 8, 0) && Found(48)
  { hide Mix, Entry, Found; Place(3, 9, 10, 4, "WITHOUT", 7, 476, 348, 8, 0); K81(); Second(0, 8, 81, "VALUES", 48, "WITHOUT", 0); }
  lemma K49() ensures Entry(49, "WITH", 97, 0) && Found(49)
  { hide Mix, Entry, Found; Place(3, 10, 10, 4, "WITH", 4, 476, 312, 97, 0); K88(); K51(); Third(7, 6, 88, "REPLACE", 51, "RELEASE", 49, "WITH", 0); }
  lemma K50() ensures Entry(50, "OUTER", 112, 0) && Found(50)
  { hide Mix, Entry, Found; Place(3, 11, 10, 8, "OUTER", 5, 444, 342, 112, 0); K113(); Second(8, 8, 113, "ORDER", 50, "OUTER", 0); }
  lemma K51() ensures Entry(51, "RELEASE", 97, 50) && Found(51)
  { hide Mix, Entry, Found; Place(3, 12, 10, 12, "RELEASE", 7, 456, 303, 97, 50); K88(); Second(7, 6, 88, "REPLACE", 51, "RELEASE", 50); }
  lemma K52() ensures Entry(52, "ATTACH", 59, 0) && Found(52)
  { hide Mix, Entry, Found; Place(4, 0, 11, 1, "ATTACH", 6, 388, 312, 59, 0); Head(4, 7, 52, "ATTACH", 0); }
  lemma K53() ensures Entry(53, "HAVING", 20, 43) && Found(53)
  { hide Mix, Entry, Found; Place(4, 1, 11, 6, "HAVING", 6, 416, 309, 20, 43); Head(1, 7, 53, "HAVING", 43); }
  lemma K54() ensures Entry(54, "GROUP", 74, 3) && Found(54)
  { hide Mix, Entry, Found; Place(4, 2, 11, 11, "GROUP", 5, 412, 336, 74, 3); Head(5, 9, 54, "GROUP", 3); }
  lemma K55() ensures Entry(55, "UPDATE", 126, 47) && Found(55)
  { hide Mix, Entry, Found; Place(4, 3, 11, 14, "UPDATE", 6, 468, 303, 126, 47); Head(9, 9, 55, "UPDATE", 47); }
  lemma K56() ensures Entry(56, "BEGIN", 72, 0) && Found(56)
  { hide Mix, Entry, Found; Place(4, 4, 12, 2, "BEGIN", 5, 392, 330, 72, 0); Head(5, 7, 56, "BEGIN", 0); }
  lemma K57() ensures Entry(57, "INNER", 120, 0) && Found(57)
  { hide Mix, Entry, Found; Place(4, 5, 12, 5, "INNER", 5, 420, 342, 120, 0); K62(); Second(9, 3, 62, "NO", 57, "INNER", 0); }
  lemma K58() ensures Entry(58, "RECURSIVE", 111, 0) && Found(58)
  { hide Mix, Entry, Found; Place(4, 6, 12, 9, "RECURSIVE", 9, 456, 303, 111, 0); Head(8, 7, 58, "RECURSIVE", 0); }
  lemma K59() ensures Entry(59, "BETWEEN", 70, 0) && Found(59)
  { hide Mix, Entry, Found; Place(4, 7, 13, 0, "BETWEEN", 7, 392, 330, 70, 0); Head(5, 5, 59, "BETWEEN", 0); }
  lemma K60() ensures Entry(60, "NOTNULL", 124, 30) && Found(60)
  { hide Mix, Entry, Found; Place(4, 8, 13, 6, "NOTNULL", 7, 440, 324, 124, 30); Head(9, 7, 60, "NOTNULL", 30); }
  lemma K61() ensures Entry(61, "NOT", 104, 0) && Found(61)
  { hide Mix, Entry, Found; Place(4, 9, 13, 6, "NOT", 3, 440, 348, 104, 0); Head(8, 0, 61, "NOT", 0); }
  lemma K62() ensures Entry(62, "NO", 120, 58) && Found(62)
  { hide Mix, Entry, Found; Place(4, 10, 13, 6, "NO", 2, 440, 333, 120, 58); Head(9, 3, 62, "NO", 58); }
  lemma K63() ensures Entry(63, "NULL", 121, 0) && Found(63)
  { hide Mix, Entry, Found; Place(4, 11, 13, 9, "NULL", 4, 440, 324, 121, 0); Head(9, 4, 63, "NULL", 0); }
  lemma K64() ensures Entry(64, "LIKE", 28, 38) && Found(64)
  { hide Mix, Entry, Found; Place(4, 12, 13, 12, "LIKE", 4, 432, 303, 28, 38); K118(); K82(); Third(2, 2, 118, "UNION", 82, "VIRTUAL", 64, "LIKE", 38); }
  lemma K65() ensures Entry(65, "CASCADE", 37, 0) && Found(65)
  { hide Mix, Entry, Found; Place(5, 0, 13, 16, "CASCADE", 7, 396, 303, 37, 0); K69(); Second(2, 11, 69, "COLLATE", 65, "CASCADE", 0); }
  lemma K66() ensures Entry(66, "ASC", 47, 0) && Found(66)
  { hide Mix, Entry, Found; Place(5, 1, 13, 17, "ASC", 3, 388, 297, 47, 0); K117(); K72(); Third(3, 8, 117, "ROW", 72, "DETACH", 66, "ASC", 0); }
  lemma K67() ensures Entry(67, "DELETE", 58, 0) && Found(67)
  { hide Mix, Entry, Found; Place(5, 2, 14, 3, "DELETE", 6, 400, 303, 58, 0); K121(); Second(4, 6, 121, "VIEW", 67, "DELETE", 0); }
  lemma K68() ensures Entry(68, "CASE", 40, 1) && Found(68)
  { hide Mix, Entry, Found; Place(5, 3, 14, 9, "CASE", 4, 396, 303, 40, 1); Head(3, 1, 68, "CASE", 1); }
  lemma K69() ensures Entry(69, "COLLATE", 37, 66) && Found(69)
  { hide Mix, Entry, Found; Place(5, 4, 14, 13, "COLLATE", 7, 396, 303, 37, 66); Head(2, 11, 69, "COLLATE", 66); }
  lemma K70() ensures Entry(70, "CREATE", 38, 0) && Found(70)
  { hide Mix, Entry, Found; Place(5, 5, 15, 2, "CREATE", 6, 396, 303, 38, 0); Head(2, 12, 70, "CREATE", 0); }
  lemma S71() ensures Spelt(15, 8, "CURRENT_DATE")
  { assert TextRow(15) == "TECREATECURRENT_DA" && TextRow(16) == "TEDETACHIMMEDIATEJ"; }
  lemma K71() ensures Entry(71, "CURRENT_DATE", 48, 0) && Found(71)
  { hide Mix, Entry, Found, Spelt; S71(); Place(5, 6, 15, 8, "CURRENT_DATE", 12, 396, 303, 48, 0); K100(); Second(3, 9, 100, "CURRENT_TIME", 71, "CURRENT_DATE", 0); }
  lemma K72() ensures Entry(72, "DETACH", 47, 67) && Found(72)
  { hide Mix, Entry, Found; Place(5, 7, 16, 2, "DETACH", 6, 400, 312, 47, 67); K117(); Second(3, 8, 117, "ROW", 72, "DETACH", 67); }
  lemma K73() ensures Entry(73, "IMMEDIATE", 3, 0) && Found(73)
  { hide Mix, Entry, Found; Place(5, 8, 16, 8, "IMMEDIATE", 9, 420, 303, 3, 0); Head(0, 3, 73, "IMMEDIATE", 0); }
  lemma K74() ensures Entry(74, "JOIN", 103, 41) && Found(74)
  { hide Mix, Entry, Found; Place(5, 9, 16, 17, "JOIN", 4, 424, 330, 103, 41); K112(); Second(7, 12, 112, "ISNULL", 74, "JOIN", 41); }
  lemma K75() ensures Entry(75, "INSERT", 0, 0) && Found(75)
  { hide Mix, Entry, Found; Place(5, 10, 17, 1, "INSERT", 6, 420, 348, 0, 0); Head(0, 0, 75, "INSERT", 0); }
  lemma K76() ensures Entry(76, "MATCH", 10, 0) && Found(76)
  { hide Mix, Entry, Found; Place(5, 11, 17, 7, "MATCH", 5, 436, 312, 10, 0); Head(0, 10, 76, "MATCH", 0); }
  lemma K77() ensures Entry(77, "PLAN", 15, 0) && Found(77)
  { hide Mix, Entry, Found; Place(5, 12, 17, 12, "PLAN", 4, 448, 330, 15, 0); Head(1, 2, 77, "PLAN", 0); }
  lemma K78() ensures Entry(78, "ANALYZE", 45, 0) && Found(78)
  { hide Mix, Entry, Found; Place(6, 0, 17, 14, "ANALYZE", 7, 388, 303, 45, 0); K101(); Second(3, 6, 101, "PRIMARY", 78, "ANALYZE", 0); }
  lemma K79() ensures Entry(79, "PRAGMA", 102, 0) && Found(79)
  { hide Mix, Entry, Found; Place(6, 1, 18, 3, "PRAGMA", 6, 448, 291, 102, 0); Head(7, 11, 79, "PRAGMA", 0); }
  lemma K80() ensures Entry(80, "ABORT", 94, 0) && Found(80)
  { hide Mix, Entry, Found; Place(6, 2, 18, 8, "ABORT", 5, 388, 348, 94, 0); Head(7, 3, 80, "ABORT", 0); }
  lemma K81() ensures Entry(81, "VALUES", 8, 49) && Found(81)
  { hide Mix, Entry, Found; Place(6, 3, 18, 13, "VALUES", 6, 472, 345, 8, 49); Head(0, 8, 81, "VALUES", 49); }
  lemma K82() ensures Entry(82, "VIRTUAL", 28, 65) && Found(82)
  { hide Mix, Entry, Found; Place(6, 4, 19, 1, "VIRTUAL", 7, 472, 324, 28, 65); K118(); Second(2, 2, 118, "UNION", 82, "VIRTUAL", 65); }
  lemma K83() ensures Entry(83, "LIMIT", 106, 0) && Found(83)
  { hide Mix, Entry, Found; Place(6, 5, 19, 7, "LIMIT", 5, 432, 348, 106, 0); Head(8, 2, 83, "LIMIT", 0); }
  lemma K84() ensures Entry(84, "WHEN", 19, 0) && Found(84)
  { hide Mix, Entry, Found; Place(6, 6, 19, 12, "WHEN", 4, 476, 330, 19, 0); Head(1, 6, 84, "WHEN", 0); }
  lemma K85() ensures Entry(85, "WHERE", 119, 0) && Found(85)
  { hide Mix, Entry, Found; Place(6, 7, 19, 16, "WHERE", 5, 476, 303, 119, 0); Head(9, 2, 85, "WHERE", 0); }
  lemma K86() ensures Entry(86, "RENAME", 98, 0) && Found(86)
  { hide Mix, Entry, Found; Place(6, 8, 20, 1, "RENAME", 6, 456, 303, 98, 0); K110(); Second(7, 7, 110, "BY", 86, "RENAME", 0); }
  lemma K87() ensures Entry(87, "AFTER", 88, 31) && Found(87)
  { hide Mix, Entry, Found; Place(6, 9, 20, 7, "AFTER", 5, 388, 342, 88, 31); Head(6, 10, 87, "AFTER", 31); }
  lemma K88() ensures Entry(88, "REPLACE", 97, 52) && Found(88)
  { hide Mix, Entry, Found; Place(6, 10, 20, 11, "REPLACE", 7, 456, 303, 97, 52); Head(7, 6, 88, "REPLACE", 52); }
  lemma K89() ensures Entry(89, "AND", 44, 16) && Found(89)
  { hide Mix, Entry, Found; Place(6, 11, 21, 0, "AND", 3, 388, 300, 44, 16); Head(3, 5, 89, "AND", 16); }
  lemma K90() ensures Entry(90, "DEFAULT", 76, 34) && Found(90)
  { hide Mix, Entry, Found; Place(6, 12, 21, 2, "DEFAULT", 7, 400, 348, 76, 34); Head(5, 11, 90, "DEFAULT", 34); }
  lemma S91() ensures Spelt(21, 9, "AUTOINCREMENT")
  { assert TextRow(21) == "ANDEFAULTAUTOINCRE" && TextRow(22) == "MENTCASTCOLUMNCOMM"; }
  lemma K91() ensures Entry(91, "AUTOINCREMENT", 86, 10) && Found(91)
  { hide Mix, Entry, Found, Spelt; S91(); Place(7, 0, 21, 9, "AUTOINCREMENT", 13, 388, 348, 86, 10); Head(6, 8, 91, "AUTOINCREMENT", 10); }
  lemma K92() ensures Entry(92, "TO", 32, 0) && Found(92)
  { hide Mix, Entry, Found; Place(7, 1, 21, 11, "TO", 2, 464, 333, 32, 0); Head(2, 6, 92, "TO", 0); }
  lemma K93() ensures Entry(93, "IN", 109, 0) && Found(93)
  { hide Mix, Entry, Found; Place(7, 2, 21, 13, "IN", 2, 420, 330, 109, 0); Head(8, 5, 93, "IN", 0); }
  lemma K94() ensures Entry(94, "CAST", 85, 0) && Found(94)
  { hide Mix, Entry, Found; Place(7, 3, 22, 4, "CAST", 4, 396, 348, 85, 0); Head(6, 7, 94, "CAST", 0); }
  lemma K95() ensures Entry(95, "COLUMN", 65, 0) && Found(95)
  { hide Mix, Entry, Found; Place(7, 4, 22, 8, "COLUMN", 6, 396, 330, 65, 0); Head(5, 0, 95, "COLUMN", 0); }
  lemma K96() ensures Entry(96, "COMMIT", 87, 0) && Found(96)
  { hide Mix, Entry, Found; Place(7, 5, 22, 14, "COMMIT", 6, 396, 348, 87, 0); Head(6, 9, 96, "COMMIT", 0); }
  lemma K97() ensures Entry(97, "CONFLICT", 89, 0) && Found(97)
  { hide Mix, Entry, Found; Place(7, 6, 23, 2, "CONFLICT", 8, 396, 348, 89, 0); K108(); K106(); Third(6, 11, 108, "FULL", 106, "FAIL", 97, "CONFLICT", 0); }
  lemma K98() ensures Entry(98, "CROSS", 81, 0) && Found(98)
  { hide Mix, Entry, Found; Place(7, 7, 23, 10, "CROSS", 5, 396, 345, 81, 0); Head(6, 3, 98, "CROSS", 0); }
  lemma S99() ensures Spelt(23, 15, "CURRENT_TIMESTAMP")
  { assert TextRow(23) == "ITCONFLICTCROSSCUR" && TextRow(24) == "RENT_TIMESTAMPRIMA"; }
  lemma K99() ensures Entry(99, "CURRENT_TIMESTAMP", 78, 11) && Found(99)
  { hide Mix, Entry, Found, Spelt; S99(); Place(7, 8, 23, 15, "CURRENT_TIMESTAMP", 17, 396, 336, 78, 11); Head(6, 0, 99, "CURRENT_TIMESTAMP", 11); }
  lemma S100() ensures Spelt(23, 15, "CURRENT_TIME")
  { assert TextRow(23) == "ITCONFLICTCROSSCUR" && TextRow(24) == "RENT_TIMESTAMPRIMA"; }
  lemma K100() ensures Entry(100, "CURRENT_TIME", 48, 72) && Found(100)
  { hide Mix, Entry, Found, Spelt; S100(); Place(7, 9, 23, 15, "CURRENT_TIME", 12, 396, 303, 48, 72); Head(3, 9, 100, "CURRENT_TIME", 72); }
  lemma K101() ensures Entry(101, "PRIMARY", 45, 79) && Found(101)
  { hide Mix, Entry, Found; Place(7, 10, 24, 13, "PRIMARY", 7, 448, 363, 45, 79); Head(3, 6, 101, "PRIMARY", 79); }
  lemma K102() ensures Entry(102, "DEFERRED", 53, 0) && Found(102)
  { hide Mix, Entry, Found; Place(7, 11, 25, 2, "DEFERRED", 8, 400, 300, 53, 0); Head(4, 1, 102, "DEFERRED", 0); }
  lemma K103() ensures Entry(103, "DISTINCT", 69, 8) && Found(103)
  { hide Mix, Entry, Found; Place(7, 12, 25, 9, "DISTINCT", 8, 400, 348, 69, 8); K105(); Second(5, 4, 105, "DROP", 103, "DISTINCT", 8); }
  lemma K104() ensures Entry(104, "IS", 1, 0) && Found(104)
  { hide Mix, Entry, Found; Place(8, 0, 25, 10, "IS", 2, 420, 345, 1, 0); Head(0, 1, 104, "IS", 0); }
  lemma K105() ensures Entry(105, "DROP", 69, 104) && Found(105)
  { hide Mix, Entry, Found; Place(8, 1, 25, 17, "DROP", 4, 400, 336, 69, 104); Head(5, 4, 105, "DROP", 104); }
  lemma K106() ensures Entry(106, "FAIL", 89, 98) && Found(106)
  { hide Mix, Entry, Found; Place(8, 2, 26, 3, "FAIL", 4, 408, 324, 89, 98); K108(); Second(6, 11, 108, "FULL", 106, "FAIL", 98); }
  lemma K107() ensures Entry(107, "FROM", 92, 0) && Found(107)
  { hide Mix, Entry, Found; Place(8, 3, 26, 7, "FROM", 4, 408, 327, 92, 0); Head(7, 1, 107, "FROM", 0); }
  lemma K108() ensures Entry(108, "FULL", 89, 107) && Found(108)
  { hide Mix, Entry, Found; Place(8, 4, 26, 11, "FULL", 4, 408, 324, 89, 107); Head(6, 11, 108, "FULL", 107); }
  lemma K109() ensures Entry(109, "GLOB", 63, 0) && Found(109)
  { hide Mix, Entry, Found; Place(8, 5, 26, 15, "GLOB", 4, 412, 294, 63, 0); Head(4, 11, 109, "GLOB", 0); }
  lemma K110() ensures Entry(110, "BY", 98, 87) && Found(110)
  { hide Mix, Entry, Found; Place(8, 6, 27, 0, "BY", 2, 392, 363, 98, 87); Head(7, 7, 110, "BY", 87); }
  lemma K111() ensures Entry(111, "IF", 21, 0) && Found(111)
  { hide Mix, Entry, Found; Place(8, 7, 27, 2, "IF", 2, 420, 306, 21, 0); Head(1, 8, 111, "IF", 0); }
  lemma K112() ensures Entry(112, "ISNULL", 103, 75) && Found(112)
  { hide Mix, Entry, Found; Place(8, 8, 27, 4, "ISNULL", 6, 420, 324, 103, 75); Head(7, 12, 112, "ISNULL", 75); }
  lemma K113() ensures Entry(113, "ORDER", 112, 51) && Found(113)
  { hide Mix, Entry, Found; Place(8, 9, 27, 10, "ORDER", 5, 444, 342, 112, 51); Head(8, 8, 113, "ORDER", 51); }
  lemma K114() ensures Entry(114, "RESTRICT", 29, 0) && Found(114)
  { hide Mix, Entry, Found; Place(8, 10, 27, 14, "RESTRICT", 8, 456, 348, 29, 0); Head(2, 3, 114, "RESTRICT", 0); }
  lemma K115() ensures Entry(115, "RIGHT", 18, 27) && Found(115)
  { hide Mix, Entry, Found; Place(8, 11, 28, 4, "RIGHT", 5, 456, 348, 18, 27); Head(1, 5, 115, "RIGHT", 27); }
  lemma K116() ensures Entry(116, "ROLLBACK", 2, 37) && Found(116)
  { hide Mix, Entry, Found; Place(8, 12, 28, 9, "ROLLBACK", 8, 456, 321, 2, 37); Head(0, 2, 116, "ROLLBACK", 37); }
  lemma K117() ensures Entry(117, "ROW", 47, 73) && Found(117)
  { hide Mix, Entry, Found; Place(9, 0, 28, 17, "ROW", 3, 456, 357, 47, 73); Head(3, 8, 117, "ROW", 73); }
  lemma K118() ensures Entry(118, "UNION", 28, 83) && Found(118)
  { hide Mix, Entry, Found; Place(9, 1, 29, 2, "UNION", 5, 468, 330, 28, 83); Head(2, 2, 118, "UNION", 83); }
  lemma K119() ensures Entry(119, "USING", 101, 0) && Found(119)
  { hide Mix, Entry, Found; Place(9, 2, 29, 7, "USING", 5, 468, 309, 101, 0); Head(7, 10, 119, "USING", 0); }
  lemma K120() ensures Entry(120, "VACUUM", 26, 35) && Found(120)
  { hide Mix, Entry, Found; Place(9, 3, 29, 12, "VACUUM", 6, 472, 327, 26, 35); Head(2, 0, 120, "VACUUM", 35); }
  lemma K121() ensures Entry(121, "VIEW", 58, 68) && Found(121)
  { hide Mix, Entry, Found; Place(9, 4, 30, 0, "VIEW", 4, 472, 357, 58, 68); Head(4, 6, 121, "VIEW", 68); }
  lemma K122() ensures Entry(122, "INITIALLY", 71, 0) && Found(122)
  { hide Mix, Entry, Found; Place(9, 5, 30, 4, "INITIALLY", 9, 420, 363, 71, 0); Head(5, 6, 122, "INITIALLY", 0); }
  lemma K123() ensures Entry(123, "ALL", 68, 0) && Found(123)
  { hide Mix, Entry, Found; Place(9, 6, 30, 9, "ALL", 3, 388, 324, 68, 0); Head(5, 3, 123, "ALL", 0); }

  /** Every keyword is what the chain of its own bucket yields for its text. */
  lemma AllFound(i: nat)
    requires i < N_KEYWORD
    ensures Found(i)
  {
    hide Found, Entry;
    K0(); K1(); K2(); K3(); K4(); K5(); K6(); K7(); K8(); K9(); K10(); K11();
    K12(); K13(); K14(); K15(); K16(); K17(); K18(); K19(); K20(); K21(); K22(); K23();
    K24(); K25(); K26(); K27(); K28(); K29(); K30(); K31(); K32(); K33(); K34(); K35();
    K36(); K37(); K38(); K39(); K40(); K41(); K42(); K43(); K44(); K45(); K46(); K47();
    K48(); K49(); K50(); K51(); K52(); K53(); K54(); K55(); K56(); K57(); K58(); K59();
    K60(); K61(); K62(); K63(); K64(); K65(); K66(); K67(); K68(); K69(); K70(); K71();
    K72(); K73(); K74(); K75(); K76(); K77(); K78(); K79(); K80(); K81(); K82(); K83();
    K84(); K85(); K86(); K87(); K88(); K89(); K90(); K91(); K92(); K93(); K94(); K95();
    K96(); K97(); K98(); K99(); K100(); K101(); K102(); K103(); K104(); K105(); K106(); K107();
    K108(); K109(); K110(); K111(); K112(); K113(); K114(); K115(); K116(); K117(); K118(); K119();
    K120(); K121(); K122(); K123();
    assert i == 0 || i == 1 || i == 2 || i == 3 || i == 4 || i == 5 || i == 6 || i == 7 || i == 8 || i == 9 ||
      i == 10 || i == 11 || i == 12 || i == 13 || i == 14 || i == 15 || i == 16 || i == 17 || i == 18 || i == 19 ||
      i == 20 || i == 21 || i == 22 || i == 23 || i == 24 || i == 25 || i == 26 || i == 27 || i == 28 || i == 29 ||
      i == 30 || i == 31 || i == 32 || i == 33 || i == 34 || i == 35 || i == 36 || i == 37 || i == 38 || i == 39 ||
      i == 40 || i == 41 || i == 42 || i == 43 || i == 44 || i == 45 || i == 46 || i == 47 || i == 48 || i == 49 ||
      i == 50 || i == 51 || i == 52 || i == 53 || i == 54 || i == 55 || i == 56 || i == 57 || i == 58 || i == 59 ||
      i == 60 || i == 61 || i == 62 || i == 63 || i == 64 || i == 65 || i == 66 || i == 67 || i == 68 || i == 69 ||
      i == 70 || i == 71 || i == 72 || i == 73 || i == 74 || i == 75 || i == 76 || i == 77 || i == 78 || i == 79 ||
      i == 80 || i == 81 || i == 82 || i == 83 || i == 84 || i == 85 || i == 86 || i == 87 || i == 88 || i == 89 ||
      i == 90 || i == 91 || i == 92 || i == 93 || i == 94 || i == 95 || i == 96 || i == 97 || i == 98 || i == 99 ||
      i == 100 || i == 101 || i == 102 || i == 103 || i == 104 || i == 105 || i == 106 || i == 107 || i == 108 || i == 109 ||
      i == 110 || i == 111 || i == 112 || i == 113 || i == 114 || i == 115 || i == 116 || i == 117 || i == 118 || i == 119 ||
      i == 120 || i == 121 || i == 122 || i == 123;
  }
}
