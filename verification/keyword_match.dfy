/** The hash tables encode the written list, entry by entry. */
module KeywordMatch {
  import opened KeywordTables
  import opened KeywordFacts
  import opened KeywordList

  lemma Row0(i: nat)
    requires i < 10
    ensures Keyword(i) == Keywords(i).word && aCode(i) == Keywords(i).code
  {
    hide Keyword, HashOf, Upper, Found, First, aHash, aNext, aLen, aOffset;
    K0(); K1(); K2(); K3(); K4(); K5(); K6(); K7(); K8(); K9();
    assert i == 0 || i == 1 || i == 2 || i == 3 || i == 4 || i == 5 || i == 6 || i == 7 || i == 8 || i == 9;
  }

  lemma Row1(i: nat)
    requires 10 <= i < 20
    ensures Keyword(i) == Keywords(i).word && aCode(i) == Keywords(i).code
  {
    hide Keyword, HashOf, Upper, Found, First, aHash, aNext, aLen, aOffset;
    K10(); K11(); K12(); K13(); K14(); K15(); K16(); K17(); K18(); K19();
    assert i == 10 || i == 11 || i == 12 || i == 13 || i == 14 || i == 15 || i == 16 || i == 17 || i == 18 || i == 19;
  }

  lemma Row2(i: nat)
    requires 20 <= i < 30
    ensures Keyword(i) == Keywords(i).word && aCode(i) == Keywords(i).code
  {
    hide Keyword, HashOf, Upper, Found, First, aHash, aNext, aLen, aOffset;
    K20(); K21(); K22(); K23(); K24(); K25(); K26(); K27(); K28(); K29();
    assert i == 20 || i == 21 || i == 22 || i == 23 || i == 24 || i == 25 || i == 26 || i == 27 || i == 28 || i == 29;
  }

  lemma Row3(i: nat)
    requires 30 <= i < 40
    ensures Keyword(i) == Keywords(i).word && aCode(i) == Keywords(i).code
  {
    hide Keyword, HashOf, Upper, Found, First, aHash, aNext, aLen, aOffset;
    K30(); K31(); K32(); K33(); K34(); K35(); K36(); K37(); K38(); K39();
    assert i == 30 || i == 31 || i == 32 || i == 33 || i == 34 || i == 35 || i == 36 || i == 37 || i == 38 || i == 39;
  }

  lemma Row4(i: nat)
    requires 40 <= i < 50
    ensures Keyword(i) == Keywords(i).word && aCode(i) == Keywords(i).code
  {
    hide Keyword, HashOf, Upper, Found, First, aHash, aNext, aLen, aOffset;
    K40(); K41(); K42(); K43(); K44(); K45(); K46(); K47(); K48(); K49();
    assert i == 40 || i == 41 || i == 42 || i == 43 || i == 44 || i == 45 || i == 46 || i == 47 || i == 48 || i == 49;
  }

  lemma Row5(i: nat)
    requires 50 <= i < 60
    ensures Keyword(i) == Keywords(i).word && aCode(i) == Keywords(i).code
  {
    hide Keyword, HashOf, Upper, Found, First, aHash, aNext, aLen, aOffset;
    K50(); K51(); K52(); K53(); K54(); K55(); K56(); K57(); K58(); K59();
    assert i == 50 || i == 51 || i == 52 || i == 53 || i == 54 || i == 55 || i == 56 || i == 57 || i == 58 || i == 59;
  }

  lemma Row6(i: nat)
    requires 60 <= i < 70
    ensures Keyword(i) == Keywords(i).word && aCode(i) == Keywords(i).code
  {
    hide Keyword, HashOf, Upper, Found, First, aHash, aNext, aLen, aOffset;
    K60(); K61(); K62(); K63(); K64(); K65(); K66(); K67(); K68(); K69();
    assert i == 60 || i == 61 || i == 62 || i == 63 || i == 64 || i == 65 || i == 66 || i == 67 || i == 68 || i == 69;
  }

  lemma Row7(i: nat)
    requires 70 <= i < 80
    ensures Keyword(i) == Keywords(i).word && aCode(i) == Keywords(i).code
  {
    hide Keyword, HashOf, Upper, Found, First, aHash, aNext, aLen, aOffset;
    K70(); K71(); K72(); K73(); K74(); K75(); K76(); K77(); K78(); K79();
    assert i == 70 || i == 71 || i == 72 || i == 73 || i == 74 || i == 75 || i == 76 || i == 77 || i == 78 || i == 79;
  }

  lemma Row8(i: nat)
    requires 80 <= i < 90
    ensures Keyword(i) == Keywords(i).word && aCode(i) == Keywords(i).code
  {
    hide Keyword, HashOf, Upper, Found, First, aHash, aNext, aLen, aOffset;
    K80(); K81(); K82(); K83(); K84(); K85(); K86(); K87(); K88(); K89();
    assert i == 80 || i == 81 || i == 82 || i == 83 || i == 84 || i == 85 || i == 86 || i == 87 || i == 88 || i == 89;
  }

  lemma Row9(i: nat)
    requires 90 <= i < 100
    ensures Keyword(i) == Keywords(i).word && aCode(i) == Keywords(i).code
  {
    hide Keyword, HashOf, Upper, Found, First, aHash, aNext, aLen, aOffset;
    K90(); K91(); K92(); K93(); K94(); K95(); K96(); K97(); K98(); K99();
    assert i == 90 || i == 91 || i == 92 || i == 93 || i == 94 || i == 95 || i == 96 || i == 97 || i == 98 || i == 99;
  }

  lemma Row10(i: nat)
    requires 100 <= i < 110
    ensures Keyword(i) == Keywords(i).word && aCode(i) == Keywords(i).code
  {
    hide Keyword, HashOf, Upper, Found, First, aHash, aNext, aLen, aOffset;
    K100(); K101(); K102(); K103(); K104(); K105(); K106(); K107(); K108(); K109();
    assert i == 100 || i == 101 || i == 102 || i == 103 || i == 104 || i == 105 || i == 106 || i == 107 || i == 108 || i == 109;
  }

  lemma Row11(i: nat)
    requires 110 <= i < 120
    ensures Keyword(i) == Keywords(i).word && aCode(i) == Keywords(i).code
  {
    hide Keyword, HashOf, Upper, Found, First, aHash, aNext, aLen, aOffset;
    K110(); K111(); K112(); K113(); K114(); K115(); K116(); K117(); K118(); K119();
    assert i == 110 || i == 111 || i == 112 || i == 113 || i == 114 || i == 115 || i == 116 || i == 117 || i == 118 || i == 119;
  }

  lemma Row12(i: nat)
    requires 120 <= i < 124
    ensures Keyword(i) == Keywords(i).word && aCode(i) == Keywords(i).code
  {
    hide Keyword, HashOf, Upper, Found, First, aHash, aNext, aLen, aOffset;
    K120(); K121(); K122(); K123();
    assert i == 120 || i == 121 || i == 122 || i == 123;
  }

  /** Keyword `i` of the tables is keyword `i` of the list, with its code. */
  lemma TablesMatchList(i: nat)
    requires i < N_KEYWORD
    ensures Keyword(i) == Keywords(i).word && aCode(i) == Keywords(i).code
  {
    hide Keyword, aCode, Keywords;
    if i < 10 {
      Row0(i);
    } else if i < 20 {
      Row1(i);
    } else if i < 30 {
      Row2(i);
    } else if i < 40 {
      Row3(i);
    } else if i < 50 {
      Row4(i);
    } else if i < 60 {
      Row5(i);
    } else if i < 70 {
      Row6(i);
    } else if i < 80 {
      Row7(i);
    } else if i < 90 {
      Row8(i);
    } else if i < 100 {
      Row9(i);
    } else if i < 110 {
      Row10(i);
    } else if i < 120 {
      Row11(i);
    } else {
      Row12(i);
    }
  }
}
