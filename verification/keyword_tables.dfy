/** The keyword tables: an overlapping pool of text, the lengths, offsets and token codes of the 124 keywords
    in it, the hash buckets and the chains behind them.  Each array is given row by row, as in the source. */
module KeywordTables {

  const N_KEYWORD := 124
  const N_TEXT := 553

  /** zText[], in rows of 18 characters. */
  function TextRow(r: nat): string {
    match r
    case 0 => "REINDEXEDESCAPEACH"
    case 1 => "ECKEYBEFOREIGNOREG"
    case 2 => "EXPLAINSTEADDATABA"
    case 3 => "SELECTABLEFTHENDEF"
    case 4 => "ERRABLELSEXCEPTRAN"
    case 5 => "SACTIONATURALTERAI"
    case 6 => "SEXCLUSIVEXISTSAVE"
    case 7 => "POINTERSECTRIGGERE"
    case 8 => "FERENCESCONSTRAINT"
    case 9 => "OFFSETEMPORARYUNIQ"
    case 10 => "UERYWITHOUTERELEAS"
    case 11 => "EATTACHAVINGROUPDA"
    case 12 => "TEBEGINNERECURSIVE"
    case 13 => "BETWEENOTNULLIKECA"
    case 14 => "SCADELETECASECOLLA"
    case 15 => "TECREATECURRENT_DA"
    case 16 => "TEDETACHIMMEDIATEJ"
    case 17 => "OINSERTMATCHPLANAL"
    case 18 => "YZEPRAGMABORTVALUE"
    case 19 => "SVIRTUALIMITWHENWH"
    case 20 => "ERENAMEAFTEREPLACE"
    case 21 => "ANDEFAULTAUTOINCRE"
    case 22 => "MENTCASTCOLUMNCOMM"
    case 23 => "ITCONFLICTCROSSCUR"
    case 24 => "RENT_TIMESTAMPRIMA"
    case 25 => "RYDEFERREDISTINCTD"
    case 26 => "ROPFAILFROMFULLGLO"
    case 27 => "BYIFISNULLORDEREST"
    case 28 => "RICTRIGHTROLLBACKR"
    case 29 => "OWUNIONUSINGVACUUM"
    case _ => "VIEWINITIALLY"
  }

  function zText(i: nat): char {
    var row := TextRow(i / 18);
    if i % 18 < |row| then row[i % 18] else ' '
  }

  function Pick(row: seq<nat>, k: nat): nat {
    if k < |row| then row[k] else 0
  }

  function AHashRow(r: nat): seq<nat> {
    match r
    case 0 => [ 76, 105, 117,  74,   0,  45,   0,   0,  82,   0,  77,   0,   0]
    case 1 => [ 42,  12,  78,  15,   0, 116,  85,  54, 112,   0,  19,   0,   0]
    case 2 => [121,   0, 119, 115,   0,  22,  93,   0,   9,   0,   0,  70,  71]
    case 3 => [  0,  69,   6,   0,  48,  90, 102,   0, 118, 101,   0,   0,  44]
    case 4 => [  0, 103,  24,   0,  17,   0, 122,  53,  23,   0,   5, 110,  25]
    case 5 => [ 96,   0,   0, 124, 106,  60, 123,  57,  28,  55,   0,  91,   0]
    case 6 => [100,  26,   0,  99,   0,   0,   0,  95,  92,  97,  88, 109,  14]
    case 7 => [ 39, 108,   0,  81,   0,  18,  89, 111,  32,   0, 120,  80, 113]
    case 8 => [ 62,  46,  84,   0,   0,  94,  40,  59, 114,   0,  36,   0,   0]
    case _ => [ 29,   0,  86,  63,  64,   0,  20,  61,   0,  56]
  }

  function aHash(i: nat): nat {
    Pick(AHashRow(i / 13), i % 13)
  }

  function ANextRow(r: nat): seq<nat> {
    match r
    case 0 => [  0,   0,   0,   0,   4,   0,   0,   0,   0,   0,   0,   0,   0]
    case 1 => [  0,   2,   0,   0,   0,   0,   0,   0,  13,   0,   0,   0,   0]
    case 2 => [  0,   7,   0,   0,   0,   0,   0,   0,   0,   0,   0,   0,   0]
    case 3 => [  0,   0,   0,   0,  33,   0,  21,   0,   0,   0,   0,   0,  50]
    case 4 => [  0,  43,   3,  47,   0,   0,   0,   0,  30,   0,  58,   0,  38]
    case 5 => [  0,   0,   0,   1,  66,   0,   0,  67,   0,  41,   0,   0,   0]
    case 6 => [  0,   0,   0,  49,  65,   0,   0,   0,   0,  31,  52,  16,  34]
    case 7 => [ 10,   0,   0,   0,   0,   0,   0,   0,  11,  72,  79,   0,   8]
    case 8 => [  0, 104,  98,   0, 107,   0,  87,   0,  75,  51,   0,  27,  37]
    case _ => [ 73,  83,   0,  35,  68,   0,   0]
  }

  function aNext(i: nat): nat {
    Pick(ANextRow(i / 13), i % 13)
  }

  function ALenRow(r: nat): seq<nat> {
    match r
    case 0 => [ 7,  7,  5,  4,  6,  4,  5,  3,  6,  7,  3,  6,  6]
    case 1 => [ 7,  7,  3,  8,  2,  6,  5,  4,  4,  3, 10,  4,  6]
    case 2 => [11,  6,  2,  7,  5,  5,  9,  6,  9,  9,  7, 10, 10]
    case 3 => [ 4,  6,  2,  3,  9,  4,  2,  6,  5,  7,  4,  5,  7]
    case 4 => [ 6,  6,  5,  6,  5,  5,  9,  7,  7,  3,  2,  4,  4]
    case 5 => [ 7,  3,  6,  4,  7,  6, 12,  6,  9,  4,  6,  5,  4]
    case 6 => [ 7,  6,  5,  6,  7,  5,  4,  5,  6,  5,  7,  3,  7]
    case 7 => [13,  2,  2,  4,  6,  6,  8,  5, 17, 12,  7,  8,  8]
    case 8 => [ 2,  4,  4,  4,  4,  4,  2,  2,  6,  5,  8,  5,  8]
    case _ => [ 3,  5,  5,  6,  4,  9,  3]
  }

  function aLen(i: nat): nat {
    Pick(ALenRow(i / 13), i % 13)
  }

  function AOffsetRow(r: nat): seq<nat> {
    match r
    case 0 => [  0,   2,   2,   8,   9,  14,  16,  20,  23,  25,  25,  29,  33]
    case 1 => [ 36,  41,  46,  48,  53,  54,  59,  62,  65,  67,  69,  78,  81]
    case 2 => [ 86,  91,  95,  96, 101, 105, 109, 117, 122, 128, 136, 142, 152]
    case 3 => [159, 162, 162, 165, 167, 167, 171, 176, 179, 184, 184, 188, 192]
    case 4 => [199, 204, 209, 212, 218, 221, 225, 234, 240, 240, 240, 243, 246]
    case 5 => [250, 251, 255, 261, 265, 272, 278, 290, 296, 305, 307, 313, 318]
    case 6 => [320, 327, 332, 337, 343, 349, 354, 358, 361, 367, 371, 378, 380]
    case 7 => [387, 389, 391, 400, 404, 410, 416, 424, 429, 429, 445, 452, 459]
    case 8 => [460, 467, 471, 475, 479, 483, 486, 488, 490, 496, 500, 508, 513]
    case _ => [521, 524, 529, 534, 540, 544, 549]
  }

  function aOffset(i: nat): nat {
    Pick(AOffsetRow(i / 13), i % 13)
  }

  // aCode[], with the token codes of parse.h
  function ACodeRow(r: nat): seq<nat> {
    match r
    case 0 => [ 93,  56, 140,  70,  42,  72, 104,  79,  63, 113]
    case 1 => [ 74,  75,  31,   2,  77, 142,  69,  24, 119,  16]
    case 2 => [ 98, 138,  11, 112, 139, 117,   6,  58, 107,  98]
    case 3 => [141,  83,   9,  20,  13, 118,  88, 105,  99, 131]
    case 4 => [ 81,  80, 111,  21,  21,  27, 103,   3,  25,  92]
    case 5 => [ 98,  14,  62, 128, 127, 110,   5,  98,  84,  32]
    case 6 => [ 35,  19,  78, 101,  31,  65,  61, 109, 136,  53]
    case 7 => [ 17,  95,  71,   8, 124, 108,  30,   4,  60,  82]
    case 8 => [ 57, 120,  91, 129, 137, 130,  94,  59,  85,  28]
    case 9 => [100, 106,  15,  33,  66,  67,  10,  68,  98,  95]
    case 10 => [ 95, 102,   7, 121,  29, 114,  73, 123,  98,  31]
    case 11 => [ 64,  18,  34, 126,  86,  98,  12,  87, 115, 125]
    case _ => [ 89,  90,  76, 116]
  }

  function aCode(i: nat): nat {
    Pick(ACodeRow(i / 10), i % 10)
  }
}
