/** The character functions of the keyword lookup. */
module KeywordChars {

  /** One byte of the input. */
  type Byte = c: char | c as int < 256

  /** charMap: ASCII lower-casing. */
  function CharMap(c: char): char {
    if 'A' <= c <= 'Z' then (c as int + 32) as char else c
  }

  /** c & ~0x20 */
  function Fold(c: Byte): Byte {
    if (c as int / 32) % 2 == 1 then (c as int - 32) as char else c
  }

  function Xor(a: bv32, b: bv32, n: bv32): nat {
    (a ^ b ^ n) as nat
  }

  /** (a ^ b ^ n) % 127 on 32-bit integers. */
  function Mix(a: nat, b: nat, n: nat): (h: nat)
    requires a < 0x8000_0000 && b < 0x8000_0000 && n < 0x8000_0000
    ensures h < 127
  {
    Xor(a as bv32, b as bv32, n as bv32) % 127
  }

  function Hash(first: Byte, last: Byte, n: nat): nat
    requires n < 0x8000_0000
  {
    Mix(CharMap(first) as int * 4, CharMap(last) as int * 3, n)
  }

  predicate Letter(c: char) {
    'A' <= c <= 'Z'
  }

  lemma MixIs(a: bv32, b: bv32, n: bv32, h: nat)
    requires a < 1024 && b < 1024 && n < 1024 && Xor(a, b, n) % 127 == h
    ensures a as nat < 1024 && b as nat < 1024 && n as nat < 1024 && Mix(a as nat, b as nat, n as nat) == h
  {
    hide Xor;
    Back(a);
    Back(b);
    Back(n);
  }

  lemma Back(a: bv32)
    requires a < 1024
    ensures a as nat < 1024 && (a as nat) as bv32 == a
  {
  }
}
