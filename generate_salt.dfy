/**
 * generateSalt: a random alphanumeric string of a given length (16 by
 * default). `Math.random()` is the parameter `random`: `random(i)` is the
 * i-th number it returns, a real in [0, 1).
 */
module Salt {

  const UPPERCASE: string := "ABCDEFGHIJKLMNOPQRSTUVWXYZ"
  const LOWERCASE: string := "abcdefghijklmnopqrstuvwxyz"
  const DIGITS: string := "0123456789"

  /** The 62-character alphabet, upper case, then lower case, then digits. */
  const ALPHANUMERIC_CHARS: string := UPPERCASE + LOWERCASE + DIGITS

  const DEFAULT_SALT_LENGTH: int := 16

  /** The character class `[A-Za-z0-9]`. */
  predicate IsAlphanumeric(c: char) {
    'A' <= c <= 'Z' || 'a' <= c <= 'z' || '0' <= c <= '9'
  }

  /** `Math.random()` yields reals in [0, 1). */
  ghost predicate ValidDraws(random: nat -> real) {
    forall i: nat :: 0.0 <= random(i) < 1.0
  }

  /** `Math.floor(r * ALPHANUMERIC_CHARS.length)`: always an index into the alphabet. */
  function DrawIndex(r: real): (k: int)
    requires 0.0 <= r < 1.0
    ensures 0 <= k < |ALPHANUMERIC_CHARS|
  {
    (r * |ALPHANUMERIC_CHARS| as real).Floor
  }

  lemma UppercaseAt(i: int)
    requires 0 <= i < 26
    ensures UPPERCASE[i] == ('A' as int + i) as char
  {
  }

  lemma LowercaseAt(i: int)
    requires 0 <= i < 26
    ensures LOWERCASE[i] == ('a' as int + i) as char
  {
  }

  lemma DigitAt(i: int)
    requires 0 <= i < 10
    ensures DIGITS[i] == ('0' as int + i) as char
  {
  }

  /** The alphabet holds exactly the characters of `[A-Za-z0-9]`, 62 of them. */
  lemma AlphabetIsAlphanumeric()
    ensures |ALPHANUMERIC_CHARS| == 62
    ensures forall c :: c in ALPHANUMERIC_CHARS <==> IsAlphanumeric(c)
  {
    forall i | 0 <= i < 62 ensures IsAlphanumeric(ALPHANUMERIC_CHARS[i]) {
      if i < 26 {
        UppercaseAt(i);
      } else if i < 52 {
        LowercaseAt(i - 26);
      } else {
        DigitAt(i - 52);
      }
    }
    forall c | IsAlphanumeric(c) ensures c in ALPHANUMERIC_CHARS {
      if 'A' <= c <= 'Z' {
        UppercaseAt(c as int - 'A' as int);
        assert ALPHANUMERIC_CHARS[c as int - 'A' as int] == c;
      } else if 'a' <= c <= 'z' {
        LowercaseAt(c as int - 'a' as int);
        assert ALPHANUMERIC_CHARS[26 + (c as int - 'a' as int)] == c;
      } else {
        DigitAt(c as int - '0' as int);
        assert ALPHANUMERIC_CHARS[52 + (c as int - '0' as int)] == c;
      }
    }
  }

  /**
   * generateSalt: appends one alphabet character per draw; a length of zero
   * or less gives the empty string.
   */
  method GenerateSalt(random: nat -> real, length: int := DEFAULT_SALT_LENGTH) returns (salt: string)
    requires ValidDraws(random)
    ensures |salt| == if length < 0 then 0 else length
    ensures forall i :: 0 <= i < |salt| ==> salt[i] == ALPHANUMERIC_CHARS[DrawIndex(random(i))]
    ensures forall i :: 0 <= i < |salt| ==> IsAlphanumeric(salt[i])
  {
    AlphabetIsAlphanumeric();
    salt := "";
    var i := 0;
    while i < length
      invariant 0 <= i == |salt|
      invariant length >= 0 ==> i <= length
      invariant length < 0 ==> i == 0
      invariant forall j :: 0 <= j < i ==> salt[j] == ALPHANUMERIC_CHARS[DrawIndex(random(j))]
    {
      salt := salt + [ALPHANUMERIC_CHARS[DrawIndex(random(i))]];
      i := i + 1;
    }
  }

  /** `generateSalt()` with no argument yields 16 alphanumeric characters. */
  method GenerateDefaultSalt(random: nat -> real) returns (salt: string)
    requires ValidDraws(random)
    ensures |salt| == 16
    ensures forall i :: 0 <= i < 16 ==> salt[i] == ALPHANUMERIC_CHARS[DrawIndex(random(i))]
    ensures forall i :: 0 <= i < |salt| ==> IsAlphanumeric(salt[i])
  {
    salt := GenerateSalt(random);
  }
}
