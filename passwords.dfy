/** The password generator of auth/auth.go (randomPassword): sixteen
    characters, each picked from a 62-character alphanumeric alphabet by an
    index that the random source supplies. The source itself (math/rand,
    reseeded from the clock on every call) is modelled as a stream of
    indices already reduced to the alphabet's range. */
module Passwords {

  /** The alphabet, in the order the source lists it: upper-case letters,
      lower-case letters, digits. */
  const UPPER: string := "ABCDEFGHIJKLMNOPQRSTUVWXYZ"
  const LOWER: string := "abcdefghijklmnopqrstuvwxyz"
  const DIGITS: string := "0123456789"
  const CHARS: string := UPPER + LOWER + DIGITS

  /** Number of characters in a generated password. */
  const PASSWORD_LENGTH: nat := 16

  /** What rand.Intn(len(chars)) can return: a position in CHARS. */
  type Index = i: int | 0 <= i < 62

  /** The reference alphabet: upper-case letters, lower-case letters, digits. */
  predicate IsAlphanumeric(c: char) {
    ('A' <= c <= 'Z') || ('a' <= c <= 'z') || ('0' <= c <= '9')
  }

  predicate IsAlphanumericString(s: string) {
    forall k :: 0 <= k < |s| ==> IsAlphanumeric(s[k])
  }

  lemma UpperAt(i: int)
    requires 0 <= i < 26
    ensures UPPER[i] == ('A' as int + i) as char
  {
  }

  lemma LowerAt(i: int)
    requires 0 <= i < 26
    ensures LOWER[i] == ('a' as int + i) as char
  {
  }

  lemma DigitAt(i: int)
    requires 0 <= i < 10
    ensures DIGITS[i] == ('0' as int + i) as char
  {
  }

  /** The character at each position of CHARS, stated by ranges. */
  lemma CharAt(i: Index)
    ensures |CHARS| == 62
    ensures i < 26 ==> CHARS[i] == ('A' as int + i) as char
    ensures 26 <= i < 52 ==> CHARS[i] == ('a' as int + (i - 26)) as char
    ensures 52 <= i ==> CHARS[i] == ('0' as int + (i - 52)) as char
  {
    if i < 26 {
      UpperAt(i);
    } else if i < 52 {
      LowerAt(i - 26);
    } else {
      DigitAt(i - 52);
    }
  }

  /** Where an alphanumeric character sits in CHARS. */
  function IndexOf(c: char): (i: Index)
    requires IsAlphanumeric(c)
    ensures CHARS[i] == c
  {
    var i: Index :=
      if 'A' <= c <= 'Z' then c as int - 'A' as int
      else if 'a' <= c <= 'z' then 26 + (c as int - 'a' as int)
      else 52 + (c as int - '0' as int);
    CharAt(i);
    i
  }

  /** Every character of CHARS is alphanumeric and sits at one position only,
      so the index-to-character map is a bijection between [0,62) and the
      reference alphabet. */
  lemma AlphabetIsAlphanumeric(i: Index, j: Index)
    ensures IsAlphanumeric(CHARS[i])
    ensures IndexOf(CHARS[i]) == i
    ensures CHARS[i] == CHARS[j] ==> i == j
  {
    CharAt(i);
    CharAt(j);
  }

  /** The password that a sequence of drawn indices spells. */
  function PasswordOf(ix: seq<Index>): (pw: string)
    ensures |pw| == |ix|
    ensures IsAlphanumericString(pw)
  {
    var pw := seq(|ix|, k requires 0 <= k < |ix| => CHARS[ix[k]]);
    assert forall k :: 0 <= k < |pw| ==> IsAlphanumeric(pw[k]) by {
      forall k | 0 <= k < |pw| ensures IsAlphanumeric(pw[k]) {
        AlphabetIsAlphanumeric(ix[k], ix[k]);
      }
    }
    pw
  }

  /** Definition: the indices that spell an alphanumeric string. */
  function IndicesOf(s: string): seq<Index>
    requires IsAlphanumericString(s)
  {
    seq(|s|, k requires 0 <= k < |s| => IndexOf(s[k]))
  }

  /** Decoding a password gives back the indices that were drawn. */
  lemma IndicesOfPasswordOf(ix: seq<Index>)
    ensures IndicesOf(PasswordOf(ix)) == ix
  {
    var pw := PasswordOf(ix);
    forall k | 0 <= k < |ix| ensures IndicesOf(pw)[k] == ix[k] {
      AlphabetIsAlphanumeric(ix[k], ix[k]);
    }
  }

  /** Every alphanumeric string is the password of some draw: no string of
      the alphabet is out of the generator's reach. */
  lemma PasswordOfIndicesOf(s: string)
    requires IsAlphanumericString(s)
    ensures PasswordOf(IndicesOf(s)) == s
  {
  }

  /** Definition: the indices drawn from position `from` on, `n` of them. */
  function Draws(draw: nat -> Index, from: nat, n: nat): seq<Index> {
    seq(n, k requires 0 <= k < n => draw(from + k))
  }

  /** Drawing one more index appends its character to the password. */
  lemma PasswordOfDrawsStep(draw: nat -> Index, from: nat, n: nat)
    ensures PasswordOf(Draws(draw, from, n + 1)) == PasswordOf(Draws(draw, from, n)) + [CHARS[draw(from + n)]]
  {
    var more, fewer := Draws(draw, from, n + 1), Draws(draw, from, n);
    assert more == fewer + [draw(from + n)];
    var longer, shorter := PasswordOf(more), PasswordOf(fewer);
    assert |longer| == |shorter| + 1;
    assert forall k :: 0 <= k < n ==> longer[k] == CHARS[more[k]] == CHARS[fewer[k]] == shorter[k];
    assert longer[n] == CHARS[draw(from + n)];
  }

  /** The random source: an endless stream of alphabet indices and the
      position of the next one to hand out. */
  class RandomSource {
    const draw: nat -> Index
    var pos: nat

    constructor (draw: nat -> Index)
      ensures this.draw == draw && pos == 0
    {
      this.draw := draw;
      pos := 0;
    }

    /** rand.Intn(len(chars)): the next index of the stream. */
    method Next() returns (i: Index)
      modifies this`pos
      ensures i == draw(old(pos)) && pos == old(pos) + 1
    {
      i := draw(pos);
      pos := pos + 1;
    }
  }

  /** randomPassword: appends PASSWORD_LENGTH characters, one per drawn index. */
  method RandomPassword(rng: RandomSource) returns (pw: string)
    modifies rng`pos
    ensures rng.pos == old(rng.pos) + PASSWORD_LENGTH
    ensures pw == PasswordOf(Draws(rng.draw, old(rng.pos), PASSWORD_LENGTH))
    ensures |pw| == PASSWORD_LENGTH && IsAlphanumericString(pw)
  {
    var b := "";
    var i := 0;
    assert b == PasswordOf(Draws(rng.draw, rng.pos, 0));
    while i < PASSWORD_LENGTH
      invariant 0 <= i <= PASSWORD_LENGTH
      invariant rng.pos == old(rng.pos) + i
      invariant b == PasswordOf(Draws(rng.draw, old(rng.pos), i))
    {
      var k := rng.Next();
      PasswordOfDrawsStep(rng.draw, old(rng.pos), i);
      CharAt(k);
      b := b + [CHARS[k]];
      i := i + 1;
    }
    assert i == PASSWORD_LENGTH;
    pw := b;
  }
}
