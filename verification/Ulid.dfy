/** Message and call ids: 26 Crockford base-32 digits of a 48-bit millisecond clock followed by 80 random bits. */
module Ulid {

  const CROCKFORD: string := "0123456789ABCDEFGHJKMNPQRSTVWXYZ"
  const LENGTH: nat := 26

  function Pow32(n: nat): (p: nat)
    ensures p > 0
  {
    if n == 0 then 1 else 32 * Pow32(n - 1)
  }

  /** The `n` low base-32 digits of `v`, most significant first. */
  function Encode(v: nat, n: nat): (s: string)
    ensures |s| == n
  {
    if n == 0 then "" else Encode(v / 32, n - 1) + [CROCKFORD[v % 32]]
  }

  /** The value of a digit, or 32 for a character outside the alphabet. */
  function DigitOf(c: char): (d: nat)
    ensures d <= 32
    ensures d < 32 ==> CROCKFORD[d] == c
  {
    Search(c, 0)
  }

  function Search(c: char, from: nat): (d: nat)
    requires from <= 32
    ensures from <= d <= 32
    ensures d < 32 ==> CROCKFORD[d] == c
    decreases 32 - from
  {
    if from == 32 then 32 else if CROCKFORD[from] == c then from else Search(c, from + 1)
  }

  function Decode(s: string): nat {
    if s == "" then 0 else 32 * Decode(s[..|s| - 1]) + DigitOf(s[|s| - 1])
  }

  /** Python's string order. */
  predicate Before(a: string, b: string) {
    b != "" && (a == "" || a[0] < b[0] || (a[0] == b[0] && Before(a[1..], b[1..])))
  }

  // ---------------------------------------------------------------- the alphabet

  /** The alphabet is in character order, so comparing digits is comparing characters. */
  lemma AlphabetIsOrdered(i: nat, j: nat)
    requires i < j < 32
    ensures CROCKFORD[i] < CROCKFORD[j]
    decreases j - i
  {
    AlphabetStep(i);
    if i + 1 < j { AlphabetIsOrdered(i + 1, j); }
  }

  lemma AlphabetStep(i: nat)
    requires i < 31
    ensures CROCKFORD[i] < CROCKFORD[i + 1]
  {
    var t := CROCKFORD;
    assert t[0] < t[1] < t[2] < t[3] < t[4] < t[5] < t[6] < t[7] < t[8] < t[9] < t[10];
    assert t[10] < t[11] < t[12] < t[13] < t[14] < t[15] < t[16] < t[17] < t[18] < t[19] < t[20];
    assert t[20] < t[21] < t[22] < t[23] < t[24] < t[25] < t[26] < t[27] < t[28] < t[29] < t[30] < t[31];
  }

  /** The digits and the capital letters, but for the ones that are taken for others: I, L, O and U. */
  predicate InAlphabet(c: char) {
    '0' <= c <= '9' || ('A' <= c <= 'Z' && c != 'I' && c != 'L' && c != 'O' && c != 'U')
  }

  /** Those characters and no others make up the alphabet. */
  lemma AlphabetIs(c: char)
    ensures c in CROCKFORD <==> InAlphabet(c)
    ensures |CROCKFORD| == 32
  {
    var t := CROCKFORD;
    assert t == "0123456789" + "ABCDEFGH" + "JK" + "MN" + "PQRST" + "VWXYZ";
    assert c in "0123456789" <==> '0' <= c <= '9' by { InRun("0123456789", c); }
    assert c in "ABCDEFGH" <==> 'A' <= c <= 'H' by { InRun("ABCDEFGH", c); }
    assert c in "JK" <==> 'J' <= c <= 'K' by { InRun("JK", c); }
    assert c in "MN" <==> 'M' <= c <= 'N' by { InRun("MN", c); }
    assert c in "PQRST" <==> 'P' <= c <= 'T' by { InRun("PQRST", c); }
    assert c in "VWXYZ" <==> 'V' <= c <= 'Z' by { InRun("VWXYZ", c); }
  }

  /** A run of consecutive characters holds all from the first to the last. */
  lemma InRun(s: string, c: char)
    requires s != "" && forall i :: 0 <= i < |s| ==> s[i] as int == s[0] as int + i
    ensures c in s <==> s[0] <= c <= s[|s| - 1]
  {
    if s[0] <= c <= s[|s| - 1] {
      assert s[c as int - s[0] as int] == c;
    }
  }

  lemma DigitRoundTrip(i: nat)
    requires i < 32
    ensures DigitOf(CROCKFORD[i]) == i
  {
    var d := DigitOf(CROCKFORD[i]);
    SearchFinds(CROCKFORD[i], 0, i);
    if d < i { AlphabetIsOrdered(d, i); }
  }

  lemma SearchFinds(c: char, from: nat, i: nat)
    requires from <= i < 32 && CROCKFORD[i] == c
    ensures Search(c, from) <= i
    decreases 32 - from
  {
    if CROCKFORD[from] != c { SearchFinds(c, from + 1, i); }
  }

  // ---------------------------------------------------------------- round trip and order

  /** Decoding gives back every value that fits the digits. */
  lemma {:induction false} RoundTrip(v: nat, n: nat)
    requires v < Pow32(n)
    ensures Decode(Encode(v, n)) == v
  {
    if n > 0 {
      RoundTrip(v / 32, n - 1);
      DigitRoundTrip(v % 32);
      var s := Encode(v, n);
      assert s[..|s| - 1] == Encode(v / 32, n - 1);
    }
  }

  lemma {:induction false} BeforeSnoc(a: string, b: string, c: char, d: char)
    requires |a| == |b|
    ensures Before(a + [c], b + [d]) <==> Before(a, b) || (a == b && c < d)
  {
    if a == "" {
      assert a + [c] == [c] && b + [d] == [d];
    } else {
      assert (a + [c])[1..] == a[1..] + [c] && (b + [d])[1..] == b[1..] + [d];
      BeforeSnoc(a[1..], b[1..], c, d);
      assert a == [a[0]] + a[1..] && b == [b[0]] + b[1..];
    }
  }

  /** String order on encodings is numeric order, and equal strings are equal values. */
  lemma {:induction false} OrderIsPreserved(v: nat, w: nat, n: nat)
    requires v < Pow32(n) && w < Pow32(n)
    ensures Before(Encode(v, n), Encode(w, n)) <==> v < w
    ensures Encode(v, n) == Encode(w, n) <==> v == w
  {
    if n > 0 {
      OrderIsPreserved(v / 32, w / 32, n - 1);
      BeforeSnoc(Encode(v / 32, n - 1), Encode(w / 32, n - 1), CROCKFORD[v % 32], CROCKFORD[w % 32]);
      if v % 32 < w % 32 { AlphabetIsOrdered(v % 32, w % 32); }
      if w % 32 < v % 32 { AlphabetIsOrdered(w % 32, v % 32); }
    }
    RoundTrip(v, n);
    RoundTrip(w, n);
  }

  // ---------------------------------------------------------------- ids

  const CLOCK: nat := 0x1_0000_0000_0000
  const RANDOM: nat := 0x1_0000_0000_0000_0000_0000

  function Value(ms: nat, rand: nat): nat {
    ms % CLOCK * RANDOM + rand
  }

  lemma ValueFits(ms: nat, rand: nat)
    requires rand < RANDOM
    ensures Value(ms, rand) < CLOCK * RANDOM < Pow32(LENGTH)
  {
    assert Pow32(5) == 0x200_0000;
    assert Pow32(10) == 32 * 32 * 32 * 32 * 32 * Pow32(5) == 0x4_0000_0000_0000;
    assert Pow32(15) == 32 * 32 * 32 * 32 * 32 * Pow32(10);
    assert Pow32(20) == 32 * 32 * 32 * 32 * 32 * Pow32(15);
    assert Pow32(25) == 32 * 32 * 32 * 32 * 32 * Pow32(20);
  }

  /**
   * Produces the 26 digits least significant first, then reverses them.
   * The 48-bit mask makes the clock wrap.
   */
  method NewUlid(ms: nat, rand: nat) returns (id: string)
    requires rand < RANDOM
    ensures |id| == 26 && id == Encode(Value(ms, rand), 26)
    ensures Decode(id) == ms % 0x1_0000_0000_0000 * 0x1_0000_0000_0000_0000_0000 + rand
  {
    var value: nat := ms % CLOCK * RANDOM + rand;
    var chars := "";
    for i := 0 to LENGTH
      invariant |chars| == i
      invariant Encode(Value(ms, rand), LENGTH) == Encode(value, LENGTH - i) + Reversed(chars)
    {
      ghost var before := chars;
      chars := chars + [CROCKFORD[value % 32]];
      ReversedSnoc(before, CROCKFORD[value % 32]);
      value := value / 32;
    }
    ValueFits(ms, rand);
    RoundTrip(Value(ms, rand), LENGTH);
    id := Reversed(chars);
  }

  function Reversed(s: string): (r: string)
    ensures |r| == |s|
  {
    if s == "" then "" else Reversed(s[1..]) + [s[0]]
  }

  lemma {:induction false} ReversedSnoc(s: string, c: char)
    ensures Reversed(s + [c]) == [c] + Reversed(s)
  {
    if s == "" {
      assert s + [c] == [c];
    } else {
      assert (s + [c])[1..] == s[1..] + [c];
      ReversedSnoc(s[1..], c);
    }
  }

  /** Ids sort by masked millisecond, then by the random bits; they are equal only if both agree. */
  lemma IdsSortByTime(ms1: nat, rand1: nat, ms2: nat, rand2: nat)
    requires rand1 < RANDOM && rand2 < RANDOM
    ensures var a, b := Encode(Value(ms1, rand1), 26), Encode(Value(ms2, rand2), 26);
            var t1, t2 := ms1 % 0x1_0000_0000_0000, ms2 % 0x1_0000_0000_0000;
            && (t1 < t2 ==> Before(a, b))
            && (Before(a, b) <==> t1 < t2 || (t1 == t2 && rand1 < rand2))
            && (a == b <==> t1 == t2 && rand1 == rand2)
  {
    ValueFits(ms1, rand1);
    ValueFits(ms2, rand2);
    OrderIsPreserved(Value(ms1, rand1), Value(ms2, rand2), LENGTH);
  }
}
