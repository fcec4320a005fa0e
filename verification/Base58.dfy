/** Positional numbers, and the Base58 decoder of the address form (frontend/src/lib/bitcoin.ts) against a reference
    encoder (draft-msporny-base58). */
module Base58 {
  import opened Prelude

  // Numbers written most significant digit first.

  predicate AreDigits(ds: seq<nat>, base: nat) { forall i :: 0 <= i < |ds| ==> ds[i] < base }

  function Value(ds: seq<nat>, base: nat): nat {
    if ds == [] then 0 else Value(ds[..|ds| - 1], base) * base + ds[|ds| - 1]
  }

  function Digits(n: nat, base: nat): seq<nat>
    requires base >= 2
  {
    if n == 0 then [] else
      QuotientShrinks(n, base);
      Digits(n / base, base) + [n % base]
  }

  lemma QuotientShrinks(n: nat, base: nat)
    requires n > 0 && base >= 2
    ensures n / base < n
  {
    var q := n / base;
    Recompose(n, base);
    assert q * base == 2 * q + q * (base - 2);
    NotNegative(q, base - 2);
  }

  lemma NotNegative(x: nat, y: nat)
    ensures x * y >= 0
  {
  }

  function Zeros(k: nat): (z: seq<nat>)
    ensures |z| == k && forall i :: 0 <= i < k ==> z[i] == 0
  {
    seq(k, i => 0)
  }

  function LeadingZeros(ds: seq<nat>): (k: nat)
    ensures k <= |ds| && ds[..k] == Zeros(k) && (k < |ds| ==> ds[k] != 0)
  {
    if ds == [] || ds[0] != 0 then 0 else
      var k := 1 + LeadingZeros(ds[1..]);
      assert forall i :: 0 < i < k ==> ds[i] == ds[1..][..k - 1][i - 1];
      k
  }

  lemma ValueAppends(front: seq<nat>, last: nat, base: nat)
    ensures Value(front + [last], base) == Value(front, base) * base + last
  {
    assert (front + [last])[..|front|] == front;
  }

  /** Appending the remainder to the digits of the quotient gives the digits of the number. */
  lemma DigitsGrow(q: nat, r: nat, n: nat, base: nat)
    requires base >= 2 && r < base && n > 0 && n == q * base + r
    requires AreDigits(Digits(q, base), base) && Value(Digits(q, base), base) == q
    requires q > 0 ==> Digits(q, base) != [] && Digits(q, base)[0] != 0
    ensures AreDigits(Digits(q, base) + [r], base) && Value(Digits(q, base) + [r], base) == n
    ensures (Digits(q, base) + [r])[0] != 0
  {
    ValueAppends(Digits(q, base), r, base);
    if q == 0 { assert Digits(q, base) == []; }
  }

  lemma {:induction false} ValueOfDigits(n: nat, base: nat)
    requires base >= 2
    ensures AreDigits(Digits(n, base), base) && Value(Digits(n, base), base) == n
    ensures n > 0 ==> Digits(n, base) != [] && Digits(n, base)[0] != 0
  {
    if n > 0 {
      var q, r := n / base, n % base;
      QuotientShrinks(n, base);
      ValueOfDigits(q, base);
      Recompose(n, base);
      DigitsGrow(q, r, n, base);
    }
  }

  lemma Recompose(n: nat, base: nat)
    requires base >= 2
    ensures n == n / base * base + n % base && n % base < base
  {
  }

  lemma AtLeastOnce(x: int, base: nat)
    requires x >= 1
    ensures x * base >= base
  {
    assert x * base == (x - 1) * base + base;
  }

  lemma SmallMultiple(x: int, base: nat)
    requires x * base < base && (-x) * base < base
    ensures x == 0
  {
    if x >= 1 { AtLeastOnce(x, base); }
    if x <= -1 { AtLeastOnce(-x, base); }
  }

  lemma DivMod(q: nat, r: nat, base: nat)
    requires r < base
    ensures (q * base + r) / base == q && (q * base + r) % base == r
  {
    var n := q * base + r;
    var k, m := n / base, n % base;
    assert n == k * base + m;
    assert (q - k) * base == m - r && (k - q) * base == r - m;
    assert -(q - k) == k - q;
    SmallMultiple(q - k, base);
  }

  lemma DigitsAppend(front: nat, last: nat, base: nat)
    requires base >= 2 && last < base && (front > 0 || last > 0)
    ensures Digits(front * base + last, base) == Digits(front, base) + [last]
  {
    DivMod(front, last, base);
    if front > 0 { AtLeastOnce(front, base); }
  }

  lemma {:induction false} DigitsOfValue(ds: seq<nat>, base: nat)
    requires base >= 2 && AreDigits(ds, base) && (ds != [] ==> ds[0] != 0)
    ensures Digits(Value(ds, base), base) == ds
  {
    if ds != [] {
      var front, last := ds[..|ds| - 1], ds[|ds| - 1];
      DigitsOfValue(front, base);
      DigitsAppend(Value(front, base), last, base);
    }
  }

  lemma {:induction false} LeadingZerosAddNothing(k: nat, ds: seq<nat>, base: nat)
    ensures Value(Zeros(k) + ds, base) == Value(ds, base)
  {
    if ds == [] {
      assert Zeros(k) + ds == Zeros(k);
      if k > 0 {
        assert Zeros(k)[..k - 1] == Zeros(k - 1) + [];
        LeadingZerosAddNothing(k - 1, [], base);
        assert Zeros(k - 1) + [] == Zeros(k - 1);
      }
    } else {
      assert (Zeros(k) + ds)[..k + |ds| - 1] == Zeros(k) + ds[..|ds| - 1];
      LeadingZerosAddNothing(k, ds[..|ds| - 1], base);
    }
  }

  /** Leading zeros apart, a number determines its digits. */
  lemma Canonical(ds: seq<nat>, base: nat)
    requires base >= 2 && AreDigits(ds, base)
    ensures ds == Zeros(LeadingZeros(ds)) + Digits(Value(ds, base), base)
  {
    var k := LeadingZeros(ds);
    assert ds == Zeros(k) + ds[k..];
    LeadingZerosAddNothing(k, ds[k..], base);
    DigitsOfValue(ds[k..], base);
  }

  lemma CountedZeros(k: nat, ds: seq<nat>)
    requires ds != [] ==> ds[0] != 0
    ensures LeadingZeros(Zeros(k) + ds) == k
  {
    var all := Zeros(k) + ds;
    var n := LeadingZeros(all);
    forall i | 0 <= i < n ensures all[i] == 0 { assert all[..n][i] == Zeros(n)[i]; }
    assert forall i :: 0 <= i < k ==> all[i] == 0;
    assert ds != [] ==> all[k] == ds[0];
  }

  lemma CountedFrom(ds: seq<nat>, k: nat)
    requires k <= |ds| && (forall i :: 0 <= i < k ==> ds[i] == 0) && (k < |ds| ==> ds[k] != 0)
    ensures LeadingZeros(ds) == k
  {
    assert ds == Zeros(k) + ds[k..];
    CountedZeros(k, ds[k..]);
  }

  // The alphabet: no zero, no capital I or O, no small l.

  const ALPHABET: string := "123456789" + "ABCDEFGH" + "JKLMN" + "PQRSTUVWXYZ" + "abcdefghijk" + "mnopqrstuvwxyz"

  function LetterOf(digit: nat): char
    requires digit < 58
  {
    if digit < 9 then '1' + digit as char
    else if digit < 17 then 'A' + (digit - 9) as char
    else if digit < 22 then 'J' + (digit - 17) as char
    else if digit < 33 then 'P' + (digit - 22) as char
    else if digit < 44 then 'a' + (digit - 33) as char
    else 'm' + (digit - 44) as char
  }

  /** The digit a letter stands for. */
  function DigitOf(c: char): (r: Option<nat>)
    ensures r.Some? ==> r.value < 58 && LetterOf(r.value) == c
  {
    var n := c as int;
    if '1' <= c <= '9' then Some(n - '1' as int)
    else if 'A' <= c <= 'H' then Some(n - 'A' as int + 9)
    else if 'J' <= c <= 'N' then Some(n - 'J' as int + 17)
    else if 'P' <= c <= 'Z' then Some(n - 'P' as int + 22)
    else if 'a' <= c <= 'k' then Some(n - 'a' as int + 33)
    else if 'm' <= c <= 'z' then Some(n - 'm' as int + 44)
    else None
  }

  lemma DigitOfLetter(digit: nat)
    requires digit < 58
    ensures DigitOf(LetterOf(digit)) == Some(digit)
  {
  }

  lemma AlphabetLists(i: nat)
    requires i < 58
    ensures |ALPHABET| == 58 && ALPHABET[i] == LetterOf(i)
  {
  }

  ghost predicate IsMap(table: map<char, nat>) {
    && (forall c :: c in table <==> DigitOf(c).Some?)
    && (forall c :: c in table ==> DigitOf(c) == Some(table[c]))
  }

  /** The look-up table is filled from the alphabet and holds exactly the digits of its letters. */
  method BuildMap() returns (table: map<char, nat>)
    ensures IsMap(table)
  {
    table := map[];
    AlphabetLists(0);
    for i := 0 to 58
      invariant forall c :: c in table <==> DigitOf(c).Some? && DigitOf(c).value < i
      invariant forall c :: c in table ==> DigitOf(c) == Some(table[c])
    {
      AlphabetLists(i);
      DigitOfLetter(i);
      table := table[ALPHABET[i] := i];
    }
  }

  // The decoder.

  predicate Encodable(value: string) { forall i :: 0 <= i < |value| ==> DigitOf(value[i]).Some? }

  function DigitsOf(value: string): (ds: seq<nat>)
    requires Encodable(value)
    ensures |ds| == |value| && forall i :: 0 <= i < |ds| ==> DigitOf(value[i]) == Some(ds[i])
    ensures AreDigits(ds, 58)
  {
    seq(|value|, i requires 0 <= i < |value| => DigitOf(value[i]).value)
  }

  /** One zero byte per leading '1', then the big-endian bytes of the number. */
  function Decoded(value: string): Option<seq<nat>> {
    if value == "" || !Encodable(value) then None
    else Some(Zeros(LeadingZeros(DigitsOf(value))) + Digits(Value(DigitsOf(value), 58), 256))
  }

  function Reversed(s: seq<nat>): (r: seq<nat>)
    ensures |r| == |s| && forall i :: 0 <= i < |s| ==> r[i] == s[|s| - 1 - i]
  {
    seq(|s|, i requires 0 <= i < |s| => s[|s| - 1 - i])
  }

  lemma LeadingOnes(value: string, k: nat)
    requires Encodable(value) && k <= |value| && (forall i :: 0 <= i < k ==> value[i] == '1')
    requires k < |value| ==> value[k] != '1'
    ensures LeadingZeros(DigitsOf(value)) == k
  {
    forall i | 0 <= i < |value| ensures DigitsOf(value)[i] == 0 <==> value[i] == '1' {
      assert DigitOf(value[i]) == Some(DigitsOf(value)[i]);
    }
    CountedFrom(DigitsOf(value), k);
  }

  /** The first loop: the number the letters write in base 58, unless one of them is not in the alphabet. */
  method Accumulate(value: string, table: map<char, nat>) returns (num: Option<nat>)
    requires IsMap(table)
    ensures num == if Encodable(value) then Some(Value(DigitsOf(value), 58)) else None
  {
    var n := 0;
    for i := 0 to |value|
      invariant Encodable(value[..i])
      invariant n == Value(DigitsOf(value[..i]), 58)
    {
      if value[i] !in table { return None; }
      var digit := table[value[i]];
      Snoc(value, i);
      ValueAppends(DigitsOf(value[..i]), digit, 58);
      n := n * 58 + digit;
    }
    assert value[..|value|] == value;
    return Some(n);
  }

  lemma Snoc(value: string, i: nat)
    requires i < |value| && Encodable(value[..i]) && DigitOf(value[i]).Some?
    ensures Encodable(value[..i + 1])
    ensures DigitsOf(value[..i + 1]) == DigitsOf(value[..i]) + [DigitOf(value[i]).value]
  {
    assert value[..i + 1] == value[..i] + [value[i]];
    var whole, front := DigitsOf(value[..i + 1]), DigitsOf(value[..i]);
    forall j | 0 <= j < i ensures whole[j] == front[j] {
      assert value[..i + 1][j] == value[..i][j];
    }
    assert DigitOf(value[..i + 1][i]) == Some(whole[i]);
  }

  /** The second loop pushes the bytes, least significant first, and reverses them. */
  method BytesOf(number: nat) returns (bytes: seq<nat>)
    ensures bytes == Digits(number, 256)
  {
    var num := number;
    bytes := [];
    while num > 0
      invariant Digits(number, 256) == Digits(num, 256) + Reversed(bytes)
    {
      assert Reversed(bytes + [num % 256]) == [num % 256] + Reversed(bytes);
      bytes := bytes + [num % 256];
      num := num / 256;
    }
    bytes := Reversed(bytes);
  }

  method CountOnes(value: string) returns (leading: nat)
    ensures Encodable(value) ==> leading == LeadingZeros(DigitsOf(value))
  {
    leading := 0;
    while leading < |value| && value[leading] == '1'
      invariant leading <= |value| && forall i :: 0 <= i < leading ==> value[i] == '1'
    {
      leading := leading + 1;
    }
    if Encodable(value) { LeadingOnes(value, leading); }
  }

  /** The last loop writes the bytes behind the zeros the array starts with. */
  method Padded(leading: nat, bytes: seq<nat>) returns (filled: seq<nat>)
    ensures filled == Zeros(leading) + bytes
  {
    var result := new nat[leading + |bytes|](_ => 0);
    for i := 0 to |bytes|
      invariant forall k :: 0 <= k < leading ==> result[k] == 0
      invariant forall k :: leading <= k < leading + i ==> result[k] == bytes[k - leading]
    {
      result[leading + i] := bytes[i];
    }
    filled := result[..];
  }

  method DecodeBase58(value: string) returns (r: Option<seq<nat>>)
    ensures r == Decoded(value)
  {
    if value == "" { return None; }
    var table := BuildMap();
    var num := Accumulate(value, table);
    if num.None? { return None; }
    var bytes := BytesOf(num.value);
    var leading := CountOnes(value);
    var result := Padded(leading, bytes);
    return Some(result);
  }

  // The reference encoder and the round trips.

  function Letters(ds: seq<nat>): (value: string)
    requires AreDigits(ds, 58)
    ensures |value| == |ds| && forall i :: 0 <= i < |ds| ==> value[i] == LetterOf(ds[i])
  {
    seq(|ds|, i requires 0 <= i < |ds| => LetterOf(ds[i]))
  }

  /** One '1' per leading zero byte, then the digits of the big-endian number. */
  function Encoded(bytes: seq<nat>): string
    requires AreDigits(bytes, 256)
  {
    ValueOfDigits(Value(bytes, 256), 58);
    Letters(Zeros(LeadingZeros(bytes)) + Digits(Value(bytes, 256), 58))
  }

  lemma LettersAndDigits(ds: seq<nat>)
    requires AreDigits(ds, 58)
    ensures Encodable(Letters(ds)) && DigitsOf(Letters(ds)) == ds
  {
    forall i | 0 <= i < |ds| ensures DigitOf(Letters(ds)[i]) == Some(ds[i]) { DigitOfLetter(ds[i]); }
  }

  lemma DigitsAndLetters(value: string)
    requires Encodable(value)
    ensures Letters(DigitsOf(value)) == value
  {
  }

  /** Canonical digit strings of one number in two bases, each after the same number of zeros. */
  lemma Rebased(k: nat, n: nat, base: nat)
    requires base >= 2
    ensures AreDigits(Zeros(k) + Digits(n, base), base)
    ensures LeadingZeros(Zeros(k) + Digits(n, base)) == k && Value(Zeros(k) + Digits(n, base), base) == n
  {
    ValueOfDigits(n, base);
    CountedZeros(k, Digits(n, base));
    LeadingZerosAddNothing(k, Digits(n, base), base);
  }

  /** Decoding undoes encoding. */
  lemma DecodeEncode(bytes: seq<nat>)
    requires AreDigits(bytes, 256)
    ensures Decoded(Encoded(bytes)) == if bytes == [] then None else Some(bytes)
  {
    var k, n := LeadingZeros(bytes), Value(bytes, 256);
    Rebased(k, n, 58);
    Canonical(bytes, 256);
    LettersAndDigits(Zeros(k) + Digits(n, 58));
    if bytes != [] && k == 0 { NonZeroValue(bytes); }
  }

  lemma NonZeroValue(bytes: seq<nat>)
    requires AreDigits(bytes, 256) && bytes != [] && bytes[0] != 0
    ensures Value(bytes, 256) > 0
  {
    DigitsOfValue(bytes, 256);
  }

  /** Encoding undoes decoding: an address string is the only one with its bytes. */
  lemma EncodeDecode(value: string)
    requires Decoded(value).Some?
    ensures AreDigits(Decoded(value).value, 256) && Encoded(Decoded(value).value) == value
  {
    var ds := DigitsOf(value);
    var k, n := LeadingZeros(ds), Value(ds, 58);
    Rebased(k, n, 256);
    Canonical(ds, 58);
    DigitsAndLetters(value);
  }

  lemma DecodingIsInjective(a: string, b: string)
    requires Decoded(a).Some? && Decoded(a) == Decoded(b)
    ensures a == b
  {
    EncodeDecode(a);
    EncodeDecode(b);
  }
}
