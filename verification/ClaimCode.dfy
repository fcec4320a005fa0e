/** Session tokens and the claim codes people copy by hand (http.rs). */
module ClaimCode {
  import opened Prelude

  const PREFIX: string := "st_"
  const HEX_LEN: nat := 32
  const GROUP_LEN: nat := 8

  // Characters.

  predicate IsDigit(c: char) { '0' <= c <= '9' }

  predicate IsHex(c: char) { IsDigit(c) || 'a' <= c <= 'f' || 'A' <= c <= 'F' }

  /** The White_Space property of the Unicode standard. */
  predicate IsSpace(c: char) {
    var n := c as int;
    || 9 <= n <= 13 || n == 0x20 || n == 0x85 || n == 0xA0 || n == 0x1680
    || 0x2000 <= n <= 0x200A || n == 0x2028 || n == 0x2029 || n == 0x202F || n == 0x205F || n == 0x3000
  }

  predicate IsSeparator(c: char) { c == '-' || IsSpace(c) }

  function Lower(c: char): char { if 'A' <= c <= 'Z' then c + 'a' - 'A' else c }

  function Upper(c: char): char { if 'a' <= c <= 'z' then c - 'a' + 'A' else c }

  const CAPITALS := "ABCDEFGHIJKLMNOPQRSTUVWXYZ"
  const SMALLS := "abcdefghijklmnopqrstuvwxyz"
  const ASCII_SPACES := "\t\n\U{000B}\U{000C}\r "
  const WIDE_SPACES := "\U{2000}\U{2001}\U{2002}\U{2003}\U{2004}\U{2005}\U{2006}\U{2007}\U{2008}\U{2009}\U{200A}"
  const OTHER_SPACES := "\U{0085}\U{00A0}\U{1680}\U{2028}\U{2029}\U{202F}\U{205F}\U{3000}"

  lemma SpacesExactly(c: char)
    ensures IsSpace(c) <==> c in ASCII_SPACES || c in WIDE_SPACES || c in OTHER_SPACES
  {
  }

  /** Case changes exchange the letters of the alphabet and leave everything else. */
  lemma CaseExactly(k: nat, c: char)
    requires k < 26
    ensures Lower(CAPITALS[k]) == SMALLS[k] && Upper(SMALLS[k]) == CAPITALS[k]
    ensures c !in CAPITALS ==> Lower(c) == c
    ensures c !in SMALLS ==> Upper(c) == c
  {
    if 'A' <= c <= 'Z' { assert CAPITALS[c as int - 'A' as int] == c; }
    if 'a' <= c <= 'z' { assert SMALLS[c as int - 'a' as int] == c; }
  }

  function Lowered(s: string): (r: string)
    ensures |r| == |s| && forall i :: 0 <= i < |s| ==> r[i] == Lower(s[i])
  {
    seq(|s|, i requires 0 <= i < |s| => Lower(s[i]))
  }

  function Uppered(s: string): (r: string)
    ensures |r| == |s| && forall i :: 0 <= i < |s| ==> r[i] == Upper(s[i])
  {
    seq(|s|, i requires 0 <= i < |s| => Upper(s[i]))
  }

  predicate AllHex(s: string) { forall i :: 0 <= i < |s| ==> IsHex(s[i]) }

  /** The secret part of a token: 32 lower-case hexadecimal digits. */
  predicate IsPayload(p: string) {
    |p| == HEX_LEN && forall i :: 0 <= i < |p| ==> IsDigit(p[i]) || 'a' <= p[i] <= 'f'
  }

  function TrimStart(s: string): string { if s != "" && IsSpace(s[0]) then TrimStart(s[1..]) else s }

  function TrimEnd(s: string): string {
    if s != "" && IsSpace(s[|s| - 1]) then TrimEnd(s[..|s| - 1]) else s
  }

  function Trim(s: string): string { TrimEnd(TrimStart(s)) }

  // The two normalisers and the code.

  function SessionToken(value: string): Option<string> {
    var trimmed := Trim(value);
    if !(PREFIX <= trimmed) then None else
      var payload := trimmed[|PREFIX|..];
      if |payload| != HEX_LEN || !AllHex(payload) then None else Some(PREFIX + Lowered(payload))
  }

  function Kept(s: string): string {
    if s == "" then "" else
      var front, last := Kept(s[..|s| - 1]), s[|s| - 1];
      if IsSeparator(last) then front else front + [last]
  }

  function Body(input: string): string {
    var trimmed := Trim(input);
    if PREFIX <= trimmed then trimmed[|PREFIX|..] else trimmed
  }

  function Normalized(input: string): Option<string> {
    var kept := Kept(Body(input));
    if AllHex(kept) && |kept| == HEX_LEN then Some(Lowered(kept)) else None
  }

  /** One pass that drops separators, lower-cases digits and gives up at any other character. */
  method NormalizeClaimCode(input: string) returns (r: Option<string>)
    ensures r == Normalized(input)
  {
    var body := Body(input);
    var filtered := "";
    for i := 0 to |body|
      invariant AllHex(Kept(body[..i])) && filtered == Lowered(Kept(body[..i]))
    {
      var ch := body[i];
      assert body[..i + 1][..i] == body[..i];
      if IsSeparator(ch) { continue; }
      if !IsHex(ch) {
        KeptStays(body, i);
        return None;
      }
      filtered := filtered + [Lower(ch)];
    }
    assert body[..|body|] == body;
    r := if |filtered| != HEX_LEN then None else Some(filtered);
  }

  lemma {:induction false} KeptStays(s: string, i: nat)
    requires i < |s| && !IsSeparator(s[i])
    ensures s[i] in Kept(s)
  {
    if i < |s| - 1 { KeptStays(s[..|s| - 1], i); }
  }

  function Grouped(s: string): string {
    if |s| <= GROUP_LEN then s else s[..GROUP_LEN] + "-" + Grouped(s[GROUP_LEN..])
  }

  function Code(payload: string): string { Grouped(Uppered(payload)) }

  /** Blocks of eight, a dash between neighbours: every ninth character is a dash and the rest keep their order. */
  lemma {:induction false} GroupedLayout(s: string, i: nat)
    ensures |Grouped(s)| == if s == "" then 0 else |s| + (|s| - 1) / GROUP_LEN
    ensures i < |Grouped(s)| ==>
              && (i % 9 == 8 || i / 9 * 8 + i % 9 < |s|)
              && Grouped(s)[i] == if i % 9 == 8 then '-' else s[i / 9 * 8 + i % 9]
  {
    if |s| > GROUP_LEN {
      GroupedLayout(s[GROUP_LEN..], if i < 9 then 0 else i - 9);
    }
  }

  // What normalising keeps.

  lemma {:induction false} KeptConcat(a: string, b: string)
    ensures Kept(a + b) == Kept(a) + Kept(b)
  {
    if b == "" {
      assert a + b == a;
    } else {
      assert (a + b)[..|a + b| - 1] == a + b[..|b| - 1];
      KeptConcat(a, b[..|b| - 1]);
    }
  }

  lemma {:induction false} TrimStartKeeps(s: string)
    ensures Kept(TrimStart(s)) == Kept(s) && (forall c :: c in TrimStart(s) ==> c in s)
  {
    if s != "" && IsSpace(s[0]) {
      TrimStartKeeps(s[1..]);
      assert s == s[..1] + s[1..];
      KeptConcat(s[..1], s[1..]);
    }
  }

  lemma {:induction false} TrimEndKeeps(s: string)
    ensures Kept(TrimEnd(s)) == Kept(s) && (forall c :: c in TrimEnd(s) ==> c in s)
  {
    if s != "" && IsSpace(s[|s| - 1]) { TrimEndKeeps(s[..|s| - 1]); }
  }

  /** Only digits and separators, as in every code that is copied faithfully. */
  predicate Spelled(s: string) { forall c :: c in s ==> IsHex(c) || IsSeparator(c) }

  lemma SpelledBody(s: string)
    requires Spelled(s)
    ensures Kept(Body(s)) == Kept(s)
  {
    TrimStartKeeps(s);
    TrimEndKeeps(TrimStart(s));
    if Trim(s) != "" { assert Trim(s)[0] in s; }
    assert PREFIX[0] == 's';
  }

  /** Which inputs resume the session with payload p: exactly those whose letters, separators and an optional
      prefix apart and case ignored, are p. */
  lemma NormalizedMeaning(input: string, p: string)
    ensures Normalized(input) == Some(p) <==> IsPayload(p) && Lowered(Kept(Body(input))) == p
  {
    var kept := Kept(Body(input));
    if IsPayload(p) && Lowered(kept) == p {
      forall i | 0 <= i < |kept| ensures IsHex(kept[i]) { assert p[i] == Lower(kept[i]); }
    }
  }

  /** Separators and case do not matter. */
  lemma SpellingIsIrrelevant(a: string, b: string)
    requires Spelled(a) && Spelled(b) && Lowered(Kept(a)) == Lowered(Kept(b))
    ensures Normalized(a) == Normalized(b)
  {
    SpelledBody(a);
    SpelledBody(b);
    var ka, kb := Kept(a), Kept(b);
    forall i | 0 <= i < |ka| ensures IsHex(ka[i]) <==> IsHex(kb[i]) {
      assert Lowered(ka)[i] == Lower(ka[i]) && Lowered(kb)[i] == Lower(kb[i]);
    }
  }

  lemma SeparatorsAreIrrelevant(a: string, b: string, gap: string)
    requires Spelled(a) && Spelled(b) && (forall c :: c in gap ==> IsSeparator(c))
    ensures Normalized(a + gap + b) == Normalized(a + b)
  {
    KeptConcat(a + gap, b);
    KeptConcat(a, gap);
    KeptConcat(a, b);
    GapVanishes(gap);
    assert Kept(a + gap + b) == Kept(a + b);
    SpellingIsIrrelevant(a + gap + b, a + b);
  }

  lemma {:induction false} GapVanishes(gap: string)
    requires forall c :: c in gap ==> IsSeparator(c)
    ensures Kept(gap) == ""
  {
    if gap != "" { GapVanishes(gap[..|gap| - 1]); }
  }

  lemma {:induction false} KeptOfPlain(s: string)
    requires forall c :: c in s ==> !IsSeparator(c)
    ensures Kept(s) == s
  {
    if s != "" { KeptOfPlain(s[..|s| - 1]); }
  }

  lemma {:induction false} KeptOfGrouped(s: string)
    requires forall c :: c in s ==> !IsSeparator(c)
    ensures Kept(Grouped(s)) == s && (forall c :: c in Grouped(s) ==> c in s || c == '-')
  {
    if |s| <= GROUP_LEN {
      KeptOfPlain(s);
    } else {
      var head, tail := s[..GROUP_LEN], s[GROUP_LEN..];
      KeptOfPlain(head);
      KeptOfGrouped(tail);
      KeptConcat(head + "-", Grouped(tail));
      KeptConcat(head, "-");
      GapVanishes("-");
      assert Kept(Grouped(s)) == head + tail;
    }
  }

  lemma UpperedPayload(p: string)
    requires IsPayload(p)
    ensures Lowered(Uppered(p)) == p
    ensures forall c :: c in Uppered(p) ==> IsHex(c) && !IsSeparator(c)
  {
    forall i | 0 <= i < |p| ensures Lower(Upper(p[i])) == p[i] && IsHex(Upper(p[i])) && !IsSeparator(Upper(p[i])) {}
  }

  /** A code leads back to the payload it was made from. */
  lemma RoundTrip(p: string)
    requires IsPayload(p)
    ensures Normalized(Code(p)) == Some(p)
  {
    UpperedPayload(p);
    KeptOfGrouped(Uppered(p));
    SpelledBody(Code(p));
    NormalizedMeaning(Code(p), p);
  }

  lemma NothingToTrim(s: string)
    requires s != "" && !IsSpace(s[0]) && !IsSpace(s[|s| - 1])
    ensures Trim(s) == s
  {
  }

  lemma PayloadIsPlain(p: string)
    requires IsPayload(p)
    ensures Trim(PREFIX + p) == PREFIX + p && Kept(p) == p && Lowered(p) == p
  {
    KeptOfPlain(p);
    NothingToTrim(PREFIX + p);
  }

  /** Whatever spelling is accepted, the token rebuilt from it is the one the header check accepts unchanged, and
      that token and the code shown again both lead back to the same session. */
  lemma ResumeIsStable(input: string)
    requires Normalized(input).Some?
    ensures var p := Normalized(input).value;
            && IsPayload(p)
            && SessionToken(PREFIX + p) == Some(PREFIX + p)
            && Normalized(PREFIX + p) == Some(p)
            && Normalized(Code(p)) == Some(p)
  {
    var p := Normalized(input).value;
    NormalizedMeaning(input, p);
    PayloadIsPlain(p);
    RoundTrip(p);
    assert (PREFIX + p)[|PREFIX|..] == p;
    NormalizedMeaning(PREFIX + p, p);
  }

  /** Every accepted header value is a token of this form, in one spelling. */
  lemma TokenIsCanonical(value: string)
    requires SessionToken(value).Some?
    ensures var t := SessionToken(value).value;
            && PREFIX <= t && IsPayload(t[|PREFIX|..])
            && SessionToken(t) == Some(t)
            && Normalized(value) == Some(t[|PREFIX|..])
  {
    var payload := Trim(value)[|PREFIX|..];
    var p := Lowered(payload);
    assert SessionToken(value).value[|PREFIX|..] == p;
    PayloadIsPlain(p);
    assert (PREFIX + p)[|PREFIX|..] == p;
    KeptOfPlain(payload);
  }
}
