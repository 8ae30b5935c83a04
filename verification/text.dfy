/** The Java `String` operations the modelled code relies on, restated over
    `seq<char>`. A `char` is one Unicode scalar value, while a Java `String`
    holds UTF-16 code units; the two agree on text inside the Basic
    Multilingual Plane, and each character beyond it is one `char` here but
    two code units in Java, so lengths and positions here count scalar
    values. */
module Text {
  import opened Wrappers

  /** `s.endsWith(suffix)`. */
  predicate EndsWith(s: string, suffix: string) {
    |suffix| <= |s| && s[|s| - |suffix|..] == suffix
  }

  /** Concatenation is associative; stated once so that proofs need not
      redo the element-wise argument. */
  lemma SeqAssoc<T>(x: seq<T>, y: seq<T>, z: seq<T>)
    ensures x + (y + z) == (x + y) + z
  {
  }

  /** `piece` appears in `s` starting at index `at`. */
  predicate OccursAt(s: string, at: nat, piece: string) {
    at + |piece| <= |s| && s[at..at + |piece|] == piece
  }

  /** A piece that occurs right at the end of a text is a suffix of it. */
  lemma OccursAtEnd(s: string, at: nat, piece: string)
    requires OccursAt(s, at, piece) && at + |piece| == |s|
    ensures EndsWith(s, piece)
  {
  }

  /** The filter every listing of a pending directory applies: the path text
      ends with ".mp4", compared case-sensitively. */
  predicate IsMp4(name: string) {
    EndsWith(name, ".mp4")
  }

  /** `s.replace(from, to)` for single characters. */
  function ReplaceChar(s: string, from: char, to: char): string {
    seq(|s|, i requires 0 <= i < |s| => if s[i] == from then to else s[i])
  }

  // ---------------------------------------------------------------------
  // Whitespace, trimming and case
  // ---------------------------------------------------------------------

  /** `String.trim` strips every character up to and including U+0020. */
  predicate IsTrimmable(ch: char) {
    ch <= ' '
  }

  function TrimStart(s: string): (r: string)
    ensures |r| <= |s| && r == s[|s| - |r|..]
    ensures |r| == 0 || !IsTrimmable(r[0])
  {
    if |s| > 0 && IsTrimmable(s[0]) then TrimStart(s[1..]) else s
  }

  function TrimEnd(s: string): (r: string)
    ensures |r| <= |s| && r == s[..|r|]
    ensures |r| == 0 || !IsTrimmable(r[|r| - 1])
  {
    if |s| > 0 && IsTrimmable(s[|s| - 1]) then TrimEnd(s[..|s| - 1]) else s
  }

  /** How many leading characters `s.trim()` drops. */
  function TrimOffset(s: string): nat {
    |s| - |TrimStart(s)|
  }

  /** `s.trim()`: the longest slice of `s` that neither starts nor ends with
      a trimmable character; everything cut away is trimmable. */
  function Trim(s: string): (r: string)
    ensures TrimOffset(s) + |r| <= |s| && r == s[TrimOffset(s)..TrimOffset(s) + |r|]
    ensures |r| == 0 || (!IsTrimmable(r[0]) && !IsTrimmable(r[|r| - 1]))
  {
    TrimEnd(TrimStart(s))
  }

  /** Everything `trim` cuts away is trimmable. */
  lemma TrimCutsOnlyTrimmable(s: string)
    ensures forall k | 0 <= k < |s| && !(TrimOffset(s) <= k < TrimOffset(s) + |Trim(s)|) :: IsTrimmable(s[k])
  {
    var t := TrimStart(s);
    TrimStartCuts(s);
    TrimEndCuts(t);
    assert forall k | TrimOffset(s) <= k < |s| :: s[k] == t[k - TrimOffset(s)];
  }

  lemma {:induction false} TrimStartCuts(s: string)
    ensures forall k | 0 <= k < |s| - |TrimStart(s)| :: IsTrimmable(s[k])
  {
    if |s| > 0 && IsTrimmable(s[0]) {
      TrimStartCuts(s[1..]);
      assert forall k | 1 <= k < |s| :: s[k] == s[1..][k - 1];
    }
  }

  lemma {:induction false} TrimEndCuts(s: string)
    ensures forall k | |TrimEnd(s)| <= k < |s| :: IsTrimmable(s[k])
  {
    if |s| > 0 && IsTrimmable(s[|s| - 1]) {
      TrimEndCuts(s[..|s| - 1]);
      assert forall k | 0 <= k < |s| - 1 :: s[k] == s[..|s| - 1][k];
    }
  }

  /** Trimming a string that neither starts nor ends with a trimmable code
      unit changes nothing. */
  lemma TrimKeeps(s: string)
    requires |s| == 0 || (!IsTrimmable(s[0]) && !IsTrimmable(s[|s| - 1]))
    ensures Trim(s) == s
  {
  }

  /** Trimming text padded on both sides with trimmable characters gives
      the text back, when the text itself starts and ends visibly. */
  lemma TrimPadded(pad: string, text: string)
    requires forall k | 0 <= k < |pad| :: IsTrimmable(pad[k])
    requires 0 < |text| && !IsTrimmable(text[0]) && !IsTrimmable(text[|text| - 1])
    ensures Trim(pad + text + pad) == text
  {
    assert pad + text + pad == pad + (text + pad);
    TrimStartPadded(pad, text + pad);
    TrimEndPadded(text, pad);
  }

  lemma {:induction false} TrimStartPadded(pad: string, rest: string)
    requires forall k | 0 <= k < |pad| :: IsTrimmable(pad[k])
    requires 0 < |rest| && !IsTrimmable(rest[0])
    ensures TrimStart(pad + rest) == rest
    decreases |pad|
  {
    if |pad| == 0 {
      assert pad + rest == rest;
    } else {
      assert (pad + rest)[1..] == pad[1..] + rest;
      TrimStartPadded(pad[1..], rest);
    }
  }

  lemma {:induction false} TrimEndPadded(rest: string, pad: string)
    requires forall k | 0 <= k < |pad| :: IsTrimmable(pad[k])
    requires 0 < |rest| && !IsTrimmable(rest[|rest| - 1])
    ensures TrimEnd(rest + pad) == rest
    decreases |pad|
  {
    if |pad| == 0 {
      assert rest + pad == rest;
    } else {
      var s := rest + pad;
      assert s[..|s| - 1] == rest + pad[..|pad| - 1];
      TrimEndPadded(rest, pad[..|pad| - 1]);
    }
  }

  /** The class `\s` of a Java regular expression: [ \t\n\x0B\f\r]. */
  predicate IsRegexSpace(ch: char) {
    ch == ' ' || ch == '\t' || ch == '\n' || ch as int == 0x0B || ch as int == 0x0C || ch == '\r'
  }

  /** `Character.isWhitespace`: the space, line and paragraph separators other
      than the non-breaking ones, and the nine ASCII control characters. */
  predicate IsJavaWhitespace(ch: char) {
    var c := ch as int;
    (0x09 <= c <= 0x0D) || (0x1C <= c <= 0x20)
    || c == 0x1680 || (0x2000 <= c <= 0x200A && c != 0x2007)
    || c == 0x2028 || c == 0x2029 || c == 0x205F || c == 0x3000
  }

  /** `s.isBlank()`. */
  predicate IsBlank(s: string) {
    forall k :: 0 <= k < |s| ==> IsJavaWhitespace(s[k])
  }

  function AsciiLower(ch: char): char {
    if 'A' <= ch <= 'Z' then (ch as int + 32) as char else ch
  }

  /** `a.equalsIgnoreCase(b)`, with case folding restricted to ASCII. */
  predicate EqualsIgnoreCase(a: string, b: string) {
    |a| == |b| && forall k :: 0 <= k < |a| ==> AsciiLower(a[k]) == AsciiLower(b[k])
  }

  // ---------------------------------------------------------------------
  // Decimal numbers
  // ---------------------------------------------------------------------

  predicate IsDigit(ch: char) {
    '0' <= ch <= '9'
  }

  predicate AllDigits(s: string) {
    forall k :: 0 <= k < |s| ==> IsDigit(s[k])
  }

  /** The value of a string of decimal digits, most significant first. */
  function DigitsValue(s: string): nat
    requires AllDigits(s)
  {
    if |s| == 0 then 0 else DigitsValue(s[..|s| - 1]) * 10 + (s[|s| - 1] as int - '0' as int)
  }

  /** The shortest decimal spelling of `n`. */
  function NatText(n: nat): (r: string)
    ensures 0 < |r| && AllDigits(r)
    ensures DigitsValue(r) == n
  {
    var d := ['0' + (n % 10) as char];
    if n < 10 then d
    else
      var r := NatText(n / 10) + d;
      assert r[..|r| - 1] == NatText(n / 10);
      r
  }

  /** An integer as signed decimal text. */
  function DecimalText(n: int): string {
    if n < 0 then "-" + NatText(-n) else NatText(n)
  }

  /** Reads a decimal numeral with an optional leading '-', the form
      `DecimalText` writes; anything else is rejected. */
  function ParseDecimal(s: string): (r: Option<int>)
    ensures r.Some? ==> 0 < |s| && (s[0] == '-' || IsDigit(s[0]))
    ensures r.Some? ==> forall k :: 0 < k < |s| ==> IsDigit(s[k])
  {
    if 1 < |s| && s[0] == '-' && AllDigits(s[1..]) then var m: int := DigitsValue(s[1..]); Some(-m)
    else if 0 < |s| && AllDigits(s) then Some(DigitsValue(s))
    else None
  }

  lemma DecimalRoundTrip(n: int)
    ensures ParseDecimal(DecimalText(n)) == Some(n)
    ensures ',' !in DecimalText(n)
  {
    if n < 0 {
      assert DecimalText(n)[1..] == NatText(-n);
    }
  }

  const INT_MIN: int := -0x8000_0000
  const INT_MAX: int := 0x7fff_ffff

  /** `Integer.parseInt(s)` with ASCII digits: an optional sign, at least one
      digit, and a value that fits in 32 bits; anything else is `None`
      (a `NumberFormatException`). */
  function ParseInt(s: string): (r: Option<int>)
    ensures r.Some? ==> INT_MIN <= r.value <= INT_MAX
    ensures r.Some? ==> 0 < |s| && (IsDigit(s[0]) || (1 < |s| && (s[0] == '-' || s[0] == '+')))
    ensures r.Some? ==> forall k :: 0 < k < |s| ==> IsDigit(s[k])
  {
    if |s| == 0 then None
    else
      var signed := s[0] == '-' || s[0] == '+';
      var digits := if signed then s[1..] else s;
      if |digits| == 0 || !AllDigits(digits) then None
      else
        var m: int := DigitsValue(digits);
        var v := if s[0] == '-' then -m else m;
        if INT_MIN <= v <= INT_MAX then Some(v) else None
  }

  /** Every 32-bit integer written in decimal parses back to itself. */
  lemma ParseIntRoundTrip(n: int)
    requires INT_MIN <= n <= INT_MAX
    ensures ParseInt(DecimalText(n)) == Some(n)
  {
    if n < 0 {
      assert DecimalText(n)[1..] == NatText(-n);
    } else {
      assert IsDigit(NatText(n)[0]);
    }
  }

  // ---------------------------------------------------------------------
  // Splitting and joining
  // ---------------------------------------------------------------------

  /** `line.split(",", 2)[0]`: the text before the first comma, or the whole
      line when it has none. */
  function BeforeFirstComma(line: string): (r: string)
    ensures |r| <= |line| && r == line[..|r|]
    ensures ',' !in r
    ensures |r| < |line| ==> line[|r|] == ','
  {
    if |line| == 0 || line[0] == ',' then "" else [line[0]] + BeforeFirstComma(line[1..])
  }

  /** `String.join(sep, parts)`. */
  function Join(parts: seq<string>, sep: string): string {
    if |parts| == 0 then ""
    else if |parts| == 1 then parts[0]
    else parts[0] + sep + Join(parts[1..], sep)
  }
}
