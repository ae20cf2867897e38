/** The parts of JavaScript string and regular-expression behaviour that the
    note-tag and comment-tag readers rely on: the whitespace set of `trim` and
    `parseInt`, ASCII case folding of a case-insensitive (`/i`) pattern, digit
    runs and their values, and the leftmost-match search of `String.match`. */
module JsText {
  import opened Common

  /** LineTerminator code points; `.` in a pattern does not match them. */
  predicate IsLineTerminator(c: char)
  {
    c == '\n' || c == '\r' || c == '\U{2028}' || c == '\U{2029}'
  }

  /** WhiteSpace and LineTerminator code points: what `trim` and `parseInt` skip. */
  predicate IsSpace(c: char)
  {
    || IsLineTerminator(c)
    || c == '\t' || c == '\U{B}' || c == '\U{C}' || c == ' ' || c == '\U{A0}'
    || c == '\U{1680}' || ('\U{2000}' <= c <= '\U{200A}')
    || c == '\U{202F}' || c == '\U{205F}' || c == '\U{3000}' || c == '\U{FEFF}'
  }

  /** `trimStart`: drops the leading whitespace and nothing else. */
  function TrimStart(s: string): (r: string)
    ensures |r| <= |s| && r == s[|s| - |r|..]
    ensures r == [] || !IsSpace(r[0])
    ensures forall i :: 0 <= i < |s| - |r| ==> IsSpace(s[i])
  {
    if |s| > 0 && IsSpace(s[0]) then TrimStart(s[1..]) else s
  }

  /** `trimEnd`: drops the trailing whitespace and nothing else. */
  function TrimEnd(s: string): (r: string)
    ensures |r| <= |s| && r == s[..|r|]
    ensures r == [] || !IsSpace(r[|r| - 1])
    ensures forall i :: |r| <= i < |s| ==> IsSpace(s[i])
  {
    if |s| > 0 && IsSpace(s[|s| - 1]) then TrimEnd(s[..|s| - 1]) else s
  }

  function Trim(s: string): string
  {
    TrimEnd(TrimStart(s))
  }

  function LowerChar(c: char): char
  {
    if 'A' <= c <= 'Z' then (c as int + 32) as char else c
  }

  /** `toLowerCase` on the ASCII letters. */
  function ToLowerAscii(s: string): (r: string)
    ensures |r| == |s|
    ensures forall i :: 0 <= i < |s| ==> r[i] == LowerChar(s[i])
  {
    if s == [] then [] else [LowerChar(s[0])] + ToLowerAscii(s[1..])
  }

  /** The literal `lit` occurs in `s` at `p`; with `ci` (the `/i` flag) ASCII
      letters match either case. Letters outside ASCII never fold onto an
      ASCII letter in a pattern without the `u` flag. */
  predicate LiteralAt(s: string, p: nat, lit: string, ci: bool)
  {
    && p + |lit| <= |s|
    && forall i :: 0 <= i < |lit| ==>
         if ci then LowerChar(s[p + i]) == LowerChar(lit[i]) else s[p + i] == lit[i]
  }

  predicate IsDigit(c: char)
  {
    '0' <= c <= '9'
  }

  predicate IsHexDigit(c: char)
  {
    IsDigit(c) || 'a' <= c <= 'f' || 'A' <= c <= 'F'
  }

  function DigitValue(c: char): nat
    requires IsDigit(c)
  {
    c as int - '0' as int
  }

  function HexDigitValue(c: char): (v: nat)
    requires IsHexDigit(c)
    ensures v < 16
  {
    if IsDigit(c) then DigitValue(c)
    else if 'a' <= c <= 'f' then c as int - 'a' as int + 10
    else c as int - 'A' as int + 10
  }

  predicate AllDigits(s: string)
  {
    forall i :: 0 <= i < |s| ==> IsDigit(s[i])
  }

  predicate AllHexDigits(s: string)
  {
    forall i :: 0 <= i < |s| ==> IsHexDigit(s[i])
  }

  /** The value of a run of decimal digits (`Number` of a `\d+` capture). */
  function DecimalValue(ds: string): nat
    requires AllDigits(ds)
  {
    if ds == [] then 0 else 10 * DecimalValue(ds[..|ds| - 1]) + DigitValue(ds[|ds| - 1])
  }

  /** The value of a run of hexadecimal digits. */
  function HexValue(ds: string): nat
    requires AllHexDigits(ds)
  {
    if ds == [] then 0 else 16 * HexValue(ds[..|ds| - 1]) + HexDigitValue(ds[|ds| - 1])
  }

  function DigitChar(d: nat): (c: char)
    requires d < 10
    ensures IsDigit(c) && DigitValue(c) == d
  {
    ('0' as int + d) as char
  }

  /** The decimal text of `n` (`String(n)` for a non-negative integer). */
  function Decimal(n: nat): (r: string)
    ensures |r| >= 1 && AllDigits(r)
  {
    if n < 10 then [DigitChar(n)] else Decimal(n / 10) + [DigitChar(n % 10)]
  }

  lemma {:induction false} DecimalRoundTrip(n: nat)
    ensures DecimalValue(Decimal(n)) == n
  {
    if n >= 10 {
      DecimalRoundTrip(n / 10);
      var r := Decimal(n);
      assert r[..|r| - 1] == Decimal(n / 10);
    }
  }

  /** Length of the longest run of characters satisfying `inRun` from `p` on
      (what a greedy `\d+` or `[0-9a-f]+` consumes). */
  function RunLength(s: string, p: nat, inRun: char -> bool): (n: nat)
    requires p <= |s|
    decreases |s| - p
    ensures p + n <= |s|
    ensures forall i :: p <= i < p + n ==> inRun(s[i])
    ensures p + n == |s| || !inRun(s[p + n])
  {
    if p < |s| && inRun(s[p]) then 1 + RunLength(s, p + 1, inRun) else 0
  }

  /** Leftmost position in `p..|s|` at which the pattern `m` matches, with what
      it captured: the search `String.match` performs for a pattern without the
      `g` flag. */
  function FirstMatch<T>(s: string, p: nat, m: (string, nat) -> Option<T>): (r: Option<(nat, T)>)
    decreases |s| + 1 - p
    ensures r.Some? ==> p <= r.value.0 <= |s| && m(s, r.value.0) == Some(r.value.1)
    ensures r.Some? ==> forall k :: p <= k < r.value.0 ==> m(s, k).None?
    ensures r.None? ==> forall k :: p <= k <= |s| ==> m(s, k).None?
  {
    if p > |s| then None
    else match m(s, p)
      case Some(v) => Some((p, v))
      case None => FirstMatch(s, p + 1, m)
  }

  /** The first line on which `m` finds something, with its index: a `for`
      loop over lines that returns on the first match. */
  function FirstLine<T>(lines: seq<string>, m: string -> Option<T>): (r: Option<(nat, T)>)
    ensures r.Some? ==> r.value.0 < |lines| && m(lines[r.value.0]) == Some(r.value.1)
    ensures r.Some? ==> forall i :: 0 <= i < r.value.0 ==> m(lines[i]).None?
    ensures r.None? ==> forall i :: 0 <= i < |lines| ==> m(lines[i]).None?
  {
    if lines == [] then None
    else match m(lines[0])
      case Some(v) => Some((0, v))
      case None =>
        match FirstLine(lines[1..], m)
        case None => None
        case Some(found) => Some((found.0 + 1, found.1))
  }

  /** A tag `<header digits>` ends at `p`: `header` matched case-insensitively,
      then one or more decimal digits `ds`, then `>`. */
  ghost predicate DigitsTag(s: string, p: nat, header: string, ds: string)
  {
    && LiteralAt(s, p, header, true)
    && |ds| >= 1 && AllDigits(ds)
    && p + |header| + |ds| < |s|
    && s[p + |header| .. p + |header| + |ds|] == ds
    && s[p + |header| + |ds|] == '>'
  }

  /** What the pattern `/<header(\d+)>/i` captures when it is tried at `p`. */
  function DigitsTagAt(s: string, p: nat, header: string): Option<string>
  {
    if !LiteralAt(s, p, header, true) then None
    else
      var q := p + |header|;
      var n := RunLength(s, q, IsDigit);
      if n >= 1 && q + n < |s| && s[q + n] == '>' then Some(s[q .. q + n]) else None
  }

  /** The capture at `p` is exactly the digits of a well-formed tag there, and
      there is a capture whenever there is such a tag. */
  lemma DigitsTagAtIff(s: string, p: nat, header: string, ds: string)
    ensures DigitsTagAt(s, p, header) == Some(ds) <==> DigitsTag(s, p, header, ds)
  {
  }
  /** A match at `p` with none before it is what the search returns. */
  lemma {:induction false} FirstMatchAt<T>(s: string, from: nat, p: nat, m: (string, nat) -> Option<T>, v: T)
    requires from <= p <= |s| && m(s, p) == Some(v)
    requires forall k :: from <= k < p ==> m(s, k).None?
    ensures FirstMatch(s, from, m) == Some((p, v))
    decreases p - from
  {
    if from < p {
      FirstMatchAt(s, from + 1, p, m, v);
    }
  }

  /** A line `i` on which `m` finds `v`, with nothing found on the lines
      before it, is what `FirstLine` returns. */
  lemma FirstLineAt<T>(lines: seq<string>, m: string -> Option<T>, i: nat, v: T)
    requires i < |lines| && m(lines[i]) == Some(v)
    requires forall j :: 0 <= j < i ==> m(lines[j]).None?
    ensures FirstLine(lines, m) == Some((i, v))
  {
    var r := FirstLine(lines, m);
    assert r.Some? && r.value.0 == i;
  }
}
