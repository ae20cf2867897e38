/** JosoLightningSystem.js on the map: the colour decoder `hexToRgb`, the
    three readers of an event's comment tags (`<lightRadius:N>`,
    `<lightColor:#rrggbb>`, `<lightFlicker:true>`), and the one-shot pass of
    `Spriteset_Map.update` that creates a light for every lit event. */
module Lighting {
  import opened Common
  import opened JsText

  /** The `{ r, g, b }` object `hexToRgb` returns. */
  datatype Rgb = Rgb(r: nat, g: nat, b: nat)

  predicate IsByteColor(c: Rgb)
  {
    c.r < 256 && c.g < 256 && c.b < 256
  }

  const White := Rgb(255, 255, 255)

  /** `hex.replace(/^#/, "")`: one leading `#` goes. */
  function StripHash(s: string): string
  {
    if |s| > 0 && s[0] == '#' then s[1..] else s
  }

  /** The three-digit form, each digit doubled; any other length is kept. */
  function Expand(h: string): string
  {
    if |h| == 3 then [h[0], h[0], h[1], h[1], h[2], h[2]] else h
  }

  /** `parseInt(s, 16)`, with `None` for NaN: leading whitespace is skipped,
      then one sign, then an optional `0x`/`0X`; the value is that of the
      longest run of hexadecimal digits that follows, and NaN when the run is
      empty. The value is exact: JavaScript rounds a run worth more than 2^53
      to a double, which this function does not. */
  function ParseIntHex(s: string): Option<int>
  {
    var t := TrimStart(s);
    var negative := |t| > 0 && t[0] == '-';
    var w := SkipHexPrefix(SkipSign(t));
    var n := RunLength(w, 0, IsHexDigit);
    if n == 0 then None
    else
      var v: int := HexValue(w[..n]);
      Some(if negative then -v else v)
  }

  function SkipSign(t: string): string
  {
    if |t| > 0 && (t[0] == '-' || t[0] == '+') then t[1..] else t
  }

  function SkipHexPrefix(u: string): string
  {
    if |u| >= 2 && u[0] == '0' && (u[1] == 'x' || u[1] == 'X') then u[2..] else u
  }

  /** `(v >> 16) & 255`, `(v >> 8) & 255` and `v & 255`: bits 16-23, 8-15 and
      0-7 of the two's complement of `v` (Dafny's `/` and `%` floor, as the
      shift of a negative number does). */
  function Channels(v: int): (c: Rgb)
    ensures IsByteColor(c)
  {
    Rgb((v / 65536) % 256, (v / 256) % 256, v % 256)
  }

  /** `hexToRgb(hex)`: nothing when the text does not parse as hexadecimal,
      otherwise three components in `[0, 255]`. */
  function HexToRgb(hex: string): (c: Option<Rgb>)
    ensures c.None? <==> ParseIntHex(Expand(StripHash(hex))).None?
    ensures c.Some? ==> IsByteColor(c.value)
  {
    match ParseIntHex(Expand(StripHash(hex)))
    case None => None
    case Some(v) => Some(Channels(v))
  }

  lemma HexDigitNotSpace(c: char)
    requires IsHexDigit(c)
    ensures !IsSpace(c) && c != '+' && c != '-' && c != 'x' && c != 'X'
  {
  }

  /** The digit run over a text of hexadecimal digits is the whole text. */
  lemma {:induction false} HexRunIsAll(d: string, p: nat)
    requires p <= |d| && AllHexDigits(d)
    ensures RunLength(d, p, IsHexDigit) == |d| - p
    decreases |d| - p
  {
    if p < |d| {
      HexRunIsAll(d, p + 1);
    }
  }

  /** Text that `parseInt` takes as it is, with no space, sign or prefix to
      skip, parses to the value of its leading run of digits. */
  lemma ParseIntHexRun(w: string, n: nat)
    requires 1 <= n <= |w| && w[0] != '-'
    requires TrimStart(w) == w && SkipHexPrefix(SkipSign(w)) == w
    requires RunLength(w, 0, IsHexDigit) == n
    ensures AllHexDigits(w[..n]) && ParseIntHex(w) == Some(HexValue(w[..n]))
  {
  }

  /** A text made of hexadecimal digits parses to their exact value. */
  lemma ParseIntHexDigits(d: string)
    requires |d| >= 1 && AllHexDigits(d)
    ensures ParseIntHex(d) == Some(HexValue(d))
  {
    NothingToSkip(d);
    HexRunIsAll(d, 0);
    ParseIntHexRun(d, |d|);
    assert d[..|d|] == d;
  }

  /** Before a text of hexadecimal digits `parseInt` skips nothing. */
  lemma NothingToSkip(d: string)
    requires |d| >= 1 && AllHexDigits(d)
    ensures d[0] != '-' && TrimStart(d) == d && SkipHexPrefix(SkipSign(d)) == d
  {
    HexDigitNotSpace(d[0]);
    assert SkipSign(d) == d;
    if |d| >= 2 {
      HexDigitNotSpace(d[1]);
    }
  }

  /** Text that does not start with whitespace, a sign or a hexadecimal digit
      is NaN to `parseInt`. */
  lemma ParseIntHexNaN(s: string)
    requires |s| == 0 || !(IsSpace(s[0]) || s[0] == '+' || s[0] == '-' || IsHexDigit(s[0]))
    ensures ParseIntHex(s).None?
  {
    assert TrimStart(s) == s;
    assert SkipSign(s) == s;
    assert SkipHexPrefix(s) == s;
  }

  /** One more digit multiplies the value so far by 16. */
  lemma HexSnoc(a: string, c: char)
    requires AllHexDigits(a) && IsHexDigit(c)
    ensures AllHexDigits(a + [c]) && HexValue(a + [c]) == 16 * HexValue(a) + HexDigitValue(c)
  {
    assert (a + [c])[..|a|] == a;
  }

  /** Two hexadecimal digits make one byte. */
  lemma HexPair(d: string)
    requires |d| == 2 && AllHexDigits(d)
    ensures HexValue(d) == 16 * HexDigitValue(d[0]) + HexDigitValue(d[1]) < 256
  {
    HexSnoc([], d[0]);
    assert [] + [d[0]] == [d[0]];
    HexSnoc([d[0]], d[1]);
    assert d == [d[0]] + [d[1]];
  }

  lemma HexSix(d: string)
    requires |d| == 6 && AllHexDigits(d)
    ensures HexValue(d) == 65536 * HexValue(d[0..2]) + 256 * HexValue(d[2..4]) + HexValue(d[4..6])
  {
    HexSplitPair(d);
    HexSlice(d, 0, 4);
    HexSplitPair(d[..4]);
    assert d[..4][..2] == d[0..2] && d[..4][2..] == d[2..4] && d[4..] == d[4..6];
  }

  /** The last two digits are the low byte. */
  lemma HexSplitPair(d: string)
    requires |d| >= 2 && AllHexDigits(d)
    ensures AllHexDigits(d[..|d| - 2]) && AllHexDigits(d[|d| - 2..])
    ensures HexValue(d) == 256 * HexValue(d[..|d| - 2]) + HexValue(d[|d| - 2..])
  {
    var n := |d|;
    var init, lo := d[..n - 1], d[n - 2..];
    HexUnfold(d);
    HexUnfold(init);
    assert init[..n - 2] == d[..n - 2] && init[n - 2] == d[n - 2];
    HexSlice(d, n - 2, n);
    assert d[n - 2..n] == lo && lo[0] == d[n - 2] && lo[1] == d[n - 1];
    HexPair(lo);
    var high, x, y := HexValue(d[..n - 2]), HexDigitValue(d[n - 2]), HexDigitValue(d[n - 1]);
    assert HexValue(init) == 16 * high + x;
    assert HexValue(lo) == 16 * x + y;
    calc {
      HexValue(d);
      16 * HexValue(init) + y;
      16 * (16 * high + x) + y;
      256 * high + (16 * x + y);
    }
  }

  /** The last digit is the lowest. */
  lemma HexUnfold(d: string)
    requires |d| >= 1 && AllHexDigits(d)
    ensures AllHexDigits(d[..|d| - 1])
    ensures HexValue(d) == 16 * HexValue(d[..|d| - 1]) + HexDigitValue(d[|d| - 1])
  {
    HexSlice(d, 0, |d| - 1);
  }

  lemma HexSlice(d: string, i: nat, j: nat)
    requires i <= j <= |d| && AllHexDigits(d)
    ensures AllHexDigits(d[i..j])
  {
    forall k | 0 <= k < j - i ensures IsHexDigit(d[i..j][k]) {
      assert d[i..j][k] == d[i + k];
    }
  }

  lemma ChannelsOfBytes(v: int, a: nat, b: nat, c: nat)
    requires a < 256 && b < 256 && c < 256 && v == 65536 * a + 256 * b + c
    ensures Channels(v) == Rgb(a, b, c)
  {
    assert v / 65536 == a;
    assert v / 256 == 256 * a + b;
    assert (256 * a + b) % 256 == b;
  }

  /** Hexadecimal digits that are not the three-digit form decode to the
      channels of their value, with or without a `#` in front. */
  lemma HexToRgbOfDigits(d: string)
    requires |d| >= 1 && |d| != 3 && AllHexDigits(d)
    ensures HexToRgb(d) == Some(Channels(HexValue(d)))
    ensures HexToRgb("#" + d) == Some(Channels(HexValue(d)))
  {
    assert ("#" + d)[1..] == d;
    assert StripHash("#" + d) == d;
    assert IsHexDigit(d[0]);
    assert StripHash(d) == d;
    assert Expand(d) == d;
    ParseIntHexDigits(d);
  }

  lemma ChannelsOfSix(d: string)
    requires |d| == 6 && AllHexDigits(d)
    ensures Channels(HexValue(d)) == Rgb(HexValue(d[0..2]), HexValue(d[2..4]), HexValue(d[4..6]))
  {
    HexSix(d);
    HexPair(d[0..2]);
    HexPair(d[2..4]);
    HexPair(d[4..6]);
    ChannelsOfBytes(HexValue(d), HexValue(d[0..2]), HexValue(d[2..4]), HexValue(d[4..6]));
  }

  /** A six-digit colour, with or without its `#`, decodes to its three digit
      pairs. */
  lemma SixDigitHex(d: string)
    requires |d| == 6 && AllHexDigits(d)
    ensures HexToRgb("#" + d) == Some(Rgb(HexValue(d[0..2]), HexValue(d[2..4]), HexValue(d[4..6])))
    ensures HexToRgb(d) == HexToRgb("#" + d)
  {
    HexToRgbOfDigits(d);
    ChannelsOfSix(d);
  }

  lemma HexToRgbParsed(hex: string, v: int)
    requires ParseIntHex(Expand(StripHash(hex))) == Some(v)
    ensures HexToRgb(hex) == Some(Channels(v))
  {
  }

  /** The doubled form of three digits, and the value of each doubled pair. */
  lemma DoubledPairs(d: string)
    requires |d| == 3 && AllHexDigits(d)
    ensures Expand(StripHash("#" + d)) == [d[0], d[0], d[1], d[1], d[2], d[2]]
    ensures var e := [d[0], d[0], d[1], d[1], d[2], d[2]];
      && AllHexDigits(e)
      && HexValue(e[0..2]) == 17 * HexDigitValue(d[0])
      && HexValue(e[2..4]) == 17 * HexDigitValue(d[1])
      && HexValue(e[4..6]) == 17 * HexDigitValue(d[2])
  {
    assert ("#" + d)[1..] == d;
    var e := [d[0], d[0], d[1], d[1], d[2], d[2]];
    assert e[0..2] == [d[0], d[0]] && e[2..4] == [d[1], d[1]] && e[4..6] == [d[2], d[2]];
    HexPair(e[0..2]);
    HexPair(e[2..4]);
    HexPair(e[4..6]);
  }

  /** A three-digit colour decodes with every digit doubled: `#f80` is
      `#ff8800`. */
  lemma ThreeDigitHex(d: string)
    requires |d| == 3 && AllHexDigits(d)
    ensures HexToRgb("#" + d) == Some(Rgb(17 * HexDigitValue(d[0]), 17 * HexDigitValue(d[1]), 17 * HexDigitValue(d[2])))
  {
    DoubledPairs(d);
    var e := [d[0], d[0], d[1], d[1], d[2], d[2]];
    ParseIntHexDigits(e);
    HexToRgbParsed("#" + d, HexValue(e));
    ChannelsOfSix(e);
  }

  /** A colour name with no hexadecimal digit where the parse starts is no
      colour at all. */
  lemma HexToRgbNaN(hex: string)
    requires var h := Expand(StripHash(hex));
      |h| == 0 || !(IsSpace(h[0]) || h[0] == '+' || h[0] == '-' || IsHexDigit(h[0]))
    ensures HexToRgb(hex).None?
  {
    ParseIntHexNaN(Expand(StripHash(hex)));
  }

  lemma ParsePartial()
    ensures ParseIntHex("ff00zz") == Some(65280)
  {
    var w := "ff00zz";
    HexDigitNotSpace('f');
    assert TrimStart(w) == w;
    assert SkipSign(w) == w;
    assert SkipHexPrefix(w) == w;
    assert RunLength(w, 4, IsHexDigit) == 0;
    assert RunLength(w, 0, IsHexDigit) == 4;
    ParseIntHexRun(w, 4);
    assert w[..4] == "ff00";
    HexFF00();
  }

  lemma HexFF00()
    ensures HexValue("ff00") == 65280
  {
    HexSnoc([], 'f');
    assert [] + ['f'] == "f";
    HexSnoc("f", 'f');
    assert "f" + ['f'] == "ff";
    HexSnoc("ff", '0');
    assert "ff" + ['0'] == "ff0";
    HexSnoc("ff0", '0');
    assert "ff0" + ['0'] == "ff00";
  }

  /** `parseInt` stops at the first non-digit, so `#ff00zz` is the colour of
      `ff00`: green. */
  lemma PartialHexIsLenient()
    ensures HexToRgb("#ff00zz") == Some(Rgb(0, 255, 0))
  {
    assert ("#ff00zz")[1..] == "ff00zz";
    assert Expand(StripHash("#ff00zz")) == "ff00zz";
    ParsePartial();
    HexToRgbParsed("#ff00zz", 65280);
    ChannelsOfBytes(65280, 0, 255, 0);
  }

  function HexDigitChar(n: nat): (c: char)
    requires n < 16
    ensures IsHexDigit(c) && HexDigitValue(c) == n
  {
    if n < 10 then ('0' as int + n) as char else ('a' as int + n - 10) as char
  }

  /** The two lower-case hexadecimal digits of a byte. */
  function BytePair(n: nat): (p: string)
    requires n < 256
    ensures |p| == 2 && AllHexDigits(p) && HexValue(p) == n
  {
    var p := [HexDigitChar(n / 16), HexDigitChar(n % 16)];
    HexPair(p);
    p
  }

  /** The `#rrggbb` text of a colour, in lower case. */
  function FormatHex(c: Rgb): (s: string)
    requires IsByteColor(c)
    ensures |s| == 7 && s[0] == '#' && AllHexDigits(s[1..])
  {
    "#" + BytePair(c.r) + BytePair(c.g) + BytePair(c.b)
  }

  /** Every colour survives being written as `#rrggbb` and decoded again. */
  lemma HexRoundTrip(c: Rgb)
    requires IsByteColor(c)
    ensures HexToRgb(FormatHex(c)) == Some(c)
  {
    var d := BytePair(c.r) + BytePair(c.g) + BytePair(c.b);
    assert FormatHex(c) == "#" + d;
    assert d[0..2] == BytePair(c.r) && d[2..4] == BytePair(c.g) && d[4..6] == BytePair(c.b);
    SixDigitHex(d);
  }

  /** An event command; `text` is `parameters[0]`, the line of a comment. */
  datatype Command = Command(code: int, text: string)

  datatype Page = Page(list: seq<Command>)

  /** A map event and its current page, if any page's conditions hold. */
  datatype GameEvent = GameEvent(eventId: int, page: Option<Page>)

  /** The first and continuation lines of a comment. */
  predicate IsComment(c: Command)
  {
    c.code == 108 || c.code == 408
  }

  /** `list.filter(cmd => code is 108 or 408).map(cmd => cmd.parameters[0])`. */
  function Comments(list: seq<Command>): (r: seq<string>)
    ensures |r| <= |list|
  {
    if list == [] then []
    else (if IsComment(list[0]) then [list[0].text] else []) + Comments(list[1..])
  }

  /** Every comment line of the list is kept, and nothing but comment lines. */
  lemma {:induction false} CommentsMembers(list: seq<Command>)
    ensures forall i :: 0 <= i < |list| && IsComment(list[i]) ==> list[i].text in Comments(list)
    ensures forall t :: t in Comments(list) ==> exists i :: 0 <= i < |list| && IsComment(list[i]) && list[i].text == t
  {
    if list != [] {
      var rest := list[1..];
      CommentsMembers(rest);
      forall i | 1 <= i < |list| && IsComment(list[i]) ensures list[i].text in Comments(list) {
        assert rest[i - 1] == list[i];
      }
      forall t | t in Comments(list) ensures exists i :: 0 <= i < |list| && IsComment(list[i]) && list[i].text == t {
        if !(IsComment(list[0]) && list[0].text == t) {
          assert t in Comments(rest);
          var j :| 0 <= j < |rest| && IsComment(rest[j]) && rest[j].text == t;
          assert list[j + 1] == rest[j];
        }
      }
    }
  }

  /** The comments of a list of commands keep the commands' order. */
  lemma {:induction false} CommentsAppend(a: seq<Command>, b: seq<Command>)
    ensures Comments(a + b) == Comments(a) + Comments(b)
  {
    if a == [] {
      assert a + b == b;
    } else {
      var h := if IsComment(a[0]) then [a[0].text] else [];
      assert (a + b)[0] == a[0];
      assert (a + b)[1..] == a[1..] + b;
      assert Comments(a + b) == h + Comments(a[1..] + b);
      assert Comments(a) == h + Comments(a[1..]);
      CommentsAppend(a[1..], b);
    }
  }

  /** The comment lines of an event's current page; none without an event or
      a page. */
  function EventComments(e: Option<GameEvent>): Option<seq<string>>
  {
    if e.None? || e.value.page.None? then None else Some(Comments(e.value.page.value.list))
  }

  const RadiusHeader := "<lightRadius:"

  function RadiusAt(s: string, p: nat): Option<string>
  {
    DigitsTagAt(s, p, RadiusHeader)
  }

  /** `Number` of what `/<lightRadius:(\d+)>/i` captures on one line. */
  function LineRadius(line: string): Option<nat>
  {
    match FirstMatch(line, 0, RadiusAt)
    case None => None
    case Some(found) =>
      DigitsTagAtIff(line, found.0, RadiusHeader, found.1);
      Some(DecimalValue(found.1))
  }

  /** `getEventLightRadius(event)`: the number of the first radius tag on the
      first comment line that has one; 0 without an event, a page or a tag. */
  function LightRadius(e: Option<GameEvent>): (r: nat)
    ensures EventComments(e).None? ==> r == 0
  {
    match EventComments(e)
    case None => 0
    case Some(cs) =>
      match FirstLine(cs, LineRadius)
      case None => 0
      case Some(found) => found.1
  }

  /** No position of `line` starts a radius tag. */
  predicate NoRadiusTag(line: string)
  {
    forall k :: 0 <= k <= |line| ==> DigitsTagAt(line, k, RadiusHeader).None?
  }

  lemma NoRadiusTagLine(line: string)
    requires NoRadiusTag(line)
    ensures LineRadius(line).None?
  {
    assert forall k :: 0 <= k <= |line| ==> RadiusAt(line, k).None?;
  }

  /** The radius is read from the first tag of the first comment line that
      carries one. */
  lemma LightRadiusFirstTag(e: GameEvent, cs: seq<string>, i: nat, p: nat, ds: string)
    requires e.page.Some? && cs == Comments(e.page.value.list)
    requires i < |cs| && p <= |cs[i]| && DigitsTag(cs[i], p, RadiusHeader, ds)
    requires forall k :: 0 <= k < p ==> DigitsTagAt(cs[i], k, RadiusHeader).None?
    requires forall j :: 0 <= j < i ==> NoRadiusTag(cs[j])
    ensures LightRadius(Some(e)) == DecimalValue(ds)
  {
    DigitsTagAtIff(cs[i], p, RadiusHeader, ds);
    FirstMatchAt(cs[i], 0, p, RadiusAt, ds);
    forall j | 0 <= j < i ensures LineRadius(cs[j]).None? {
      NoRadiusTagLine(cs[j]);
    }
    FirstLineAt(cs, LineRadius, i, DecimalValue(ds));
  }

  /** Without a radius tag on any comment line the radius is 0. */
  lemma LightRadiusNoTag(e: GameEvent, cs: seq<string>)
    requires e.page.Some? && cs == Comments(e.page.value.list)
    requires forall j :: 0 <= j < |cs| ==> NoRadiusTag(cs[j])
    ensures LightRadius(Some(e)) == 0
  {
    forall j | 0 <= j < |cs| ensures LineRadius(cs[j]).None? {
      NoRadiusTagLine(cs[j]);
    }
    assert FirstLine(cs, LineRadius).None?;
  }

  const ColorHeader := "<lightColor:"

  /** What `/<lightColor:(#[0-9a-fA-F]{6})>/` captures at `p`: the header in
      this exact case, `#`, six hexadecimal digits, then `>`. */
  function ColorAt(s: string, p: nat): (r: Option<string>)
    ensures r.Some? ==> |r.value| == 7 && r.value[0] == '#' && AllHexDigits(r.value[1..])
  {
    var q := p + |ColorHeader|;
    if LiteralAt(s, p, ColorHeader, false) && q + 8 <= |s| && s[q] == '#'
       && AllHexDigits(s[q + 1 .. q + 7]) && s[q + 7] == '>'
    then
      assert s[q .. q + 7][1..] == s[q + 1 .. q + 7];
      Some(s[q .. q + 7])
    else None
  }

  /** A colour tag at `p` reading `color`, spelled exactly. */
  ghost predicate ColorTag(s: string, p: nat, color: string)
  {
    var q := p + |ColorHeader|;
    && q + 8 <= |s|
    && s[p .. q] == ColorHeader
    && |color| == 7 && color[0] == '#' && AllHexDigits(color[1..])
    && s[q .. q + 7] == color
    && s[q + 7] == '>'
  }

  lemma ColorAtIff(s: string, p: nat, color: string)
    ensures ColorAt(s, p) == Some(color) <==> ColorTag(s, p, color)
  {
    var q := p + |ColorHeader|;
    if ColorTag(s, p, color) {
      assert LiteralAt(s, p, ColorHeader, false) by {
        forall i | 0 <= i < |ColorHeader| ensures s[p + i] == ColorHeader[i] {
          assert s[p .. q][i] == s[p + i];
        }
      }
      assert s[q + 1 .. q + 7] == color[1..];
    }
    if ColorAt(s, p) == Some(color) {
      assert s[p .. q] == ColorHeader;
    }
  }

  function LineColor(line: string): (r: Option<string>)
    ensures r.Some? ==> |r.value| == 7 && r.value[0] == '#' && AllHexDigits(r.value[1..])
  {
    match FirstMatch(line, 0, ColorAt)
    case None => None
    case Some(found) => Some(found.1)
  }

  /** `getEventLightColor(event)`: the `#rrggbb` of the first colour tag on the
      first comment line that has one, or nothing. */
  function LightColor(e: Option<GameEvent>): (r: Option<string>)
    ensures EventComments(e).None? ==> r.None?
    ensures r.Some? ==> |r.value| == 7 && r.value[0] == '#' && AllHexDigits(r.value[1..])
  {
    match EventComments(e)
    case None => None
    case Some(cs) =>
      match FirstLine(cs, LineColor)
      case None => None
      case Some(found) => Some(found.1)
  }

  /** No position of `line` starts a colour tag. */
  predicate NoColorTag(line: string)
  {
    forall k :: 0 <= k <= |line| ==> ColorAt(line, k).None?
  }

  lemma NoColorTagLine(line: string)
    requires NoColorTag(line)
    ensures LineColor(line).None?
  {
    assert FirstMatch(line, 0, ColorAt).None?;
  }

  /** The colour is the first exactly spelled tag of the first comment line
      that carries one. */
  lemma LightColorFirstTag(e: GameEvent, cs: seq<string>, i: nat, p: nat, color: string)
    requires e.page.Some? && cs == Comments(e.page.value.list)
    requires i < |cs| && p <= |cs[i]| && ColorTag(cs[i], p, color)
    requires forall k :: 0 <= k < p ==> ColorAt(cs[i], k).None?
    requires forall j :: 0 <= j < i ==> NoColorTag(cs[j])
    ensures LightColor(Some(e)) == Some(color)
  {
    ColorAtIff(cs[i], p, color);
    FirstMatchAt(cs[i], 0, p, ColorAt, color);
    forall j | 0 <= j < i ensures LineColor(cs[j]).None? {
      NoColorTagLine(cs[j]);
    }
    FirstLineAt(cs, LineColor, i, color);
  }

  /** The three digit pairs of a `#rrggbb` text, as channels. */
  function TagRgb(c: string): Rgb
    requires |c| == 7 && AllHexDigits(c[1..])
  {
    var d := c[1..];
    Rgb(HexValue(d[0..2]), HexValue(d[2..4]), HexValue(d[4..6]))
  }

  /** Whatever colour tag is found decodes to its three digit pairs. */
  lemma LightColorDecodes(e: Option<GameEvent>)
    requires LightColor(e).Some?
    ensures HexToRgb(LightColor(e).value) == Some(TagRgb(LightColor(e).value))
  {
    var c := LightColor(e).value;
    var d := c[1..];
    assert c == "#" + d;
    SixDigitHex(d);
  }

  const FlickerTag := "<lightFlicker:true>"

  function FlickerAt(s: string, p: nat): Option<nat>
  {
    if LiteralAt(s, p, FlickerTag, true) then Some(p) else None
  }

  function LineFlickers(line: string): Option<bool>
  {
    if FirstMatch(line, 0, FlickerAt).Some? then Some(true) else None
  }

  /** `getEventLightFlicker(event)`. */
  function LightFlicker(e: Option<GameEvent>): (r: bool)
    ensures EventComments(e).None? ==> !r
  {
    match EventComments(e)
    case None => false
    case Some(cs) => FirstLine(cs, LineFlickers).Some?
  }

  /** Some comment line contains the flicker tag, in any mix of letter case. */
  ghost predicate SomeFlickerLine(cs: seq<string>)
  {
    exists i, p :: 0 <= i < |cs| && 0 <= p <= |cs[i]| && LiteralAt(cs[i], p, FlickerTag, true)
  }

  /** An event flickers exactly when some comment line of its page contains
      `<lightFlicker:true>` in any mix of letter case. */
  lemma LightFlickerIff(e: GameEvent)
    ensures LightFlicker(Some(e)) <==> e.page.Some? && SomeFlickerLine(Comments(e.page.value.list))
  {
    if e.page.Some? {
      var cs := Comments(e.page.value.list);
      if LightFlicker(Some(e)) {
        var f := FirstLine(cs, LineFlickers).value;
        var i := f.0;
        assert LineFlickers(cs[i]) == Some(true);
        var m := FirstMatch(cs[i], 0, FlickerAt).value;
        var p := m.0;
        assert FlickerAt(cs[i], p).Some?;
        assert 0 <= i < |cs| && 0 <= p <= |cs[i]| && LiteralAt(cs[i], p, FlickerTag, true);
      } else {
        forall i, p | 0 <= i < |cs| && 0 <= p <= |cs[i]| ensures !LiteralAt(cs[i], p, FlickerTag, true) {
          assert LineFlickers(cs[i]).None?;
          assert FlickerAt(cs[i], p).None?;
        }
      }
    }
  }

  /** The light sprite of an event: its radius, the decoded colour or white
      when the colour does not decode, and whether it flickers. */
  datatype LightSprite = LightSprite(radius: nat, rgb: Rgb, flicker: bool)

  /** One entry of `_eventLights`. */
  datatype EventLight = EventLight(event: GameEvent, light: LightSprite)

  /** `createLightSprite(radius, colorHex)`; the flicker flag is set after. */
  function CreateLightSprite(radius: nat, colorHex: string): LightSprite
  {
    LightSprite(radius, match HexToRgb(colorHex) case None => White case Some(c) => c, false)
  }

  /** `getEventLightColor(event) || "#ffffff"`. */
  function ColorOrWhite(color: Option<string>): string
  {
    match color
    case None => "#ffffff"
    case Some(c) => c
  }

  /** The light made for a lit event. */
  function LightFor(e: GameEvent): EventLight
  {
    var light := CreateLightSprite(LightRadius(Some(e)), ColorOrWhite(LightColor(Some(e))));
    EventLight(e, light.(flicker := LightFlicker(Some(e))))
  }

  /** The default `"#ffffff"` is white. */
  lemma WhiteHex()
    ensures HexToRgb("#ffffff") == Some(White)
  {
    var d := "ffffff";
    assert "#ffffff" == "#" + d;
    assert HexDigitValue('f') == 15;
    assert AllHexDigits(d);
    assert d[0..2] == "ff" && d[2..4] == "ff" && d[4..6] == "ff";
    HexPair("ff");
    SixDigitHex(d);
  }

  /** A light's colour is the first colour tag's digit pairs, or white when
      the event has no colour tag. */
  lemma LightForColor(e: GameEvent)
    ensures LightColor(Some(e)).None? ==> LightFor(e).light.rgb == White
    ensures LightColor(Some(e)).Some? ==> LightFor(e).light.rgb == TagRgb(LightColor(Some(e)).value)
  {
    var c := LightColor(Some(e));
    if c.None? {
      WhiteHex();
    } else {
      LightColorDecodes(Some(e));
    }
  }

  /** An event whose radius is positive: it gets a light. */
  predicate Radiant(e: GameEvent)
  {
    LightRadius(Some(e)) > 0
  }

  /** The lights the creation pass makes for `$gameMap.events()`, in order:
      one for each present event with a positive radius. */
  function Lights(events: seq<Option<GameEvent>>): seq<EventLight>
  {
    Collect(events, Radiant, LightFor)
  }

  /** The lights of a list of events are those of its first part, then those
      of the rest: lights follow event order. */
  lemma LightsAppend(a: seq<Option<GameEvent>>, b: seq<Option<GameEvent>>)
    ensures Lights(a + b) == Lights(a) + Lights(b)
  {
    CollectAppend(a, b, Radiant, LightFor);
  }

  /** One more event adds its light, if it has one, at the end. */
  lemma LightsSnoc(events: seq<Option<GameEvent>>, i: nat)
    requires i < |events|
    ensures Lights(events[..i + 1]) ==
      Lights(events[..i]) + (if events[i].Some? && Radiant(events[i].value) then [LightFor(events[i].value)] else [])
  {
    assert events[..i + 1][..i] == events[..i];
  }

  /** Exactly the present events with a positive radius get a light, each the
      light made for it, and there are never more lights than events. */
  lemma LightsContents(events: seq<Option<GameEvent>>)
    ensures |Lights(events)| <= |events|
    ensures forall l :: l in Lights(events) <==>
      Some(l.event) in events && LightRadius(Some(l.event)) > 0 && l == LightFor(l.event)
  {
    CollectContents(events, Radiant, LightFor);
    forall l: EventLight | l in Lights(events)
      ensures Some(l.event) in events && LightRadius(Some(l.event)) > 0 && l == LightFor(l.event)
    {
      var x :| Some(x) in events && Radiant(x) && l == LightFor(x);
      assert l.event == x;
    }
    forall l: EventLight | Some(l.event) in events && LightRadius(Some(l.event)) > 0 && l == LightFor(l.event)
      ensures l in Lights(events)
    {
      assert Radiant(l.event);
    }
  }

  /** The part of `Spriteset_Map` that keeps the event lights. */
  class MapLighting {
    var eventLights: seq<EventLight>
    var initialized: bool

    /** `createLowerLayer`: no lights yet, creation still to come. */
    constructor ()
      ensures eventLights == [] && !initialized
    {
      eventLights := [];
      initialized := false;
    }

    /** The creation block of `update`: once, when a map exists, one light per
        lit event in event order; afterwards it never runs again. */
    method Update(hasMap: bool, events: seq<Option<GameEvent>>)
      modifies this
      ensures old(initialized) || !hasMap ==> eventLights == old(eventLights) && initialized == old(initialized)
      ensures !old(initialized) && hasMap ==> initialized && eventLights == Lights(events)
    {
      if initialized || !hasMap {
        return;
      }
      eventLights := [];
      var i := 0;
      while i < |events|
        invariant 0 <= i <= |events|
        invariant eventLights == Lights(events[..i])
      {
        var event := events[i];
        LightsSnoc(events, i);
        if event.Some? {
          var e := event.value;
          var radius := LightRadius(Some(e));
          if radius > 0 {
            var color := ColorOrWhite(LightColor(Some(e)));
            var flicker := LightFlicker(Some(e));
            var light := CreateLightSprite(radius, color);
            light := light.(flicker := flicker);
            eventLights := eventLights + [EventLight(e, light)];
          }
        }
        i := i + 1;
      }
      assert events[..|events|] == events;
      initialized := true;
    }
  }
}
