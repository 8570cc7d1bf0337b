/**
 * The two colour helpers of src/contexts/BrandingContext.tsx: `hexToRgb`
 * parses `#rrggbb` (the `#` optional, digits in either case) and
 * `generateColorShades` derives a ten-step palette from it.
 */
module Branding {
  import opened Wrappers
  import Text

  type Channel = x: int | 0 <= x <= 255

  datatype Rgb = Rgb(r: Channel, g: Channel, b: Channel)

  /** `[a-f\d]` under the `i` flag. */
  predicate IsHexDigit(c: char)
  {
    '0' <= c <= '9' || 'a' <= c <= 'f' || 'A' <= c <= 'F'
  }

  function HexValue(c: char): (v: nat)
    requires IsHexDigit(c)
    ensures v < 16
  {
    if '0' <= c <= '9' then c as int - '0' as int
    else if 'a' <= c <= 'f' then c as int - 'a' as int + 10
    else c as int - 'A' as int + 10
  }

  /** `parseInt(pair, 16)` for a pair of hex digits. */
  function PairValue(hi: char, lo: char): Channel
    requires IsHexDigit(hi) && IsHexDigit(lo)
  {
    16 * HexValue(hi) + HexValue(lo)
  }

  predicate AllHex(s: string)
  {
    forall i :: 0 <= i < |s| ==> IsHexDigit(s[i])
  }

  /** `/^#?([a-f\d]{2})([a-f\d]{2})([a-f\d]{2})$/i`, then each pair read in base 16. */
  function HexToRgb(hex: string): Option<Rgb>
  {
    var digits := if |hex| > 0 && hex[0] == '#' then hex[1..] else hex;
    if |digits| == 6 && AllHex(digits) then
      Some(Rgb(PairValue(digits[0], digits[1]), PairValue(digits[2], digits[3]), PairValue(digits[4], digits[5])))
    else None
  }

  /**
   * Exactly an optional `#` followed by six hex digits is accepted: no
   * shorthand, nothing before or after.
   */
  lemma HexToRgbAccepts(hex: string)
    ensures HexToRgb(hex).Some? <==>
              (|hex| == 6 && AllHex(hex)) || (|hex| == 7 && hex[0] == '#' && AllHex(hex[1..]))
  {
    if |hex| == 7 && hex[0] == '#' && AllHex(hex[1..]) {
      assert HexToRgb(hex).Some?;
    }
    if |hex| == 6 && AllHex(hex) {
      assert hex[0] != '#' by { assert IsHexDigit(hex[0]); }
    }
  }

  /** The `#` is optional: "abcdef" and "#abcdef" parse alike. */
  lemma HashIsOptional(digits: string)
    requires |digits| == 0 || digits[0] != '#'
    ensures HexToRgb("#" + digits) == HexToRgb(digits)
  {
    assert ("#" + digits)[1..] == digits;
  }

  function ToLower(c: char): char
  {
    if 'A' <= c <= 'Z' then (c as int - 'A' as int + 'a' as int) as char else c
  }

  function Lowered(s: string): (t: string)
    ensures |t| == |s| && forall i :: 0 <= i < |s| ==> t[i] == ToLower(s[i])
  {
    seq(|s|, i requires 0 <= i < |s| => ToLower(s[i]))
  }

  /** Case does not matter. */
  lemma CaseInsensitive(hex: string)
    ensures HexToRgb(Lowered(hex)) == HexToRgb(hex)
  {
    var low := Lowered(hex);
    var digits := if |hex| > 0 && hex[0] == '#' then hex[1..] else hex;
    var lowDigits := if |low| > 0 && low[0] == '#' then low[1..] else low;
    assert lowDigits == Lowered(digits);
    if |digits| == 6 && AllHex(digits) {
      assert forall i :: 0 <= i < 6 ==> IsHexDigit(lowDigits[i]) && HexValue(lowDigits[i]) == HexValue(digits[i]);
    }
    if |lowDigits| == 6 && AllHex(lowDigits) {
      assert forall i :: 0 <= i < 6 ==> IsHexDigit(digits[i]) by {
        forall i | 0 <= i < 6 ensures IsHexDigit(digits[i]) {
          assert IsHexDigit(lowDigits[i]);
        }
      }
    }
  }

  function HexChar(d: nat): (c: char)
    requires d < 16
    ensures IsHexDigit(c) && HexValue(c) == d
  {
    if d < 10 then ('0' as int + d) as char else ('a' as int + d - 10) as char
  }

  /** `#rrggbb` in lower case. */
  function RgbToHex(c: Rgb): (hex: string)
    ensures |hex| == 7 && hex[0] == '#'
  {
    "#" + [HexChar(c.r / 16), HexChar(c.r % 16), HexChar(c.g / 16), HexChar(c.g % 16),
           HexChar(c.b / 16), HexChar(c.b % 16)]
  }

  /** Formatting a colour as `#rrggbb` and parsing it gives the colour back. */
  lemma RgbHexRoundTrip(c: Rgb)
    ensures HexToRgb(RgbToHex(c)) == Some(c)
    ensures HexToRgb(RgbToHex(c)[1..]) == Some(c)
  {
    var hex := RgbToHex(c);
    assert AllHex(hex[1..]);
    HashIsOptional(hex[1..]);
    assert "#" + hex[1..] == hex;
  }

  // ---------------------------------------------------------------------------
  // generateColorShades

  /** The palette steps, lightest first. */
  const ShadeKeys: seq<nat> := [50, 100, 200, 300, 400, 500, 600, 700, 800, 900]

  /** What each step adds to every channel: lighter steps add, darker ones subtract. */
  function Offset(key: nat): int
  {
    match key
    case 50 => 200
    case 100 => 150
    case 200 => 100
    case 300 => 50
    case 400 => 25
    case 600 => -25
    case 700 => -50
    case 800 => -75
    case 900 => -100
    case _ => 0
  }

  /** `Math.min(255, c + d)` for a lighter step, `Math.max(0, c - |d|)` for a darker one. */
  function Shift(c: Channel, d: int): (s: Channel)
    ensures d >= 0 ==> c <= s
    ensures d <= 0 ==> s <= c
  {
    if d >= 0 then (if c + d < 255 then c + d else 255)
    else (if c + d > 0 then c + d else 0)
  }

  function ShadeRgb(c: Rgb, key: nat): Rgb
  {
    Rgb(Shift(c.r, Offset(key)), Shift(c.g, Offset(key)), Shift(c.b, Offset(key)))
  }

  /** A palette entry: computed, or (at 500) the input string itself. */
  datatype Shade = RgbShade(rgb: Rgb) | Literal(text: string)

  /** The palette before rendering; empty for an unparseable colour. */
  function Shades(hex: string): map<nat, Shade>
  {
    match HexToRgb(hex)
    case None => map[]
    case Some(c) =>
      map k | k in ShadeKeys :: if k == 500 then Literal(hex) else RgbShade(ShadeRgb(c, k))
  }

  /** `rgb(${r}, ${g}, ${b})` */
  function ShadeText(s: Shade): string
  {
    match s
    case Literal(text) => text
    case RgbShade(c) =>
      "rgb(" + Text.Decimal(c.r) + ", " + Text.Decimal(c.g) + ", " + Text.Decimal(c.b) + ")"
  }

  /** The palette as CSS colour strings, keyed by step. */
  function GenerateColorShades(hex: string): map<nat, string>
  {
    var s := Shades(hex);
    map k | k in s :: ShadeText(s[k])
  }

  /**
   * An unparseable colour gives no shades; a valid one gives exactly the ten
   * steps, with 500 holding the input string unchanged.
   */
  lemma ShadeKeysAndBase(hex: string)
    ensures HexToRgb(hex).None? ==> GenerateColorShades(hex) == map[]
    ensures HexToRgb(hex).Some? ==>
              GenerateColorShades(hex).Keys == {50, 100, 200, 300, 400, 500, 600, 700, 800, 900} &&
              GenerateColorShades(hex)[500] == hex
  {
    if HexToRgb(hex).Some? {
      assert 500 in ShadeKeys;
      assert Shades(hex).Keys == {50, 100, 200, 300, 400, 500, 600, 700, 800, 900};
    }
  }

  /** Lighter steps stay in [c, 255], darker steps in [0, c], channel by channel. */
  lemma ShadeBounds(hex: string, k: nat)
    requires HexToRgb(hex).Some? && k in ShadeKeys && k != 500
    ensures var c := HexToRgb(hex).value;
            Shades(hex)[k].RgbShade? &&
            var s := Shades(hex)[k].rgb;
            (k < 500 ==> c.r <= s.r && c.g <= s.g && c.b <= s.b) &&
            (k > 500 ==> s.r <= c.r && s.g <= c.g && s.b <= c.b)
  {
  }

  lemma ShiftMonotone(c: Channel, d: int, e: int)
    requires e <= d
    ensures Shift(c, e) <= Shift(c, d)
  {
  }

  /**
   * Every channel is non-increasing from step 50 to step 900, and step 500
   * is the input colour.
   */
  lemma ShadesNonIncreasing(c: Rgb, i: nat, j: nat)
    requires i <= j < |ShadeKeys|
    ensures ShadeRgb(c, 500) == c
    ensures var lighter := ShadeRgb(c, ShadeKeys[i]);
            var darker := ShadeRgb(c, ShadeKeys[j]);
            darker.r <= lighter.r && darker.g <= lighter.g && darker.b <= lighter.b
  {
    assert Offset(ShadeKeys[j]) <= Offset(ShadeKeys[i]);
    ShiftMonotone(c.r, Offset(ShadeKeys[i]), Offset(ShadeKeys[j]));
    ShiftMonotone(c.g, Offset(ShadeKeys[i]), Offset(ShadeKeys[j]));
    ShiftMonotone(c.b, Offset(ShadeKeys[i]), Offset(ShadeKeys[j]));
  }

  /** The worked colour: #3366cc reads as (51, 102, 204). */
  lemma ExampleColour()
    ensures HexToRgb("#3366cc") == Some(Rgb(51, 102, 204))
  {
    var digits := "#3366cc"[1..];
    assert digits == "3366cc";
    assert AllHex(digits);
    assert PairValue('3', '3') == 51 && PairValue('6', '6') == 102 && PairValue('c', 'c') == 204;
  }

  /** A computed step of a parseable colour holds the shifted colour. */
  lemma ShadeAt(hex: string, c: Rgb, k: nat)
    requires HexToRgb(hex) == Some(c) && k in ShadeKeys
    ensures k in Shades(hex)
    ensures Shades(hex)[k] == if k == 500 then Literal(hex) else RgbShade(ShadeRgb(c, k))
  {
  }

  /** The lightest and darkest steps of (51, 102, 204), clamped. */
  lemma ExampleSteps()
    ensures ShadeRgb(Rgb(51, 102, 204), 50) == Rgb(251, 255, 255)
    ensures ShadeRgb(Rgb(51, 102, 204), 900) == Rgb(0, 2, 104)
  {
  }

  /** The worked palette before rendering. */
  lemma ExampleShades()
    ensures var s := Shades("#3366cc");
            50 in s && 500 in s && 900 in s &&
            s[50] == RgbShade(Rgb(251, 255, 255)) && s[500] == Literal("#3366cc") &&
            s[900] == RgbShade(Rgb(0, 2, 104))
  {
    var c := Rgb(51, 102, 204);
    ExampleColour();
    assert ShadeKeys[0] == 50 && ShadeKeys[5] == 500 && ShadeKeys[9] == 900;
    ShadeAt("#3366cc", c, 50);
    ShadeAt("#3366cc", c, 500);
    ShadeAt("#3366cc", c, 900);
    ExampleSteps();
  }

  /** The two computed steps as CSS text. */
  lemma ExampleTexts()
    ensures ShadeText(RgbShade(Rgb(251, 255, 255))) == "rgb(251, 255, 255)"
    ensures ShadeText(RgbShade(Rgb(0, 2, 104))) == "rgb(0, 2, 104)"
  {
    assert Text.Decimal(251) == "251" by { assert Text.Decimal(25) == "25"; }
    assert Text.Decimal(255) == "255" by { assert Text.Decimal(25) == "25"; }
    assert Text.Decimal(104) == "104" by { assert Text.Decimal(10) == "10"; }
    assert Text.Decimal(0) == "0" && Text.Decimal(2) == "2";
  }

  /**
   * A worked palette: #3366cc is (51, 102, 204); step 50 clamps green and
   * blue at 255, step 900 clamps red at 0, step 500 is the input.
   */
  lemma PaletteExample()
    ensures GenerateColorShades("#3366cc")[50] == "rgb(251, 255, 255)"
    ensures GenerateColorShades("#3366cc")[500] == "#3366cc"
    ensures GenerateColorShades("#3366cc")[900] == "rgb(0, 2, 104)"
  {
    ExampleShades();
    ExampleTexts();
  }
}
