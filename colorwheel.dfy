/**
 * The colour conversions of the colour wheel component: validating and
 * parsing `#rrggbb`, RGB to hue/saturation and from there to a selector
 * position, HSV to an `rgb(r, g, b)` string, that string to lower-case
 * `#rrggbb`, and a touch position to a colour. Every conversion keeps the
 * component's fallbacks: the origin, `rgb(255, 0, 0)`, `#000000` and the
 * current colour. Square root and the angle functions are parameters.
 */
module ColorWheel {
  import opened Common
  import opened Text

  /** A colour as three integer channels. */
  datatype Rgb = Rgb(r: nat, g: nat, b: nat)

  predicate InRange(c: Rgb) {
    c.r <= 255 && c.g <= 255 && c.b <= 255
  }

  datatype Point = Point(x: real, y: real)

  const Origin: Point := Point(0.0, 0.0)

  /** The double closest to pi, as `Math.PI`. */
  const PI: real := 3.141592653589793

  /** `Math.sqrt`, `Math.atan2`, `Math.cos` and `Math.sin`, left uninterpreted. */
  datatype Trig = Trig(sqrt: real -> real, atan2: (real, real) -> real, cos: real -> real, sin: real -> real)

  /** The square root is exact at `d2`. */
  predicate SqrtSound(trig: Trig, d2: real) {
    trig.sqrt(d2) >= 0.0 && trig.sqrt(d2) * trig.sqrt(d2) == d2
  }

  // ------------------------------------------------------------ hex validation

  predicate AllHex(s: string) {
    forall i :: 0 <= i < |s| ==> IsHexDigit(s[i])
  }

  /** What `/^[0-9a-f]{6}$/i` accepts. */
  predicate IsSixHex(s: string) {
    |s| == 6 && AllHex(s)
  }

  /** The index of the first occurrence of `c` in `s`. */
  function FirstIndex(s: string, c: char): (k: nat)
    requires c in s
    ensures k < |s| && s[k] == c && c !in s[..k]
  {
    if s[0] == c then 0
    else
      var k := FirstIndex(s[1..], c);
      assert s[..k + 1] == [s[0]] + s[1..][..k];
      k + 1
  }

  /** `s.replace(c, '')` with a string pattern: only the first occurrence goes. */
  function RemoveFirst(s: string, c: char): (r: string)
    ensures c !in s ==> r == s
    ensures c in s ==> |r| == |s| - 1
  {
    if c in s then
      var k := FirstIndex(s, c);
      s[..k] + s[k + 1..]
    else s
  }

  /** The hex test of `getPositionFromColor`: non-empty, and six hex digits once the first `#` is gone. */
  predicate HexAccepted(s: string) {
    s != [] && IsSixHex(RemoveFirst(s, '#'))
  }

  /**
   * The accepted strings are the six-digit strings and the seven-character
   * strings holding one `#` anywhere beside six hex digits. So `#00ff88`,
   * `00FF88` and `00f#f88` are accepted and `##00ff88` is not.
   */
  lemma HexAcceptedIff(s: string)
    ensures HexAccepted(s) <==>
      (|s| == 6 && AllHex(s)) ||
      (|s| == 7 && exists k :: 0 <= k < 7 && s[k] == '#' && AllHex(s[..k] + s[k + 1..]))
  {
    assert !IsHexDigit('#');
    if '#' in s {
      var k := FirstIndex(s, '#');
      assert RemoveFirst(s, '#') == s[..k] + s[k + 1..];
      assert !AllHex(s) by {
        assert !IsHexDigit(s[k]);
      }
      if |s| == 7 && (exists j :: 0 <= j < 7 && s[j] == '#' && AllHex(s[..j] + s[j + 1..])) {
        var j :| 0 <= j < 7 && s[j] == '#' && AllHex(s[..j] + s[j + 1..]);
        forall t | 0 <= t < k ensures s[t] != '#' {
          assert s[..k][t] == s[t];
        }
        forall t | 0 <= t < j ensures IsHexDigit(s[t]) {
          assert (s[..j] + s[j + 1..])[t] == s[t];
        }
        assert j == k;
      }
    }
  }

  /** `#00FF88`, `00ff88` and `00f#f88` pass the hex test. */
  lemma SampleHexAccepted()
    ensures HexAccepted("#00FF88") && HexAccepted("00ff88") && HexAccepted("00f#f88")
  {
    HashFirstAccepted();
    HashInsideAccepted();
    NoHashAccepted();
  }

  lemma NoHashAccepted()
    ensures HexAccepted("00ff88")
  {
    var s := "00ff88";
    assert forall i :: 0 <= i < 6 ==> IsHexDigit(s[i]);
    assert !IsHexDigit('#');
    assert '#' !in s;
  }

  lemma HashFirstAccepted()
    ensures HexAccepted("#00FF88")
  {
    var s := "#00FF88";
    assert FirstIndex(s, '#') == 0;
    var t := RemoveFirst(s, '#');
    assert t == "00FF88";
    assert forall i :: 0 <= i < 6 ==> IsHexDigit(t[i]);
  }

  lemma HashInsideAccepted()
    ensures HexAccepted("00f#f88")
  {
    var s := "00f#f88";
    assert FirstIndex(s, '#') == 3 by {
      assert s[1..] == "0f#f88";
      assert s[1..][1..] == "f#f88";
      assert s[1..][1..][1..] == "#f88";
    }
    var t := RemoveFirst(s, '#');
    assert t == "00ff88";
    assert forall i :: 0 <= i < 6 ==> IsHexDigit(t[i]);
  }

  /** `##00ff88`, the empty string and `#00ff8` fail it. */
  lemma SampleHexRejected()
    ensures !HexAccepted("##00ff88") && !HexAccepted("") && !HexAccepted("#00ff8")
  {
    assert !IsHexDigit('#');
    assert RemoveFirst("##00ff88", '#') == "#00ff88" by {
      assert FirstIndex("##00ff88", '#') == 0;
    }
    assert !IsSixHex("#00ff88");
  }

  // ---------------------------------------------------------------- parsing

  /** `parseInt(s.substring(i, i + 2), 16)`. */
  function ParsePair(s: string, i: nat): (n: nat)
    requires i + 2 <= |s| && IsHexDigit(s[i]) && IsHexDigit(s[i + 1])
    ensures n < 256
  {
    HexDigitValue(s[i]) * 16 + HexDigitValue(s[i + 1])
  }

  /** The three channels of a six-digit hex string. */
  function ParseHex(s: string): (c: Rgb)
    requires IsSixHex(s)
    ensures InRange(c)
  {
    Rgb(ParsePair(s, 0), ParsePair(s, 2), ParsePair(s, 4))
  }

  // ------------------------------------------------------------- RGB to HSV

  function Max3(a: real, b: real, c: real): (m: real)
    ensures m >= a && m >= b && m >= c && (m == a || m == b || m == c)
  {
    MaxR(MaxR(a, b), c)
  }

  function Min3(a: real, b: real, c: real): (m: real)
    ensures m <= a && m <= b && m <= c && (m == a || m == b || m == c)
  {
    MinR(MinR(a, b), c)
  }

  /** The hue of `getPositionFromColor`, in degrees; it always lies in `[0, 360)`. */
  function Hue(r: real, g: real, b: real): (hue: real)
    ensures 0.0 <= hue < 360.0
  {
    var mx := Max3(r, g, b);
    var diff := mx - Min3(r, g, b);
    var h :=
      if diff == 0.0 then 0.0
      else if mx == r then JsRem((g - b) / diff, 6.0)
      else if mx == g then (b - r) / diff + 2.0
      else (r - g) / diff + 4.0;
    HueSectorBound(r, g, b);
    JsRem(h * 60.0 + 360.0, 360.0)
  }

  /**
   * When green or blue is the largest channel, the sector value before `+ 2` or
   * `+ 4` is at least -1. (The red branch lies in `(-6, 6)` by `JsRem`.)
   */
  lemma HueSectorBound(r: real, g: real, b: real)
    ensures var mx := Max3(r, g, b);
            var diff := mx - Min3(r, g, b);
            diff != 0.0 && mx != r && mx == g ==> (b - r) / diff >= -1.0
    ensures var mx := Max3(r, g, b);
            var diff := mx - Min3(r, g, b);
            diff != 0.0 && mx != r && mx != g ==> (r - g) / diff >= -1.0
  {
    var mx := Max3(r, g, b);
    var diff := mx - Min3(r, g, b);
    if diff != 0.0 {
      AtLeastQuotient(b - r, diff, -1.0);
      AtLeastQuotient(r - g, diff, -1.0);
    }
  }

  /** `max === 0 ? 0 : diff / max`. */
  function Saturation(r: real, g: real, b: real): (s: real)
    requires 0.0 <= r && 0.0 <= g && 0.0 <= b
    ensures 0.0 <= s <= 1.0
    ensures Max3(r, g, b) == 0.0 ==> s == 0.0
    ensures Max3(r, g, b) != 0.0 ==> s == (Max3(r, g, b) - Min3(r, g, b)) / Max3(r, g, b)
  {
    var mx := Max3(r, g, b);
    var diff := mx - Min3(r, g, b);
    if mx == 0.0 then 0.0
    else
      AtLeastQuotient(diff, mx, 0.0);
      AtMostQuotient(diff, mx, 1.0);
      diff / mx
  }

  /** Where the selector sits for a colour: an angle in radians and a distance from the centre. */
  datatype Polar = Polar(angle: real, distance: real)

  /** The polar part of `getPositionFromColor`; `None` is the early return of the origin. */
  function PolarOf(hex: string, radius: real): (q: Option<Polar>)
    ensures q.Some? <==> HexAccepted(hex)
    ensures q.Some? ==> 0.0 <= q.value.angle < 2.0 * PI
    ensures q.Some? && radius >= 0.0 ==> 0.0 <= q.value.distance <= radius
  {
    if !HexAccepted(hex) then None
    else Some(PolarOfRgb(ParseHex(RemoveFirst(hex, '#')), radius))
  }

  /** Hue and saturation of the parsed channels, as an angle and a distance. */
  function PolarOfRgb(c: Rgb, radius: real): (q: Polar)
    ensures 0.0 <= q.angle < 2.0 * PI
    ensures radius >= 0.0 ==> 0.0 <= q.distance <= radius
  {
    var r, g, b := c.r as real / 255.0, c.g as real / 255.0, c.b as real / 255.0;
    var hue := Hue(r, g, b);
    var sat := Saturation(r, g, b);
    var adjusted := JsRem(360.0 - hue, 360.0);
    var angle := adjusted * PI / 180.0;
    DistanceBound(sat, radius);
    Polar(angle, sat * radius)
  }

  lemma DistanceBound(sat: real, radius: real)
    requires 0.0 <= sat <= 1.0
    ensures radius >= 0.0 ==> 0.0 <= sat * radius <= radius
  {
    if radius >= 0.0 {
      assert radius - sat * radius == (1.0 - sat) * radius;
    }
  }

  /** `getPositionFromColor`: the selector offset for a colour, or the origin for a rejected one. */
  function PositionFromColor(hex: string, radius: real, trig: Trig): (p: Point)
    ensures !HexAccepted(hex) ==> p == Origin
    ensures HexAccepted(hex) ==> p == PointOfPolar(PolarOf(hex, radius).value, trig)
  {
    match PolarOf(hex, radius)
    case None => Origin
    case Some(q) => PointOfPolar(q, trig)
  }

  /** `x = cos(angle) * distance`, `y = -sin(angle) * distance`. */
  function PointOfPolar(q: Polar, trig: Trig): Point {
    Point(trig.cos(q.angle) * q.distance, -trig.sin(q.angle) * q.distance)
  }

  /** A grey (three equal channels) has no saturation, so its selector sits at the centre. */
  lemma GreyAtCentre(hex: string, radius: real, trig: Trig)
    requires HexAccepted(hex)
    requires var c := ParseHex(RemoveFirst(hex, '#')); c.r == c.g == c.b
    ensures PolarOf(hex, radius).value.distance == 0.0
    ensures PositionFromColor(hex, radius, trig) == Origin
  {
    var c := ParseHex(RemoveFirst(hex, '#'));
    GreyHasNoDistance(c, radius);
    var q := PolarOf(hex, radius).value;
    assert q == PolarOfRgb(c, radius);
    assert PointOfPolar(q, trig) == Origin;
  }

  lemma GreyHasNoDistance(c: Rgb, radius: real)
    requires c.r == c.g == c.b
    ensures PolarOfRgb(c, radius).distance == 0.0
  {
    var v := c.r as real / 255.0;
    assert Max3(v, v, v) == Min3(v, v, v) == v;
    assert Saturation(v, v, v) == 0.0;
  }

  // ------------------------------------------------------------- HSV to RGB

  /** `Math.round(Math.max(0, Math.min(255, x)))`: an integer channel. */
  function Channel(x: real): (n: nat)
    ensures n <= 255
    ensures 0.0 <= x <= 255.0 ==> x - 0.5 < n as real <= x + 0.5
    ensures x <= 0.0 ==> n == 0
    ensures x >= 255.0 ==> n == 255
  {
    var k := Round(ClampR(x, 0.0, 255.0));
    RoundOfInt(0);
    RoundOfInt(255);
    k
  }

  /** The six-sector table of `hsvToRgb`; outside `[0, 360)` no branch is taken and all three are 0. */
  function Sector(h: real, c: real, x: real): (real, real, real) {
    if 0.0 <= h < 60.0 then (c, x, 0.0)
    else if 60.0 <= h < 120.0 then (x, c, 0.0)
    else if 120.0 <= h < 180.0 then (0.0, c, x)
    else if 180.0 <= h < 240.0 then (0.0, x, c)
    else if 240.0 <= h < 300.0 then (x, 0.0, c)
    else if 300.0 <= h < 360.0 then (c, 0.0, x)
    else (0.0, 0.0, 0.0)
  }

  /** `1 - Math.abs(((h / 60) % 2) - 1)`: how far the hue is into its sector, as a fraction of `c`. */
  function HueFactor(h: real): (f: real)
    ensures 0.0 <= h ==> 0.0 <= f <= 1.0
  {
    DivSign(h, 60.0);
    1.0 - AbsR(JsRem(h / 60.0, 2.0) - 1.0)
  }

  /** The round-and-clamp step of `hsvToRgb` applied to the sector's three values plus `m`. */
  function Channels(h: real, c: real, x: real, m: real): (rgb: Rgb)
    ensures InRange(rgb)
  {
    var t := Sector(h, c, x);
    Rgb(Channel((t.0 + m) * 255.0), Channel((t.1 + m) * 255.0), Channel((t.2 + m) * 255.0))
  }

  /** The channels `hsvToRgb` computes once its inputs are known to be finite. */
  function HsvChannels(h: real, s: real, v: real): (rgb: Rgb)
    ensures InRange(rgb)
  {
    HsvClamped(ClampR(h, 0.0, 360.0), ClampR(s, 0.0, 1.0), ClampR(v, 0.0, 1.0))
  }

  /** `hsvToRgb` after the clamps: `c = v * s`, `x = c * factor`, `m = v - c`. */
  function HsvClamped(h: real, s: real, v: real): (rgb: Rgb)
    ensures InRange(rgb)
  {
    var c := v * s;
    Channels(h, c, c * HueFactor(h), v - c)
  }

  /** `` `rgb(${r}, ${g}, ${b})` `` */
  function RgbString(c: Rgb): string {
    "rgb(" + DecimalString(c.r) + ", " + DecimalString(c.g) + ", " + DecimalString(c.b) + ")"
  }

  /** `hsvToRgb`: red for any non-finite input, otherwise the string of in-range channels. */
  function HsvToRgb(h: JsNum, s: JsNum, v: JsNum): (r: string)
    ensures h.NonFinite? || s.NonFinite? || v.NonFinite? ==> r == "rgb(255, 0, 0)"
    ensures h.Finite? && s.Finite? && v.Finite? ==>
      exists c :: InRange(c) && r == RgbString(c) && c == HsvChannels(h.v, s.v, v.v)
  {
    if h.NonFinite? || s.NonFinite? || v.NonFinite? then "rgb(255, 0, 0)"
    else RgbString(HsvChannels(h.v, s.v, v.v))
  }

  lemma {:induction false} RedString()
    ensures RgbString(Rgb(255, 0, 0)) == "rgb(255, 0, 0)"
  {
    assert DecimalString(255) == "255" by {
      assert DecimalString(25) == "25" by {
        assert DecimalString(2) == "2";
      }
    }
    assert DecimalString(0) == "0";
  }

  /** At the start of every second sector, and at 360, the hue factor is 0. */
  lemma HueFactorAtPrimaries()
    ensures HueFactor(0.0) == 0.0 && HueFactor(120.0) == 0.0
    ensures HueFactor(240.0) == 0.0 && HueFactor(360.0) == 0.0
  {
    HueFactorAtEvenSector(0);
    HueFactorAtEvenSector(1);
    HueFactorAtEvenSector(2);
    HueFactorAtEvenSector(3);
  }

  /** At hue `120 * k` the sector count `h / 60` is even, so the factor is 0. */
  lemma HueFactorAtEvenSector(k: nat)
    ensures HueFactor((120 * k) as real) == 0.0
  {
    var h := (120 * k) as real;
    assert h / 60.0 == (2 * k) as real;
    assert (2 * k) as real / 2.0 == k as real;
    assert Trunc(k as real) == k;
    assert JsRem((2 * k) as real, 2.0) == 0.0;
  }

  /** Inside the clamp ranges the clamps change nothing. */
  lemma HsvChannelsUnclamped(h: real, s: real, v: real)
    requires 0.0 <= h <= 360.0 && 0.0 <= s <= 1.0 && 0.0 <= v <= 1.0
    ensures HsvChannels(h, s, v) == HsvClamped(h, s, v)
  {
  }

  /** A pure sector colour: `c = 1`, `x = 0`, `m = 0`. */
  lemma PureChannels(h: real)
    ensures 0.0 <= h < 60.0 ==> Channels(h, 1.0, 0.0, 0.0) == Rgb(255, 0, 0)
    ensures 120.0 <= h < 180.0 ==> Channels(h, 1.0, 0.0, 0.0) == Rgb(0, 255, 0)
    ensures 240.0 <= h < 300.0 ==> Channels(h, 1.0, 0.0, 0.0) == Rgb(0, 0, 255)
    ensures 360.0 <= h ==> Channels(h, 1.0, 0.0, 0.0) == Rgb(0, 0, 0)
  {
    assert Channel(255.0) == 255 && Channel(0.0) == 0;
    assert (1.0 + 0.0) * 255.0 == 255.0 && (0.0 + 0.0) * 255.0 == 0.0;
  }

  /** Hue 0, 120 and 240 at full saturation and value give pure red, green and blue. */
  lemma PrimaryHues()
    ensures HsvChannels(0.0, 1.0, 1.0) == Rgb(255, 0, 0)
    ensures HsvChannels(120.0, 1.0, 1.0) == Rgb(0, 255, 0)
    ensures HsvChannels(240.0, 1.0, 1.0) == Rgb(0, 0, 255)
  {
    HueFactorAtPrimaries();
    HsvChannelsUnclamped(0.0, 1.0, 1.0);
    HsvChannelsUnclamped(120.0, 1.0, 1.0);
    HsvChannelsUnclamped(240.0, 1.0, 1.0);
    PureChannels(0.0);
    PureChannels(120.0);
    PureChannels(240.0);
    assert HsvClamped(0.0, 1.0, 1.0) == Channels(0.0, 1.0, 0.0, 0.0);
    assert HsvClamped(120.0, 1.0, 1.0) == Channels(120.0, 1.0, 0.0, 0.0);
    assert HsvClamped(240.0, 1.0, 1.0) == Channels(240.0, 1.0, 0.0, 0.0);
  }

  /** Hue 360 survives the clamp but matches no sector, so only `m = v - c` remains: black at full saturation. */
  lemma HueThreeSixty()
    ensures HsvChannels(360.0, 1.0, 1.0) == Rgb(0, 0, 0)
  {
    HueFactorAtPrimaries();
    HsvChannelsUnclamped(360.0, 1.0, 1.0);
    PureChannels(360.0);
    assert HsvClamped(360.0, 1.0, 1.0) == Channels(360.0, 1.0, 0.0, 0.0);
  }

  /** With no saturation the three channels are equal: the grey of brightness `v`. */
  lemma NoSaturationIsGrey(h: real, s: real, v: real)
    requires s <= 0.0
    ensures var c := HsvChannels(h, s, v);
            c.r == c.g == c.b == Channel(ClampR(v, 0.0, 1.0) * 255.0)
  {
    var h' := ClampR(h, 0.0, 360.0);
    var v' := ClampR(v, 0.0, 1.0);
    assert ClampR(s, 0.0, 1.0) == 0.0;
    assert HsvClamped(h', 0.0, v') == Channels(h', 0.0, 0.0, v') by {
      assert v' * 0.0 == 0.0;
      assert 0.0 * HueFactor(h') == 0.0;
    }
    assert Sector(h', 0.0, 0.0) == (0.0, 0.0, 0.0);
  }

  /** At full saturation and value every hue in `[0, 360)` has one channel at 255 and one at 0. */
  lemma FullySaturated(h: real)
    requires 0.0 <= h < 360.0
    ensures var c := HsvChannels(h, 1.0, 1.0);
            (c.r == 255 || c.g == 255 || c.b == 255) && (c.r == 0 || c.g == 0 || c.b == 0)
  {
    var x := HueFactor(h);
    HsvChannelsUnclamped(h, 1.0, 1.0);
    assert HsvClamped(h, 1.0, 1.0) == Channels(h, 1.0, x, 0.0) by {
      assert 1.0 * 1.0 == 1.0 && 1.0 * x == x;
    }
    assert 0.0 <= x * 255.0 <= 255.0;
    assert Channel((1.0 + 0.0) * 255.0) == 255 && Channel((0.0 + 0.0) * 255.0) == 0;
  }

  // -------------------------------------------------------- segments of the wheel

  /** The fill of segment `i` of the 36 drawn: `hsvToRgb(i * 10, 1, 1)`. */
  function SegmentColor(i: nat): (color: string)
    requires i < 36
    ensures color == RgbString(SegmentChannels(i))
  {
    HsvToRgb(Finite((i * 10) as real), Finite(1.0), Finite(1.0))
  }

  /** The channels of segment `i`. */
  function SegmentChannels(i: nat): Rgb
    requires i < 36
  {
    HsvChannels((i * 10) as real, 1.0, 1.0)
  }

  /** Every segment is a fully saturated colour; segments 0, 12 and 24 are red, green and blue. */
  lemma SegmentTable(i: nat)
    requires i < 36
    ensures var c := SegmentChannels(i);
            (c.r == 255 || c.g == 255 || c.b == 255) && (c.r == 0 || c.g == 0 || c.b == 0)
    ensures i == 0 ==> SegmentChannels(i) == Rgb(255, 0, 0)
    ensures i == 12 ==> SegmentChannels(i) == Rgb(0, 255, 0)
    ensures i == 24 ==> SegmentChannels(i) == Rgb(0, 0, 255)
  {
    FullySaturated((i * 10) as real);
    PrimaryHues();
    assert (0 * 10) as real == 0.0 && (12 * 10) as real == 120.0 && (24 * 10) as real == 240.0;
  }

  // ------------------------------------------------------------- RGB to hex

  /** The three digit groups of a match of `/rgb\((\d+), (\d+), (\d+)\)/`. */
  datatype RgbMatch = RgbMatch(r: string, g: string, b: string)

  /** Where the run of digits starting at `i` ends; `\d+` is greedy. */
  function DigitRunEnd(s: string, i: nat): (j: nat)
    requires i <= |s|
    ensures i <= j <= |s| && AllDigits(s[i..j])
    ensures j < |s| ==> !IsDigit(s[j])
    decreases |s| - i
  {
    if i < |s| && IsDigit(s[i]) then
      var j := DigitRunEnd(s, i + 1);
      assert s[i..j] == [s[i]] + s[i + 1..j];
      j
    else i
  }

  /**
   * The match of the pattern starting exactly at `i`, if any. A digit run is
   * always followed by `,` or `)`, so the greedy run is the only one that can
   * match: backtracking never finds another.
   */
  function MatchAt(s: string, i: nat): (m: Option<RgbMatch>)
    requires i <= |s|
    ensures m.Some? ==> m.value.r != [] && m.value.g != [] && m.value.b != []
    ensures m.Some? ==> AllDigits(m.value.r) && AllDigits(m.value.g) && AllDigits(m.value.b)
  {
    if i + 4 <= |s| && s[i..i + 4] == "rgb(" then
      var e1 := DigitRunEnd(s, i + 4);
      if e1 > i + 4 && e1 + 2 <= |s| && s[e1..e1 + 2] == ", " then
        var e2 := DigitRunEnd(s, e1 + 2);
        if e2 > e1 + 2 && e2 + 2 <= |s| && s[e2..e2 + 2] == ", " then
          var e3 := DigitRunEnd(s, e2 + 2);
          if e3 > e2 + 2 && e3 < |s| && s[e3] == ')' then
            Some(RgbMatch(s[i + 4..e1], s[e1 + 2..e2], s[e2 + 2..e3]))
          else None
        else None
      else None
    else None
  }

  /** `s.match(pattern)`: the leftmost match. */
  function FindRgb(s: string, i: nat): (m: Option<RgbMatch>)
    requires i <= |s|
    ensures m.Some? ==> AllDigits(m.value.r) && AllDigits(m.value.g) && AllDigits(m.value.b)
    decreases |s| - i
  {
    match MatchAt(s, i)
    case Some(m) => Some(m)
    case None => if i == |s| then None else FindRgb(s, i + 1)
  }

  /** What the final `/^#[0-9a-f]{6}$/i` test accepts. */
  predicate IsHexColor(s: string) {
    |s| == 7 && s[0] == '#' && IsSixHex(s[1..])
  }

  /** A `#` followed by six lower-case hex digits. */
  predicate IsLowerHexColor(s: string) {
    |s| == 7 && s[0] == '#' && forall i :: 1 <= i < 7 ==> IsLowerHexDigit(s[i])
  }

  /** Six hex digits of `(1 << 24) + (r << 16) + (g << 8) + b`, after dropping the leading 1. */
  function HexBody(r: nat, g: nat, b: nat): (s: string)
    ensures forall i :: 0 <= i < |s| ==> IsLowerHexDigit(s[i])
  {
    var t := ToBase16(0x100_0000 + r * 0x1_0000 + g * 0x100 + b);
    t[1..]
  }

  /** `rgbToHex`: always a `#` and six lower-case hex digits. */
  function RgbToHex(rgb: string): (hex: string)
    ensures IsLowerHexColor(hex)
    ensures rgb == [] || FindRgb(rgb, 0).None? ==> hex == "#000000"
    ensures FindRgb(rgb, 0).Some? && !InRange(MatchedChannels(FindRgb(rgb, 0).value)) ==> hex == "#000000"
  {
    assert IsLowerHexColor("#000000");
    if rgb == [] then "#000000"
    else match FindRgb(rgb, 0)
      case None => "#000000"
      case Some(m) =>
        var c := MatchedChannels(m);
        if !InRange(c) then "#000000"
        else
          var hex := "#" + HexBody(c.r, c.g, c.b);
          if IsHexColor(hex) then hex else "#000000"
  }

  /** `parseInt(match[k], 10)` for the three groups. */
  function MatchedChannels(m: RgbMatch): (c: Rgb)
    requires AllDigits(m.r) && AllDigits(m.g) && AllDigits(m.b)
  {
    Rgb(ParseDecimal(m.r), ParseDecimal(m.g), ParseDecimal(m.b))
  }

  // ------------------------------------------------------------ round trip

  lemma {:induction false} DigitRunOf(s: string, i: nat, d: string)
    requires i + |d| <= |s| && s[i..i + |d|] == d && AllDigits(d)
    requires i + |d| == |s| || !IsDigit(s[i + |d|])
    ensures DigitRunEnd(s, i) == i + |d|
    decreases |d|
  {
    if d != [] {
      assert s[i] == d[0];
      assert s[i + 1..i + 1 + |d[1..]|] == d[1..];
      DigitRunOf(s, i + 1, d[1..]);
    }
  }

  lemma Split<T>(a: seq<T>, b: seq<T>)
    ensures (a + b)[..|a|] == a && (a + b)[|a|..] == b
  {
  }

  /** The pattern matches `rgb(` digits `, ` digits `, ` digits `)` at its start. */
  lemma GroupsMatch(s: string, dr: string, dg: string, db: string)
    requires dr != [] && dg != [] && db != [] && AllDigits(dr) && AllDigits(dg) && AllDigits(db)
    requires s == "rgb(" + dr + ", " + dg + ", " + db + ")"
    ensures MatchAt(s, 0) == Some(RgbMatch(dr, dg, db))
  {
    var e1 := 4 + |dr|;
    var e2 := e1 + 2 + |dg|;
    var e3 := e2 + 2 + |db|;
    GroupsLayout(s, dr, dg, db);
    DigitRunOf(s, 4, dr);
    DigitRunOf(s, e1 + 2, dg);
    DigitRunOf(s, e2 + 2, db);
    MatchAtRuns(s, e1, e2, e3);
  }

  /** Where the pieces of `rgb(` digits `, ` digits `, ` digits `)` lie. */
  lemma GroupsLayout(s: string, dr: string, dg: string, db: string)
    requires s == "rgb(" + dr + ", " + dg + ", " + db + ")"
    ensures var e1 := 4 + |dr|; var e2 := e1 + 2 + |dg|; var e3 := e2 + 2 + |db|;
      |s| == e3 + 1 && s[..4] == "rgb(" && s[4..e1] == dr && s[e1..e1 + 2] == ", "
      && s[e1 + 2..e2] == dg && s[e2..e2 + 2] == ", " && s[e2 + 2..e3] == db && s[e3] == ')'
  {
    var p1 := "rgb(" + dr;
    var p2 := p1 + ", ";
    var p3 := p2 + dg;
    var p4 := p3 + ", ";
    var p5 := p4 + db;
    Split(p5, ")"); Split(p4, db); Split(p3, ", "); Split(p2, dg); Split(p1, ", "); Split("rgb(", dr);
    assert s[..|p5|] == p5;
    assert s[..|p4|] == p4;
    assert s[..|p3|] == p3;
    assert s[..|p2|] == p2;
    assert s[..|p1|] == p1;
  }

  /** `MatchAt` at the start, given where the three digit runs end. */
  lemma MatchAtRuns(s: string, e1: nat, e2: nat, e3: nat)
    requires 4 < e1 && e1 + 2 < e2 && e2 + 2 < e3 < |s|
    requires s[..4] == "rgb(" && s[e1..e1 + 2] == ", " && s[e2..e2 + 2] == ", " && s[e3] == ')'
    requires DigitRunEnd(s, 4) == e1 && DigitRunEnd(s, e1 + 2) == e2 && DigitRunEnd(s, e2 + 2) == e3
    ensures MatchAt(s, 0) == Some(RgbMatch(s[4..e1], s[e1 + 2..e2], s[e2 + 2..e3]))
  {
    assert s[0..4] == s[..4];
  }

  /** The pattern matches the component's own `rgb(r, g, b)` string at its start, with the three decimal groups. */
  lemma MatchOfRgbString(c: Rgb)
    ensures FindRgb(RgbString(c), 0)
         == Some(RgbMatch(DecimalString(c.r), DecimalString(c.g), DecimalString(c.b)))
  {
    GroupsMatch(RgbString(c), DecimalString(c.r), DecimalString(c.g), DecimalString(c.b));
  }

  /** `(1 << 24) + (r << 16) + (g << 8) + b` in base 16 is `1` and the three hex pairs. */
  lemma HexDigits(c: Rgb)
    requires InRange(c)
    ensures ToBase16(0x100_0000 + c.r * 0x1_0000 + c.g * 0x100 + c.b)
         == "1" + HexPair(c.r) + HexPair(c.g) + HexPair(c.b)
  {
    var n1 := 0x100 + c.r;
    var n2 := n1 * 0x100 + c.g;
    assert n2 * 0x100 + c.b == 0x100_0000 + c.r * 0x1_0000 + c.g * 0x100 + c.b;
    assert ToBase16(1) == "1";
    PairStep(1, c.r);
    PairStep(n1, c.g);
    PairStep(n2, c.b);
  }

  /** Appending a byte to a number appends its two hex digits. */
  lemma PairStep(q: nat, x: nat)
    requires 1 <= q && x < 256
    ensures ToBase16(q * 256 + x) == ToBase16(q) + HexPair(x)
  {
    var hi, lo := x / 16, x % 16;
    assert (q * 16 + hi) * 16 + lo == q * 256 + x;
    ToBase16Step(q, hi);
    ToBase16Step(q * 16 + hi, lo);
  }

  /**
   * Serialising in-range channels as `rgb(r, g, b)` and converting gives `#`
   * and the three lower-case hex pairs.
   */
  lemma RgbToHexOfRgbString(c: Rgb)
    requires InRange(c)
    ensures RgbToHex(RgbString(c)) == "#" + HexPair(c.r) + HexPair(c.g) + HexPair(c.b)
  {
    MatchOfRgbString(c);
    DecimalRoundTrip(c.r);
    DecimalRoundTrip(c.g);
    DecimalRoundTrip(c.b);
    var m := RgbMatch(DecimalString(c.r), DecimalString(c.g), DecimalString(c.b));
    assert MatchedChannels(m) == c;
    HexOfChannels(c);
    RgbToHexOfMatch(RgbString(c), m);
  }

  /** `rgbToHex` of a string whose match holds in-range channels whose hex passes the final test. */
  lemma RgbToHexOfMatch(rgb: string, m: RgbMatch)
    requires rgb != [] && FindRgb(rgb, 0) == Some(m)
    requires AllDigits(m.r) && AllDigits(m.g) && AllDigits(m.b)
    requires var c := MatchedChannels(m); InRange(c) && IsHexColor("#" + HexBody(c.r, c.g, c.b))
    ensures var c := MatchedChannels(m); RgbToHex(rgb) == "#" + HexBody(c.r, c.g, c.b)
  {
  }

  /** The hex of in-range channels is `#` and their three hex pairs, and passes the final test. */
  lemma HexOfChannels(c: Rgb)
    requires InRange(c)
    ensures "#" + HexBody(c.r, c.g, c.b) == "#" + HexPair(c.r) + HexPair(c.g) + HexPair(c.b)
    ensures IsHexColor("#" + HexBody(c.r, c.g, c.b))
  {
    HexDigits(c);
    var hex := "#" + HexBody(c.r, c.g, c.b);
    assert hex == "#" + HexPair(c.r) + HexPair(c.g) + HexPair(c.b);
    assert IsSixHex(hex[1..]) by {
      assert forall i :: 0 <= i < 6 ==> IsLowerHexDigit(hex[1..][i]);
    }
  }

  /** A channel above 255 in the string makes the conversion fall back to black. */
  lemma RgbToHexOutOfRange(c: Rgb)
    requires !InRange(c)
    ensures RgbToHex(RgbString(c)) == "#000000"
  {
    MatchOfRgbString(c);
    DecimalRoundTrip(c.r);
    DecimalRoundTrip(c.g);
    DecimalRoundTrip(c.b);
  }

  /** Parsing the hex the wheel produces recovers the channels it was made from. */
  lemma HexRoundTrip(c: Rgb)
    requires InRange(c)
    ensures HexAccepted(RgbToHex(RgbString(c)))
    ensures ParseHex(RemoveFirst(RgbToHex(RgbString(c)), '#')) == c
  {
    RgbToHexOfRgbString(c);
    var body := HexPair(c.r) + HexPair(c.g) + HexPair(c.b);
    assert "#" + HexPair(c.r) + HexPair(c.g) + HexPair(c.b) == "#" + body;
    RemoveLeadingHash(body);
    PairsParse(c.r, c.g, c.b);
  }

  /** Removing the first `#` from `#` and `body` leaves `body` when `body` has none. */
  lemma RemoveLeadingHash(body: string)
    requires forall i :: 0 <= i < |body| ==> IsLowerHexDigit(body[i])
    ensures RemoveFirst("#" + body, '#') == body
  {
    var hex := "#" + body;
    assert FirstIndex(hex, '#') == 0;
    assert hex[1..] == body;
  }

  /** Three hex pairs are six hex digits that parse back to the three bytes. */
  lemma PairsParse(r: nat, g: nat, b: nat)
    requires r < 256 && g < 256 && b < 256
    ensures var body := HexPair(r) + HexPair(g) + HexPair(b);
      IsSixHex(body) && ParseHex(body) == Rgb(r, g, b)
  {
    var pr, pg, pb := HexPair(r), HexPair(g), HexPair(b);
    var body := pr + pg + pb;
    assert body[0] == pr[0] && body[1] == pr[1] && body[2] == pg[0];
    assert body[3] == pg[1] && body[4] == pb[0] && body[5] == pb[1];
    assert AllHex(body);
  }

  // ------------------------------------------------------- position to colour

  /** The disc test with squares: the touch lies outside the wheel of radius `radius`. */
  predicate Outside(dx: real, dy: real, radius: real) {
    radius < 0.0 || dx * dx + dy * dy > radius * radius
  }

  /** With an exact square root the square test is `Math.sqrt(dx * dx + dy * dy) > radius`. */
  lemma OutsideIffBeyondRadius(dx: real, dy: real, radius: real, trig: Trig)
    requires SqrtSound(trig, dx * dx + dy * dy)
    ensures Outside(dx, dy, radius) <==> trig.sqrt(dx * dx + dy * dy) > radius
  {
    var d := trig.sqrt(dx * dx + dy * dy);
    if radius >= 0.0 {
      SquareMonotone(radius, d);
    }
  }

  /** `rgbToHex(hsvToRgb(hue, saturation, 1))`. */
  function ColorAt(hue: real, sat: real): (hex: string)
    ensures IsLowerHexColor(hex)
  {
    RgbToHex(HsvToRgb(Finite(hue), Finite(sat), Finite(1.0)))
  }

  /**
   * `getColorFromPosition`: the current colour for a non-finite coordinate, a
   * point outside the wheel, or a zero radius (where the saturation is 0/0);
   * otherwise the colour of the point's hue and saturation at full value.
   */
  function ColorFromPosition(x: JsNum, y: JsNum, centerX: real, centerY: real, radius: real,
                             current: string, trig: Trig): (color: string)
    ensures x.NonFinite? || y.NonFinite? ==> color == current
    ensures x.Finite? && y.Finite? && Outside(x.v - centerX, y.v - centerY, radius) ==> color == current
    ensures radius == 0.0 ==> color == current
    ensures color == current || IsLowerHexColor(color)
  {
    if x.NonFinite? || y.NonFinite? then current
    else ColorOfOffset(x.v - centerX, y.v - centerY, radius, current, trig)
  }

  /** `getColorFromPosition` once the offset from the centre is known to be finite. */
  function ColorOfOffset(dx: real, dy: real, radius: real, current: string, trig: Trig): (color: string)
    ensures Outside(dx, dy, radius) || radius == 0.0 ==> color == current
    ensures color == current || IsLowerHexColor(color)
    ensures !Outside(dx, dy, radius) && radius != 0.0 && trig.sqrt(dx * dx + dy * dy) >= 0.0 ==>
      color == ColorAt(WheelHue(trig.atan2(-dy, dx)), MinR(trig.sqrt(dx * dx + dy * dy) / radius, 1.0))
  {
    if Outside(dx, dy, radius) || radius == 0.0 then current
    else
      var d := trig.sqrt(dx * dx + dy * dy);
      var sat := MinR(d / radius, 1.0);
      DivSign(d, radius);
      if sat < 0.0 then current
      else
        var hex := ColorAt(WheelHue(trig.atan2(-dy, dx)), sat);
        if hex != [] && hex[0] == '#' then hex else current
  }

  /** The hue of an angle in radians: `(360 - ((angle * 180 / PI + 360) % 360)) % 360`. */
  function WheelHue(angle: real): (hue: real)
    ensures 0.0 <= hue < 360.0
  {
    JsRem(360.0 - JsRem(angle * 180.0 / PI + 360.0, 360.0), 360.0)
  }

  /** No saturation at full value gives three channels at 255. */
  lemma WhiteChannels(hue: real)
    ensures HsvChannels(hue, 0.0, 1.0) == Rgb(255, 255, 255)
  {
    NoSaturationIsGrey(hue, 0.0, 1.0);
    assert ClampR(1.0, 0.0, 1.0) == 1.0;
    assert Channel(1.0 * 255.0) == 255;
  }

  /** White serialises to `#ffffff`. */
  lemma WhiteHex()
    ensures RgbToHex(RgbString(Rgb(255, 255, 255))) == "#ffffff"
  {
    assert HexPair(255) == "ff" by {
      assert 255 / 16 == 15 && 255 % 16 == 15;
      assert LowerHexChar(15) == 'f';
    }
    assert "#" + "ff" + "ff" + "ff" == "#ffffff";
    RgbToHexOfRgbString(Rgb(255, 255, 255));
  }

  /** Saturation 0 at full value is white, whatever the hue. */
  lemma NoSaturationWhite(hue: real)
    ensures ColorAt(hue, 0.0) == "#ffffff"
  {
    WhiteChannels(hue);
    WhiteHex();
  }

  /** At the centre, with an exact square root, the colour is white. */
  lemma CentreIsWhite(cx: real, cy: real, radius: real, current: string, trig: Trig)
    requires radius > 0.0 && trig.sqrt(0.0) == 0.0
    ensures ColorFromPosition(Finite(cx), Finite(cy), cx, cy, radius, current, trig) == "#ffffff"
  {
    var x, y := Finite(cx), Finite(cy);
    FinitePosition(x, y, cx, cy, radius, current, trig);
    CentreOffsetIsWhite(x.v - cx, y.v - cy, radius, current, trig);
  }

  /** For finite coordinates the colour is that of the offset from the centre. */
  lemma FinitePosition(x: JsNum, y: JsNum, centerX: real, centerY: real, radius: real, current: string, trig: Trig)
    requires x.Finite? && y.Finite?
    ensures ColorFromPosition(x, y, centerX, centerY, radius, current, trig)
         == ColorOfOffset(x.v - centerX, y.v - centerY, radius, current, trig)
  {
  }

  lemma CentreOffsetIsWhite(dx: real, dy: real, radius: real, current: string, trig: Trig)
    requires dx == 0.0 && dy == 0.0
    requires radius > 0.0 && trig.sqrt(0.0) == 0.0
    ensures ColorOfOffset(dx, dy, radius, current, trig) == "#ffffff"
  {
    assert dx * dx + dy * dy == 0.0;
    assert !Outside(dx, dy, radius);
    assert MinR(0.0 / radius, 1.0) == 0.0;
    NoSaturationWhite(WheelHue(trig.atan2(-dy, dx)));
  }
}
