/**
 * The light colour screen of one cup: the starting colour and brightness
 * taken from the route and the store, the brightness and colour-temperature
 * sliders, their thumb and fill geometry, and the confirm button.
 * `kelvinToHex` is a parameter; `clamp(x, 0, 1)` is taken to be the usual
 * clamp. The store's `setCupBrightness`, which the store in this model does
 * not have, is recorded as a call; whether the two apply calls succeed is a
 * parameter of the confirm handler.
 */
module ColorWheelScreen {
  import opened Common
  import opened Text
  import opened Seqs
  import opened NiteControlStore

  const FallbackColor: string := "#00FF88"
  const FallbackBrightness: real := 22.0
  const MinKelvin: int := 1000
  const MaxKelvin: int := 6500
  const ThumbSize: real := 26.0

  // ------------------------------------------------------------ initial values

  /**
   * The route colour when it is a string starting with `#` whose length in
   * UTF-16 code units is 7 or 9 (digits unchecked), else `#00FF88`.
   */
  function InitialColor(routeColor: Option<string>): (c: string)
    ensures c != [] && c[0] == '#' && (JsLength(c) == 7 || JsLength(c) == 9)
    ensures c == FallbackColor || routeColor == Some(c)
    ensures routeColor.Some? ==>
      (c == routeColor.value <==> routeColor.value != [] && routeColor.value[0] == '#'
                                  && (JsLength(routeColor.value) == 7 || JsLength(routeColor.value) == 9))
  {
    if routeColor.Some? && |routeColor.value| > 0 && routeColor.value[0] == '#'
       && (JsLength(routeColor.value) == 7 || JsLength(routeColor.value) == 9)
    then routeColor.value
    else
      JsLengthIsSizeIff(FallbackColor);
      FallbackColor
  }

  /** A colour of `#` and three characters outside the Basic Multilingual Plane has length 7, so it is kept. */
  lemma AstralColorKept()
    ensures InitialColor(Some("#\U{1F600}\U{1F600}\U{1F600}")) == "#\U{1F600}\U{1F600}\U{1F600}"
  {
    var s := "#\U{1F600}\U{1F600}\U{1F600}";
    assert s[1..][1..][1..][1..] == [];
    assert JsLength(s) == 7;
  }

  /** The brightness of the cup with the route's id, or 22 when there is no such cup. */
  function InitialBrightness(cups: seq<Cup>, cupId: Option<string>): (b: real)
    ensures cupId.None? || (forall i :: 0 <= i < |cups| ==> cups[i].id != cupId.value) ==> b == FallbackBrightness
    ensures cupId.Some? && (exists i :: 0 <= i < |cups| && cups[i].id == cupId.value) ==>
      exists k :: 0 <= k < |cups| && cups[k].id == cupId.value && b == cups[k].brightness
                  && forall j :: 0 <= j < k ==> cups[j].id != cupId.value
  {
    if cupId.None? then FallbackBrightness
    else
      var cup := Find(cups, (c: Cup) => c.id == cupId.value);
      if cup.Some? then cup.value.brightness else FallbackBrightness
  }

  // ------------------------------------------------------------ the sliders

  /** `updateBrightnessByX`: nothing without a track; else `round(clamp(x / width, 0, 1) * 100)`. */
  function BrightnessAt(x: real, trackWidth: real): (b: Option<int>)
    ensures b.None? <==> trackWidth <= 0.0
    ensures b.Some? ==> 0 <= b.value <= 100
    ensures b.Some? && x <= 0.0 ==> b.value == 0
    ensures b.Some? && x >= trackWidth ==> b.value == 100
  {
    if trackWidth <= 0.0 then None
    else
      var ratio := ClampR(x / trackWidth, 0.0, 1.0);
      RatioEnds(x, trackWidth);
      RoundMonotone(ratio * 100.0, 100.0);
      RoundMonotone(0.0, ratio * 100.0);
      RoundOfInt(100);
      RoundOfInt(0);
      Some(Round(ratio * 100.0))
  }

  /** `x <= 0` is the left end of the track and `x >= width` the right end. */
  lemma RatioEnds(x: real, w: real)
    requires w > 0.0
    ensures x <= 0.0 ==> ClampR(x / w, 0.0, 1.0) == 0.0
    ensures x >= w ==> ClampR(x / w, 0.0, 1.0) == 1.0
  {
    DivSign(x, w);
    if x >= w {
      AtLeastQuotient(x, w, 1.0);
    }
  }

  lemma ClampMonotone(a: real, b: real)
    requires a <= b
    ensures ClampR(a, 0.0, 1.0) <= ClampR(b, 0.0, 1.0)
  {
  }

  /** Dragging further right never lowers the brightness. */
  lemma BrightnessMonotone(x1: real, x2: real, trackWidth: real)
    requires trackWidth > 0.0 && x1 <= x2
    ensures BrightnessAt(x1, trackWidth).value <= BrightnessAt(x2, trackWidth).value
  {
    DivMonotone(x1, x2, trackWidth);
    ClampMonotone(x1 / trackWidth, x2 / trackWidth);
    RoundMonotone(ClampR(x1 / trackWidth, 0.0, 1.0) * 100.0, ClampR(x2 / trackWidth, 0.0, 1.0) * 100.0);
  }

  /** `updateKelvinByX`: nothing without a track; else `round(1000 + ratio * 5500)`. */
  function KelvinAt(x: real, trackWidth: real): (k: Option<int>)
    ensures k.None? <==> trackWidth <= 0.0
    ensures k.Some? ==> MinKelvin <= k.value <= MaxKelvin
    ensures k.Some? && x <= 0.0 ==> k.value == MinKelvin
    ensures k.Some? && x >= trackWidth ==> k.value == MaxKelvin
  {
    if trackWidth <= 0.0 then None
    else
      var ratio := ClampR(x / trackWidth, 0.0, 1.0);
      var t := 1000.0 + ratio * (6500.0 - 1000.0);
      RatioEnds(x, trackWidth);
      RoundMonotone(t, 6500.0);
      RoundMonotone(1000.0, t);
      RoundOfInt(6500);
      RoundOfInt(1000);
      Some(Round(t))
  }

  /** A slider thumb: `max(0, min(width - 26, round(fraction * width) - 13))`, or 0 without a track. */
  function ThumbLeft(fraction: real, trackWidth: real): (left: real)
    ensures left >= 0.0
    ensures trackWidth <= 0.0 ==> left == 0.0
    ensures trackWidth >= ThumbSize ==> left <= trackWidth - ThumbSize
    ensures 0.0 < trackWidth < ThumbSize ==> left == 0.0
  {
    if trackWidth > 0.0 then MaxR(0.0, MinR(trackWidth - ThumbSize, Round(fraction * trackWidth) as real - 13.0))
    else 0.0
  }

  /** The fraction of the track a brightness percentage covers. */
  function BrightnessThumb(brightness: real, trackWidth: real): real {
    ThumbLeft(brightness / 100.0, trackWidth)
  }

  /** The fraction of the track a colour temperature covers: `(kelvin - 1000) / 5500`. */
  function KelvinThumb(kelvin: int, trackWidth: real): real {
    ThumbLeft((kelvin - MinKelvin) as real / (MaxKelvin - MinKelvin) as real, trackWidth)
  }

  /** The brightness fill: `brightness / 100 * width`, or 0 without a track; within the track for 0..100. */
  function FillWidth(brightness: real, trackWidth: real): (w: real)
    ensures trackWidth <= 0.0 ==> w == 0.0
    ensures trackWidth > 0.0 && 0.0 <= brightness <= 100.0 ==> 0.0 <= w <= trackWidth
    ensures trackWidth > 0.0 ==> w * 100.0 == brightness * trackWidth
  {
    if trackWidth > 0.0 then
      var f := brightness / 100.0;
      if 0.0 <= brightness <= 100.0 then
        FractionOf(f, trackWidth);
        f * trackWidth
      else f * trackWidth
    else 0.0
  }

  // ------------------------------------------------------------ the screen

  class Screen {
    const store: Store
    const cupId: Option<string>
    const kelvinToHex: int -> string
    var selectedColor: string
    var brightness: real
    var kelvin: int
    var isApplying: bool
    var trackWidth: real
    var tempTrackWidth: real
    /** The `setCupBrightness(cupId, brightness)` calls made. */
    var brightnessCalls: seq<(Option<string>, real)>
    var wentBack: bool

    constructor (store: Store, cupId: Option<string>, routeColor: Option<string>, kelvinToHex: int -> string)
      ensures this.store == store && this.cupId == cupId && this.kelvinToHex == kelvinToHex
      ensures selectedColor == InitialColor(routeColor)
      ensures brightness == InitialBrightness(store.cups, cupId)
      ensures kelvin == 4000 && !isApplying && trackWidth == 0.0 && tempTrackWidth == 0.0
      ensures brightnessCalls == [] && !wentBack
    {
      this.store, this.cupId, this.kelvinToHex := store, cupId, kelvinToHex;
      selectedColor := InitialColor(routeColor);
      brightness := InitialBrightness(store.cups, cupId);
      kelvin, isApplying := 4000, false;
      trackWidth, tempTrackWidth := 0.0, 0.0;
      brightnessCalls, wentBack := [], false;
    }

    method HandleColorChange(color: string)
      modifies this`selectedColor
      ensures selectedColor == color
    {
      selectedColor := color;
    }

    method LayoutBrightnessTrack(width: real)
      modifies this`trackWidth
      ensures trackWidth == width
    {
      trackWidth := width;
    }

    method LayoutTemperatureTrack(width: real)
      modifies this`tempTrackWidth
      ensures tempTrackWidth == width
    {
      tempTrackWidth := width;
    }

    method UpdateBrightnessByX(x: real)
      modifies this`brightness
      ensures BrightnessAt(x, trackWidth).None? ==> brightness == old(brightness)
      ensures BrightnessAt(x, trackWidth).Some? ==> brightness == BrightnessAt(x, trackWidth).value as real
    {
      if trackWidth <= 0.0 {
        return;
      }
      brightness := BrightnessAt(x, trackWidth).value as real;
    }

    /** The temperature slider sets the temperature and the colour `kelvinToHex` gives for it. */
    method UpdateKelvinByX(x: real)
      modifies this`kelvin, this`selectedColor
      ensures KelvinAt(x, tempTrackWidth).None? ==> kelvin == old(kelvin) && selectedColor == old(selectedColor)
      ensures KelvinAt(x, tempTrackWidth).Some? ==>
        kelvin == KelvinAt(x, tempTrackWidth).value && selectedColor == kelvinToHex(kelvin)
    {
      if tempTrackWidth <= 0.0 {
        return;
      }
      kelvin := KelvinAt(x, tempTrackWidth).value;
      selectedColor := kelvinToHex(kelvin);
    }

    /** A temperature swatch. */
    method PickKelvin(k: int)
      modifies this`kelvin, this`selectedColor
      ensures kelvin == k && selectedColor == kelvinToHex(k)
    {
      kelvin := k;
      selectedColor := kelvinToHex(k);
    }

    /**
     * `handleConfirm` (its button is disabled while applying): apply the colour
     * to the cup and request its brightness; go back only when both calls
     * succeed; `isApplying` is set for the duration and cleared at the end
     * whatever the outcome.
     */
    method HandleConfirm(applyOk: bool)
      requires store.Valid()
      modifies this`isApplying, this`brightnessCalls, this`wentBack, store`cups
      ensures store.Valid() && isApplying == old(isApplying)
      ensures old(isApplying) ==>
        store.cups == old(store.cups) && brightnessCalls == old(brightnessCalls) && wentBack == old(wentBack)
      ensures !old(isApplying) ==>
        store.cups == (if cupId.Some? then Recolor(old(store.cups), IdIs(cupId.value), selectedColor)
                       else old(store.cups))
        && brightnessCalls == old(brightnessCalls) + [(cupId, brightness)]
        && wentBack == (old(wentBack) || applyOk)
    {
      if isApplying {
        return;
      }
      isApplying := true;
      if cupId.Some? {
        store.SetCupColor(cupId.value, selectedColor);
      }
      brightnessCalls := brightnessCalls + [(cupId, brightness)];
      if applyOk {
        wentBack := true;
      }
      isApplying := false;
    }
  }
}
