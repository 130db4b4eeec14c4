/**
 * The stateful half of the colour wheel component: the selector offset, the
 * current colour, and the debounced delivery of colour changes to the
 * `onColorChange` callback. The debounce is a pending slot for at most one
 * timer plus the last delivered colour; the platform delay is not modelled,
 * a timer firing is an explicit event.
 */
module ColorWheelController {
  import opened Common
  import opened ColorWheel

  // ------------------------------------------------------------ the debounce

  /**
   * The debounce state: `lastColorRef`, the colour of the timer in
   * `debounceTimeoutRef` (if one is still to fire), and the colours handed to
   * `onColorChange` so far.
   */
  datatype Debounce = Debounce(last: string, pending: Option<string>, delivered: seq<string>)

  datatype Event =
    | Change(color: string)   // debouncedColorChange(color)
    | Fire                    // the pending timer fires
    | Unmounted               // the cleanup effect clears the timer
    | Reset(color: string)    // the initial-colour effect sets lastColorRef to color

  /**
   * One event: a change replaces the pending timer; a firing delivers only a
   * colour that differs from the last; the initial-colour effect resets the
   * last colour.
   */
  function Step(d: Debounce, e: Event): (n: Debounce)
    ensures e.Change? ==> n == d.(pending := Some(e.color))
    ensures e.Fire? && d.pending.Some? && d.pending.value != d.last ==>
      n == Debounce(d.pending.value, None, d.delivered + [d.pending.value])
    ensures e.Fire? && (d.pending.None? || d.pending.value == d.last) ==> n == d.(pending := None)
    ensures e.Unmounted? ==> n == d.(pending := None)
    ensures e.Reset? ==> n == d.(last := e.color)
  {
    match e
    case Change(c) => d.(pending := Some(c))
    case Fire =>
      if d.pending.Some? && d.pending.value != d.last then
        Debounce(d.pending.value, None, d.delivered + [d.pending.value])
      else d.(pending := None)
    case Unmounted => d.(pending := None)
    case Reset(c) => d.(last := c)
  }

  function Run(d: Debounce, es: seq<Event>): Debounce
    decreases |es|
  {
    if es == [] then d else Run(Step(d, es[0]), es[1..])
  }

  function Changes(cs: seq<string>): (es: seq<Event>)
    ensures |es| == |cs| && forall i :: 0 <= i < |cs| ==> es[i] == Change(cs[i])
  {
    seq(|cs|, i requires 0 <= i < |cs| => Change(cs[i]))
  }

  lemma {:induction false} RunAppend(d: Debounce, a: seq<Event>, b: seq<Event>)
    ensures Run(d, a + b) == Run(Run(d, a), b)
    decreases |a|
  {
    if a != [] {
      assert (a + b)[1..] == a[1..] + b;
      RunAppend(Step(d, a[0]), a[1..], b);
    } else {
      assert a + b == b;
    }
  }

  /** A burst of changes leaves only the last one pending and delivers nothing. */
  lemma {:induction false} ChangesLeaveLastPending(d: Debounce, cs: seq<string>)
    requires cs != []
    ensures Run(d, Changes(cs)) == d.(pending := Some(cs[|cs| - 1]))
    decreases |cs|
  {
    if |cs| > 1 {
      assert Changes(cs)[1..] == Changes(cs[1..]);
      ChangesLeaveLastPending(Step(d, Change(cs[0])), cs[1..]);
    } else {
      assert Changes(cs)[1..] == [];
    }
  }

  /**
   * The debounce on its own, as its callback is written: however many changes
   * come before the timer fires, at most one colour is delivered, and it is
   * the last one; it is not delivered when it equals the colour delivered
   * before. This is what the wheel would do if the initial-colour effect ran
   * only when `initialColor` changes.
   */
  lemma IntendedBurstDeliversLast(d: Debounce, cs: seq<string>)
    requires cs != []
    ensures var n := Run(d, Changes(cs) + [Fire]);
            var c := cs[|cs| - 1];
            n.pending.None? &&
            (c != d.last ==> n.delivered == d.delivered + [c] && n.last == c) &&
            (c == d.last ==> n.delivered == d.delivered && n.last == d.last)
  {
    RunAppend(d, Changes(cs), [Fire]);
    ChangesLeaveLastPending(d, cs);
  }

  /** With the effect running only on a new `initialColor`, dragging to the same colour twice delivers it at most once. */
  lemma IntendedDragDeliversOnce(d: Debounce, c: string)
    ensures var first := Run(d, [Change(c), Fire]);
            Run(first, [Change(c), Fire]).delivered == d.delivered + (if c != d.last then [c] else [])
  {
    IntendedBurstDeliversLast(d, [c]);
    IntendedBurstDeliversLast(Run(d, [Change(c), Fire]), [c]);
    assert Changes([c]) + [Fire] == [Change(c), Fire];
  }

  // ------------------------------------------------ updates as the wheel runs them

  /**
   * One `updateColor(c)` as the component runs it while it shows its
   * `initialColor` `init`: the change reaches the debounce, and when `c`
   * differs from the colour shown, `setCurrentColor` causes a render after
   * which the initial-colour effect runs again (one of its dependencies,
   * `springConfig`, is a new object on every render) and resets the last
   * colour to `init`.
   */
  function Update(d: Debounce, init: string, c: string): (n: Debounce)
    ensures n.pending == Some(c) && n.delivered == d.delivered
    ensures c != init ==> n.last == init
    ensures c == init ==> n.last == d.last
  {
    var changed := Step(d, Change(c));
    if c != init then Step(changed, Reset(init)) else changed
  }

  /** A drag: one update per colour, in order. */
  function Updates(d: Debounce, init: string, cs: seq<string>): Debounce
    decreases |cs|
  {
    if cs == [] then d else Update(Updates(d, init, cs[..|cs| - 1]), init, cs[|cs| - 1])
  }

  /** Some update of the drag leaves the colour shown, so a render follows it. */
  predicate LeavesShown(init: string, cs: seq<string>) {
    exists i :: 0 <= i < |cs| && cs[i] != init
  }

  lemma LeavesShownStep(init: string, cs: seq<string>)
    requires cs != []
    ensures LeavesShown(init, cs) <==> LeavesShown(init, cs[..|cs| - 1]) || cs[|cs| - 1] != init
  {
    var n := |cs| - 1;
    if LeavesShown(init, cs[..n]) {
      var i :| 0 <= i < n && cs[..n][i] != init;
      assert cs[i] != init;
    }
    if LeavesShown(init, cs) && cs[n] == init {
      var i :| 0 <= i < |cs| && cs[i] != init;
      assert cs[..n][i] != init;
    }
  }

  /** A drag one colour longer is the shorter drag and one more update. */
  lemma UpdatesSnoc(d: Debounce, init: string, cs: seq<string>, k: nat)
    requires k < |cs|
    ensures Updates(d, init, cs[..k + 1]) == Update(Updates(d, init, cs[..k]), init, cs[k])
    ensures LeavesShown(init, cs[..k + 1]) <==> LeavesShown(init, cs[..k]) || cs[k] != init
  {
    assert cs[..k + 1][..k] == cs[..k];
    LeavesShownStep(init, cs[..k + 1]);
  }

  /**
   * After a drag only its last colour is pending and nothing is delivered;
   * the last colour is `init` as soon as one update left the colour shown.
   */
  lemma {:induction false} UpdatesLeaveLastPending(d: Debounce, init: string, cs: seq<string>)
    requires cs != []
    ensures Updates(d, init, cs)
            == Debounce(if LeavesShown(init, cs) then init else d.last, Some(cs[|cs| - 1]), d.delivered)
    decreases |cs|
  {
    var n := |cs| - 1;
    LeavesShownStep(init, cs);
    if n > 0 {
      UpdatesLeaveLastPending(d, init, cs[..n]);
    } else {
      assert cs[..n] == [];
      assert !LeavesShown(init, cs[..n]);
    }
  }

  /**
   * A drag and one firing deliver at most one colour, the last one; it is
   * compared with `initialColor` rather than with the colour delivered last
   * whenever some update of the drag left the colour shown.
   */
  lemma BurstDeliversLast(d: Debounce, init: string, cs: seq<string>)
    requires cs != []
    ensures var n := Step(Updates(d, init, cs), Fire);
            var c := cs[|cs| - 1];
            var against := if LeavesShown(init, cs) then init else d.last;
            n.pending.None? &&
            (c != against ==> n.delivered == d.delivered + [c] && n.last == c) &&
            (c == against ==> n.delivered == d.delivered && n.last == against)
  {
    UpdatesLeaveLastPending(d, init, cs);
  }

  /**
   * As written, dragging to the same colour `c` twice, each time letting the
   * timer fire, delivers `c` twice when the parent keeps `initialColor` at a
   * different colour: the render after each update resets the last colour.
   */
  lemma RepeatedDragRedelivers(d: Debounce, init: string, c: string)
    requires c != init
    ensures var first := Step(Updates(d, init, [c]), Fire);
            Step(Updates(first, init, [c]), Fire).delivered == d.delivered + [c, c]
  {
    assert LeavesShown(init, [c]) by {
      assert [c][0] != init;
    }
    BurstDeliversLast(d, init, [c]);
    BurstDeliversLast(Step(Updates(d, init, [c]), Fire), init, [c]);
  }

  /** Unmounting before the timer fires drops the pending delivery. */
  lemma UnmountDropsBurst(d: Debounce, cs: seq<string>)
    requires cs != []
    ensures Run(d, Changes(cs) + [Unmounted, Fire]).delivered == d.delivered
  {
    RunAppend(d, Changes(cs), [Unmounted, Fire]);
    ChangesLeaveLastPending(d, cs);
  }

  /** After a reset to `c`, a change back to `c` is suppressed. */
  lemma ResetSuppresses(d: Debounce, c: string)
    ensures Run(d, [Reset(c), Change(c), Fire]).delivered == d.delivered
  {
    var d1 := Step(d, Reset(c));
    var d2 := Step(d1, Change(c));
    assert Run(d, [Reset(c), Change(c), Fire]) == Run(d1, [Change(c), Fire]) by {
      assert [Reset(c), Change(c), Fire][1..] == [Change(c), Fire];
    }
    assert Run(d1, [Change(c), Fire]) == Run(d2, [Fire]) by {
      assert [Change(c), Fire][1..] == [Fire];
    }
  }

  /** How many of the events are timer firings. */
  function Fires(es: seq<Event>): nat
    decreases |es|
  {
    if es == [] then 0 else (if es[0].Fire? then 1 else 0) + Fires(es[1..])
  }

  /** The delivered colours only ever grow, and only a firing adds one. */
  lemma {:induction false} RunDeliversAtMostOnePerFire(d: Debounce, es: seq<Event>)
    ensures d.delivered <= Run(d, es).delivered
    ensures |Run(d, es).delivered| <= |d.delivered| + Fires(es)
    decreases |es|
  {
    if es != [] {
      RunDeliversAtMostOnePerFire(Step(d, es[0]), es[1..]);
    }
  }

  // -------------------------------------------------------- the touch handler

  predicate StartsWithHash(s: string) {
    s != [] && s[0] == '#'
  }

  /** The constrained offset of `handleTouch`: `min(distance, radius)` along `atan2(dy, dx)`. */
  function TouchOffset(dx: real, dy: real, radius: real, trig: Trig): Point {
    var d := MinR(trig.sqrt(dx * dx + dy * dy), radius);
    var angle := trig.atan2(dy, dx);
    Point(trig.cos(angle) * d, trig.sin(angle) * d)
  }

  /**
   * Where an enabled wheel's `handleTouch` puts the selector: nowhere for a
   * non-finite coordinate or a point outside the wheel, otherwise the
   * constrained offset.
   */
  function TouchTarget(x: JsNum, y: JsNum, centerX: real, centerY: real, radius: real, trig: Trig): (t: Option<Point>)
    ensures t.None? <==> x.NonFinite? || y.NonFinite? || Outside(x.v - centerX, y.v - centerY, radius)
  {
    if x.NonFinite? || y.NonFinite? then None
    else
      var dx, dy := x.v - centerX, y.v - centerY;
      if Outside(dx, dy, radius) then None else Some(TouchOffset(dx, dy, radius, trig))
  }

  /** The colour `getColorFromPosition` gives for the selector at offset `off` from the centre. */
  function ColorAtOffset(off: Point, centerX: real, centerY: real, radius: real, current: string, trig: Trig): string {
    ColorFromPosition(Finite(centerX + off.x), Finite(centerY + off.y), centerX, centerY, radius, current, trig)
  }

  /** The angle functions and the square root agree with the polar form of `(dx, dy)`. */
  predicate PolarSound(trig: Trig, dx: real, dy: real) {
    var d := trig.sqrt(dx * dx + dy * dy);
    var angle := trig.atan2(dy, dx);
    SqrtSound(trig, dx * dx + dy * dy) && trig.cos(angle) * d == dx && trig.sin(angle) * d == dy
  }

  /**
   * Touches are never pulled onto the rim: an accepted touch lies inside the
   * wheel, so `min(distance, radius)` is the distance and the target is the
   * touch's own offset from the centre.
   */
  lemma AcceptedTouchKeepsOffset(x: JsNum, y: JsNum, centerX: real, centerY: real, radius: real, trig: Trig)
    requires x.Finite? && y.Finite?
    requires !Outside(x.v - centerX, y.v - centerY, radius) && PolarSound(trig, x.v - centerX, y.v - centerY)
    ensures TouchTarget(x, y, centerX, centerY, radius, trig) == Some(Point(x.v - centerX, y.v - centerY))
  {
    var dx, dy := x.v - centerX, y.v - centerY;
    assert !Outside(dx, dy, radius) && PolarSound(trig, dx, dy);
    var d := trig.sqrt(dx * dx + dy * dy);
    SquareMonotone(radius, d);
    assert d <= radius;
    assert TouchOffset(dx, dy, radius, trig) == Point(dx, dy);
  }

  /**
   * The wheel's state between events. After every render the initial-colour
   * effect has run, because one of its dependencies (`springConfig`) is a new
   * object on each render; so the colour shown is always the `initialColor`
   * prop, and a touch that picks another colour only moves the selector until
   * the render it causes springs it back.
   */
  class Wheel {
    const centerX: real
    const centerY: real
    const radius: real
    const trig: Trig
    var disabled: bool
    var initialColor: string
    var translateX: real
    var translateY: real
    var currentColor: string
    var lastColor: string
    var pending: Option<string>
    var delivered: seq<string>

    /** The debounce part of the state. */
    function Timer(): Debounce
      reads this
    {
      Debounce(lastColor, pending, delivered)
    }

    /** Where `initialColor` puts the selector. */
    function Home(): Point
      reads this`initialColor
    {
      PositionFromColor(initialColor, radius, trig)
    }

    predicate At(p: Point)
      reads this`translateX, this`translateY
    {
      translateX == p.x && translateY == p.y
    }

    /** Every render ends with the effect, which sets the shown colour to the prop. */
    predicate Valid()
      reads this
    {
      currentColor == initialColor
    }

    /** First render plus the initial-colour effect: the selector sits where `initialColor` puts it. */
    constructor (size: real, initialColor: string, disabled: bool, trig: Trig)
      ensures Valid()
      ensures centerX == size / 2.0 && centerY == size / 2.0 && radius == size / 2.0 - 20.0
      ensures this.trig == trig && this.disabled == disabled && this.initialColor == initialColor
      ensures At(Home())
      ensures currentColor == initialColor && Timer() == Debounce(initialColor, None, [])
    {
      centerX, centerY, radius := size / 2.0, size / 2.0, size / 2.0 - 20.0;
      this.trig := trig;
      this.disabled := disabled;
      this.initialColor := initialColor;
      var p := PositionFromColor(initialColor, size / 2.0 - 20.0, trig);
      translateX, translateY := p.x, p.y;
      currentColor, lastColor := initialColor, initialColor;
      pending, delivered := None, [];
    }

    /** The initial-colour effect: the selector goes to `initialColor`'s position, which becomes the shown and the last colour. */
    method InitialColorEffect()
      modifies this`translateX, this`translateY, this`currentColor, this`lastColor
      ensures Valid()
      ensures At(Home())
      ensures Timer() == Step(old(Timer()), Reset(initialColor))
    {
      var p := PositionFromColor(initialColor, radius, trig);
      translateX, translateY := p.x, p.y;
      currentColor := initialColor;
      lastColor := initialColor;
    }

    /** The parent renders the wheel with `initialColor` set to `color` (the same or a new one); the effect follows. */
    method Render(color: string)
      modifies this`initialColor, this`translateX, this`translateY, this`currentColor, this`lastColor
      ensures Valid() && initialColor == color
      ensures var p := PositionFromColor(color, radius, trig);
              translateX == p.x && translateY == p.y
      ensures currentColor == color && Timer() == Step(old(Timer()), Reset(color))
    {
      initialColor := color;
      InitialColorEffect();
    }

    /** `debouncedColorChange`: the new timer replaces any pending one. */
    method DebouncedColorChange(color: string)
      modifies this`pending
      ensures Timer() == Step(old(Timer()), Change(color))
    {
      pending := Some(color);
    }

    /** The pending timer fires. */
    method FireTimer()
      modifies this`pending, this`lastColor, this`delivered
      ensures Timer() == Step(old(Timer()), Fire)
    {
      if pending.Some? {
        var color := pending.value;
        pending := None;
        if lastColor != color {
          lastColor := color;
          delivered := delivered + [color];
        }
      }
    }

    /** The unmount cleanup clears the pending timer. */
    method Unmount()
      modifies this`pending
      ensures Timer() == Step(old(Timer()), Unmounted)
    {
      pending := None;
    }

    /**
     * `updateColor`: the colour is shown and handed to the debounce; a colour
     * other than the one shown causes a render, whose effect shows
     * `initialColor` again and moves the selector back to it.
     */
    method UpdateColor(color: string)
      requires Valid()
      modifies this`translateX, this`translateY, this`currentColor, this`pending, this`lastColor
      ensures Valid() && Timer() == Update(old(Timer()), initialColor, color)
      ensures color != initialColor ==> At(Home())
      ensures color == initialColor ==> translateX == old(translateX) && translateY == old(translateY)
    {
      var shown := currentColor;
      currentColor := color;
      DebouncedColorChange(color);
      if color != shown {
        InitialColorEffect();
      }
    }

    /**
     * `handleTouch`: ignored while disabled, for a non-finite coordinate and
     * outside the wheel; otherwise the selector moves to the constrained
     * offset, and the colour there, when it starts with `#`, is updated; when
     * that colour is not the one shown, the render it causes puts the
     * selector back at `initialColor`'s position.
     */
    method HandleTouch(x: JsNum, y: JsNum)
      requires Valid()
      modifies this`translateX, this`translateY, this`currentColor, this`pending, this`lastColor
      ensures Valid()
      ensures disabled || TouchTarget(x, y, centerX, centerY, radius, trig).None? ==>
        translateX == old(translateX) && translateY == old(translateY) && Timer() == old(Timer())
      ensures !disabled && TouchTarget(x, y, centerX, centerY, radius, trig).Some? ==>
        var off := TouchTarget(x, y, centerX, centerY, radius, trig).value;
        var color := ColorAtOffset(off, centerX, centerY, radius, initialColor, trig);
        (!StartsWithHash(color) ==> At(off) && Timer() == old(Timer()))
        && (StartsWithHash(color) ==> Timer() == Update(old(Timer()), initialColor, color))
        && (StartsWithHash(color) && color == initialColor ==> At(off))
        && (StartsWithHash(color) && color != initialColor ==> At(Home()))
    {
      if disabled {
        return;
      }
      var target := TouchTarget(x, y, centerX, centerY, radius, trig);
      if target.Some? {
        MoveSelector(target.value);
      }
    }

    /** The accepted part of `handleTouch`: the selector goes to `off` and the colour there is updated. */
    method MoveSelector(off: Point)
      requires Valid()
      modifies this`translateX, this`translateY, this`currentColor, this`pending, this`lastColor
      ensures Valid()
      ensures var color := ColorAtOffset(off, centerX, centerY, radius, initialColor, trig);
        (!StartsWithHash(color) ==> At(off) && Timer() == old(Timer()))
        && (StartsWithHash(color) ==> Timer() == Update(old(Timer()), initialColor, color))
        && (StartsWithHash(color) && color == initialColor ==> At(off))
        && (StartsWithHash(color) && color != initialColor ==> At(Home()))
    {
      translateX, translateY := off.x, off.y;
      var color := ColorAtOffset(off, centerX, centerY, radius, currentColor, trig);
      if StartsWithHash(color) {
        UpdateColor(color);
      }
    }

    /** A drag of several colour updates followed by the timer. */
    method UpdatesThenFire(colors: seq<string>)
      requires Valid() && colors != []
      modifies this`translateX, this`translateY, this`currentColor, this`pending, this`lastColor, this`delivered
      ensures Valid()
      ensures Timer() == Step(Updates(old(Timer()), initialColor, colors), Fire)
      ensures LeavesShown(initialColor, colors) ==> At(Home())
      ensures !LeavesShown(initialColor, colors) ==> translateX == old(translateX) && translateY == old(translateY)
    {
      var i := 0;
      while i < |colors|
        invariant 0 <= i <= |colors| && Valid()
        invariant Timer() == Updates(old(Timer()), initialColor, colors[..i])
        invariant LeavesShown(initialColor, colors[..i]) ==> At(Home())
        invariant !LeavesShown(initialColor, colors[..i]) ==>
          translateX == old(translateX) && translateY == old(translateY)
      {
        UpdateColor(colors[i]);
        UpdatesSnoc(old(Timer()), initialColor, colors, i);
        i := i + 1;
      }
      assert colors[..i] == colors;
      FireTimer();
    }
  }
}
