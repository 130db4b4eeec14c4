/**
 * Adding a cup by QR code or by typed code: how the new cup's id and name
 * are derived, and the `scanned` flag that lets the camera add one cup only.
 * The store's `addCup` is not part of this model: each call is recorded with
 * its argument. `Date.now()` is a parameter.
 */
module QrScanScreen {
  import opened Common
  import opened Text

  /** The argument of one `addCup` call. */
  datatype NewCup = NewCup(id: string, name: string, isConnected: bool)

  /** `code?.trim() || \`qr-${now}\``: the trimmed code unless it is missing or blank. */
  function CupId(code: Option<string>, now: nat): (id: string)
    ensures id != []
    ensures code.Some? && !AllWhitespace(code.value) ==> id == Trim(code.value)
    ensures code.None? || AllWhitespace(code.value) ==> id == "qr-" + DecimalString(now)
  {
    if code.Some? then
      TrimEmptyIffBlank(code.value);
      if Trim(code.value) != [] then Trim(code.value) else "qr-" + DecimalString(now)
    else "qr-" + DecimalString(now)
  }

  /** `\`Cup ${id.slice(-4)}\``: "Cup " and then the last four characters of the id, or all of a shorter id. */
  function CupName(id: string): (name: string)
    ensures |name| == 4 + (if |id| < 4 then |id| else 4)
    ensures name[..4] == "Cup " && name[4..] == id[|id| - (|name| - 4)..]
  {
    "Cup " + LastN(id, 4)
  }

  /** What either handler passes to `addCup`: never connected. */
  function NewCupFor(code: Option<string>, now: nat): (c: NewCup)
    ensures c.id == CupId(code, now) && c.name == CupName(c.id) && !c.isConnected
  {
    var id := CupId(code, now);
    NewCup(id, CupName(id), false)
  }

  lemma DecimalAtLeastFour(n: nat)
    requires n >= 1000
    ensures |DecimalString(n)| >= 4
  {
    var a := n / 10;
    var b := a / 10;
    assert a >= 100 && b >= 10;
    assert |DecimalString(n)| == |DecimalString(a)| + 1;
    assert |DecimalString(a)| == |DecimalString(b)| + 1;
    assert |DecimalString(b)| == |DecimalString(b / 10)| + 1;
  }

  /** Without a usable code (and with a timestamp of four digits or more) the name ends in four digits of the time. */
  lemma FallbackNameIsDigits(code: Option<string>, now: nat)
    requires code.None? || AllWhitespace(code.value)
    requires now >= 1000
    ensures |NewCupFor(code, now).name| == 8
    ensures AllDigits(NewCupFor(code, now).name[4..])
  {
    var digits := DecimalString(now);
    DecimalAtLeastFour(now);
    var id := "qr-" + digits;
    var tail := CupName(id)[4..];
    assert tail == id[|id| - 4..];
    forall k | 0 <= k < |tail| ensures IsDigit(tail[k]) {
      assert tail[k] == digits[|digits| - 4 + k];
    }
  }

  class Screen {
    var code: string
    var scanned: bool
    /** The `addCup` calls made. */
    var added: seq<NewCup>
    var navigatedToMain: bool

    constructor ()
      ensures code == "" && !scanned && added == [] && !navigatedToMain
    {
      code, scanned, added, navigatedToMain := "", false, [], false;
    }

    method SetCode(value: string)
      modifies this`code
      ensures code == value
    {
      code := value;
    }

    /** `handleBarCodeScanned`: the first scan adds a cup and navigates; every later one does nothing. */
    method HandleBarCodeScanned(data: Option<string>, now: nat)
      modifies this`scanned, this`added, this`navigatedToMain
      ensures scanned
      ensures old(scanned) ==> added == old(added) && navigatedToMain == old(navigatedToMain)
      ensures !old(scanned) ==> added == old(added) + [NewCupFor(data, now)] && navigatedToMain
    {
      if scanned {
        return;
      }
      scanned := true;
      added := added + [NewCupFor(data, now)];
      navigatedToMain := true;
    }

    /** `onAdd`: the typed code, or a timestamp id when it is blank. */
    method OnAdd(now: nat)
      modifies this`added, this`navigatedToMain
      ensures added == old(added) + [NewCupFor(Some(code), now)] && navigatedToMain
    {
      var cup := NewCupFor(Some(code), now);
      added := added + [cup];
      navigatedToMain := true;
    }
  }
}
