/**
 * The main cup screen: the cup it reports on (the first connected one), the
 * connect and disconnect buttons, the colour choices, the light and ambient
 * toggles, the preview's opacity, and the colour wheel's wiring (disabled
 * while nothing is connected; scrolling off while the wheel is touched).
 */
module NiteControlScreen {
  import opened Common
  import opened Seqs
  import opened NiteControlStore
  import ColorWheel
  import ColorWheelController

  function IsConnectedCup(): Cup -> bool {
    (c: Cup) => c.isConnected
  }

  function IsAvailableCup(): Cup -> bool {
    (c: Cup) => !c.isConnected
  }

  /** `cups.find(cup => cup.isConnected)`: the first connected cup. */
  function ConnectedCup(cups: seq<Cup>): (c: Option<Cup>)
    ensures c.None? <==> forall i :: 0 <= i < |cups| ==> !cups[i].isConnected
    ensures c.Some? ==> exists k :: 0 <= k < |cups| && cups[k] == c.value && cups[k].isConnected
                                    && forall j :: 0 <= j < k ==> !cups[j].isConnected
  {
    Find(cups, IsConnectedCup())
  }

  /** `connectedCup?.batteryLevel || 0`. */
  function BatteryLevel(cups: seq<Cup>): (b: real)
    ensures ConnectedCup(cups).None? ==> b == 0.0
    ensures ConnectedCup(cups).Some? ==> b == ConnectedCup(cups).value.batteryLevel
  {
    var c := ConnectedCup(cups);
    if c.Some? then c.value.batteryLevel else 0.0
  }

  /** `cups.find(cup => !cup.isConnected)`: the cup the connect button goes for. */
  function AvailableCup(cups: seq<Cup>): (c: Option<Cup>)
    ensures c.None? <==> forall i :: 0 <= i < |cups| ==> cups[i].isConnected
    ensures c.Some? ==> exists k :: 0 <= k < |cups| && cups[k] == c.value && !cups[k].isConnected
                                    && forall j :: 0 <= j < k ==> cups[j].isConnected
  {
    Find(cups, IsAvailableCup())
  }

  /**
   * With distinct ids, connecting the first available cup changes that cup's
   * connection only, and afterwards the screen has a connected cup.
   */
  lemma ConnectFirstAvailable(cups: seq<Cup>)
    requires NoDup(Ids(cups)) && AvailableCup(cups).Some?
    ensures var r := Reconnect(cups, IdIs(AvailableCup(cups).value.id), true);
      exists k :: 0 <= k < |cups| && cups[k] == AvailableCup(cups).value
        && r[k] == cups[k].(isConnected := true)
        && (forall i :: 0 <= i < |cups| && i != k ==> r[i] == cups[i])
    ensures ConnectedCup(Reconnect(cups, IdIs(AvailableCup(cups).value.id), true)).Some?
  {
    var c := AvailableCup(cups).value;
    var k :| 0 <= k < |cups| && cups[k] == c && !cups[k].isConnected
             && forall j :: 0 <= j < k ==> cups[j].isConnected;
    ReconnectOnly(cups, k, true);
  }

  /** With distinct ids, switching the cup at `k` by its id changes that cup only. */
  lemma ReconnectOnly(cups: seq<Cup>, k: nat, on: bool)
    requires NoDup(Ids(cups)) && k < |cups|
    ensures var r := Reconnect(cups, IdIs(cups[k].id), on);
      r[k] == cups[k].(isConnected := on) && r[k].isConnected == on
      && forall i :: 0 <= i < |cups| && i != k ==> r[i] == cups[i]
  {
    var r := Reconnect(cups, IdIs(cups[k].id), on);
    forall i | 0 <= i < |cups| && i != k ensures r[i] == cups[i] {
      assert Ids(cups)[i] != Ids(cups)[k];
      assert r[i].(isConnected := cups[i].isConnected) == cups[i];
    }
    assert r[k].(isConnected := cups[k].isConnected) == cups[k];
  }

  /** `isLightOn && isConnected ? brightness / 100 : 0.3`. */
  function PreviewOpacity(isLightOn: bool, isConnected: bool, brightness: real): (o: real)
    ensures !(isLightOn && isConnected) ==> o == 0.3
    ensures isLightOn && isConnected ==> o * 100.0 == brightness
    ensures isLightOn && isConnected && 0.0 <= brightness <= 100.0 ==> 0.0 <= o <= 1.0
  {
    if isLightOn && isConnected then brightness / 100.0 else 0.3
  }

  const NoCupsAvailable: string := "No Cups Available"

  class Screen {
    const store: Store
    var isScanning: bool
    var isLightOn: bool
    var isAmbientMode: bool
    var scrollEnabled: bool
    /** The titles of the alerts shown. */
    var alerts: seq<string>

    constructor (store: Store)
      ensures this.store == store
      ensures !isScanning && isLightOn && !isAmbientMode && scrollEnabled && alerts == []
    {
      this.store := store;
      isScanning, isLightOn, isAmbientMode, scrollEnabled := false, true, false, true;
      alerts := [];
    }

    /** Whether a cup is connected; the colour wheel is disabled exactly when none is. */
    function IsConnected(): (connected: bool)
      reads this, store
      ensures connected <==> exists i :: 0 <= i < |store.cups| && store.cups[i].isConnected
    {
      ConnectedCup(store.cups).Some?
    }

    /** `handleConnect`: connect the first cup that is not connected, or alert that there is none. */
    method HandleConnect()
      requires store.Valid()
      modifies this`isScanning, this`alerts, store`cups, store`isConnecting, store`error
      ensures store.Valid() && !isScanning
      ensures AvailableCup(old(store.cups)).Some? ==>
        store.cups == Reconnect(old(store.cups), IdIs(AvailableCup(old(store.cups)).value.id), true)
        && !store.isConnecting && store.error == None && alerts == old(alerts)
      ensures AvailableCup(old(store.cups)).None? ==>
        store.cups == old(store.cups) && store.isConnecting == old(store.isConnecting)
        && store.error == old(store.error) && alerts == old(alerts) + [NoCupsAvailable]
    {
      isScanning := true;
      var available := AvailableCup(store.cups);
      if available.Some? {
        store.ConnectToCup(available.value.id);
      } else {
        alerts := alerts + [NoCupsAvailable];
      }
      isScanning := false;
    }

    /** `handleDisconnect` once the user confirms: disconnect the cup the screen reports on. */
    method HandleDisconnect(confirmed: bool)
      requires store.Valid()
      modifies store`cups, store`selectedCups
      ensures store.Valid()
      ensures confirmed && ConnectedCup(old(store.cups)).Some? ==>
        var id := ConnectedCup(old(store.cups)).value.id;
        store.cups == Reconnect(old(store.cups), IdIs(id), false)
        && store.selectedCups == Deselect(old(store.selectedCups), id)
      ensures !(confirmed && ConnectedCup(old(store.cups)).Some?) ==>
        store.cups == old(store.cups) && store.selectedCups == old(store.selectedCups)
    {
      if confirmed {
        var c := ConnectedCup(store.cups);
        if c.Some? {
          store.DisconnectFromCup(c.value.id);
        }
      }
    }

    /** The status button: disconnect when a cup is connected, otherwise connect. */
    method PressConnectionButton(confirmed: bool)
      requires store.Valid()
      modifies this`isScanning, this`alerts, store`cups, store`isConnecting, store`error, store`selectedCups
      ensures store.Valid()
      ensures ConnectedCup(old(store.cups)).Some? ==> isScanning == old(isScanning)
      ensures ConnectedCup(old(store.cups)).None? ==> !isScanning
      ensures ConnectedCup(old(store.cups)).Some? ==>
        alerts == old(alerts) && store.isConnecting == old(store.isConnecting) && store.error == old(store.error)
      ensures ConnectedCup(old(store.cups)).Some? && confirmed ==>
        var id := ConnectedCup(old(store.cups)).value.id;
        store.cups == Reconnect(old(store.cups), IdIs(id), false)
        && store.selectedCups == Deselect(old(store.selectedCups), id)
      ensures ConnectedCup(old(store.cups)).Some? && !confirmed ==>
        store.cups == old(store.cups) && store.selectedCups == old(store.selectedCups)
      ensures ConnectedCup(old(store.cups)).None? ==> store.selectedCups == old(store.selectedCups)
      ensures ConnectedCup(old(store.cups)).None? && AvailableCup(old(store.cups)).Some? ==>
        store.cups == Reconnect(old(store.cups), IdIs(AvailableCup(old(store.cups)).value.id), true)
        && !store.isConnecting && store.error == None && alerts == old(alerts)
      ensures ConnectedCup(old(store.cups)).None? && AvailableCup(old(store.cups)).None? ==>
        store.cups == old(store.cups) && store.isConnecting == old(store.isConnecting)
        && store.error == old(store.error) && alerts == old(alerts) + [NoCupsAvailable]
    {
      if IsConnected() {
        HandleDisconnect(confirmed);
      } else {
        HandleConnect();
      }
    }

    /** A swatch, a quick colour or the wheel: `setColor` on the store. */
    method HandleColorSelect(color: string)
      requires store.Valid()
      modifies store`currentColor, store`cups
      ensures store.Valid() && store.currentColor == color
      ensures store.cups == Recolor(old(store.cups), InList(old(store.selectedCups)), color)
    {
      store.SetColor(color);
    }

    method ToggleLight()
      modifies this`isLightOn
      ensures isLightOn == !old(isLightOn)
    {
      isLightOn := !isLightOn;
    }

    method ToggleAmbientMode()
      modifies this`isAmbientMode
      ensures isAmbientMode == !old(isAmbientMode)
    {
      isAmbientMode := !isAmbientMode;
    }

    /** The colour swatches and the quick colour buttons, which are disabled while nothing is connected. */
    method PressColor(color: string)
      requires store.Valid()
      modifies store`currentColor, store`cups
      ensures store.Valid()
      ensures !old(IsConnected()) ==> store.currentColor == old(store.currentColor) && store.cups == old(store.cups)
      ensures old(IsConnected()) ==>
        store.currentColor == color && store.cups == Recolor(old(store.cups), InList(old(store.selectedCups)), color)
    {
      if !IsConnected() {
        return;
      }
      HandleColorSelect(color);
    }

    /** The "Cup Light" switch, disabled while nothing is connected. */
    method SwitchLight()
      modifies this`isLightOn
      ensures isLightOn == if IsConnected() then !old(isLightOn) else old(isLightOn)
    {
      if IsConnected() {
        ToggleLight();
      }
    }

    /** The "Enable Ambient" switch, disabled while nothing is connected. */
    method SwitchAmbient()
      modifies this`isAmbientMode
      ensures isAmbientMode == if IsConnected() then !old(isAmbientMode) else old(isAmbientMode)
    {
      if IsConnected() {
        ToggleAmbientMode();
      }
    }

    /** The wheel as this screen mounts it: 180 wide, showing the current colour, disabled while nothing is connected. */
    method MountWheel(trig: ColorWheel.Trig) returns (w: ColorWheelController.Wheel)
      ensures fresh(w) && w.Valid() && w.disabled == !IsConnected() && w.initialColor == store.currentColor
      ensures w.currentColor == store.currentColor && w.radius == 70.0
    {
      w := new ColorWheelController.Wheel(180.0, store.currentColor, !IsConnected(), trig);
    }

    /** The wheel's `onInteractionStart`. */
    method WheelInteractionStart()
      modifies this`scrollEnabled
      ensures !scrollEnabled
    {
      scrollEnabled := false;
    }

    /** The wheel's `onInteractionEnd`. */
    method WheelInteractionEnd()
      modifies this`scrollEnabled
      ensures scrollEnabled
    {
      scrollEnabled := true;
    }

    /** The preview's opacity for the current state. */
    function Opacity(): (o: real)
      reads this, store
      ensures !(isLightOn && IsConnected()) ==> o == 0.3
      ensures isLightOn && IsConnected() ==> o * 100.0 == store.currentBrightness
    {
      PreviewOpacity(isLightOn, IsConnected(), store.currentBrightness)
    }
  }
}
