/**
 * The cup-control store: the known cups, the ids selected for bulk actions,
 * the colour presets and the current colour, mode and brightness. Every
 * action is one sequential state transition; the mock radio delays are not
 * modelled, and neither is the persistence middleware beyond the choice of
 * persisted fields (`Partialize`).
 */
module NiteControlStore {
  import opened Common
  import opened Text
  import opened Seqs

  datatype CupMode = Static | Pulse | Strobe | Rainbow

  datatype Cup = Cup(id: string, name: string, isConnected: bool, batteryLevel: real,
                     color: string, mode: CupMode, brightness: real)

  datatype ColorPreset = ColorPreset(id: string, name: string, color: string, mode: CupMode, brightness: real)

  /** The part of the state written to storage. */
  datatype Persisted = Persisted(cups: seq<Cup>, colorPresets: seq<ColorPreset>,
                                 currentColor: string, currentMode: CupMode, currentBrightness: real)

  const MockCups: seq<Cup> := [
    Cup("cup-1", "Cup 1", false, 85.0, "#00FF88", Static, 80.0),
    Cup("cup-2", "Cup 2", false, 92.0, "#00D4FF", Pulse, 75.0),
    Cup("cup-3", "Cup 3", false, 67.0, "#B347FF", Static, 90.0)
  ]

  const DefaultPresets: seq<ColorPreset> := [
    ColorPreset("preset-1", "Neon Green", "#00FF88", Static, 80.0),
    ColorPreset("preset-2", "Electric Blue", "#00D4FF", Pulse, 75.0),
    ColorPreset("preset-3", "Party Mode", "#FF47B3", Rainbow, 100.0)
  ]

  function Ids(cups: seq<Cup>): (r: seq<string>)
    ensures |r| == |cups| && forall i :: 0 <= i < |cups| ==> r[i] == cups[i].id
  {
    seq(|cups|, i requires 0 <= i < |cups| => cups[i].id)
  }

  lemma SameIds(a: seq<Cup>, b: seq<Cup>)
    requires |a| == |b| && forall i :: 0 <= i < |a| ==> a[i].id == b[i].id
    ensures Ids(a) == Ids(b)
  {
  }

  // ------------------------------------------------ updating cups by their id

  /** The test `cup.id === id`. */
  function IdIs(id: string): string -> bool {
    x => x == id
  }

  /** The test `ids.includes(cup.id)`. */
  function InList(ids: seq<string>): string -> bool {
    x => x in ids
  }

  /** `cups.map(cup => chosen(cup.id) ? { ...cup, isConnected: on } : cup)`. */
  function Reconnect(cups: seq<Cup>, chosen: string -> bool, on: bool): (r: seq<Cup>)
    ensures |r| == |cups|
    ensures forall i :: 0 <= i < |cups| ==> r[i].(isConnected := cups[i].isConnected) == cups[i]
    ensures forall i :: 0 <= i < |cups| ==>
      r[i].isConnected == if chosen(cups[i].id) then on else cups[i].isConnected
  {
    MapWhere(cups, (c: Cup) => chosen(c.id), (c: Cup) => c.(isConnected := on))
  }

  /** `cups.map(cup => chosen(cup.id) ? { ...cup, name } : cup)`. */
  function Rename(cups: seq<Cup>, chosen: string -> bool, name: string): (r: seq<Cup>)
    ensures |r| == |cups|
    ensures forall i :: 0 <= i < |cups| ==> r[i].(name := cups[i].name) == cups[i]
    ensures forall i :: 0 <= i < |cups| ==> r[i].name == if chosen(cups[i].id) then name else cups[i].name
  {
    MapWhere(cups, (c: Cup) => chosen(c.id), (c: Cup) => c.(name := name))
  }

  /** `cups.map(cup => chosen(cup.id) ? { ...cup, color } : cup)`. */
  function Recolor(cups: seq<Cup>, chosen: string -> bool, color: string): (r: seq<Cup>)
    ensures |r| == |cups|
    ensures forall i :: 0 <= i < |cups| ==> r[i].(color := cups[i].color) == cups[i]
    ensures forall i :: 0 <= i < |cups| ==> r[i].color == if chosen(cups[i].id) then color else cups[i].color
  {
    MapWhere(cups, (c: Cup) => chosen(c.id), (c: Cup) => c.(color := color))
  }

  /** `cups.map(cup => chosen(cup.id) ? { ...cup, mode } : cup)`. */
  function Remode(cups: seq<Cup>, chosen: string -> bool, mode: CupMode): (r: seq<Cup>)
    ensures |r| == |cups|
    ensures forall i :: 0 <= i < |cups| ==> r[i].(mode := cups[i].mode) == cups[i]
    ensures forall i :: 0 <= i < |cups| ==> r[i].mode == if chosen(cups[i].id) then mode else cups[i].mode
  {
    MapWhere(cups, (c: Cup) => chosen(c.id), (c: Cup) => c.(mode := mode))
  }

  /** `cups.map(cup => chosen(cup.id) ? { ...cup, brightness } : cup)`. */
  function Rebright(cups: seq<Cup>, chosen: string -> bool, brightness: real): (r: seq<Cup>)
    ensures |r| == |cups|
    ensures forall i :: 0 <= i < |cups| ==> r[i].(brightness := cups[i].brightness) == cups[i]
    ensures forall i :: 0 <= i < |cups| ==>
      r[i].brightness == if chosen(cups[i].id) then brightness else cups[i].brightness
  {
    MapWhere(cups, (c: Cup) => chosen(c.id), (c: Cup) => c.(brightness := brightness))
  }

  /** A cup update keeps the ids, in order; so duplicate-free ids stay so. */
  lemma UpdateKeepsIds(cups: seq<Cup>, r: seq<Cup>, chosen: string -> bool)
    requires r == Reconnect(cups, chosen, true) || r == Reconnect(cups, chosen, false)
    ensures Ids(r) == Ids(cups)
  {
    assert forall i :: 0 <= i < |cups| ==> r[i].id == cups[i].id by {
      forall i | 0 <= i < |cups| ensures r[i].id == cups[i].id {
        assert r[i].(isConnected := cups[i].isConnected) == cups[i];
      }
    }
    SameIds(r, cups);
  }

  // ---------------------------------------------------------------- selection

  /** `selectCup`: the id is appended unless it is already selected. */
  function Select(sel: seq<string>, id: string): (r: seq<string>)
    ensures id in r && sel <= r && |r| <= |sel| + 1
    ensures forall i :: 0 <= i < |r| ==> r[i] == id || r[i] in sel
    ensures NoDup(sel) ==> NoDup(r)
    ensures id in sel ==> r == sel
  {
    if id in sel then sel
    else
      assert forall i :: 0 <= i < |sel| ==> (sel + [id])[i] == sel[i];
      sel + [id]
  }

  /** Selecting is idempotent. */
  lemma SelectIdempotent(sel: seq<string>, id: string)
    ensures Select(Select(sel, id), id) == Select(sel, id)
  {
  }

  /** `deselectCup`: every occurrence of the id is removed, the rest kept in order. */
  function Deselect(sel: seq<string>, id: string): (r: seq<string>)
    ensures id !in r && IsSubsequence(r, sel)
    ensures forall i :: 0 <= i < |sel| && sel[i] != id ==> sel[i] in r
    ensures forall i :: 0 <= i < |r| ==> r[i] in sel
    ensures NoDup(sel) ==> NoDup(r)
    ensures id !in sel ==> r == sel
  {
    Without(sel, id)
  }

  /** Deselecting undoes selecting an id that was not selected. */
  lemma DeselectUndoesSelect(sel: seq<string>, id: string)
    requires id !in sel
    ensures Deselect(Select(sel, id), id) == sel
  {
    WithoutAppended(sel, id);
  }

  /** Some connected cup has the id `x`. */
  predicate HasConnected(cups: seq<Cup>, x: string) {
    exists j :: 0 <= j < |cups| && cups[j].isConnected && cups[j].id == x
  }

  /** `selectAllCups`: the ids of the connected cups, in cup order. */
  function ConnectedIds(cups: seq<Cup>): (r: seq<string>)
    ensures forall i :: 0 <= i < |r| ==> HasConnected(cups, r[i])
    ensures forall j :: 0 <= j < |cups| && cups[j].isConnected ==> cups[j].id in r
    ensures IsSubsequence(r, Ids(cups))
    ensures NoDup(Ids(cups)) ==> NoDup(r)
    decreases |cups|
  {
    if cups == [] then []
    else
      var rest := ConnectedIds(cups[1..]);
      var head := if cups[0].isConnected then [cups[0].id] else [];
      assert Ids(cups) == [cups[0].id] + Ids(cups[1..]);
      ConnectedIdsMembers(cups, head, rest);
      ConnectedIdsOrder(cups, head, rest);
      head + rest
  }

  lemma ConnectedIdsMembers(cups: seq<Cup>, head: seq<string>, rest: seq<string>)
    requires cups != [] && head == (if cups[0].isConnected then [cups[0].id] else [])
    requires forall i :: 0 <= i < |rest| ==> HasConnected(cups[1..], rest[i])
    requires forall j :: 0 <= j < |cups[1..]| && cups[1..][j].isConnected ==> cups[1..][j].id in rest
    ensures forall i :: 0 <= i < |head + rest| ==> HasConnected(cups, (head + rest)[i])
    ensures forall j :: 0 <= j < |cups| && cups[j].isConnected ==> cups[j].id in head + rest
    ensures forall i :: 0 <= i < |rest| ==> rest[i] in Ids(cups[1..])
  {
    var r := head + rest;
    var tail := cups[1..];
    forall i | 0 <= i < |r| ensures HasConnected(cups, r[i]) {
      if i < |head| {
        assert 0 <= 0 < |cups| && cups[0].isConnected && cups[0].id == r[i];
      } else {
        assert HasConnected(tail, rest[i - |head|]);
        var j :| 0 <= j < |tail| && tail[j].isConnected && tail[j].id == rest[i - |head|];
        assert 0 <= j + 1 < |cups| && cups[j + 1].isConnected && cups[j + 1].id == r[i];
      }
    }
    forall j | 0 <= j < |cups| && cups[j].isConnected ensures cups[j].id in r {
      if j > 0 {
        assert tail[j - 1] == cups[j];
      }
    }
    forall i | 0 <= i < |rest| ensures rest[i] in Ids(tail) {
      assert HasConnected(tail, rest[i]);
      var j :| 0 <= j < |tail| && tail[j].isConnected && tail[j].id == rest[i];
      assert Ids(tail)[j] == rest[i];
    }
  }

  lemma ConnectedIdsOrder(cups: seq<Cup>, head: seq<string>, rest: seq<string>)
    requires cups != [] && head == (if cups[0].isConnected then [cups[0].id] else [])
    requires Ids(cups) == [cups[0].id] + Ids(cups[1..])
    requires IsSubsequence(rest, Ids(cups[1..]))
    requires NoDup(Ids(cups[1..])) ==> NoDup(rest)
    requires forall i :: 0 <= i < |rest| ==> rest[i] in Ids(cups[1..])
    ensures IsSubsequence(head + rest, Ids(cups))
    ensures NoDup(Ids(cups)) ==> NoDup(head + rest)
  {
    var r := head + rest;
    var s := Ids(cups);
    assert s[1..] == Ids(cups[1..]);
    if head == [] {
      assert r == rest;
      SubsequenceOfTail(r, s);
    } else {
      assert r[0] == s[0] && r[1..] == rest;
    }
    if NoDup(s) {
      NoDupTail(s);
      if head != [] {
        NoDupCons(cups[0].id, rest);
      }
    }
  }

  /** Deselecting the ids one after another, as repeated `disconnectFromCup` calls do. */
  function DeselectEach(sel: seq<string>, ids: seq<string>): seq<string>
    decreases |ids|
  {
    if ids == [] then sel else Deselect(DeselectEach(sel, ids[..|ids| - 1]), ids[|ids| - 1])
  }

  lemma DeselectEachStep(sel: seq<string>, ids: seq<string>, i: nat)
    requires i < |ids|
    ensures DeselectEach(sel, ids[..i + 1]) == Deselect(DeselectEach(sel, ids[..i]), ids[i])
  {
    assert ids[..i + 1][..i] == ids[..i];
  }

  /** Deselecting ids one by one keeps exactly the selected ids that are not among them, in order. */
  lemma {:induction false} DeselectEachIsFilter(sel: seq<string>, ids: seq<string>)
    ensures DeselectEach(sel, ids) == Filter(sel, NotIn(ids))
    decreases |ids|
  {
    if ids == [] {
      FilterNotInNothing(sel);
    } else {
      var n := |ids| - 1;
      DeselectEachIsFilter(sel, ids[..n]);
      WithoutNext(sel, ids, n);
      assert ids[..n + 1] == ids;
    }
  }

  /** None of the deselected ids is left. */
  lemma DeselectEachExcludes(sel: seq<string>, ids: seq<string>)
    ensures forall k :: 0 <= k < |ids| ==> ids[k] !in DeselectEach(sel, ids)
  {
    DeselectEachIsFilter(sel, ids);
    FilterNotInExcludes(sel, ids);
  }

  // ------------------------------------------------------------------ presets

  /** `deletePreset`: every preset with the id is removed, the rest kept in order. */
  function DeletePreset(presets: seq<ColorPreset>, id: string): (r: seq<ColorPreset>)
    ensures forall i :: 0 <= i < |r| ==> r[i].id != id && r[i] in presets
    ensures forall i :: 0 <= i < |presets| && presets[i].id != id ==> presets[i] in r
    ensures forall i :: 0 <= i < |presets| ==>
      multiset(r)[presets[i]] == if presets[i].id != id then multiset(presets)[presets[i]] else 0
    ensures IsSubsequence(r, presets)
  {
    Filter(presets, (p: ColorPreset) => p.id != id)
  }

  /** `colorPresets.find(p => p.id === id)`. */
  function FindPreset(presets: seq<ColorPreset>, id: string): (r: Option<ColorPreset>)
    ensures r.None? <==> forall i :: 0 <= i < |presets| ==> presets[i].id != id
    ensures r.Some? ==> r.value.id == id
    ensures r.Some? ==>
      exists k :: 0 <= k < |presets| && presets[k] == r.value && forall j :: 0 <= j < k ==> presets[j].id != id
  {
    Find(presets, (p: ColorPreset) => p.id == id)
  }

  /** A deleted preset can no longer be found, so applying it does nothing. */
  lemma DeletedPresetNotFound(presets: seq<ColorPreset>, id: string)
    ensures FindPreset(DeletePreset(presets, id), id).None?
  {
  }

  class Store {
    var cups: seq<Cup>
    var selectedCups: seq<string>
    var colorPresets: seq<ColorPreset>
    var isScanning: bool
    var isConnecting: bool
    var error: Option<string>
    var currentColor: string
    var currentMode: CupMode
    var currentBrightness: real

    /** Cup ids are distinct (no action adds a cup) and so are the selected ids. */
    predicate Valid()
      reads this
    {
      NoDup(Ids(cups)) && NoDup(selectedCups)
    }

    /** `partialize`: the selection, the flags and the error are not persisted. */
    function Partialize(): Persisted
      reads this
    {
      Persisted(cups, colorPresets, currentColor, currentMode, currentBrightness)
    }

    constructor ()
      ensures Valid()
      ensures cups == MockCups && selectedCups == [] && colorPresets == DefaultPresets
      ensures !isScanning && !isConnecting && error == None
      ensures currentColor == "#00FF88" && currentMode == Static && currentBrightness == 80.0
    {
      cups := MockCups;
      selectedCups := [];
      colorPresets := DefaultPresets;
      isScanning, isConnecting, error := false, false, None;
      currentColor, currentMode, currentBrightness := "#00FF88", Static, 80.0;
      assert Ids(MockCups) == ["cup-1", "cup-2", "cup-3"];
    }

    /** `scanForCups`: the mock scan finds nothing and ends without an error. */
    method ScanForCups()
      modifies this`isScanning, this`error
      ensures !isScanning && error == None
    {
      isScanning, error := true, None;
      isScanning, error := false, None;
    }

    /** `connectToCup`: only the cups with that id become connected. */
    method ConnectToCup(id: string)
      requires Valid()
      modifies this`cups, this`isConnecting, this`error
      ensures Valid() && cups == Reconnect(old(cups), IdIs(id), true)
      ensures !isConnecting && error == None
    {
      isConnecting, error := true, None;
      UpdateKeepsIds(cups, Reconnect(cups, IdIs(id), true), IdIs(id));
      cups := Reconnect(cups, IdIs(id), true);
      isConnecting, error := false, None;
    }

    /** `disconnectFromCup`: the cup is disconnected and leaves the selection. */
    method DisconnectFromCup(id: string)
      requires Valid()
      modifies this`cups, this`selectedCups
      ensures Valid()
      ensures cups == Reconnect(old(cups), IdIs(id), false)
      ensures selectedCups == Deselect(old(selectedCups), id)
    {
      UpdateKeepsIds(cups, Reconnect(cups, IdIs(id), false), IdIs(id));
      cups := Reconnect(cups, IdIs(id), false);
      selectedCups := Deselect(selectedCups, id);
    }

    method RenameCup(id: string, name: string)
      requires Valid()
      modifies this`cups
      ensures Valid() && cups == Rename(old(cups), IdIs(id), name)
    {
      var r := Rename(cups, IdIs(id), name);
      assert forall i :: 0 <= i < |cups| ==> r[i].id == cups[i].id by {
        forall i | 0 <= i < |cups| ensures r[i].id == cups[i].id {
          assert r[i].(name := cups[i].name) == cups[i];
        }
      }
      SameIds(r, cups);
      cups := r;
    }

    method SelectCup(id: string)
      requires Valid()
      modifies this`selectedCups
      ensures Valid() && selectedCups == Select(old(selectedCups), id)
      ensures Partialize() == old(Partialize())
    {
      selectedCups := Select(selectedCups, id);
    }

    method DeselectCup(id: string)
      requires Valid()
      modifies this`selectedCups
      ensures Valid() && selectedCups == Deselect(old(selectedCups), id)
      ensures Partialize() == old(Partialize())
    {
      selectedCups := Deselect(selectedCups, id);
    }

    method SelectAllCups()
      requires Valid()
      modifies this`selectedCups
      ensures Valid() && selectedCups == ConnectedIds(cups)
      ensures Partialize() == old(Partialize())
    {
      selectedCups := ConnectedIds(cups);
    }

    method DeselectAllCups()
      modifies this`selectedCups
      ensures Valid() == NoDup(Ids(cups)) && selectedCups == []
      ensures Partialize() == old(Partialize())
    {
      selectedCups := [];
    }

    /** `setColor`: the current colour, and the colour of every cup selected when the call began. */
    method SetColor(color: string)
      requires Valid()
      modifies this`currentColor, this`cups
      ensures Valid() && currentColor == color
      ensures cups == Recolor(old(cups), InList(old(selectedCups)), color)
    {
      var snapshot := selectedCups;
      currentColor := color;
      var r := Recolor(cups, InList(snapshot), color);
      KeepsIds(r, cups);
      cups := r;
    }

    /** `setCupColor`: the colour of the named cup only. */
    method SetCupColor(id: string, color: string)
      requires Valid()
      modifies this`cups
      ensures Valid() && cups == Recolor(old(cups), IdIs(id), color)
    {
      var r := Recolor(cups, IdIs(id), color);
      KeepsIds(r, cups);
      cups := r;
    }

    method SetMode(mode: CupMode)
      requires Valid()
      modifies this`currentMode, this`cups
      ensures Valid() && currentMode == mode
      ensures cups == Remode(old(cups), InList(old(selectedCups)), mode)
    {
      var snapshot := selectedCups;
      currentMode := mode;
      var r := Remode(cups, InList(snapshot), mode);
      KeepsIds(r, cups);
      cups := r;
    }

    method SetBrightness(brightness: real)
      requires Valid()
      modifies this`currentBrightness, this`cups
      ensures Valid() && currentBrightness == brightness
      ensures cups == Rebright(old(cups), InList(old(selectedCups)), brightness)
    {
      var snapshot := selectedCups;
      currentBrightness := brightness;
      var r := Rebright(cups, InList(snapshot), brightness);
      KeepsIds(r, cups);
      cups := r;
    }

    /** `savePreset`: one preset appended, copying the current settings; its id is `Date.now().toString()`. */
    method SavePreset(name: string, now: nat)
      modifies this`colorPresets
      ensures colorPresets == old(colorPresets) +
        [ColorPreset(DecimalString(now), name, currentColor, currentMode, currentBrightness)]
    {
      colorPresets := colorPresets + [ColorPreset(DecimalString(now), name, currentColor, currentMode, currentBrightness)];
    }

    method DeletePresetById(id: string)
      modifies this`colorPresets
      ensures colorPresets == DeletePreset(old(colorPresets), id)
    {
      colorPresets := DeletePreset(colorPresets, id);
    }

    /**
     * `applyPreset`: nothing for an unknown id; otherwise the current settings
     * become the preset's, and so do the settings of every selected cup.
     */
    method ApplyPreset(id: string)
      requires Valid()
      modifies this`currentColor, this`currentMode, this`currentBrightness, this`cups
      ensures Valid()
      ensures FindPreset(old(colorPresets), id).None? ==>
        cups == old(cups) && currentColor == old(currentColor)
        && currentMode == old(currentMode) && currentBrightness == old(currentBrightness)
      ensures FindPreset(old(colorPresets), id).Some? ==>
        var p := FindPreset(old(colorPresets), id).value;
        currentColor == p.color && currentMode == p.mode && currentBrightness == p.brightness
        && |cups| == |old(cups)|
        && forall i :: 0 <= i < |cups| ==>
             cups[i] == if old(cups)[i].id in old(selectedCups)
                        then old(cups)[i].(color := p.color, mode := p.mode, brightness := p.brightness)
                        else old(cups)[i]
    {
      var found := FindPreset(colorPresets, id);
      if found.None? {
        return;
      }
      var p := found.value;
      currentColor, currentMode, currentBrightness := p.color, p.mode, p.brightness;
      SetColor(p.color);
      SetMode(p.mode);
      SetBrightness(p.brightness);
    }

    method ClearError()
      modifies this`error
      ensures error == None
      ensures Partialize() == old(Partialize())
    {
      error := None;
    }
  }

  /** Any attribute update keeps the ids of the cups. */
  lemma KeepsIds(r: seq<Cup>, cups: seq<Cup>)
    requires |r| == |cups|
    requires forall i :: 0 <= i < |cups| ==>
      r[i].(color := cups[i].color, mode := cups[i].mode, brightness := cups[i].brightness) == cups[i]
    ensures Ids(r) == Ids(cups)
  {
    forall i | 0 <= i < |cups| ensures r[i].id == cups[i].id {
      assert r[i].(color := cups[i].color, mode := cups[i].mode, brightness := cups[i].brightness) == cups[i];
    }
    SameIds(r, cups);
  }
}
