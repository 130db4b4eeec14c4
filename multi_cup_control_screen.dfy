/**
 * The multi-cup control screen: a selection of cup ids kept as an
 * insertion-ordered set (a duplicate-free list), rename, connect-all with a
 * progress percentage, bulk connect/disconnect/delete over the selection, the
 * 18-cup limit of the add button, and the tap block of a cup card after one
 * of its buttons was pressed. Cup removal is an action of a store the model
 * does not contain: the screen records each `removeCup` call it makes.
 * Confirmation dialogs are a parameter saying which button the user chose.
 */
module MultiCupControlScreen {
  import opened Common
  import opened Text
  import opened Seqs
  import opened NiteControlStore

  const MaxCups: nat := 18
  const ChildPressBlockMs: int := 600

  // ------------------------------------------------------------ the selection

  /** `handleCupSelect`: the id leaves the selection if present, else joins it at the end. */
  function Toggle(sel: seq<string>, id: string): (r: seq<string>)
    ensures forall x :: x in r <==> (x in sel) != (x == id)
    ensures NoDup(sel) ==> NoDup(r)
    ensures id !in sel ==> r == sel + [id]
  {
    if id in sel then Without(sel, id)
    else
      if NoDup(sel) then
        NoDupSnoc(sel, id);
        sel + [id]
      else sel + [id]
  }

  /** Toggling twice gives the same members back, and exactly the same list for an id that was not selected. */
  lemma ToggleTwice(sel: seq<string>, id: string)
    ensures forall x :: x in Toggle(Toggle(sel, id), id) <==> x in sel
    ensures id !in sel ==> Toggle(Toggle(sel, id), id) == sel
  {
    if id !in sel {
      WithoutAppended(sel, id);
    }
  }

  /** `handleSelectAll`: clear when the selection is as large as the cup list, else every cup id. */
  function SelectAllChoice(sel: seq<string>, cupIds: seq<string>): (r: seq<string>)
    ensures |sel| == |cupIds| ==> r == []
    ensures |sel| != |cupIds| ==> forall x :: x in r <==> x in cupIds
    ensures NoDup(r)
    ensures |sel| != |cupIds| && NoDup(cupIds) ==> r == cupIds
  {
    if |sel| == |cupIds| then [] else Dedup(cupIds)
  }

  /** With distinct cup ids, pressing select-all twice from an empty selection selects all, then clears. */
  lemma SelectAllTwice(cupIds: seq<string>)
    requires NoDup(cupIds) && cupIds != []
    ensures SelectAllChoice([], cupIds) == cupIds
    ensures SelectAllChoice(SelectAllChoice([], cupIds), cupIds) == []
  {
  }

  // ------------------------------------------------------------ connect-all

  /** `Math.round(((i + 1) / total) * 100)`. */
  function Progress(i: nat, total: nat): (p: int)
    requires i < total
    ensures 0 <= p <= 100
  {
    var x := (i + 1) as real / total as real * 100.0;
    AtMostQuotient((i + 1) as real, total as real, 1.0);
    DivSign((i + 1) as real, total as real);
    Round(x)
  }

  /** Progress never goes back, and is 100 once the last cup is done. */
  lemma ProgressMonotone(i: nat, j: nat, total: nat)
    requires i <= j < total
    ensures Progress(i, total) <= Progress(j, total)
    ensures Progress(total - 1, total) == 100
  {
    DivMonotone((i + 1) as real, (j + 1) as real, total as real);
    RoundMonotone((i + 1) as real / total as real * 100.0, (j + 1) as real / total as real * 100.0);
    AtLeastQuotient(total as real, total as real, 1.0);
    AtMostQuotient(total as real, total as real, 1.0);
    RoundOfInt(100);
  }

  // ------------------------------------------------------------ rename guard

  /** `handleSaveRename` renames only to a name that is not blank, and stores it trimmed. */
  function RenameTo(name: string): (r: Option<string>)
    ensures r.None? <==> AllWhitespace(name)
    ensures r.Some? ==> r.value == Trim(name) && r.value != []
  {
    TrimEmptyIffBlank(name);
    if Trim(name) != [] then Some(Trim(name)) else None
  }

  /** The add button opens the add options only below 18 cups. */
  function CanAddCup(cupCount: nat): (ok: bool)
    ensures ok <==> cupCount < MaxCups
  {
    !(cupCount >= MaxCups)
  }

  // ------------------------------------------------------------ the cup card

  /** A card tap is handled unless a button is held down or the block after a button press is running. */
  function CardTapAccepted(pressingChild: bool, now: int, blockUntil: int): (ok: bool)
    ensures ok <==> !pressingChild && blockUntil <= now
  {
    !(pressingChild || now < blockUntil)
  }

  /** A button press at `t` swallows every card tap in the next 600 ms, and only those. */
  lemma BlockAfterChildPress(t: int, now: int)
    ensures CardTapAccepted(false, now, t + ChildPressBlockMs) <==> now >= t + 600
  {
  }

  class CupCard {
    var pressingChild: bool
    var blockUntil: int
    /** How many card taps reached `onPress`. */
    var taps: nat

    constructor ()
      ensures !pressingChild && blockUntil == 0 && taps == 0
    {
      pressingChild, blockUntil, taps := false, 0, 0;
    }

    method ChildPressIn()
      modifies this`pressingChild
      ensures pressingChild
    {
      pressingChild := true;
    }

    method ChildPressOut()
      modifies this`pressingChild
      ensures !pressingChild
    {
      pressingChild := false;
    }

    /** A button of the card is pressed at `now` (its own action is the caller's). */
    method ChildPress(now: int)
      modifies this`blockUntil
      ensures blockUntil == now + ChildPressBlockMs
    {
      blockUntil := now + ChildPressBlockMs;
    }

    method CardTap(now: int) returns (handled: bool)
      modifies this`taps
      ensures handled == CardTapAccepted(pressingChild, now, blockUntil)
      ensures taps == old(taps) + (if handled then 1 else 0)
    {
      if pressingChild || now < blockUntil {
        return false;
      }
      taps := taps + 1;
      return true;
    }
  }

  // ------------------------------------------------------------ the screen

  /** `now` is `cups` with `isConnected := on` on exactly the cups whose id is in `done`. */
  predicate SwitchedFor(now: seq<Cup>, cups: seq<Cup>, done: seq<string>, on: bool) {
    |now| == |cups|
    && forall k :: 0 <= k < |cups| ==>
         now[k] == if cups[k].id in done then cups[k].(isConnected := on) else cups[k]
  }

  /** One more connect (or disconnect) call, for `ids[i]`, extends the ids done to `ids[..i + 1]`. */
  lemma SwitchStep(now: seq<Cup>, cups: seq<Cup>, ids: seq<string>, i: nat, on: bool)
    requires i < |ids| && SwitchedFor(now, cups, ids[..i], on)
    ensures SwitchedFor(Reconnect(now, IdIs(ids[i]), on), cups, ids[..i + 1], on)
  {
    var next := Reconnect(now, IdIs(ids[i]), on);
    assert ids[..i + 1] == ids[..i] + [ids[i]];
    forall k | 0 <= k < |cups|
      ensures next[k] == if cups[k].id in ids[..i + 1] then cups[k].(isConnected := on) else cups[k]
    {
      assert next[k].(isConnected := now[k].isConnected) == now[k];
    }
  }

  /** Once every cup's id is done, every cup is switched. */
  lemma SwitchedAll(now: seq<Cup>, cups: seq<Cup>, on: bool)
    requires SwitchedFor(now, cups, Ids(cups), on)
    ensures |now| == |cups|
    ensures forall k :: 0 <= k < |now| ==> now[k] == cups[k].(isConnected := on)
  {
    forall k | 0 <= k < |cups| ensures cups[k].id in Ids(cups) {
      assert Ids(cups)[k] == cups[k].id;
    }
  }

  class Screen {
    const store: Store
    var selected: seq<string>
    var showRenameModal: bool
    var renameTarget: Option<Cup>
    var newCupName: string
    var isConnectingAll: bool
    var connectProgress: int
    var showAddOptions: bool
    /** The ids passed to the store's `removeCup`, in call order. */
    var removed: seq<string>

    predicate Valid()
      reads this, store
    {
      NoDup(selected) && store.Valid()
    }

    constructor (store: Store)
      requires store.Valid()
      ensures this.store == store && Valid()
      ensures selected == [] && !showRenameModal && renameTarget == None && newCupName == []
      ensures !isConnectingAll && connectProgress == 0 && !showAddOptions && removed == []
    {
      this.store := store;
      selected := [];
      showRenameModal, renameTarget, newCupName := false, None, [];
      isConnectingAll, connectProgress, showAddOptions := false, 0, false;
      removed := [];
    }

    method HandleCupSelect(id: string)
      requires Valid()
      modifies this`selected
      ensures Valid() && selected == Toggle(old(selected), id)
    {
      selected := Toggle(selected, id);
    }

    method HandleSelectAll()
      requires Valid()
      modifies this`selected
      ensures Valid() && selected == SelectAllChoice(old(selected), Ids(store.cups))
    {
      selected := SelectAllChoice(selected, Ids(store.cups));
    }

    method HandleRename(cup: Cup)
      modifies this`renameTarget, this`newCupName, this`showRenameModal
      ensures renameTarget == Some(cup) && newCupName == cup.name && showRenameModal
    {
      renameTarget, newCupName, showRenameModal := Some(cup), cup.name, true;
    }

    /** Save: nothing unless a cup is chosen and the name is not blank; then rename to the trimmed name and close. */
    method HandleSaveRename()
      requires Valid()
      modifies this`renameTarget, this`newCupName, this`showRenameModal, store`cups
      ensures Valid()
      ensures RenameTo(old(newCupName)).None? || old(renameTarget).None? ==>
        store.cups == old(store.cups) && renameTarget == old(renameTarget)
        && newCupName == old(newCupName) && showRenameModal == old(showRenameModal)
      ensures RenameTo(old(newCupName)).Some? && old(renameTarget).Some? ==>
        store.cups == Rename(old(store.cups), IdIs(old(renameTarget).value.id), RenameTo(old(newCupName)).value)
        && renameTarget == None && newCupName == [] && !showRenameModal
    {
      var name := RenameTo(newCupName);
      if name.Some? && renameTarget.Some? {
        store.RenameCup(renameTarget.value.id, name.value);
        showRenameModal, renameTarget, newCupName := false, None, [];
      }
    }

    method HandleCancelRename()
      modifies this`renameTarget, this`newCupName, this`showRenameModal
      ensures renameTarget == None && newCupName == [] && !showRenameModal
    {
      showRenameModal, renameTarget, newCupName := false, None, [];
    }

    /**
     * `handleConnectAll`: ignored while already running; otherwise connect the
     * cups of the list as it was when the handler started, one by one, with the
     * progress after cup `i` at `Progress(i, total)`.
     */
    method HandleConnectAll()
      requires Valid()
      modifies this`isConnectingAll, this`connectProgress, store`cups, store`isConnecting, store`error
      ensures Valid() && isConnectingAll == old(isConnectingAll)
      ensures old(isConnectingAll) ==> store.cups == old(store.cups) && connectProgress == old(connectProgress)
      ensures !old(isConnectingAll) ==>
        |store.cups| == |old(store.cups)|
        && (forall k :: 0 <= k < |store.cups| ==> store.cups[k] == old(store.cups)[k].(isConnected := true))
        && connectProgress == if old(store.cups) == [] then 0 else 100
      ensures old(isConnectingAll) || old(store.cups) == [] ==>
        store.isConnecting == old(store.isConnecting) && store.error == old(store.error)
      ensures !old(isConnectingAll) && old(store.cups) != [] ==> !store.isConnecting && store.error == None
    {
      if isConnectingAll {
        return;
      }
      isConnectingAll, connectProgress := true, 0;
      var cups := store.cups;
      var ids := Ids(cups);
      var total := |cups|;
      var i := 0;
      while i < total
        invariant 0 <= i <= total && store.Valid() && NoDup(selected)
        invariant SwitchedFor(store.cups, cups, ids[..i], true)
        invariant connectProgress == if i == 0 then 0 else Progress(i - 1, total)
        invariant i == 0 ==> store.isConnecting == old(store.isConnecting) && store.error == old(store.error)
        invariant i > 0 ==> !store.isConnecting && store.error == None
      {
        SwitchStep(store.cups, cups, ids, i, true);
        store.ConnectToCup(ids[i]);
        connectProgress := Progress(i, total);
        i := i + 1;
      }
      assert ids[..total] == ids;
      SwitchedAll(store.cups, cups, true);
      if total > 0 {
        ProgressMonotone(total - 1, total - 1, total);
      }
      isConnectingAll := false;
    }

    /** `handleDisconnectAll`: every cup of the list is disconnected and leaves the store's selection. */
    method HandleDisconnectAll()
      requires Valid()
      modifies store`cups, store`selectedCups
      ensures Valid()
      ensures |store.cups| == |old(store.cups)|
      ensures forall k :: 0 <= k < |store.cups| ==> store.cups[k] == old(store.cups)[k].(isConnected := false)
      ensures forall k :: 0 <= k < |old(store.cups)| ==> old(store.cups)[k].id !in store.selectedCups
      ensures store.selectedCups == DeselectEach(old(store.selectedCups), Ids(old(store.cups)))
    {
      var cups := store.cups;
      var ids := Ids(cups);
      var i := 0;
      assert ids[..0] == [];
      while i < |cups|
        invariant 0 <= i <= |cups| && store.Valid()
        invariant SwitchedFor(store.cups, cups, ids[..i], false)
        invariant store.selectedCups == DeselectEach(old(store.selectedCups), ids[..i])
      {
        SwitchStep(store.cups, cups, ids, i, false);
        DeselectEachStep(old(store.selectedCups), ids, i);
        store.DisconnectFromCup(ids[i]);
        i := i + 1;
      }
      assert ids[..|cups|] == ids;
      SwitchedAll(store.cups, cups, false);
      DeselectEachExcludes(old(store.selectedCups), ids);
    }

    /** `handleBulkConnect`: every selected id is connected, then the selection is cleared. */
    method HandleBulkConnect()
      requires Valid()
      modifies this`selected, store`cups, store`isConnecting, store`error
      ensures Valid() && selected == []
      ensures |store.cups| == |old(store.cups)|
      ensures forall k :: 0 <= k < |store.cups| ==>
        store.cups[k] == if old(store.cups)[k].id in old(selected)
                         then old(store.cups)[k].(isConnected := true) else old(store.cups)[k]
      ensures old(selected) == [] ==>
        store.isConnecting == old(store.isConnecting) && store.error == old(store.error)
      ensures old(selected) != [] ==> !store.isConnecting && store.error == None
    {
      var ids := selected;
      var cups := store.cups;
      var i := 0;
      while i < |ids|
        invariant 0 <= i <= |ids| && store.Valid()
        invariant SwitchedFor(store.cups, cups, ids[..i], true)
        invariant i == 0 ==> store.isConnecting == old(store.isConnecting) && store.error == old(store.error)
        invariant i > 0 ==> !store.isConnecting && store.error == None
      {
        SwitchStep(store.cups, cups, ids, i, true);
        store.ConnectToCup(ids[i]);
        i := i + 1;
      }
      assert ids[..|ids|] == ids;
      selected := [];
    }

    /** `handleBulkDisconnect`: every selected id is disconnected and leaves the store's selection, then the screen's selection is cleared. */
    method HandleBulkDisconnect()
      requires Valid()
      modifies this`selected, store`cups, store`selectedCups
      ensures Valid() && selected == []
      ensures |store.cups| == |old(store.cups)|
      ensures forall k :: 0 <= k < |store.cups| ==>
        store.cups[k] == if old(store.cups)[k].id in old(selected)
                         then old(store.cups)[k].(isConnected := false) else old(store.cups)[k]
      ensures store.selectedCups == DeselectEach(old(store.selectedCups), old(selected))
      ensures forall k :: 0 <= k < |old(selected)| ==> old(selected)[k] !in store.selectedCups
    {
      var ids := selected;
      var cups := store.cups;
      var i := 0;
      assert ids[..0] == [];
      while i < |ids|
        invariant 0 <= i <= |ids| && store.Valid()
        invariant SwitchedFor(store.cups, cups, ids[..i], false)
        invariant store.selectedCups == DeselectEach(old(store.selectedCups), ids[..i])
      {
        SwitchStep(store.cups, cups, ids, i, false);
        DeselectEachStep(old(store.selectedCups), ids, i);
        store.DisconnectFromCup(ids[i]);
        i := i + 1;
      }
      assert ids[..|ids|] == ids;
      DeselectEachExcludes(old(store.selectedCups), ids);
      selected := [];
    }

    /** `handleDelete`, once the user chose Remove: the cup is removed and leaves the selection. */
    method HandleDelete(id: string, confirmed: bool)
      requires Valid()
      modifies this`selected, this`removed
      ensures Valid()
      ensures !confirmed ==> selected == old(selected) && removed == old(removed)
      ensures confirmed ==> removed == old(removed) + [id] && selected == Without(old(selected), id)
    {
      if confirmed {
        removed := removed + [id];
        selected := Without(selected, id);
      }
    }

    /** `handleBulkDelete`: nothing for an empty selection; on Remove, every selected id is removed, in order. */
    method HandleBulkDelete(confirmed: bool)
      requires Valid()
      modifies this`selected, this`removed
      ensures Valid()
      ensures old(selected) == [] || !confirmed ==> selected == old(selected) && removed == old(removed)
      ensures old(selected) != [] && confirmed ==> removed == old(removed) + old(selected) && selected == []
    {
      var ids := selected;
      if |ids| == 0 {
        return;
      }
      if confirmed {
        removed := removed + ids;
        selected := [];
      }
    }

    /** The add button: refused at 18 cups or more. */
    method HandleAddPress() returns (refused: bool)
      modifies this`showAddOptions
      ensures refused <==> !CanAddCup(|store.cups|)
      ensures showAddOptions == if refused then old(showAddOptions) else true
    {
      if |store.cups| >= MaxCups {
        return true;
      }
      showAddOptions := true;
      return false;
    }
  }
}
