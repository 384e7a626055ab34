/**
 * `DropdownMenu`: the sub-menu registry and navigation history kept by the
 * menu content, and which item presses close the menu.
 */
module DropdownMenu {
  import opened Wrappers
  import CS = ControllableState
  import Popup

  /** A registered sub-menu: its id and its content component (opaque). */
  datatype SubMenu = SubMenu(id: string, component: nat)

  /** The sub-menu shown after the history has become `history`: the one
      registered under the top id, or the root menu (`None`) when the history
      is empty, its top id is the (falsy) empty string or is unregistered. */
  function ActiveFor(subMenus: map<string, SubMenu>, history: seq<string>): (r: Option<SubMenu>)
    ensures r.Some? <==> history != [] && history[|history| - 1] != "" && history[|history| - 1] in subMenus
    ensures r.Some? ==> r.value == subMenus[history[|history| - 1]]
  {
    if history == [] then None
    else
      var nextId := history[|history| - 1];
      if nextId == "" then None
      else if nextId in subMenus then Some(subMenus[nextId])
      else None
  }

  /** `subMenuHistoryRef.current.pop()`: drops the top entry, if any. */
  function Pop(history: seq<string>): (r: seq<string>)
    ensures history == [] ==> r == []
    ensures history != [] ==> r + [history[|history| - 1]] == history
  {
    if history == [] then [] else history[..|history| - 1]
  }

  /** Opening a sub-menu and going back returns to the same history and
      shows what that history shows. */
  lemma PushThenPop(subMenus: map<string, SubMenu>, history: seq<string>, id: string)
    ensures Pop(history + [id]) == history
    ensures ActiveFor(subMenus, Pop(history + [id])) == ActiveFor(subMenus, history)
  {
    assert (history + [id])[..|history|] == history;
  }

  class SubMenuNavigator {
    /** `subMenusRef`: sub-menus by id. */
    var subMenus: map<string, SubMenu>
    /** `subMenuHistoryRef`: the ids of the opened sub-menus, innermost last. */
    var history: seq<string>
    /** `activeSubMenu`; `None` shows the root menu. */
    var activeSubMenu: Option<SubMenu>

    /** Registrations are filed under their own id, every id in the history
        is registered, and a shown sub-menu is the one on top of the history. */
    ghost predicate Valid()
      reads this
    {
      (forall id :: id in subMenus ==> subMenus[id].id == id) &&
      (forall i :: 0 <= i < |history| ==> history[i] in subMenus) &&
      (activeSubMenu.Some? ==> history != [] && activeSubMenu.value.id == history[|history| - 1]) &&
      (history != [] && history[|history| - 1] != "" ==> activeSubMenu.Some?)
    }

    constructor ()
      ensures Valid()
      ensures subMenus == map[] && history == [] && activeSubMenu == None
    {
      subMenus := map[];
      history := [];
      activeSubMenu := None;
    }

    /** `addSubMenu`: registers or replaces the sub-menu under its id. */
    method AddSubMenu(subMenu: SubMenu)
      requires Valid()
      modifies this
      ensures Valid()
      ensures subMenus == old(subMenus)[subMenu.id := subMenu]
      ensures history == old(history) && activeSubMenu == old(activeSubMenu)
    {
      subMenus := subMenus[subMenu.id := subMenu];
    }

    /** `onSubMenuTriggerPress`: a registered id is pushed and its sub-menu
        shown; an unregistered one changes nothing. */
    method OnSubMenuTriggerPress(id: string)
      requires Valid()
      modifies this
      ensures Valid()
      ensures subMenus == old(subMenus)
      ensures id in subMenus ==> history == old(history) + [id] && activeSubMenu == Some(subMenus[id])
      ensures id !in subMenus ==> history == old(history) && activeSubMenu == old(activeSubMenu)
    {
      if id in subMenus {
        var subMenu := subMenus[id];
        history := history + [id];
        activeSubMenu := Some(subMenu);
      }
    }

    /** `onSubMenuBackPress`: pops one entry (nothing on an empty history)
        and shows what the new top designates. */
    method OnSubMenuBackPress()
      requires Valid()
      modifies this
      ensures Valid()
      ensures subMenus == old(subMenus)
      ensures history == Pop(old(history))
      ensures activeSubMenu == ActiveFor(subMenus, history)
    {
      history := Pop(history);
      if history != [] && history[|history| - 1] != "" {
        var nextId := history[|history| - 1];
        if nextId in subMenus {
          activeSubMenu := Some(subMenus[nextId]);
        } else {
          // the source falls back to the root menu here; the invariant rules
          // this out, since every id in the history is registered
          assert false;
        }
      } else {
        activeSubMenu := None;
      }
    }
  }

  /** A trigger press followed by a back press leaves the history as it was. */
  method TriggerThenBack(nav: SubMenuNavigator, id: string)
    requires nav.Valid()
    modifies nav
    ensures nav.Valid()
    ensures nav.subMenus == old(nav.subMenus)
    ensures id in nav.subMenus ==> nav.history == old(nav.history)
    ensures id in nav.subMenus ==> nav.activeSubMenu == ActiveFor(nav.subMenus, old(nav.history))
  {
    nav.OnSubMenuTriggerPress(id);
    nav.OnSubMenuBackPress();
    if id in nav.subMenus {
      PushThenPop(nav.subMenus, old(nav.history), id);
    }
  }

  datatype ItemKind = MenuItem | CheckboxItem | RadioItem

  /** Whether pressing an item closes the menu, as written: menu and
      checkbox items obey `closeOnPress` (default true), a radio item closes
      whatever its `closeOnPress` says. */
  function ItemClosesAsWritten(kind: ItemKind, closeOnPress: Option<bool>): bool {
    match kind
    case RadioItem => true
    case _ => closeOnPress.GetOr(true)
  }

  /** The evidently intended rule: every item kind declares `closeOnPress`
      (default true), and an item closes the menu exactly when it is set. */
  function ItemCloses(closeOnPress: Option<bool>): (closes: bool)
    ensures closes <==> closeOnPress != Some(false)
  {
    closeOnPress.GetOr(true)
  }

  /** The as-written rule is the intended one for menu and checkbox items,
      and differs from it for a radio item given `closeOnPress={false}`. */
  lemma RadioItemIgnoresCloseOnPress(kind: ItemKind, closeOnPress: Option<bool>)
    ensures kind != RadioItem ==> ItemClosesAsWritten(kind, closeOnPress) == ItemCloses(closeOnPress)
    ensures ItemClosesAsWritten(RadioItem, closeOnPress)
    ensures ItemClosesAsWritten(RadioItem, Some(false)) != ItemCloses(Some(false))
  {
  }

  /** What an item press does, in order. */
  datatype Effect = OwnHandler | Close

  /** An item's `onPress`: the item's own handler, if given, then `onClose`
      when the item closes the menu. */
  function PressEffects(hasOwnHandler: bool, closeOnPress: Option<bool>): (r: seq<Effect>)
    ensures OwnHandler in r <==> hasOwnHandler
    ensures Close in r <==> ItemCloses(closeOnPress)
    ensures Close in r ==> r[|r| - 1] == Close
    ensures forall i, j :: 0 <= i < j < |r| ==> r[i] != r[j]
  {
    (if hasOwnHandler then [OwnHandler] else []) + (if ItemCloses(closeOnPress) then [Close] else [])
  }

  /** An item press against the popup's open flag. */
  method PressItem(open: CS.ControllableState<bool>, closeOnPress: Option<bool>)
    modifies open
    ensures open.controlledValue == old(open.controlledValue)
    ensures open.notified == old(open.notified) + (if ItemCloses(closeOnPress) then [false] else [])
    ensures ItemCloses(closeOnPress) && !open.IsControlled() ==> !open.Value()
    ensures !ItemCloses(closeOnPress) ==> open.uncontrolledValue == old(open.uncontrolledValue)
  {
    if ItemCloses(closeOnPress) {
      Popup.OnClose(open);
    }
  }
}
