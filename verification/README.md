# A verified model of the UI kit's floating-panel and menu logic

This project models the behavioural core of a React Native component library in
Dafny and proves properties of it:

- **Positioning engine** (`usePositioning`). It places a floating panel (popup,
  tooltip, dropdown) next to an anchor in one of twelve placements, a side
  (top, right, bottom, left) with an alignment (start, centre, end). If the
  panel collides with the screen boundary, a main-axis collision flips the
  side and a cross-axis collision re-aligns the panel. Optionally the panel
  is clamped over the anchor. The engine also places and rotates the arrow.
  Geometry is over `real`.
- **Portal registry** (`PortalProvider`). It holds mounted containers,
  portals keyed by id, and per-container subscriber sets. Adding or removing
  a portal notifies the container's subscribers.
- **Dropdown sub-menu navigation**: a registry of sub-menus and a history
  stack. Also which menu items close the menu when pressed.
- **Controllable state** (`useControllableState`): a value owned by the parent
  (controlled) or kept internally (uncontrolled). Every change is reported.
- **Accordion**: which items are expanded, what a trigger press writes, and
  how the root, item and trigger `disabled` props take precedence.
- **Popup**: the open flag and the presses that open and close it, and the
  placement-to-transform-origin table.
- **Group layout** shared by `ButtonGroup` and `ListGroup`. Each child gets a
  first/middle/last/single position, and a separator follows every child
  but the last.

Modules, one per file:

- `Positioning`
- `Portal`
- `DropdownMenu`
- `ControllableState`
- `Accordion`
- `Popup`
- `GroupLayout`, `ButtonGroup`, `ListGroup`
- two helper modules:
  - `Wrappers`: `Option` for `null`/`undefined`, `Outcome` for a thrown error;
  - `Sequences`: remove-all-occurrences on lists.

Stateful code is modelled as classes whose methods update their fields:

- the hook's measured snapshots and stored result (`Positioning.Positioner`);
- the three registry maps;
- the sub-menu map, history and active sub-menu;
- the controllable value.

Callbacks handed to the outside world become logs, of what the registry
delivered to each subscriber and of what the state reported to
`onControlledChange`.

Where the code departs from what its documentation suggests, the model
follows the code:

- `coverAnchorToAvoidCollisions` defaults to `false` in the hook, but to `true`
  in `PopupContent`.
- The collision test compares `coord + target` with the boundary's extent
  field itself (its width or height), not with `boundaryCoord + extent`.
- `getClosestAlignment` answers `center` only on an exact tie between the
  distance and half the panel, and `start` whenever the distance is not
  positive.
- Clamping keeps the panel inside the boundary on the main axis only with
  `coverAnchorToAvoidCollisions`. `Positioning.OverflowsWithoutCovering`
  gives an input where, without it, the panel sticks out.

A string `value` given to `Accordion` without `type` type-checks against the
single-mode props, but `type` defaults to multiple. In that mode a press on an
item whose value occurs in the string throws a `TypeError` (a string has no
`filter`), and a press on any other item turns the root into the list of the
string's characters followed by the item. The model covers both.

The warning `removePortal` logs puts the portal id where its text says
"containerId". The model reproduces the text as written.

## Model

| member | source | states |
|---|---|---|
| Positioning.Name | hooks/usePositioning.ts:14-26 | every placement is named by one of the twelve literals of the `Placement` union |
| Positioning.ComposeNamesPlacement | hooks/usePositioning.ts:177-178 | the `side` / `side-alignment` template yields exactly the literal of that placement, hence always a member of the union |
| Positioning.NameInjective | hooks/usePositioning.ts:177-178 | distinct placements have distinct names, so the reported string determines side and alignment |
| Positioning.MainAxis | hooks/usePositioning.ts:250-257 | the main axis is the axis the placement's side lies on: y for top and bottom, x for left and right |
| Positioning.AxisSides | hooks/usePositioning.ts:250-265 | the main axis is y exactly for top/bottom placements; left/top lead and right/bottom trail; the placement's side lies on its main axis and not on the other |
| Positioning.PrimaryX | hooks/usePositioning.ts:304-328 | left: panel's right edge + offset + arrow height meets the anchor's left edge; right: panel starts offset + arrow height after the anchor; top/bottom: centres, left edges or right edges coincide for centre, start, end |
| Positioning.PrimaryY | hooks/usePositioning.ts:392-416 | the same relations along y for top/bottom sides and left/right alignments |
| Positioning.GetCollision | hooks/usePositioning.ts:561-584 | leading collision iff coord < boundaryCoord; trailing iff not leading and coord + target > extent field; none otherwise; the side lies on the axis |
| Positioning.GetBiggerAreaSide | hooks/usePositioning.ts:750-774 | the leading side wins iff its room (anchor clamped to >= 0) is strictly larger, or equal with a leading initial side; a tie keeps the initial side |
| Positioning.GetSafeCoordOnMainAxis | hooks/usePositioning.ts:603-673 | anchor wholly before the boundary: trailing side flush at boundaryCoord + offset + arrow; anchor beyond the extent: leading side flush with the extent; otherwise the bigger-area side placed next to the anchor, and the cover clamp fires (suppressing the arrow) exactly when cover is on and that coordinate leaves the boundary, yielding boundaryCoord or max(extent - target, boundaryCoord) |
| Positioning.GetClosestAlignment | hooks/usePositioning.ts:785-802 | with d the distance from the panel start to the anchor centre: start iff d <= 0 or d < half the panel; end iff d > half; centre iff d equals half and is positive |
| Positioning.GetSafeCoordOnCrossAxis | hooks/usePositioning.ts:688-736 | the panel is flush with one boundary edge; anchor before the boundary gives start at boundaryCoord, anchor past the extent gives end flush with it, otherwise flush with the violated edge and the closest alignment |
| Positioning.GetSafeCoord | hooks/usePositioning.ts:463-543 | no collision keeps coordinate, side and alignment with the arrow allowed; a main-axis collision takes coordinate, side and arrow from the main-axis resolution and keeps the alignment; a cross-axis collision takes coordinate and alignment from the cross-axis resolution against the violated side and keeps the side |
| Positioning.CalcX | hooks/usePositioning.ts:283-354 | without avoidance the primary x with the requested placement; with avoidance the primary x resolved by `getSafeCoord` along x against the boundary's x and width; the side stays on the main axis |
| Positioning.CalcY | hooks/usePositioning.ts:372-442 | the same for y, against the boundary's y and height |
| Positioning.GetArrowData | hooks/usePositioning.ts:814-882 | rotation 90/-90/180/0 for left/right/top/bottom; the arrow is centred on the panel when the panel is no larger than the anchor, else on the anchor's centre; it protrudes from the edge facing the anchor (`right` for side left, `left` for side right, `bottom` for top, `top` for bottom) by its rotated extent ((width + height) / 2 beside the anchor, its height above or below) less the offset |
| Positioning.Boundary | hooks/usePositioning.ts:107-115 | the boundary spans the screen width from x 0, starts at the top inset and ends at the screen's bottom |
| Positioning.EffectiveTarget | hooks/usePositioning.ts:141-150 | the width is kept; the height loses exactly the arrow's height when an arrow with non-zero height was measured and the height is not fixed, and is kept otherwise |
| Positioning.Layout | hooks/usePositioning.ts:137-203 | positioned; x and y are the coordinates of `calcX` and `calcY`; the side comes from the main-axis calculation and the alignment from the cross-axis one; the arrow may render iff mounted and the main-axis calculation allows it; arrow data exists iff an arrow was measured and is computed for the resulting position and side |
| Positioning.PassthroughWithoutAvoidance | hooks/usePositioning.ts:329-353 | with avoidance off, position and placement are the primary ones and the arrow renders iff mounted |
| Positioning.PassthroughWithoutCollision | hooks/usePositioning.ts:493-500 | a primary position inside the boundary on both axes is kept, with the requested placement |
| Positioning.MainAxisFitsWhenCovering | hooks/usePositioning.ts:644-665 | with cover on, a panel no larger than the boundary whose anchor overlaps it lies inside the boundary on the main axis |
| Positioning.OverflowsWithoutCovering | hooks/usePositioning.ts:603-673 | a counterexample: without cover, an anchor with equal room on both sides keeps the top side and the panel starts at -40, above the boundary |
| Positioning.CrossAxisFits | hooks/usePositioning.ts:688-736 | cross-axis resolution keeps a panel no larger than the boundary inside it |
| Positioning.LayoutPlacementName | hooks/usePositioning.ts:174-178 | the reported placement's name is the template over the side of `calcX`/`calcY` on the main axis and the alignment of the other, hence one of the twelve literals |
| Positioning.LayoutFitsWhenCovering | hooks/usePositioning.ts:137-203 | with avoidance and cover on, a panel no larger than the boundary whose anchor overlaps it along the main axis is placed inside the boundary on both axes |
| Positioning.AxisFits | hooks/usePositioning.ts:463-543 | with cover on, whichever way `getSafeCoord` resolves, a panel no larger than the boundary lies inside it along that axis |
| Positioning.Positioner.constructor | hooks/usePositioning.ts:117-135 | nothing measured; data at the origin, requested placement, not positioned, no arrow data, arrow allowed |
| Positioning.Positioner.MeasureAnchor | hooks/usePositioning.ts:219-226 | stores the anchor rectangle, nothing else changes |
| Positioning.Positioner.MeasureTarget | hooks/usePositioning.ts:228-233 | stores the target size, nothing else changes |
| Positioning.Positioner.MeasureArrow | hooks/usePositioning.ts:235-240 | stores the arrow size, nothing else changes |
| Positioning.Positioner.Update | hooks/usePositioning.ts:137-203 | a no-op until anchor and target are measured; then the data is the layout of the snapshots, positioned and on the requested main axis |
| Portal.Put | utils/portal.tsx:88 | the portal is stored, replacing the entry under its id (same length) or appended after the others when the id is new; no other entry appears |
| Portal.PutInPlace | utils/portal.tsx:88 | an existing id is overwritten where it stands: the first entry under that id is replaced and every other entry keeps its value and position |
| Portal.PutLookup | utils/portal.tsx:88 | after storing, the portal's id yields the portal and every other id what it yielded before |
| Portal.PutKeepsIdsUnique | utils/portal.tsx:88 | storing keeps portal ids unique |
| Portal.Delete | utils/portal.tsx:102 | exactly the entries under other ids remain; an absent id changes nothing |
| Portal.DeleteAppend | utils/portal.tsx:102 | deletion distributes over concatenation, so the remaining portals keep their registry order |
| Portal.DeleteLookup | utils/portal.tsx:102 | after deleting, the id yields nothing and every other id what it yielded before |
| Portal.DeleteKeepsIdsUnique | utils/portal.tsx:102 | deleting keeps portal ids unique |
| Portal.PutThenDelete | utils/portal.tsx:85-111 | adding a portal under a fresh id and removing it restores the portal list, order included |
| Portal.InContainer | utils/portal.tsx:62-64 | exactly the portals whose `containerId` is the container, none added |
| Portal.InContainerAppend | utils/portal.tsx:62-64 | the filter distributes over concatenation, so a container is handed its portals in registry order, the order `PortalContainer` renders them in |
| Portal.Broadcast | utils/portal.tsx:60-66 | one delivery per callback, in order, each carrying the same list |
| Portal.AddSubscriber | utils/portal.tsx:124-128 | the callback joins the container's set (created on first use) and goes last when new, a present one keeping its place; other containers keep theirs; the set stays duplicate-free |
| Portal.RemoveSubscriber | utils/portal.tsx:113-122 | the callback leaves the container's set if there is one and the remaining callbacks keep their order; no key is added or removed; others unchanged |
| Portal.SubscribeThenUnsubscribe | utils/portal.tsx:113-135 | the returned unsubscribe undoes the subscription exactly (an empty set remains for a container that had none) |
| Portal.PortalProvider.constructor | utils/portal.tsx:47-51 | three empty maps |
| Portal.PortalProvider.NotifySubscribers | utils/portal.tsx:57-68 | each subscriber of the container, in order, receives exactly that container's portals; nothing else changes |
| Portal.PortalProvider.AddContainer | utils/portal.tsx:70-76 | fails with the duplicate-id error iff the id is mounted; otherwise exactly that id is added |
| Portal.PortalProvider.RemoveContainer | utils/portal.tsx:78-83 | only the id leaves the container set; portals and subscribers stay |
| Portal.PortalProvider.AddPortal | utils/portal.tsx:85-97 | fails with the missing-container error iff the container is not mounted; otherwise stores the portal by id and notifies the container |
| Portal.PortalProvider.RemovePortal | utils/portal.tsx:99-111 | with the container mounted deletes the portal and notifies; otherwise only the warning, state unchanged |
| Portal.PortalProvider.Subscribe | utils/portal.tsx:124-135 | adds the callback to the container's set and returns the handle that unsubscribes it |
| Portal.PortalProvider.Unsubscribe | utils/portal.tsx:113-122 | removes exactly that callback from that container's set |
| DropdownMenu.ActiveFor | components/ui/DropdownMenu.tsx:143-157 | a sub-menu is shown iff the history's top id is non-empty and registered, and it is the one registered under it |
| DropdownMenu.Pop | components/ui/DropdownMenu.tsx:144 | removes the top entry; an empty history stays empty |
| DropdownMenu.PushThenPop | components/ui/DropdownMenu.tsx:135-157 | opening and going back restores the history and what it shows |
| DropdownMenu.SubMenuNavigator.constructor | components/ui/DropdownMenu.tsx:121-123 | no sub-menus, empty history, root menu shown |
| DropdownMenu.SubMenuNavigator.AddSubMenu | components/ui/DropdownMenu.tsx:131-133 | registers or overwrites under the id, nothing else; ids in the history stay registered |
| DropdownMenu.SubMenuNavigator.OnSubMenuTriggerPress | components/ui/DropdownMenu.tsx:135-141 | a registered id is pushed and its sub-menu shown; an unregistered id changes nothing |
| DropdownMenu.SubMenuNavigator.OnSubMenuBackPress | components/ui/DropdownMenu.tsx:143-157 | pops one entry (none when empty) and shows what the new top designates |
| DropdownMenu.TriggerThenBack | components/ui/DropdownMenu.tsx:135-157 | a registered trigger press then a back press leave the history as it was |
| DropdownMenu.ItemClosesAsWritten | components/ui/DropdownMenu.tsx:485-491 | as written: a radio item always closes the menu; menu and checkbox items (lines 268-276, 364-372) close unless `closeOnPress` is false |
| DropdownMenu.ItemCloses | components/ui/DropdownMenu.tsx:268-276 | an item closes the menu iff `closeOnPress` is not false (default true) |
| DropdownMenu.RadioItemIgnoresCloseOnPress | components/ui/DropdownMenu.tsx:485-491 | menu and checkbox items close iff `closeOnPress`; a radio item always closes, also with `closeOnPress={false}` |
| DropdownMenu.PressEffects | components/ui/DropdownMenu.tsx:364-372 | the own handler runs iff given; close happens iff the item closes and comes last |
| DropdownMenu.PressItem | components/ui/DropdownMenu.tsx:268-276 | reports `false` to the popup exactly when the item closes; otherwise the popup state is untouched |
| ControllableState.Resolve | hooks/useControllableState.ts:23-26 | a plain value is used as is; an updater is applied to the current value |
| ControllableState.ControllableState.constructor | hooks/useControllableState.ts:14-19 | the internal value starts at `defaultValue`; nothing reported |
| ControllableState.ControllableState.SetControlledValue | hooks/useControllableState.ts:17-19 | a new `controlledValue` prop replaces the old one; internal value and reports unchanged |
| ControllableState.ControllableState.IsControlled | hooks/useControllableState.ts:17 | the state is controlled exactly when the `controlledValue` prop is defined |
| ControllableState.ControllableState.Value | hooks/useControllableState.ts:19 | the exposed value is the prop when controlled, else the internal state |
| ControllableState.ControllableState.SetValue | hooks/useControllableState.ts:21-39 | the resolved value is always reported; the internal value takes it only when uncontrolled, so a controlled value waits for the parent |
| Popup.NewPopup | components/ui/Popup.tsx:62-66 | `open` is the prop when defined, else `defaultOpen` |
| Popup.OnOpen | components/ui/Popup.tsx:72-74 | reports `true`; an uncontrolled popup opens |
| Popup.OnClose | components/ui/Popup.tsx:76-87 | reports `false`; an uncontrolled popup closes |
| Popup.TriggerPress | components/ui/Popup.tsx:132-142 | reports the negation of `open`; an uncontrolled popup toggles, a controlled one keeps its internal state and waits for its parent |
| Popup.OverlayPress | components/ui/Popup.tsx:230-236 | with `closeOnPressOutside` reports `false` and an uncontrolled popup closes; otherwise nothing changes |
| Popup.HardwareBackPressAsWritten | components/ui/Popup.tsx:354-360 | the handler as written reports `false` and closes an uncontrolled popup whatever `closeOnBackPress` says |
| Popup.BackPressIgnoresFlag | components/ui/Popup.tsx:354-360 | a counterexample: an open uncontrolled popup with `closeOnBackPress` off is closed by a back press |
| Popup.HardwareBackPress | components/ui/Popup.tsx:354-360 | the corrected handler: with `closeOnBackPress` it reports `false` and an uncontrolled popup closes; without it nothing changes |
| Popup.GetTransformOrigin | components/ui/Popup.tsx:516-559 | the table from the twelve placement literals to origins, `center center` for anything else |
| Popup.TransformOriginByComponents | components/ui/Popup.tsx:516-559 | for each placement the origin is its horizontal component (edge facing a left/right anchor, else the alignment's edge) and its vertical one likewise; the `center center` default is never reached |
| Accordion.Expanded | components/ui/Accordion.tsx:226-229 | the trigger's `expanded`: equality with the root value in single mode; list membership in multiple mode, substring search when the root is a string |
| Accordion.PressedValue | components/ui/Accordion.tsx:255-263 | single: `''` when expanded, else the item; multiple: the list with every occurrence removed when expanded, the spread value plus the item otherwise; it throws exactly in multiple mode on an expanded item of a string root; well-typed values never throw and keep their type |
| Accordion.CollapseKeepsOrder | components/ui/Accordion.tsx:257-263 | collapsing removes exactly the item and the other entries keep their order |
| Accordion.PressToggles | components/ui/Accordion.tsx:226-263 | whenever a press hands on a value, it flips the item's expanded state, in multiple mode and for non-empty item values in single mode |
| Accordion.EmptyItemStaysExpanded | components/ui/Accordion.tsx:255-256 | in single mode an item valued `''` is expanded before and after a press |
| Accordion.StringRootInMultipleMode | components/ui/Accordion.tsx:257-263 | with `type` left at its default (multiple, line 88) a string root throws on a contained item, and spreads into characters plus the item otherwise |
| Accordion.PressTwiceRestores | components/ui/Accordion.tsx:257-263 | in multiple mode two presses on a closed item restore the list |
| Sequences.RemoveAll | components/ui/Accordion.tsx:261 | the value is gone, exactly the other entries remain, uniqueness is kept |
| Sequences.RemoveAllAppend | components/ui/Accordion.tsx:261 | removal distributes over concatenation, so the remaining entries keep their order |
| Sequences.RemoveAllAbsent | components/ui/Accordion.tsx:261 | removing an absent value changes nothing |
| Sequences.AppendThenRemoveAll | components/ui/Accordion.tsx:257-263 | appending an absent value and removing it restores the list |
| Sequences.RemoveOnlyOccurrence | components/ui/Accordion.tsx:261 | removing a value that occurs once joins the parts before and after it, in order |
| Accordion.Press | components/ui/Accordion.tsx:251-254 | a disabled trigger is ignored, an enabled one yields the pressed outcome |
| Accordion.TriggerPress | components/ui/Accordion.tsx:251-266 | disabled or throwing: nothing reported or stored, and a throw is signalled; otherwise the pressed value is reported, and stored when uncontrolled; a controlled root keeps its internal state |
| Accordion.ItemDisabled | components/ui/Accordion.tsx:167 | root prop if given, else the item prop, else false |
| Accordion.TriggerDisabled | components/ui/Accordion.tsx:231 | item flag if given, else root, else the trigger prop, else false |
| Accordion.TriggerFollowsItem | components/ui/Accordion.tsx:231 | inside an item the trigger's own prop never takes effect; a root `false` overrides an item `true` |
| Accordion.ContentDisagreesWithTrigger | components/ui/Accordion.tsx:338 | with root value "10" in single mode the content of item "1" is shown while its trigger reports it collapsed |
| Accordion.ContentExpandedAsWritten | components/ui/Accordion.tsx:338 | the content's check as written: `includes` on the root value, substring search on a string and membership on a list, whatever the mode |
| Accordion.ContentExpanded | components/ui/Accordion.tsx:338 | content is shown iff the trigger reports the item expanded: equality in single mode, membership in multiple mode |
| Accordion.ContentFollowsPress | components/ui/Accordion.tsx:338 | with the corrected check a press shows or hides the item's own content, and single mode shows at most one item |
| Accordion.ContentAsWrittenVersusTrigger | components/ui/Accordion.tsx:338 | the as-written check agrees with the trigger in multiple mode and shows at least what the trigger calls expanded |
| GroupLayout.ToArray | components/ui/ButtonGroup.tsx:81 | a single node becomes a one-element list; a list is kept |
| GroupLayout.PositionOf | components/ui/ButtonGroup.tsx:101-109 | single iff one child; first iff index 0 of several; last iff the final index of several; middle iff strictly between |
| GroupLayout.SeparatorAfterAllButLast | components/ui/ButtonGroup.tsx:113 | a child is followed by a separator iff it is not the last |
| GroupLayout.Positions | components/List.tsx:45-53 | one position per child: a lone child is single; otherwise the first is first, the last is last and every child between them is middle |
| GroupLayout.RenderSpec | components/ui/ButtonGroup.tsx:101-127 | n children render 2n - 1 slots: child i with its position at slot 2i, a separator at every odd slot, n - 1 separators, children recovered in order, the last slot a child |
| ButtonGroup.SeparatorFor | components/ui/ButtonGroup.tsx:113-124 | a pixel separator perpendicular to the group; neutral when disabled, else the group colour; step A1 iff solid or soft, else 8 |
| ButtonGroup.Render | components/ui/ButtonGroup.tsx:63-127 | with the defaults applied, children in order with their positions and one separator between each pair, the last slot a child |
| ListGroup.Render | components/List.tsx:40-66 | children in order with their positions, a neutral horizontal hairline between each pair and none after the last |

## Left out

- Measurement and platform input: the modelled operations take these as
  parameters (rectangles, the boundary, booleans):
  - the `measure` callbacks;
  - the screen dimensions and safe-area insets;
  - whether the arrow ref is attached.
- Floating point: the geometry is over exact reals. Rounding of JavaScript
  numbers is not modelled.
- Hardware back registration and focus: registering the `BackHandler`
  listener and moving accessibility focus back to the trigger in `onClose`
  (`findNodeHandle`, `AccessibilityInfo`) are platform calls. They are not
  modelled.
- Callback bodies: subscriber callbacks, `onControlledChange`, `onValueChange`
  and the components' own `onPress` props run code outside this model. Only
  the values handed to them are recorded, and their order relative to the
  close call in menu items.
- React itself: rendering, element keys, context providers, `useId`, effect
  scheduling and the batching of state setters.
  - The registry and navigator operations are modelled as direct updates.
  - The `Portal` and `PortalContainer` components that call them from
    effects are not modelled.
  - Separator and item rendering is reduced to the props the groups pass.
- Styles, animations and layout transitions: declarative data with no
  behaviour to prove.
- `utils/slot.tsx` is not part of this model. It clones React elements,
  which has meaning only in React's element model.
- The `Separator` component's own defaults (its colour step when none is
  passed) are not part of this model.
- ControllableState.ControllableState.SetValue: resolves an updater against the
  exposed value at the time of the call. The source uses the value captured at
  the last render, which differs when two updates happen before a re-render.
- The `PopupPortal` gate (`components/ui/Popup.tsx:205`) renders the portal
  exactly while the open flag is true. It adds nothing beyond
  `ControllableState.ControllableState.Value`, so it has no member of its own.
- Accordion.TriggerPress: the `TypeError` is reported as a flag. Its
  propagation to the caller and the skipped `onPress` prop are not modelled.

## Findings

| source | as written | input that shows it | evidently intended | confidence | as-written member | corrected member |
|---|---|---|---|---|---|---|
| components/ui/Accordion.tsx:338 | `AccordionContent` tests `value.includes(itemValue)`; on the single-mode string value this is substring search | single mode, items "1" and "10", root value "10": the content of "1" is shown while its trigger (equality, lines 226-229) reports it collapsed | the same test as the trigger: equality in single mode, list membership in multiple mode | high, not executed | Accordion.ContentDisagreesWithTrigger | Accordion.ContentExpanded |
| components/ui/Popup.tsx:354-360 | the hardware back listener calls `onClose` unconditionally; `closeOnBackPress` (default true, line 60) appears only in the effect's dependency list | `closeOnBackPress={false}` and a hardware back press: the popup closes | close only when `closeOnBackPress` is set | high, not executed | Popup.BackPressIgnoresFlag | Popup.HardwareBackPress |
| components/ui/DropdownMenu.tsx:485-491 | the radio item declares `closeOnPress` (type at line 460, default true at line 472) but its `onPress` always calls `onClose` | a radio item with `closeOnPress={false}`: pressing it closes the menu | close only when `closeOnPress` is set, as menu and checkbox items do (lines 268-276, 364-372) | medium, not executed | DropdownMenu.RadioItemIgnoresCloseOnPress | DropdownMenu.ItemCloses |
