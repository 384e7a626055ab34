/**
 * `Accordion`: which items are expanded, what a trigger press hands to the
 * root's value setter, and how the `disabled` props of root, item and
 * trigger take precedence over each other.
 */
module Accordion {
  import opened Wrappers
  import CS = ControllableState
  import opened Sequences

  datatype AccordionType = Single | Multiple

  /** The root value: a string in single mode, a list of item values in
      multiple mode (the default value is the empty list in both). */
  datatype AccordionValue = Text(text: string) | Items(items: seq<string>)

  /** The values the prop types admit: a list in multiple mode; a string, or
      the default empty list, in single mode. `type` itself defaults to
      multiple, so a string `value` given without `type` type-checks and runs
      in multiple mode, outside this predicate. */
  predicate WellTyped(kind: AccordionType, value: AccordionValue) {
    if kind == Multiple then value.Items? else value.Text? || value == Items([])
  }

  /** JavaScript's `String.prototype.includes`: `sub` occurs in `s`. */
  predicate Contains(s: string, sub: string)
    decreases |s|
  {
    (|sub| <= |s| && s[..|sub|] == sub) || (|s| > 0 && Contains(s[1..], sub))
  }

  /** `AccordionTrigger`'s `expanded`: equality in single mode, list
      membership in multiple mode (a string there is searched with `includes`). */
  predicate Expanded(kind: AccordionType, value: AccordionValue, item: string) {
    match kind
    case Single => value == Text(item)
    case Multiple =>
      match value
      case Items(items) => item in items
      case Text(s) => Contains(s, item)
  }

  /** The spread `[...value]`: a list is copied, a string is split into its
      characters. */
  function Spread(value: AccordionValue): (r: seq<string>)
    ensures value.Items? ==> r == value.items
    ensures value.Text? ==> |r| == |value.text| && forall i :: 0 <= i < |r| ==> r[i] == [value.text[i]]
  {
    match value
    case Items(items) => items
    case Text(s) => seq(|s|, i requires 0 <= i < |s| => [s[i]])
  }

  /** What a trigger press amounts to: ignored (disabled), a new value handed
      to `onValueChange`, or a `TypeError` thrown before anything is handed on
      (a string has no `filter`). */
  datatype PressOutcome = Ignored | Changed(value: AccordionValue) | Throws

  /** The value `AccordionTrigger`'s press hands to `onValueChange`. */
  function PressedValue(kind: AccordionType, value: AccordionValue, item: string): (r: PressOutcome)
    ensures !r.Ignored?
    // collapsing in multiple mode filters the list; a string root has no `filter`
    ensures r.Throws? <==> kind == Multiple && value.Text? && Expanded(kind, value, item)
    ensures WellTyped(kind, value) ==> r.Changed? && WellTyped(kind, r.value)
    ensures kind == Single ==> r == Changed(Text(if Expanded(kind, value, item) then "" else item))
    ensures kind == Multiple && value.Items? && Expanded(kind, value, item) ==>
      r == Changed(Items(RemoveAll(value.items, item)))
    ensures kind == Multiple && !Expanded(kind, value, item) ==> r == Changed(Items(Spread(value) + [item]))
  {
    if kind == Single then
      Changed(Text(if Expanded(kind, value, item) then "" else item))
    else if Expanded(kind, value, item) then
      if value.Text? then Throws else Changed(Items(RemoveAll(value.items, item)))
    else
      Changed(Items(Spread(value) + [item]))
  }

  /** Collapsing an item in multiple mode takes exactly that item out of the
      list; the others keep their order. */
  lemma {:induction false} CollapseKeepsOrder(before: seq<string>, after: seq<string>, item: string)
    requires item !in before && item !in after
    ensures PressedValue(Multiple, Items(before + [item] + after), item) == Changed(Items(before + after))
  {
    var list := before + [item] + after;
    assert list[|before|] == item;
    RemoveOnlyOccurrence(before, item, after);
  }

  /** Whenever a press hands on a value, it flips the item's expanded state,
      except in single mode for an item whose value is the empty string
      (collapsing writes `''`, which is that item's value again). */
  lemma PressToggles(kind: AccordionType, value: AccordionValue, item: string)
    requires kind == Multiple || item != ""
    ensures var r := PressedValue(kind, value, item);
            r.Changed? ==> Expanded(kind, r.value, item) == !Expanded(kind, value, item)
  {
  }

  /** The single-mode exception: an item valued `''` never collapses. */
  lemma EmptyItemStaysExpanded()
    ensures Expanded(Single, Text(""), "")
    ensures PressedValue(Single, Text(""), "") == Changed(Text(""))
  {
  }

  /** A string root in multiple mode (a string `value` without `type`): a
      press on an item it contains throws, one on another item turns the root
      into the list of its characters plus the item. */
  lemma StringRootInMultipleMode()
    ensures PressedValue(Multiple, Text("ab"), "a") == Throws
    ensures PressedValue(Multiple, Text("ab"), "c") == Changed(Items(["a", "b", "c"]))
  {
    assert Text("ab").text[..1] == "a";
    assert !Contains("ab", "c") by {
      assert "ab"[1..] == "b" && "b"[1..] == "";
      assert !Contains("", "c");
      assert "b"[..1] == "b" && "b"[0] != "c"[0];
      assert !Contains("b", "c");
      assert "ab"[..1] == "a" && "ab"[0] != "c"[0];
    }
    assert !Expanded(Multiple, Text("ab"), "c");
    assert Spread(Text("ab")) == ["a", "b"];
    assert ["a", "b"] + ["c"] == ["a", "b", "c"];
  }

  /** In multiple mode two presses on a closed item give back the original
      list, whatever the other entries are. */
  lemma PressTwiceRestores(value: AccordionValue, item: string)
    requires value.Items? && item !in value.items
    ensures var once := PressedValue(Multiple, value, item);
            once.Changed? && PressedValue(Multiple, once.value, item) == Changed(value)
  {
    var once := PressedValue(Multiple, value, item);
    assert once == Changed(Items(value.items + [item]));
    assert Expanded(Multiple, once.value, item);
    AppendThenRemoveAll(value.items, item);
  }

  /** What a trigger press does: nothing when disabled, otherwise what
      `PressedValue` says. */
  function Press(disabled: bool, kind: AccordionType, value: AccordionValue, item: string): (r: PressOutcome)
    ensures disabled <==> r.Ignored?
    ensures !disabled ==> r == PressedValue(kind, value, item)
  {
    if disabled then Ignored else PressedValue(kind, value, item)
  }

  /** `AccordionTrigger`'s press against the root's controllable value;
      `thrown` reports the `TypeError`, after which nothing is handed on. */
  method TriggerPress(root: CS.ControllableState<AccordionValue>, kind: AccordionType, item: string, disabled: bool)
    returns (thrown: bool)
    modifies root
    ensures thrown <==> Press(disabled, kind, old(root.Value()), item).Throws?
    ensures root.controlledValue == old(root.controlledValue)
    ensures !Press(disabled, kind, old(root.Value()), item).Changed? ==>
      root.notified == old(root.notified) && root.uncontrolledValue == old(root.uncontrolledValue)
    ensures Press(disabled, kind, old(root.Value()), item).Changed? ==>
      root.notified == old(root.notified) + [Press(disabled, kind, old(root.Value()), item).value]
    ensures Press(disabled, kind, old(root.Value()), item).Changed? && !root.IsControlled() ==>
      root.Value() == Press(disabled, kind, old(root.Value()), item).value
    ensures root.IsControlled() ==> root.uncontrolledValue == old(root.uncontrolledValue)
  {
    var outcome := Press(disabled, kind, root.Value(), item);
    thrown := outcome.Throws?;
    if outcome.Changed? {
      root.SetValue(CS.Plain(outcome.value));
    }
  }

  /** `AccordionItem`'s disabled flag: the root's prop if given, else the
      item's, else false. */
  function ItemDisabled(rootDisabled: Option<bool>, itemProp: Option<bool>): (d: bool)
    ensures rootDisabled.Some? ==> d == rootDisabled.value
    ensures rootDisabled.None? && itemProp.Some? ==> d == itemProp.value
    ensures rootDisabled.None? && itemProp.None? ==> !d
  {
    rootDisabled.GetOr(itemProp.GetOr(false))
  }

  /** `AccordionTrigger`'s disabled flag: item, else root, else the
      trigger's own prop, else false. */
  function TriggerDisabled(itemDisabled: Option<bool>, rootDisabled: Option<bool>, triggerProp: Option<bool>): (d: bool)
    ensures itemDisabled.Some? ==> d == itemDisabled.value
    ensures itemDisabled.None? && rootDisabled.Some? ==> d == rootDisabled.value
    ensures itemDisabled.None? && rootDisabled.None? && triggerProp.Some? ==> d == triggerProp.value
    ensures itemDisabled.None? && rootDisabled.None? && triggerProp.None? ==> !d
  {
    itemDisabled.GetOr(rootDisabled.GetOr(triggerProp.GetOr(false)))
  }

  /** The item always provides a boolean, so a trigger inside an item follows
      the item's flag and its own `disabled` prop never takes effect; a root
      that says `false` also overrides an item that says `true`. */
  lemma TriggerFollowsItem(rootDisabled: Option<bool>, itemProp: Option<bool>, triggerProp: Option<bool>)
    ensures TriggerDisabled(Some(ItemDisabled(rootDisabled, itemProp)), rootDisabled, triggerProp)
         == ItemDisabled(rootDisabled, itemProp)
    ensures !ItemDisabled(Some(false), Some(true))
  {
  }

  /** `AccordionContent`'s `expanded`, as written: `value.includes(itemValue)`,
      which in single mode is substring search on the root string. */
  predicate ContentExpandedAsWritten(value: AccordionValue, item: string) {
    match value
    case Text(s) => Contains(s, item)
    case Items(items) => item in items
  }

  /** Items valued "1" and "10" in single mode: with "10" open, the content of
      "1" is shown while its trigger reports it collapsed. */
  lemma ContentDisagreesWithTrigger()
    ensures ContentExpandedAsWritten(Text("10"), "1")
    ensures !Expanded(Single, Text("10"), "1")
  {
    assert Text("10").text[..1] == "1";
  }

  /** The evidently intended content check: in single mode the content is
      shown only for the item whose value equals the root value, in multiple
      mode for the items in the list, exactly as the trigger reports. */
  function ContentExpanded(kind: AccordionType, value: AccordionValue, item: string): (shown: bool)
    ensures kind == Single ==> (shown <==> value == Text(item))
    ensures kind == Multiple && value.Items? ==> (shown <==> item in value.items)
    ensures shown <==> Expanded(kind, value, item)
  {
    match kind
    case Single => value == Text(item)
    case Multiple => ContentExpandedAsWritten(value, item)
  }

  /** With the corrected check, at most one item's content is shown in single
      mode, and a trigger press shows or hides the content of its own item. */
  lemma ContentFollowsPress(kind: AccordionType, value: AccordionValue, item: string, other: string)
    requires kind == Multiple || item != ""
    ensures var r := PressedValue(kind, value, item);
            r.Changed? ==> ContentExpanded(kind, r.value, item) == !ContentExpanded(kind, value, item)
    ensures kind == Single && item != other ==> !(ContentExpanded(kind, value, item) && ContentExpanded(kind, value, other))
  {
    PressToggles(kind, value, item);
  }

  /** The as-written check agrees with the trigger in multiple mode, and in
      single mode it shows at least every item the trigger calls expanded. */
  lemma {:induction false} ContentAsWrittenVersusTrigger(kind: AccordionType, value: AccordionValue, item: string)
    ensures kind == Multiple ==> (ContentExpandedAsWritten(value, item) <==> ContentExpanded(kind, value, item))
    ensures ContentExpanded(kind, value, item) ==> ContentExpandedAsWritten(value, item)
  {
    if kind == Single && value == Text(item) {
      assert value.text[..|item|] == item;
    }
  }
}
