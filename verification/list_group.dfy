/**
 * `ListGroup`: its children stacked, each followed by a neutral horizontal
 * hairline except the last one.
 */
module ListGroup {
  import opened Wrappers
  import opened GroupLayout

  /** The separator between two list items. */
  const ItemSeparator: SeparatorProps := SeparatorProps(Hairline, Neutral, None, Horizontal)

  /** What a `ListGroup` renders. */
  function Render<C>(children: Children<C>): (r: seq<Slot<C, SeparatorProps>>)
    ensures ChildrenOf(r) == ToArray(children)
    ensures SeparatorCount(r) == if ToArray(children) == [] then 0 else |ToArray(children)| - 1
    ensures |r| == if ToArray(children) == [] then 0 else 2 * |ToArray(children)| - 1
    ensures children.One? ==> r == [Child(children.node, Single)]
    ensures forall k :: 0 <= k < |r| ==>
      r[k] == (if k % 2 == 0 then Child(ToArray(children)[k / 2], PositionOf(k / 2, |ToArray(children)|))
               else Separator(ItemSeparator))
    ensures r != [] ==> r[|r| - 1].Child?
  {
    var nodes := ToArray(children);
    RenderSpec(nodes, ItemSeparator);
    GroupLayout.Render(nodes, ItemSeparator)
  }
}
