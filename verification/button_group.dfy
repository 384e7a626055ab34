/**
 * `ButtonGroup`: its children in a row or column, each told its position,
 * with a one-pixel separator after every child but the last.
 */
module ButtonGroup {
  import opened Wrappers
  import opened GroupLayout

  /** The `variant` prop, shared with `Button`. */
  datatype Variant = Solid | Soft | Outline | Ghost | Text

  /** The props of the separator between two buttons: one pixel wide,
      perpendicular to the group, neutral while the group is disabled and
      otherwise in the group's colour, at step A1 over filled variants and
      step 8 over the others. */
  function SeparatorFor(disabled: bool, color: Color, variant: Variant, orientation: Orientation): (r: SeparatorProps)
    ensures r.kind == Pixel
    ensures r.orientation != orientation
    ensures disabled ==> r.color == Neutral
    ensures !disabled ==> r.color == color
    ensures r.colorStep == Some(A1) <==> variant == Solid || variant == Soft
    ensures r.colorStep.Some?
  {
    SeparatorProps(
      Pixel,
      if disabled then Neutral else color,
      Some(if variant == Solid || variant == Soft then A1 else Step8),
      if orientation == Horizontal then Vertical else Horizontal)
  }

  /** What a `ButtonGroup` renders, with the props' defaults (enabled,
      primary, solid, horizontal) applied. */
  function Render<C>(children: Children<C>, disabled: Option<bool>, color: Option<Color>,
                     variant: Option<Variant>, orientation: Option<Orientation>): (r: seq<Slot<C, SeparatorProps>>)
    ensures ChildrenOf(r) == ToArray(children)
    ensures SeparatorCount(r) == if ToArray(children) == [] then 0 else |ToArray(children)| - 1
    ensures |r| == if ToArray(children) == [] then 0 else 2 * |ToArray(children)| - 1
    ensures children.One? ==> r == [Child(children.node, Single)]
    ensures forall k :: 0 <= k < |r| ==>
      r[k] == (if k % 2 == 0 then Child(ToArray(children)[k / 2], PositionOf(k / 2, |ToArray(children)|))
               else Separator(SeparatorFor(disabled.GetOr(false), color.GetOr(Primary), variant.GetOr(Solid), orientation.GetOr(Horizontal))))
    ensures r != [] ==> r[|r| - 1].Child?
  {
    var nodes := ToArray(children);
    var sep := SeparatorFor(disabled.GetOr(false), color.GetOr(Primary), variant.GetOr(Solid), orientation.GetOr(Horizontal));
    RenderSpec(nodes, sep);
    GroupLayout.Render(nodes, sep)
  }
}
