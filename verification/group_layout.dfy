/**
 * The child layout shared by `ButtonGroup` and `ListGroup`: each child learns
 * its position in the group (single, first, middle, last), and a separator is
 * emitted after every child that is first or in the middle.
 */
module GroupLayout {
  import opened Wrappers

  datatype Position = First | Middle | Last | Single

  /** The `children` prop: an array, or a single node. */
  datatype Children<C> = Many(nodes: seq<C>) | One(node: C)

  /** One rendered slot: a child with the position it is given, or a
      separator with its props. */
  datatype Slot<C, S> = Child(child: C, position: Position) | Separator(props: S)

  datatype Orientation = Horizontal | Vertical
  datatype Color = Primary | Neutral | Red | Green
  datatype ColorStep = A1 | Step8
  datatype SeparatorType = Pixel | Hairline

  /** The props a group hands to each `Separator` it emits; `None` leaves
      the separator's own default. */
  datatype SeparatorProps = SeparatorProps(kind: SeparatorType, color: Color, colorStep: Option<ColorStep>, orientation: Orientation)

  /** `Array.isArray(children) ? children : [children]`. */
  function ToArray<C>(children: Children<C>): (r: seq<C>)
    ensures children.One? ==> |r| == 1 && r[0] == children.node
    ensures children.Many? ==> r == children.nodes
  {
    match children
    case Many(nodes) => nodes
    case One(node) => [node]
  }

  /** The position of the child at `index` among `count` children. */
  function PositionOf(index: nat, count: nat): (p: Position)
    requires index < count
    ensures p == Single <==> count == 1
    ensures p == First <==> count > 1 && index == 0
    ensures p == Last <==> count > 1 && index == count - 1
    ensures p == Middle <==> 0 < index < count - 1
  {
    if count == 1 then Single
    else if index == 0 then First
    else if index == count - 1 then Last
    else Middle
  }

  /** Children in these positions are followed by a separator. */
  predicate HasSeparator(p: Position) {
    p == First || p == Middle
  }

  /** Exactly the children before the last one are followed by a separator. */
  lemma SeparatorAfterAllButLast(index: nat, count: nat)
    requires index < count
    ensures HasSeparator(PositionOf(index, count)) <==> index < count - 1
  {
  }

  /** The positions the children see, in order: a lone child is `Single`;
      otherwise the first is `First`, the last `Last` and every other one
      `Middle`. */
  function Positions(count: nat): (r: seq<Position>)
    ensures |r| == count
    ensures count == 1 ==> r == [Single]
    ensures count >= 2 ==> r[0] == First && r[count - 1] == Last
    ensures count >= 2 ==> forall i :: 0 < i < count - 1 ==> r[i] == Middle
  {
    seq(count, i requires 0 <= i < count => PositionOf(i, count))
  }

  /** The slots the child at `index` renders: itself, then perhaps a separator. */
  function ChildSlots<C, S>(children: seq<C>, sep: S, index: nat): seq<Slot<C, S>>
    requires index < |children|
  {
    [Child(children[index], PositionOf(index, |children|))] + if HasSeparator(PositionOf(index, |children|)) then [Separator(sep)] else []
  }

  /** The `map` over the children from `index` on, flattened. */
  function RenderFrom<C, S>(children: seq<C>, sep: S, index: nat): seq<Slot<C, S>>
    requires index <= |children|
    decreases |children| - index
  {
    if index == |children| then []
    else ChildSlots(children, sep, index) + RenderFrom(children, sep, index + 1)
  }

  /** Everything a group renders. */
  function Render<C, S>(children: seq<C>, sep: S): seq<Slot<C, S>> {
    RenderFrom(children, sep, 0)
  }

  /** The rendered slots alternate child, separator, child, ..., ending with
      the last child: even slots hold the children in order, odd slots the
      separators. */
  lemma {:induction false} RenderFromShape<C, S>(children: seq<C>, sep: S, index: nat)
    requires index < |children|
    ensures |RenderFrom(children, sep, index)| == 2 * (|children| - index) - 1
    ensures forall k :: 0 <= k < |RenderFrom(children, sep, index)| ==>
      RenderFrom(children, sep, index)[k] ==
        if k % 2 == 0 then Child(children[index + k / 2], PositionOf(index + k / 2, |children|)) else Separator(sep)
    decreases |children| - index
  {
    var n := |children|;
    var r := RenderFrom(children, sep, index);
    SeparatorAfterAllButLast(index, n);
    if index == n - 1 {
      assert RenderFrom(children, sep, index + 1) == [];
      assert r == [Child(children[index], PositionOf(index, n))];
    } else {
      RenderFromShape(children, sep, index + 1);
      var rest := RenderFrom(children, sep, index + 1);
      assert r == [Child(children[index], PositionOf(index, n)), Separator(sep)] + rest;
      forall k | 0 <= k < |r|
        ensures r[k] == if k % 2 == 0 then Child(children[index + k / 2], PositionOf(index + k / 2, n)) else Separator(sep)
      {
        if k >= 2 {
          assert r[k] == rest[k - 2];
          assert (k - 2) % 2 == k % 2 && index + 1 + (k - 2) / 2 == index + k / 2;
        }
      }
    }
  }

  /** The number of separator slots. */
  function SeparatorCount<C, S>(slots: seq<Slot<C, S>>): nat {
    if slots == [] then 0
    else (if slots[0].Separator? then 1 else 0) + SeparatorCount(slots[1..])
  }

  /** The children, with the separators taken out. */
  function ChildrenOf<C, S>(slots: seq<Slot<C, S>>): seq<C> {
    if slots == [] then []
    else (if slots[0].Child? then [slots[0].child] else []) + ChildrenOf(slots[1..])
  }

  lemma {:induction false} CountsAppend<C, S>(a: seq<Slot<C, S>>, b: seq<Slot<C, S>>)
    ensures SeparatorCount(a + b) == SeparatorCount(a) + SeparatorCount(b)
    ensures ChildrenOf(a + b) == ChildrenOf(a) + ChildrenOf(b)
  {
    if a == [] {
      assert a + b == b;
    } else {
      assert (a + b)[1..] == a[1..] + b;
      CountsAppend(a[1..], b);
    }
  }

  lemma {:induction false} RenderFromCounts<C, S>(children: seq<C>, sep: S, index: nat)
    requires index <= |children|
    ensures ChildrenOf(RenderFrom(children, sep, index)) == children[index..]
    ensures SeparatorCount(RenderFrom(children, sep, index)) == if index == |children| then 0 else |children| - index - 1
    decreases |children| - index
  {
    if index < |children| {
      var head := ChildSlots(children, sep, index);
      SeparatorAfterAllButLast(index, |children|);
      RenderFromCounts(children, sep, index + 1);
      CountsAppend(head, RenderFrom(children, sep, index + 1));
      assert ChildrenOf(head) == [children[index]] by {
        assert head[1..] == [] || head[1..] == [Separator(sep)];
      }
      assert SeparatorCount(head) == if index < |children| - 1 then 1 else 0 by {
        assert head[1..] == [] || head[1..] == [Separator(sep)];
      }
      assert children[index..] == [children[index]] + children[index + 1..];
    }
  }

  /** A group of n children renders every child once, in order, and n - 1
      separators (none for a single child or no children); slot 2i is child
      i with its position and slot 2i + 1 the separator after it, so the last
      slot is the last child, never a separator. */
  lemma RenderSpec<C, S>(children: seq<C>, sep: S)
    ensures ChildrenOf(Render(children, sep)) == children
    ensures SeparatorCount(Render(children, sep)) == if children == [] then 0 else |children| - 1
    ensures |Render(children, sep)| == if children == [] then 0 else 2 * |children| - 1
    ensures forall k :: 0 <= k < |Render(children, sep)| ==>
      Render(children, sep)[k] == if k % 2 == 0 then Child(children[k / 2], PositionOf(k / 2, |children|)) else Separator(sep)
    ensures children != [] ==> Render(children, sep)[|Render(children, sep)| - 1] == Child(children[|children| - 1], PositionOf(|children| - 1, |children|))
  {
    RenderFromCounts(children, sep, 0);
    if children != [] {
      RenderFromShape(children, sep, 0);
      assert (2 * |children| - 2) % 2 == 0;
    }
  }
}
