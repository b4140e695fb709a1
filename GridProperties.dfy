/** What the branch order of the constraint closure means, per item and for a
    whole reload. */
module GridProperties {
  import opened GridLayout

  /** The first item gets exactly three relationships: top and left tied to
      the container and the high-priority fractional width. It gets no size
      equality, no bottom and no right relationship, whatever the item count,
      so a grid of one item is never pinned to the container's bottom. */
  lemma FirstItemConstraints(columnCount: int, itemCount: int)
    requires columnCount != 0
    ensures var cs := MakeConstraints(0, columnCount, itemCount, None);
      && |cs| == 3
      && EdgeEqual(Top, Superview(Top), NoOffset) in cs
      && EdgeEqual(Left, Superview(Left), NoOffset) in cs
      && WidthFraction(columnCount, MinusHalfHorizontalSpacing, High) in cs
      && !Constrains(cs, Bottom) && !Constrains(cs, Right)
      && (forall v :: SizeEqual(v) !in cs)
  {
  }

  /** An item placed after `prev` takes its size, never gets the fractional
      width, has its top and left tied exactly once each, is pinned to the
      container's bottom exactly when it is the last item, and to the
      container's right exactly when it is in a later row, in the last
      column, and that column is not column 0. */
  lemma FollowerConstraints(index: nat, columnCount: int, itemCount: int, prev: View)
    requires columnCount != 0
    ensures var cs := MakeConstraints(index, columnCount, itemCount, Some(prev));
      var cell := CellOf(index, columnCount);
      && SizeEqual(prev) in cs
      && !HasWidthFraction(cs)
      && Constrains(cs, Top) && Constrains(cs, Left)
      && (Constrains(cs, Bottom) <==> index == itemCount - 1)
      && (index == itemCount - 1 ==> EdgeEqual(Bottom, Superview(Bottom), NoOffset) in cs)
      && (Constrains(cs, Right) <==> cell.row != 0 && cell.column != 0 && cell.column == columnCount - 1)
      && (Constrains(cs, Right) ==> EdgeEqual(Right, Superview(Right), NoOffset) in cs)
  {
    var cs := MakeConstraints(index, columnCount, itemCount, Some(prev));
    var cell := CellOf(index, columnCount);
    var b := if index == itemCount - 1 then 1 else 0;
    assert cs[0] == SizeEqual(prev);
    assert cs[b + 1].edge == Top && cs[b + 2].edge == Left;
    if index == itemCount - 1 {
      assert cs[1] == EdgeEqual(Bottom, Superview(Bottom), NoOffset);
    } else {
      forall k | 0 <= k < |cs| && cs[k].EdgeEqual? ensures cs[k].edge != Bottom { }
    }
    if cell.row != 0 && cell.column != 0 && cell.column == columnCount - 1 {
      assert cs[b + 3] == EdgeEqual(Right, Superview(Right), NoOffset);
    } else {
      forall k | 0 <= k < |cs| && cs[k].EdgeEqual? ensures cs[k].edge != Right { }
    }
  }

  /** Where an item after the first goes, by position class: first-row items
      sit at the container's top, right of their predecessor; row starts sit
      below their predecessor at the container's left; row ends and interior
      items sit level with and right of their predecessor, row ends also
      pinned to the container's right. */
  lemma FollowerPlacement(index: nat, columnCount: int, itemCount: int, prev: View)
    requires columnCount != 0 && index > 0
    ensures var cs := MakeConstraints(index, columnCount, itemCount, Some(prev));
      match PositionOf(index, columnCount)
      case FirstRow =>
        EdgeEqual(Top, Superview(Top), NoOffset) in cs
        && EdgeEqual(Left, Of(prev, Right), PlusHorizontalSpacing) in cs
      case RowStart =>
        EdgeEqual(Top, Of(prev, Bottom), PlusVerticalSpacing) in cs
        && EdgeEqual(Left, Superview(Left), NoOffset) in cs
      case RowEnd =>
        EdgeEqual(Top, Of(prev, Top), NoOffset) in cs
        && EdgeEqual(Left, Of(prev, Right), PlusHorizontalSpacing) in cs
        && EdgeEqual(Right, Superview(Right), NoOffset) in cs
      case Interior =>
        EdgeEqual(Top, Of(prev, Top), NoOffset) in cs
        && EdgeEqual(Left, Of(prev, Right), PlusHorizontalSpacing) in cs
      case FirstItem => false
  {
  }

  /** In a reloaded grid every relationship of item `i` mentions only the
      container and, for `i > 0`, item `i - 1`: the layout is a chain. */
  lemma ReloadIsChain(ds: DataSource, i: nat)
    requires WellFormed(ds) && i < ds.numberOfItems
    ensures var items := Reloaded(Some(ds));
      forall c | c in items[i].constraints ::
        RefersOnlyTo(c, if i == 0 then None else Some(items[i - 1].view))
  {
  }

  /** Item 0 of a reloaded grid has exactly its three first-item
      relationships; every later item has the size of the one before it. */
  lemma ReloadSizes(ds: DataSource)
    requires WellFormed(ds) && ds.numberOfItems > 0
    ensures var items := Reloaded(Some(ds));
      && |items[0].constraints| == 3
      && WidthFraction(ds.numberOfColumns, MinusHalfHorizontalSpacing, High) in items[0].constraints
      && forall i :: 0 < i < |items| ==> SizeEqual(items[i - 1].view) in items[i].constraints
  {
  }

  /** Indices of the items whose edge `e` is tied to something. */
  function ItemsConstraining(items: seq<Subview>, e: Edge): set<nat>
  {
    set i: nat | i < |items| && Constrains(items[i].constraints, e)
  }

  /** Indices of the items whose edge `e` is tied to the same edge of the
      container. */
  function ItemsPinnedTo(items: seq<Subview>, e: Edge): set<nat>
  {
    set i: nat | i < |items| && EdgeEqual(e, Superview(e), NoOffset) in items[i].constraints
  }

  /** Exactly one item is pinned to the container's bottom, the last one, and
      only when it is not also the first. */
  lemma BottomPinnedItems(ds: DataSource)
    requires WellFormed(ds)
    ensures var n := ds.numberOfItems;
      ItemsConstraining(Reloaded(Some(ds)), Bottom) == if n >= 2 then {n - 1} else {}
    ensures var n := ds.numberOfItems;
      ItemsPinnedTo(Reloaded(Some(ds)), Bottom) == if n >= 2 then {n - 1} else {}
  {
    var items := Reloaded(Some(ds));
    var n := ds.numberOfItems;
    forall i: nat | i < n
      ensures Constrains(items[i].constraints, Bottom) <==> i > 0 && i == n - 1
      ensures EdgeEqual(Bottom, Superview(Bottom), NoOffset) in items[i].constraints <==> i > 0 && i == n - 1
    {
      assert items[i] == ItemAt(ds, i);
      if i == 0 {
        FirstItemConstraints(ds.numberOfColumns, n);
      } else {
        FollowerConstraints(i, ds.numberOfColumns, n, ds.viewForItemAt(i - 1));
      }
    }
  }

  /** The items pinned to the container's right are exactly those in a later
      row whose column is the last one and is not column 0. */
  lemma RightPinnedItems(ds: DataSource)
    requires WellFormed(ds)
    ensures var cc := ds.numberOfColumns;
      ItemsConstraining(Reloaded(Some(ds)), Right) ==
        set i: nat | i < ds.numberOfItems && cc != 0
          && CellOf(i, cc).row != 0 && CellOf(i, cc).column != 0 && CellOf(i, cc).column == cc - 1
    ensures ItemsPinnedTo(Reloaded(Some(ds)), Right) == ItemsConstraining(Reloaded(Some(ds)), Right)
  {
    var items := Reloaded(Some(ds));
    var cc := ds.numberOfColumns;
    forall i: nat | i < ds.numberOfItems
      ensures Constrains(items[i].constraints, Right) <==>
        CellOf(i, cc).row != 0 && CellOf(i, cc).column != 0 && CellOf(i, cc).column == cc - 1
      ensures EdgeEqual(Right, Superview(Right), NoOffset) in items[i].constraints <==>
        Constrains(items[i].constraints, Right)
    {
      assert items[i] == ItemAt(ds, i);
      if i == 0 {
        FirstItemConstraints(cc, ds.numberOfItems);
      } else {
        FollowerConstraints(i, cc, ds.numberOfItems, ds.viewForItemAt(i - 1));
      }
    }
  }

  /** No first-row item, including one in the last column, is right-pinned;
      in a one-column grid no item is right-pinned at all. */
  lemma NoRightPinInFirstRowOrSingleColumn(ds: DataSource)
    requires WellFormed(ds)
    ensures var items := Reloaded(Some(ds));
      forall i :: 0 <= i < |items| && i < ds.numberOfColumns ==> !Constrains(items[i].constraints, Right)
    ensures ds.numberOfColumns == 1 ==> ItemsConstraining(Reloaded(Some(ds)), Right) == {}
  {
  }

  /** Every item after the first is placed relative to its predecessor as its
      position class says (see FollowerPlacement). */
  lemma ReloadPlacement(ds: DataSource, i: nat)
    requires WellFormed(ds) && 0 < i < ds.numberOfItems
    ensures var items := Reloaded(Some(ds));
      var cs := items[i].constraints;
      var prev := items[i - 1].view;
      match PositionOf(i, ds.numberOfColumns)
      case FirstRow =>
        EdgeEqual(Top, Superview(Top), NoOffset) in cs
        && EdgeEqual(Left, Of(prev, Right), PlusHorizontalSpacing) in cs
      case RowStart =>
        EdgeEqual(Top, Of(prev, Bottom), PlusVerticalSpacing) in cs
        && EdgeEqual(Left, Superview(Left), NoOffset) in cs
      case RowEnd =>
        EdgeEqual(Top, Of(prev, Top), NoOffset) in cs
        && EdgeEqual(Left, Of(prev, Right), PlusHorizontalSpacing) in cs
        && EdgeEqual(Right, Superview(Right), NoOffset) in cs
      case Interior =>
        EdgeEqual(Top, Of(prev, Top), NoOffset) in cs
        && EdgeEqual(Left, Of(prev, Right), PlusHorizontalSpacing) in cs
      case FirstItem => false
  {
  }

  /** The demo configuration: three columns, ten items, rows of 3, 3, 3 and 1.
      Item 9 starts row 3; it is bottom-pinned but not right-pinned, and the
      only right-pinned items are the row ends 5 and 8. */
  lemma DemoGrid()
    ensures var ds := DataSource(3, 10, i => View(i));
      && PositionOf(9, 3) == RowStart && CellOf(9, 3) == Cell(3, 0)
      && ItemsConstraining(Reloaded(Some(ds)), Bottom) == {9}
      && ItemsConstraining(Reloaded(Some(ds)), Right) == {5, 8}
  {
    var ds := DataSource(3, 10, i => View(i));
    BottomPinnedItems(ds);
    RightPinnedItems(ds);
    var expected := set i: nat | i < 10 && CellOf(i, 3).row != 0 && CellOf(i, 3).column != 0 && CellOf(i, 3).column == 2;
    forall i: nat | i < 10 ensures i in expected <==> i == 5 || i == 8 {
      assert i == 0 || i == 1 || i == 2 || i == 3 || i == 4 || i == 5 || i == 6 || i == 7 || i == 8 || i == 9;
    }
    assert expected == {5, 8};
  }
}
