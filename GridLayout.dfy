/** The layout vocabulary of the grid view and the per-item decision made by
    `reloadData`: which symbolic relationships each item view receives, given
    its index, the column count, the item count and the view placed just before
    it. Everything here is a value; the view object itself is in GridViews. */
module GridLayout {

  datatype Option<T> = None | Some(value: T)

  /** An item view handed out by the data source; only its identity matters. */
  datatype View = View(id: int)

  /** A delegate that receives selection reports; only its identity matters. */
  datatype Delegate = Delegate(id: nat)

  datatype EdgeInsets = EdgeInsets(top: real, left: real, bottom: real, right: real)

  /** The view's configuration. The relationships below never hold these
      numbers: they name the spacing they use symbolically (see `Offset`). */
  datatype Layout = Layout(inset: EdgeInsets, horizontalSpacing: real, verticalSpacing: real)

  /** The defaults of `Layout.init`: no inset, 8 points of spacing each way. */
  const DefaultLayout := Layout(EdgeInsets(0.0, 0.0, 0.0, 0.0), 8.0, 8.0)

  datatype Edge = Top | Left | Bottom | Right

  /** What an item's edge is tied to: an edge of the container (the superview
      the items are added to) or an edge of another item view. */
  datatype Anchor = Superview(edge: Edge) | Of(view: View, edge: Edge)

  /** Constraint offsets, named after the layout field they are computed from. */
  datatype Offset = NoOffset | PlusHorizontalSpacing | PlusVerticalSpacing | MinusHalfHorizontalSpacing

  datatype Priority = Required | High

  /** One symbolic layout relationship of an item view.
      EdgeEqual(e, a, o):     item.e == a + o
      SizeEqual(v):           item.width == v.width && item.height == v.height
      WidthFraction(n, o, p): item.width == superview.width * (1 / n) + o, at priority p */
  datatype Constraint =
    | EdgeEqual(edge: Edge, to: Anchor, offset: Offset)
    | SizeEqual(view: View)
    | WidthFraction(columns: int, offset: Offset, priority: Priority)

  /** The tap recognizer attached to each item, carrying the item's index. */
  datatype TapGestureRecognizer = TapGestureRecognizer(index: Option<int>)

  /** One entry of the container's subview list: the view, the relationships
      made for it, and its tap recognizer. */
  datatype Subview = Subview(view: View, constraints: seq<Constraint>, gesture: TapGestureRecognizer)

  /** The three data-source answers `reloadData` asks for. */
  datatype DataSource = DataSource(numberOfColumns: int, numberOfItems: int, viewForItemAt: int -> View)

  /** What a reload needs to run without a runtime trap: a non-negative item
      count (the range `0 ..< itemCount`) and, when there is an item at all, a
      non-zero column count (the `%` and `/` by `columnCount`). */
  predicate WellFormed(ds: DataSource)
  {
    ds.numberOfItems >= 0 && (ds.numberOfItems > 0 ==> ds.numberOfColumns != 0)
  }

  /** A missing data source is always fine: the reload stops after the reset. */
  predicate CanReload(source: Option<DataSource>)
  {
    source.Some? ==> WellFormed(source.value)
  }

  function Abs(x: int): nat { if x < 0 then -x else x }

  datatype Cell = Cell(row: int, column: int)

  /** Row and column of an item. Swift's `%` and `/` truncate toward zero; the
      index is never negative, and for a non-negative dividend truncation and
      Dafny's Euclidean division agree for either sign of the divisor. */
  function CellOf(index: nat, columnCount: int): (c: Cell)
    requires columnCount != 0
    ensures c.row * columnCount + c.column == index
    ensures 0 <= c.column < Abs(columnCount)
    ensures columnCount > 0 ==> 0 <= c.row
    ensures columnCount > 0 ==> (c.row == 0 <==> index < columnCount)
  {
    Cell(index / columnCount, index % columnCount)
  }

  /** The classes of item the constraint closure tells apart, in the order in
      which it tests them. */
  datatype Position = FirstItem | FirstRow | RowStart | RowEnd | Interior

  /** Exactly one class applies to an index; each class is characterised by
      the facts that hold of the index, including the failed earlier tests. */
  function PositionOf(index: nat, columnCount: int): (p: Position)
    requires columnCount != 0
    ensures p == FirstItem <==> index == 0
    ensures p == FirstRow <==> index > 0 && CellOf(index, columnCount).row == 0
    ensures p == RowStart <==>
      index > 0 && CellOf(index, columnCount).row != 0 && CellOf(index, columnCount).column == 0
    ensures p == RowEnd <==>
      index > 0 && CellOf(index, columnCount).row != 0 && CellOf(index, columnCount).column != 0
      && CellOf(index, columnCount).column == columnCount - 1
    ensures p == Interior <==>
      index > 0 && CellOf(index, columnCount).row != 0 && CellOf(index, columnCount).column != 0
      && CellOf(index, columnCount).column != columnCount - 1
  {
    var cell := CellOf(index, columnCount);
    if index == 0 then FirstItem
    else if cell.row == 0 then FirstRow
    else if cell.column == 0 then RowStart
    else if cell.column == columnCount - 1 then RowEnd
    else Interior
  }

  /** Some relationship of `cs` ties the item's edge `e` (to anything). */
  predicate Constrains(cs: seq<Constraint>, e: Edge)
  {
    exists k :: 0 <= k < |cs| && cs[k].EdgeEqual? && cs[k].edge == e
  }

  /** No edge of the item is tied twice. */
  predicate EdgesDistinct(cs: seq<Constraint>)
  {
    forall j, k :: 0 <= j < k < |cs| && cs[j].EdgeEqual? && cs[k].EdgeEqual? ==> cs[j].edge != cs[k].edge
  }

  /** A relationship mentions no view but the container and `prev`. */
  predicate RefersOnlyTo(c: Constraint, prev: Option<View>)
  {
    match c
    case EdgeEqual(_, to, _) => to.Superview? || prev == Some(to.view)
    case SizeEqual(v) => prev == Some(v)
    case WidthFraction(_, _, _) => true
  }

  predicate HasWidthFraction(cs: seq<Constraint>)
  {
    exists k :: 0 <= k < |cs| && cs[k].WidthFraction?
  }

  /** The relationships made for the item at `index` by the `makeConstraints`
      closure of `reloadData`, `prevView` being the view added just before it
      (none for the first). The first item is tied to the container's top and
      left and gets a high-priority fractional width; every later item takes
      its predecessor's size, is pinned to the container's bottom when it is
      the last item, and is then placed by the first test that holds of
      row 0, column 0, last column, or none of these. */
  function MakeConstraints(index: nat, columnCount: int, itemCount: int, prevView: Option<View>): (cs: seq<Constraint>)
    requires columnCount != 0
    ensures forall c | c in cs :: RefersOnlyTo(c, prevView)
    ensures EdgesDistinct(cs)
    ensures prevView.Some? ==> SizeEqual(prevView.value) in cs
    ensures prevView.None? ==> |cs| == 3
  {
    var cell := CellOf(index, columnCount);
    match prevView
    case None =>
      [ EdgeEqual(Top, Superview(Top), NoOffset),
        EdgeEqual(Left, Superview(Left), NoOffset),
        WidthFraction(columnCount, MinusHalfHorizontalSpacing, High) ]
    case Some(prev) =>
      var bottom := if index == itemCount - 1 then [EdgeEqual(Bottom, Superview(Bottom), NoOffset)] else [];
      var placement :=
        if cell.row == 0 then
          [ EdgeEqual(Top, Superview(Top), NoOffset),
            EdgeEqual(Left, Of(prev, Right), PlusHorizontalSpacing) ]
        else if cell.column == 0 then
          [ EdgeEqual(Top, Of(prev, Bottom), PlusVerticalSpacing),
            EdgeEqual(Left, Superview(Left), NoOffset) ]
        else if cell.column == columnCount - 1 then
          [ EdgeEqual(Top, Of(prev, Top), NoOffset),
            EdgeEqual(Left, Of(prev, Right), PlusHorizontalSpacing),
            EdgeEqual(Right, Superview(Right), NoOffset) ]
        else
          [ EdgeEqual(Top, Of(prev, Top), NoOffset),
            EdgeEqual(Left, Of(prev, Right), PlusHorizontalSpacing) ];
      [SizeEqual(prev)] + bottom + placement
  }

  /** The predecessor of item `i`: the view the data source gave for `i - 1`. */
  function PrevViewAt(ds: DataSource, i: nat): Option<View>
  {
    if i == 0 then None else Some(ds.viewForItemAt(i - 1))
  }

  /** Item `i` as a reload builds it: the data source's view for `i`, the
      relationships made for it, and a tap recognizer carrying `i`. */
  function ItemAt(ds: DataSource, i: nat): Subview
    requires WellFormed(ds) && i < ds.numberOfItems
  {
    Subview(ds.viewForItemAt(i),
            MakeConstraints(i, ds.numberOfColumns, ds.numberOfItems, PrevViewAt(ds, i)),
            TapGestureRecognizer(Some(i)))
  }

  /** The container's subviews after a reload: nothing without a data source,
      otherwise one entry per index, in index order. Nothing from before the
      reload survives: the result depends on the data source alone. */
  function Reloaded(source: Option<DataSource>): (items: seq<Subview>)
    requires CanReload(source)
    ensures source.None? ==> items == []
    ensures source.Some? ==> |items| == source.value.numberOfItems
    ensures source.Some? ==> forall i :: 0 <= i < |items| ==>
      items[i].view == source.value.viewForItemAt(i) && items[i].gesture.index == Some(i)
  {
    match source
    case None => []
    case Some(ds) => seq(ds.numberOfItems, i requires 0 <= i < ds.numberOfItems => ItemAt(ds, i))
  }
}
