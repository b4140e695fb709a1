/** The grid view object: its data source and delegate slots, the container's
    subview list that `reloadData` rebuilds, and tap dispatch. */
module GridViews {
  import opened GridLayout

  class GridView {
    const layout: Layout
    var dataSource: Option<DataSource>
    var delegate: Option<Delegate>
    /** The subviews of the content view, in the order they were added. */
    var subviews: seq<Subview>

    /** A new grid view has no data source, no delegate and no items. */
    constructor (layout: Layout)
      ensures this.layout == layout
      ensures dataSource == None && delegate == None && subviews == []
    {
      this.layout := layout;
      dataSource := None;
      delegate := None;
      subviews := [];
    }

    /** Detaches every subview, one after the other; each goes with its
        relationships. */
    method ResetLayout()
      modifies this`subviews
      ensures subviews == []
    {
      var attached := subviews;
      for k := 0 to |attached|
        invariant subviews == attached[k..]
      {
        subviews := subviews[1..];
      }
    }

    /** Rebuilds the container from the data source. The old subviews are all
        gone afterwards; without a data source the container stays empty, and
        otherwise it holds one subview per index, built in index order with
        the previously added view as the reference of the next one. */
    method ReloadData()
      requires CanReload(dataSource)
      modifies this`subviews
      ensures subviews == Reloaded(dataSource)
    {
      ResetLayout();
      if dataSource.None? {
        return;
      }
      var source := dataSource.value;
      var columnCount := source.numberOfColumns;
      var itemCount := source.numberOfItems;
      ghost var target := Reloaded(dataSource);
      var prevView: Option<View> := None;
      for index := 0 to itemCount
        invariant subviews == target[..index]
        invariant prevView == PrevViewAt(source, index)
      {
        var view := source.viewForItemAt(index);
        var constraints := MakeConstraints(index, columnCount, itemCount, prevView);
        var gesture := TapGestureRecognizer(Some(index));
        subviews := subviews + [Subview(view, constraints, gesture)];
        prevView := Some(view);
        assert target[index] == ItemAt(source, index);
        assert target[..index + 1] == target[..index] + [target[index]];
      }
      assert target[..itemCount] == target;
    }

    /** The indices reported to the delegate when `sender` fires: the
        recognizer's index, once, if it has one and a delegate is set;
        nothing otherwise. */
    function Tapped(sender: TapGestureRecognizer): (reports: seq<int>)
      reads this
      ensures |reports| <= 1
      ensures reports != [] <==> delegate.Some? && sender.index.Some?
      ensures reports != [] ==> Some(reports[0]) == sender.index
    {
      match (sender.index, delegate)
      case (Some(index), Some(_)) => [index]
      case _ => []
    }
  }

  /** After a reload, tapping item `i` reports exactly `i` to a delegate that
      is set, once, and reports nothing when none is set. */
  lemma TapReportsItemIndex(grid: GridView, i: nat)
    requires CanReload(grid.dataSource) && grid.subviews == Reloaded(grid.dataSource)
    requires i < |grid.subviews|
    ensures grid.Tapped(grid.subviews[i].gesture) == if grid.delegate.Some? then [i] else []
  {
  }
}
