# GridView layout model

A Dafny model of `GridView`, a UIKit view that lays out the item views of a
data source in a grid of `numberOfColumns` columns and reports taps on items
to a delegate. The interesting part is `reloadData`: it clears the content
view, asks the data source for a column count and an item count, and then adds
the item views one by one. Each item is tied to the container or to the item
added just before it (`prevView`) by a few SnapKit relationships, chosen by a
fixed order of tests on the item's row and column. No item is ever related to
an item two places back, so the grid is a chain and not a coordinate system.

The model has three modules.

- `GridLayout` (GridLayout.dfy) holds the value types. Relationships are
  symbolic `Constraint` values: an edge tied to a container edge or to an edge
  of another view, with an offset named after the layout field it uses; size
  equality with another view; and the first item's high-priority fractional
  width. It also holds the data source (column count, item count and the
  view-for-index callback) and the tap recognizer with its optional `index`,
  the `TapGestureRecognizer` of GridView/GridViewController.swift:134-136.
  `MakeConstraints` is the `makeConstraints` closure: a pure decision on the
  index, the column count, the item count and `prevView`. `Reloaded` says what
  the container holds after a reload.
- `GridProperties` (GridProperties.dfy) holds lemmas about what the branch
  order means, for one item and for a whole reloaded grid.
- `GridViews` (GridViews.dfy) holds the `GridView` class. Its `subviews`
  field is the content view's subview list. `ReloadData` runs the source's
  loop, carrying `prevView`, and is proved to leave exactly `Reloaded(dataSource)`.
  `ResetLayout` detaches subviews one at a time. `Tapped` gives the reports
  the delegate receives.

Swift's `%` and `/` truncate toward zero. The dividend (the item index) is
never negative, and then truncation and Dafny's Euclidean division agree for
either sign of the divisor. So the model uses Dafny's operators and covers
negative column counts exactly as the code computes them. The Swift runtime
traps on `0 ..< itemCount` when `itemCount` is negative, and on `% 0` and
`/ 0` once there is an item. Those two conditions are `ReloadData`'s only
precondition (`CanReload`). The model follows the code: a negative column
count does not trap, and neither does a zero column count with zero items.

## Model

| member | source | states |
|---|---|---|
| GridLayout.CellOf | GridView/GridViewController.swift:70-71 | row and column decompose the index: `row * columnCount + column == index`, `0 <= column < |columnCount|`; for positive column counts the row is non-negative and is 0 exactly for the first `columnCount` indices |
| GridLayout.PositionOf | GridView/GridViewController.swift:77-106 | the five position classes tested in order (first item, first row, row start, row end, interior); each class holds exactly when its own test holds and every earlier test failed, so exactly one applies |
| GridLayout.MakeConstraints | GridView/GridViewController.swift:76-107 | every relationship of an item mentions only the container or `prevView`; no edge is tied twice; an item with a predecessor takes its size; the first item gets three relationships |
| GridLayout.Reloaded | GridView/GridViewController.swift:59-115 | without a data source the container is empty; with one it holds `numberOfItems` subviews, subview `i` being the data source's view for `i` with a tap recognizer carrying `i` |
| GridProperties.FirstItemConstraints | GridView/GridViewController.swift:77-83 | the first item gets exactly top-to-container, left-to-container and the high-priority width `1/columnCount` minus half the horizontal spacing; no size, bottom or right relationship, whatever the item count |
| GridProperties.FollowerConstraints | GridView/GridViewController.swift:86-106 | an item after the first takes its predecessor's size and no fractional width; top and left are always tied; bottom is tied exactly when it is the last item, and then to the container's bottom; right is tied exactly when row != 0, column != 0 and column == columnCount - 1, and then to the container's right |
| GridProperties.FollowerPlacement | GridView/GridViewController.swift:91-106 | per position class: first row = container top and predecessor right + horizontal spacing; row start = predecessor bottom + vertical spacing and container left; row end = predecessor top, predecessor right + horizontal spacing, container right; interior = predecessor top and predecessor right + horizontal spacing |
| GridProperties.ReloadIsChain | GridView/GridViewController.swift:66-113 | in a reloaded grid item `i`'s relationships mention only the container and item `i - 1` |
| GridProperties.ReloadSizes | GridView/GridViewController.swift:77-86 | item 0 has three relationships including the fractional width; every later item's size equals that of the item before it |
| GridProperties.BottomPinnedItems | GridView/GridViewController.swift:77-90 | the set of items with any bottom relationship, and the set of items whose bottom is tied to the container's bottom, are both `{itemCount - 1}` when there are at least two items and empty otherwise, so a single item is never bottom-pinned |
| GridProperties.RightPinnedItems | GridView/GridViewController.swift:91-102 | the set of items with any right relationship is exactly the set of indices whose row is not 0 and whose column is the last one and is not 0, and each such item's right is tied to the container's right |
| GridProperties.NoRightPinInFirstRowOrSingleColumn | GridView/GridViewController.swift:91-102 | no first-row item, including a first-row item in the last column, is right-pinned; in a one-column grid no item is right-pinned |
| GridProperties.ReloadPlacement | GridView/GridViewController.swift:86-106 | in a reloaded grid every item after the first is placed relative to the item before it as its position class prescribes |
| GridProperties.DemoGrid | GridView/GridViewController.swift:208-214 | with 3 columns and 10 items, item 9 is at row 3, column 0 (a row start); the only bottom-pinned item is 9 and the only right-pinned items are 5 and 8 |
| GridViews.GridView.constructor | GridView/GridViewController.swift:44-53 | a new grid view keeps its layout and has no data source, no delegate and no items |
| GridViews.GridView.ResetLayout | GridView/GridViewController.swift:124-129 | every subview is detached, with its relationships; the container ends empty |
| GridViews.GridView.ReloadData | GridView/GridViewController.swift:59-115 | the container ends holding exactly `Reloaded(dataSource)`: nothing from before the call survives, no data source leaves it empty, and the loop's `prevView` is always the view for the previous index |
| GridViews.GridView.Tapped | GridView/GridViewController.swift:117-121 | a tap reports at most one index; it reports the recognizer's index when the recognizer has one and a delegate is set, and nothing otherwise |
| GridViews.TapReportsItemIndex | GridView/GridViewController.swift:109-121 | after a reload, tapping item `i` reports exactly `[i]` to a set delegate and nothing without one |

## Left out

- Geometry: SnapKit's constraint solving, `CGFloat` arithmetic (`1 / CGFloat(columnCount)`, `horizontalSpacing / 2`) and the inset constraint of the content view (GridView/GridViewController.swift:50-52). Offsets and multipliers are symbolic tags, because the numbers are floating point and are resolved by a foreign layout engine.
- `Layout` (GridView/GridViewController.swift:25-35) is kept as a value stored by the constructor, with its defaults as `DefaultLayout`; its spacings enter the relationships only by name.
- UIKit's handling of a view that is already attached: the model treats every view the data source returns as a new subview, appended at the end. A data source that returns one view for two indices (where UIKit would move the view and SnapKit would add to its relationships) is not modelled.
- `weak` references for `dataSource` and `delegate`, the gesture-recognizer machinery, `#selector` dispatch and `init(coder:)`'s `fatalError`. The data source is a value with a callback, and the delegate call is returned as the list of reported indices.
- ResetLayout, TapReportsItemIndex: tap recognizers left on a view by earlier reloads are not modelled. `resetLayout` removes a subview's constraints and detaches it, but it does not remove the recognizer that `reloadData` added (GridView/GridViewController.swift:109-111, :125-128). A data source that hands back the same view after a reload therefore gives it one more recognizer per reload, each with its own index, and which one a tap reaches is up to UIKit. The model assumes the views are fresh on each reload, drops the recognizer with its subview entry, and gives each view exactly one recognizer.
- The recognizer is modelled after `gesture.index = index` has run; its mutable `index` field and its object identity are not.
- Swift's 64-bit `Int` overflow: integers are unbounded. No expression of `reloadData` can overflow when `itemCount >= 0`, except `columnCount - 1` when `columnCount` is the smallest `Int`. That test is reached only when the row is not 0, and the row is always 0 for such a column count.
- `Card`, `GridViewController` and ViewController.swift are UI styling and demo scaffolding. The demo's 3 columns and 10 items appear only as the `DemoGrid` scenario.
