# Masonry list layout pass, modelled in Dafny

`react-native-masonry-list` lays images out in columns. Each call of
`resolveImages` (src/MasonryList.js) starts one *pass*. A pass does three
things:

- It picks a resolution strategy for every image: resolve locally when the
  image's dimensions are known, resolve remotely when it has a URI, or skip it.
- Every time a task completes, it stamps an index on the image and lets a
  greedy balancer pick a column. The balancer is `_assignColumns`, with
  running column totals, a 1-based column cursor and the tallest total so far.
- It publishes results in two phases. The first `firstRenderNum` successes
  are buffered in `batchOne`, and the buffer replaces the component's
  `_sortedData` all at once. Every later success is inserted into the
  current `_sortedData`.

Separately, `componentWillReceiveProps` decides whether a change of layout
dimensions starts a new pass.

Modules:

- `Wrappers`: `Option`.
- `JsValues`: a number-valued JavaScript property (`undefined`, `null`, `NaN`
  or a number), with truthiness and `!==`.
- `Layout`: the re-resolution decision in `componentWillReceiveProps`.
- `Resolution`: the image descriptor and the strategy precedence.
- `Balancing`: `_assignColumns` as a pure function on a balancer value, plus
  `Replay` (a sequence of calls) and its properties.
- `Aggregation`: a pass as a pure state machine over completion events
  (`Step`, `Run`, `Items`), with lemmas about counters, index stamping,
  columns, publishing and failures.
- `Component`: the imperative form. There are two classes:
  - `MasonryList` holds the published `sortedData`.
  - `ResolutionPass` holds the variables the closures inside `resolveImages`
    capture. Its `AssignColumns` and `Complete` update those fields in place,
    and they are proved to agree with `Balancing.Assign` and `Aggregation.Step`.

The asynchronous tasks appear only as a sequence of completion events. An
event is `Resolved(position, data, height)` or `Failed(position)`.
`position` is the image's index in the submitted array and `height` is the
scaled height. The helper `insertIntoColumn` is a function-valued parameter
of the pass, so every lemma holds whatever value it computes (an in-place,
aliasing insert is not modelled).

Consequences of the code a reader may not expect:

- A new pass starts only when the width **and** the height both differ from
  the current layout (src/MasonryList.js:64-65). Changing only one of them
  starts nothing (`Layout.WidthOnlyChangeIgnored`).
- Suppose a pass started by `addItems` has `firstRenderNum >= 1` and
  reaches that threshold. Then its `batchOne` replaces the published columns
  wholesale, so earlier content is dropped rather than kept
  (`Aggregation.PublishedForgetsPrevious`). With `firstRenderNum <= 0` (for
  instance a `null` `initialColToRender`, which multiplies to 0) every item
  goes straight into the existing published columns and earlier content is
  kept (the last case of `Aggregation.Publishing`).
- A pass with fewer than `firstRenderNum` successes never publishes anything
  (`Aggregation.FewerThanFirstBatchPublishNothing`).
- The balancer does not keep the columns within one image's height of each
  other. `Balancing.SpreadNotBoundedByTallest` gives heights after which the
  spread (18) is larger than the tallest image (10).

## Model

| member | source | states |
|---|---|---|
| Layout.ResolvesOnMount | src/MasonryList.js:47-59 | definition: the mount-time test, a truthy `containerWidth`; see `Layout.MountAndRelayoutExclusive` |
| Layout.ShouldResolveAgain | src/MasonryList.js:61-66 | true exactly when all four next layout fields are truthy, width and height both differ from the current layout (`!==`, so `NaN` always differs), and the current `containerWidth` is falsy |
| Layout.WidthOnlyChangeIgnored | src/MasonryList.js:64-65 | an unchanged height never starts a new pass, even when the width changes |
| Layout.ContainerWidthDisables | src/MasonryList.js:66 | a truthy `containerWidth` prop never starts a new pass |
| Layout.MountAndRelayoutExclusive | src/MasonryList.js:47-66 | the mount-time test (`containerWidth` truthy) and the layout-change test never both start a pass for the same `containerWidth` |
| Resolution.ChooseStrategy | src/MasonryList.js:157-174 | local resolution exactly when the `dimensions` object has truthy width and height, or else the plain width and height fields are truthy; otherwise remote resolution with the image's URI exactly when that URI is non-empty; otherwise skipped |
| Balancing.Assign | src/MasonryList.js:117-136 | definition of one `_assignColumns` call; its behaviour is stated by `Balancing.AssignInRange`, `Balancing.AssignOnlyTouchesItsColumn`, `Balancing.AssignMovesCursor` and `Balancing.AssignKeepsRunningMax` |
| Balancing.AssignInRange | src/MasonryList.js:115-118 | the returned column is the cursor minus one before the update, lies in `[0, nColumns)`, and the cursor stays in `[1, nColumns]` |
| Balancing.AssignOnlyTouchesItsColumn | src/MasonryList.js:121-125 | only the assigned column's total changes; it becomes the old total plus the height, where an absent or zero total counts as 0 |
| Balancing.AssignMovesCursor | src/MasonryList.js:127-133 | the cursor advances (wrapping from `nColumns` to 1) and the tallest total is set to the new total exactly when the tallest was absent or zero or is at most the new total; otherwise cursor and tallest are unchanged |
| Balancing.AssignKeepsRunningMax | src/MasonryList.js:127-133 | with a non-negative height, the tallest total stays equal to the largest column total (absent counts as 0) and never decreases |
| Balancing.Replay | src/MasonryList.js:117-136 | replaying a sequence of heights yields one column per height |
| Balancing.ReplayAppend | src/MasonryList.js:117-136 | replaying one more height is one more call on the state after the earlier ones |
| Balancing.ReplayValid | src/MasonryList.js:115-118 | across any number of calls, every column returned is in range and the cursor stays in range |
| Balancing.ReplayTotals | src/MasonryList.js:121-125 | after any sequence of calls, each column's total is its starting total plus the heights of exactly the images assigned to it |
| Balancing.ReplayRunningMax | src/MasonryList.js:127-133 | with non-negative heights, the tallest total equals the largest column total after any sequence of calls and never decreases |
| Balancing.InitialValid | src/MasonryList.js:114-116 | a fresh balancer (no totals, cursor 1, tallest `null`) satisfies both invariants |
| Balancing.ThreeColumnExample | src/MasonryList.js:117-136 | heights 10, 10, 10, 5, 5, 20 over three columns go to columns 0, 1, 2, 0, 1, 2, with totals 15, 15, 30 |
| Balancing.SpreadNotBoundedByTallest | src/MasonryList.js:127-133 | heights 10, 9, 10, 9, 9, 10 over three columns give totals 10, 19, 28: one column is 18 shorter than another |
| Aggregation.FirstRenderNum | src/MasonryList.js:109 | definition: the first-batch size, the product of the two props; used by `Aggregation.Publishing` |
| Aggregation.Start | src/MasonryList.js:109-116 | definition: a pass begins with counters 0, an empty batch, a fresh balancer and the published state it found; see `Aggregation.RunTrace` and `Aggregation.Publishing` |
| Aggregation.Place | src/MasonryList.js:183-197 | definition: a success's item, with the position (sorted) or the counter (unsorted) as index and the balancer's column; see `Aggregation.IndexStamping` and `Aggregation.ColumnsInRange` |
| Aggregation.Step | src/MasonryList.js:178-220 | definition of one completion callback; its behaviour is stated by `Aggregation.TraceStep`, `Aggregation.PublishingStep` and `Aggregation.FailuresChangeNothing` |
| Aggregation.Run | src/MasonryList.js:176-224 | definition: the pass state after the completions in order; see `Aggregation.RunTrace` and `Aggregation.Publishing` |
| Aggregation.Items | src/MasonryList.js:176-224 | definition: the items handed to `insertIntoColumn`, in completion order; see `Aggregation.RunTrace` and `Aggregation.IndexStamping` |
| Aggregation.Successes | src/MasonryList.js:178-181 | every element is a successful completion taken from the events, and every successful completion among the events is kept |
| Aggregation.SuccessesAppend | src/MasonryList.js:178-181 | the successes of two event sequences in a row are the successes of the first followed by those of the second, so completion order is kept |
| Aggregation.SuccessesSingle | src/MasonryList.js:178-181 | a single completion is kept exactly when it succeeded |
| Aggregation.SuccessHeights | src/MasonryList.js:119 | the heights the balancer sees, one per success, in order |
| Aggregation.RunTrace | src/MasonryList.js:183-219 | after any events, `renderIndex` counts the successes, `unsortedIndex` counts them in unsorted mode (and stays 0 in sorted mode), the balancer is the replay of the success heights, and success i yields an item with its data, position-or-counter index, replayed column and height |
| Aggregation.TraceStep | src/MasonryList.js:183-219 | one success adds one to `renderIndex` (and to `unsortedIndex` in unsorted mode), feeds its height to the balancer, and places an item with its data, stamped index, assigned column and height |
| Aggregation.RenderIndexCountsItems | src/MasonryList.js:201-220 | `renderIndex` equals the number of images placed so far |
| Aggregation.IndexStamping | src/MasonryList.js:176-188 | in sorted mode an item's index is its image's position in the input array; in unsorted mode the indices are 0, 1, 2, … in completion order |
| Aggregation.ColumnsInRange | src/MasonryList.js:197 | with at least one column, every item a success places (hands to `insertIntoColumn`) has a column in `[0, columns)` |
| Aggregation.PassTotals | src/MasonryList.js:117-136 | each column's total is the sum of its items' heights, and with non-negative heights the tallest total is the largest column total |
| Aggregation.Publishing | src/MasonryList.js:201-220 | below the threshold nothing is published and `batchOne` is all items so far; once the threshold is reached the published columns are the batch with every later item inserted into it in order; with a threshold of at most 0 every item goes straight into the published state and the batch stays empty |
| Aggregation.PublishingStep | src/MasonryList.js:201-220 | one success keeps the three publishing phases in step: it is buffered, publishes the batch, or is inserted into the published state, according to `renderIndex` |
| Aggregation.FewerThanFirstBatchPublishNothing | src/MasonryList.js:201-205 | fewer than `firstRenderNum` successes leave the published state as it was |
| Aggregation.PublishedForgetsPrevious | src/MasonryList.js:206-209 | once the threshold is reached, what is published does not depend on what was published before the pass |
| Aggregation.FailuresChangeNothing | src/MasonryList.js:178-180 | failed completions change no counter, no balancer state, no batch and no published state: the pass is the same as one over its successes alone |
| Aggregation.SuccessesValid | src/MasonryList.js:176-178 | the successes of a well-formed completion sequence are themselves well formed |
| Aggregation.IndicesDistinct | src/MasonryList.js:176-188 | when each submitted task completes at most once, items get pairwise distinct indices, and in sorted mode every index is the position of a submitted (not skipped) image |
| Component.MasonryList.constructor | src/MasonryList.js:43-45 | the published columns start empty |
| Component.MasonryList.ResolveImages | src/MasonryList.js:100-176 | a fresh pass for this component, with one strategy chosen per image, fresh counters and balancer, `firstRenderNum` the product of the two props, and the published state left as it was |
| Component.MasonryList.AddItems | src/MasonryList.js:88-98 | the same as `ResolveImages` with the component's own column and sorting props |
| Component.ResolutionPass.constructor | src/MasonryList.js:109-175 | every closed-over variable starts as in the source, and the task list is `ChooseStrategy` of every image |
| Component.ResolutionPass.AssignColumns | src/MasonryList.js:117-136 | updates the balancer fields in place exactly as `Balancing.Assign` prescribes, returns the column it assigned, and keeps the cursor invariant |
| Component.ResolutionPass.Complete | src/MasonryList.js:178-220 | processes one completion of a submitted task in place; the new pass state, including the component's published columns, is `Aggregation.Step` of the old one |

## Left out

- React lifecycle, `setState` scheduling, `render`, `FlatList` and `Column`
  (src/MasonryList.js:47-59, 317-369) are UI plumbing. `setState(updater)`
  is applied at once to the current published state. The component's
  props are fixed when it is constructed, so `Component.MasonryList.AddItems`
  uses those values, whereas the program's `addItems` (src/MasonryList.js:88-98)
  reads whatever `this.props` hold when it is called. `componentWillMount`
  and `componentWillReceiveProps` are represented only by their tests,
  `Layout.ResolvesOnMount` and `Layout.ShouldResolveAgain`; the calls that
  start the pass are `Component.MasonryList.ResolveImages`.
- The asynchronous `fork` tasks (`resolveImage`, `resolveLocal` in `./model`)
  are foreign code with I/O. They appear as completion events processed one
  at a time, in any order and with any subset failing.
- `insertIntoColumn`, `getItemSource`, `setItemSource`, `getImageSource` and
  `getImageUri` (`./utils`) are not part of this model. `insertIntoColumn` is
  a parameter with no assumed behaviour, so the model makes no claim about
  the sorted order within a column. The image URI is an input field of the
  descriptor. The two `itemSource` branches (src/MasonryList.js:138-224 and
  226-307) differ only in this unwrapping, so they are modelled once.
- `_getCalculatedDimensions` (src/MasonryList.js:79-86) is floating-point
  division that yields `NaN` when the natural width is 0. The scaled height
  is an abstract real input of each event, so `NaN` and infinite heights are
  not modelled.
- The column totals (src/MasonryList.js:122-124) and the comparison `<=`
  with the tallest total (src/MasonryList.js:130) are computed on exact
  reals; floating-point rounding is not modelled. With doubles, 0.1 + 0.2
  exceeds 0.3, so a comparison the model decides one way can go the other
  way in the program. `Balancing.ReplayTotals` and `Aggregation.PassTotals`
  sum the heights in another order than the program does, so their
  equalities hold for exact arithmetic only.
- The `itemSource` prop is assumed to be an array. The program reads
  `itemSource.length` (src/MasonryList.js:138), which throws when the
  optional prop is undefined, and then no pass starts; the model always
  starts one.
- The `console.warn` diagnostics, the assignment to `image.source`, and
  `_onCallEndReach` (src/MasonryList.js:311-315) are logging, a field copy
  and a callback forward. None of them affects the layout.
- Late completions of an older pass writing into the published state
  alongside a newer pass, and a `NaN` `firstRenderNum` when the column props
  are undefined, are artefacts of closures and the JavaScript runtime. The
  count props are integers here.
- Balancing.Replay: its contract states only the length of the column list;
  what the replay computes is stated by the `Replay…` lemmas.
