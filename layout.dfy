/**
  The layout-change test of `componentWillReceiveProps`: when new layout
  dimensions arrive, a fresh resolution pass is started only if the new layout
  is fully populated, differs in BOTH width and height from the current one,
  and the current props carry no fixed container width.
 */
module Layout {

  import opened JsValues

  datatype LayoutDimensions = LayoutDimensions(
    width: JsNumber,
    height: JsNumber,
    columnWidth: JsNumber,
    gutterSize: JsNumber)

  /** All four layout fields are truthy. */
  predicate Populated(l: LayoutDimensions)
  {
    Truthy(l.width) && Truthy(l.height) && Truthy(l.columnWidth) && Truthy(l.gutterSize)
  }

  /**
    Whether incoming layout `next` re-triggers resolution, given the current
    layout and the current `containerWidth` prop. The body follows the source's
    short-circuit conjunction with JavaScript `!==`; the contract states the
    condition with plain value inequality, which agrees once `next` is populated.
   */
  function ShouldResolveAgain(next: LayoutDimensions, current: LayoutDimensions,
                              containerWidth: JsNumber): (r: bool)
    ensures r ==> Populated(next)
    ensures r ==> next.width != current.width && next.height != current.height
    ensures r ==> !Truthy(containerWidth)
    ensures (Populated(next) && next.width != current.width && next.height != current.height &&
             !Truthy(containerWidth)) ==> r
  {
    Truthy(next.width) && Truthy(next.height) &&
    Truthy(next.columnWidth) && Truthy(next.gutterSize) &&
    StrictlyDiffers(next.width, current.width) &&
    StrictlyDiffers(next.height, current.height) &&
    !Truthy(containerWidth)
  }

  /** A layout change in width alone (height kept) never starts a new pass. */
  lemma WidthOnlyChangeIgnored(next: LayoutDimensions, current: LayoutDimensions,
                               containerWidth: JsNumber)
    requires next.height == current.height
    ensures !ShouldResolveAgain(next, current, containerWidth)
  {
  }

  /** A fixed container width disables layout-driven re-resolution altogether. */
  lemma ContainerWidthDisables(next: LayoutDimensions, current: LayoutDimensions,
                               containerWidth: JsNumber)
    requires Truthy(containerWidth)
    ensures !ShouldResolveAgain(next, current, containerWidth)
  {
  }

  /** The test in `componentWillMount`: a pass starts at mount when the `containerWidth` prop is truthy. */
  predicate ResolvesOnMount(containerWidth: JsNumber)
  {
    Truthy(containerWidth)
  }

  /** Mounting and a layout change never both start a pass for the same `containerWidth`. */
  lemma MountAndRelayoutExclusive(next: LayoutDimensions, current: LayoutDimensions,
                                  containerWidth: JsNumber)
    ensures !(ResolvesOnMount(containerWidth) && ShouldResolveAgain(next, current, containerWidth))
  {
  }
}
