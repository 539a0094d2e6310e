/**
  Choosing how one entry of `images` gets its natural dimensions: locally from
  an explicit `dimensions` object, locally from its own `width`/`height` fields,
  remotely by probing its URI, or not at all (the image is skipped and never
  completes).
 */
module Resolution {

  import opened Wrappers
  import opened JsValues

  datatype Dimensions = Dimensions(width: JsNumber, height: JsNumber)

  /**
    An entry of `images`. `uri` stands for what the utility `getImageUri`
    derives from the entry; its derivation is not part of this model.
   */
  datatype ImageDescriptor = ImageDescriptor(
    dimensions: Option<Dimensions>,
    width: JsNumber,
    height: JsNumber,
    uri: Option<string>)

  datatype Strategy = ResolveLocal | ResolveRemote(uri: string) | Skip

  /** A `dimensions` object is present with truthy width and height. */
  predicate HasDimensionsObject(image: ImageDescriptor)
  {
    image.dimensions.Some? &&
    Truthy(image.dimensions.value.width) && Truthy(image.dimensions.value.height)
  }

  /** The entry's own `width` and `height` fields are both truthy. */
  predicate HasSizeFields(image: ImageDescriptor)
  {
    Truthy(image.width) && Truthy(image.height)
  }

  /** A non-empty URI can be derived. */
  predicate HasUri(image: ImageDescriptor)
  {
    image.uri.Some? && image.uri.value != ""
  }

  /**
    The strategy precedence: known dimensions always win over a URI, and an
    image with neither is skipped.
   */
  function ChooseStrategy(image: ImageDescriptor): (s: Strategy)
    ensures s == ResolveLocal <==> HasDimensionsObject(image) || HasSizeFields(image)
    ensures s.ResolveRemote? <==>
            !HasDimensionsObject(image) && !HasSizeFields(image) && HasUri(image)
    ensures s.ResolveRemote? ==> image.uri == Some(s.uri)
    ensures s == Skip <==>
            !HasDimensionsObject(image) && !HasSizeFields(image) && !HasUri(image)
  {
    if HasDimensionsObject(image) then ResolveLocal
    else if HasSizeFields(image) then ResolveLocal
    else if HasUri(image) then ResolveRemote(image.uri.value)
    else Skip
  }

  /** Position `position` of `images` was handed to a resolver (it was not skipped). */
  predicate Submitted(images: seq<ImageDescriptor>, position: nat)
  {
    position < |images| && ChooseStrategy(images[position]) != Skip
  }
}
