/** Render requests and the layout tree of a render job
    (the `spritec::renderer` types the generator builds). */
module Renderer {
  import opened Num
  import opened Query3d

  /** A query bound to the file it is resolved against. */
  datatype FileQuery<Q> = FileQuery(query: Q, file: FileHandle)

  /** `RenderCamera::Query`. */
  datatype RenderCamera = CameraFrom(source: FileQuery<CameraQuery>)

  /** `RenderLights::Query`. */
  datatype RenderLights = LightsFrom(source: FileQuery<LightQuery>)

  /** Pixel size of a rendered cell; both sides are non-zero. */
  datatype Size = Size(width: NonZeroU32, height: NonZeroU32)

  datatype Outline = Outline(color: Rgba, thickness: real)

  /** One leaf render request. */
  datatype RenderedImage = RenderedImage(
    size: Size,
    background: Rgba,
    camera: RenderCamera,
    lights: RenderLights,
    ambientLight: Rgb,
    geometry: FileQuery<GeometryQuery>,
    outline: Outline)

  /** A node of the layout tree: a leaf request or a nested layout. */
  datatype RenderNode =
    | Image(image: RenderedImage)
    | Layout(layout: RenderLayout)

  datatype RenderLayout = Grid(grid: GridLayout)

  /** A grid of `rows` by `cols` cells; `cells` is the row-major matrix. */
  datatype GridLayout = GridLayout(
    rows: NonZeroU32,
    cols: NonZeroU32,
    cellSize: Size,
    cells: seq<seq<GridLayoutCell>>)

  /** One grid cell: the nodes drawn in it. */
  datatype GridLayoutCell = GridLayoutCell(nodes: seq<RenderNode>)

  /** `GridLayoutCell::single`: a cell holding exactly one node. */
  function Single(node: RenderNode): GridLayoutCell
  {
    GridLayoutCell([node])
  }

  /** The root of a job: an upscaling factor and the layout tree. */
  datatype RenderJob = RenderJob(scale: NonZeroU32, root: RenderNode)

  /** The declared dimensions of a grid agree with its cell matrix. */
  predicate GridConsistent(g: GridLayout)
  {
    && g.rows == |g.cells|
    && forall r :: 0 <= r < |g.cells| ==> |g.cells[r]| == g.cols
  }
}
