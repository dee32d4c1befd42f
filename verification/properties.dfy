/** Properties of the spritesheet grid: the catalog round trip, the
    weight sequence of every row, the fields all cells share, the single
    scene file, independence from the handle's identity, and the
    consistency of the assembled job. */
module SpritesheetProperties {
  import opened Wrappers
  import opened Num
  import opened Query3d
  import opened Renderer
  import opened Spritesheets

  /** `CamerasLights` loses nothing: reading the names back gives the catalog. */
  lemma {:induction false} CamerasLightsRoundTrip(catalog: Catalog, file: FileHandle)
    ensures CatalogOf(CamerasLights(catalog, file)) == catalog
    decreases |catalog|
  {
    if catalog != [] {
      CamerasLightsRoundTrip(catalog[1..], file);
      assert CamerasLights(catalog, file)[1..] == CamerasLights(catalog[1..], file);
      assert catalog == [catalog[0]] + catalog[1..];
    }
  }

  /** Cell `(r, i)` renders through the `r`-th view of `CamerasLights`,
      and every cell of a row uses the same view. */
  lemma CellView(catalog: Catalog, file: FileHandle, frames: nat, r: nat, i: nat)
    requires r < |catalog| && i < frames
    ensures |PlayerGrid(catalog, file, frames)[r]| == frames
    ensures var c := PlayerGrid(catalog, file, frames)[r][i];
      && |c.nodes| == 1 && c.nodes[0].Image?
      && (c.nodes[0].image.camera, c.nodes[0].image.lights) == CamerasLights(catalog, file)[r]
  {
    var g := PlayerGrid(catalog, file, frames);
    PlayerGridMeetsSpec(catalog, file, frames);
    assert IsPlayerCell(g[r][i], catalog[r], file, i, frames);
  }

  /** Every cell of the grid carries the shared fields and reads only the
      one scene file opened at the start. */
  lemma CellsShareFields(catalog: Catalog, file: FileHandle, frames: nat)
    ensures var g := PlayerGrid(catalog, file, frames);
      forall r, i :: 0 <= r < |g| && 0 <= i < |g[r]| ==>
        && |g[r][i].nodes| == 1 && g[r][i].nodes[0].Image?
        && SharedFields(g[r][i].nodes[0].image)
        && BoundTo(g[r][i].nodes[0].image, file)
  {
    PlayerGridMeetsSpec(catalog, file, frames);
  }

  /** The weights along a row start at exactly 0, strictly increase and
      stay below 1: frame `i` is at `i / frames`. */
  lemma RowWeights(g: seq<seq<GridLayoutCell>>, catalog: Catalog, file: FileHandle, frames: nat, r: nat)
    requires IsPlayerGrid(g, catalog, file, frames)
    requires r < |g|
    ensures forall i :: 0 <= i < frames ==>
      && CellWeight(g[r][i]) == Some(Ratio(i, frames))
      && CellWeight(g[r][i]).value.Defined()
      && CellWeight(g[r][i]).value.BelowOne()
    ensures frames > 0 ==> CellWeight(g[r][0]).value.IsZero()
    ensures forall i, j :: 0 <= i < j < frames ==>
      CellWeight(g[r][i]).value.Less(CellWeight(g[r][j]).value)
  {
  }

  /** The player grid has `|catalog|` rows of `frames` cells, so the job
      `main` builds around it declares exactly the dimensions it holds,
      with scale 4, as long as both counts fit in a `u32`. */
  lemma PlayerJobConsistent(catalog: Catalog, file: FileHandle, frames: nat)
    requires 0 < |catalog| < U32_LIMIT && 0 < frames < U32_LIMIT
    ensures var job := AssembleJob(PlayerGrid(catalog, file, frames), |catalog|, frames);
      && job.scale == 4
      && job.root.Layout?
      && GridConsistent(job.root.layout.grid)
  {
    PlayerGridMeetsSpec(catalog, file, frames);
  }

  // ----- Independence from the handle's identity -----

  /** The same request read from `file` instead. */
  function RebindImage(img: RenderedImage, file: FileHandle): (img': RenderedImage)
    ensures BoundTo(img', file)
  {
    img.(camera := CameraFrom(img.camera.source.(file := file)),
         lights := LightsFrom(img.lights.source.(file := file)),
         geometry := img.geometry.(file := file))
  }

  function RebindNode(n: RenderNode, file: FileHandle): RenderNode
  {
    if n.Image? then Image(RebindImage(n.image, file)) else n
  }

  function RebindGrid(g: seq<seq<GridLayoutCell>>, file: FileHandle): (g': seq<seq<GridLayoutCell>>)
    ensures |g'| == |g|
    ensures forall r :: 0 <= r < |g| ==> |g'[r]| == |g[r]|
  {
    seq(|g|, r requires 0 <= r < |g| =>
      seq(|g[r]|, i requires 0 <= i < |g[r]| =>
        GridLayoutCell(seq(|g[r][i].nodes|, k requires 0 <= k < |g[r][i].nodes| =>
          RebindNode(g[r][i].nodes[k], file)))))
  }

  /** Building the grid against another handle of the same scene file
      yields the same requests, bound to the other handle: the grid
      depends on the file only through its identity. */
  lemma GridIndependentOfHandle(catalog: Catalog, f1: FileHandle, f2: FileHandle, frames: nat)
    ensures RebindGrid(PlayerGrid(catalog, f1, frames), f2) == PlayerGrid(catalog, f2, frames)
  {
    var g := PlayerGrid(catalog, f1, frames);
    var g' := RebindGrid(g, f2);
    PlayerGridMeetsSpec(catalog, f1, frames);
    forall r, i | 0 <= r < |g'| && 0 <= i < |g'[r]|
      ensures IsPlayerCell(g'[r][i], catalog[r], f2, i, frames)
    {
      assert IsPlayerCell(g[r][i], catalog[r], f1, i, frames);
    }
    PlayerGridUnique(g', catalog, f2, frames);
  }

  // ----- The shipped sheet -----

  /** The shipped generator: eight directions by eight walk frames, a
      consistent 8 by 8 grid of 32 by 32 cells at scale 4, with row `r`
      looking through `camera_*`/`light_*` of direction `r` and frame `i`
      at weight `i / 8`. */
  lemma ShippedSheet(file: FileHandle)
    ensures |CamerasLightsCatalog| == 8 && WalkFrames == 8
    ensures var job := AssembleJob(PlayerGrid(CamerasLightsCatalog, file, WalkFrames), |CamerasLightsCatalog|, WalkFrames);
      && job.scale == 4
      && job.root.layout.grid.rows == 8 && job.root.layout.grid.cols == 8
      && job.root.layout.grid.cellSize == Size(32, 32)
      && GridConsistent(job.root.layout.grid)
    ensures forall r, i :: 0 <= r < 8 && 0 <= i < 8 ==>
      IsPlayerCell(PlayerGrid(CamerasLightsCatalog, file, WalkFrames)[r][i], CamerasLightsCatalog[r], file, i, 8)
  {
    PlayerJobConsistent(CamerasLightsCatalog, file, WalkFrames);
    PlayerGridMeetsSpec(CamerasLightsCatalog, file, WalkFrames);
  }
}
