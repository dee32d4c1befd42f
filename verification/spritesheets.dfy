/** The spritesheet generator: the catalog of view directions, the
    expansion of "directions x walk frames" into a grid of render requests,
    and the render job wrapped around that grid. The direction catalog and
    the frame count are parameters; the shipped values are constants. */
module Spritesheets {
  import opened Wrappers
  import opened Num
  import opened Query3d
  import opened Renderer

  /** `nz32`: reinterprets a `u32` as non-zero. Passing zero is undefined
      behaviour in the source, so zero is excluded here. */
  function Nz32(size: U32): (r: NonZeroU32)
    requires size != 0
    ensures r as int == size
  {
    size
  }

  const PlayerSize: Size := Size(Nz32(32), Nz32(32))
  const WalkFrames: nat := 8
  const SheetScale: U32 := 4
  const PlayerGltf: string := "assets/gltf/player.gltf"
  const SpritesheetPng: string := "assets/spritesheet.png"

  /** A view direction: the camera name and the light name, in that order. */
  type Catalog = seq<(string, string)>

  /** The eight compass directions of the player sprite. */
  const CamerasLightsCatalog: Catalog := [
    ("camera_N", "light_N"),
    ("camera_NE", "light_NE"),
    ("camera_E", "light_E"),
    ("camera_SE", "light_SE"),
    ("camera_S", "light_S"),
    ("camera_SW", "light_SW"),
    ("camera_W", "light_W"),
    ("camera_NW", "light_NW")
  ]

  /** The opaque error of the surrounding program (`anyhow::Error`). */
  datatype Error = Error(description: string)

  /** A resolved camera query paired with its light query. */
  type View = (RenderCamera, RenderLights)

  /** The view asks for camera `entry.0` and lights `entry.1`, in no
      particular scene, both in `file`. */
  predicate ViewMatches(view: View, entry: (string, string), file: FileHandle)
  {
    && view.0.source == FileQuery(NamedCamera(entry.0, None), file)
    && view.1.source == FileQuery(NamedLights(entry.1, None), file)
  }

  function ViewFor(entry: (string, string), file: FileHandle): View
  {
    (CameraFrom(FileQuery(NamedCamera(entry.0, None), file)),
     LightsFrom(FileQuery(NamedLights(entry.1, None), file)))
  }

  /** `cameras_lights`: one view per catalog entry, in catalog order, every
      query bound to the one `file`. */
  function CamerasLights(catalog: Catalog, file: FileHandle): (views: seq<View>)
    ensures |views| == |catalog|
    ensures forall k :: 0 <= k < |catalog| ==> ViewMatches(views[k], catalog[k], file)
  {
    if catalog == [] then []
    else [ViewFor(catalog[0], file)] + CamerasLights(catalog[1..], file)
  }

  /** The names a sequence of views asks for; the inverse of `CamerasLights`. */
  function CatalogOf(views: seq<View>): (catalog: Catalog)
    ensures |catalog| == |views|
  {
    if views == [] then []
    else [(views[0].0.source.query.name, views[0].1.source.query.name)] + CatalogOf(views[1..])
  }

  // ----- One render request of the grid -----

  /** The request for frame `i` of `frames` seen through `view`. */
  function FrameImage(view: View, file: FileHandle, i: nat, frames: nat): RenderedImage
  {
    RenderedImage(
      size := PlayerSize,
      background := Rgba(0.0, 0.0, 0.0, 0.0),
      camera := view.0,
      lights := view.1,
      ambientLight := White.Scale(0.4),
      geometry := FileQuery(
        GeometryQuery(
          AllInDefaultScene,
          Some(AnimationQuery(None, RelativeTime(Milliseconds(0.0), Ratio(i, frames))))),
        file),
      outline := Outline(Black, 0.0))
  }

  function FrameCell(view: View, file: FileHandle, i: nat, frames: nat): GridLayoutCell
  {
    Single(Image(FrameImage(view, file, i, frames)))
  }

  /** One row: the frames `0 .. frames - 1` of one view. */
  function FrameRow(view: View, file: FileHandle, frames: nat): (row: seq<GridLayoutCell>)
    ensures |row| == frames
  {
    seq(frames, i requires 0 <= i < frames => FrameCell(view, file, i, frames))
  }

  /** One row per view, in order. */
  function RowsFor(views: seq<View>, file: FileHandle, frames: nat): (rows: seq<seq<GridLayoutCell>>)
    ensures |rows| == |views|
  {
    if views == [] then []
    else [FrameRow(views[0], file, frames)] + RowsFor(views[1..], file, frames)
  }

  /** The rows `generate_player_sprites` appends, as a function of the
      catalog, the opened file and the frame count. */
  function PlayerGrid(catalog: Catalog, file: FileHandle, frames: nat): seq<seq<GridLayoutCell>>
  {
    RowsFor(CamerasLights(catalog, file), file, frames)
  }

  // ----- What every cell of the grid is, field by field -----

  /** The fields every cell shares whatever its position: the player size,
      a fully transparent background, ambient light `white * 0.4`, all of
      the default scene, an unnamed animation sampled from time zero, and
      an outline of thickness zero. */
  predicate SharedFields(img: RenderedImage)
  {
    && img.size == PlayerSize
    && img.background == Rgba(0.0, 0.0, 0.0, 0.0)
    && img.ambientLight == Rgb(0.4, 0.4, 0.4)
    && img.geometry.query.models == AllInDefaultScene
    && img.geometry.query.animation.Some?
    && img.geometry.query.animation.value.name == None
    && img.geometry.query.animation.value.position.startTime == Milliseconds(0.0)
    && img.outline == Outline(Black, 0.0)
  }

  /** Every query of the request reads the one scene file `file`. */
  predicate BoundTo(img: RenderedImage, file: FileHandle)
  {
    && img.camera.source.file == file
    && img.lights.source.file == file
    && img.geometry.file == file
  }

  /** The relative-time weight a cell renders at, if it is a single
      animated request. */
  function CellWeight(c: GridLayoutCell): Option<Ratio>
  {
    if |c.nodes| == 1 && c.nodes[0].Image? && c.nodes[0].image.geometry.query.animation.Some?
    then Some(c.nodes[0].image.geometry.query.animation.value.position.weight)
    else None
  }

  /** Cell `(r, i)` of the player grid: a single request through the view
      of catalog entry `entry` at weight `i / frames`. */
  predicate IsPlayerCell(c: GridLayoutCell, entry: (string, string), file: FileHandle, i: nat, frames: nat)
  {
    && |c.nodes| == 1
    && c.nodes[0].Image?
    && SharedFields(c.nodes[0].image)
    && BoundTo(c.nodes[0].image, file)
    && c.nodes[0].image.camera.source.query == NamedCamera(entry.0, None)
    && c.nodes[0].image.lights.source.query == NamedLights(entry.1, None)
    && CellWeight(c) == Some(Ratio(i, frames))
  }

  /** `g` has one row per catalog entry and `frames` cells per row, and
      cell `(r, i)` is the player cell for entry `r` at frame `i`. */
  predicate IsPlayerGrid(g: seq<seq<GridLayoutCell>>, catalog: Catalog, file: FileHandle, frames: nat)
  {
    && |g| == |catalog|
    && (forall r :: 0 <= r < |g| ==> |g[r]| == frames)
    && (forall r, i :: 0 <= r < |g| && 0 <= i < |g[r]| ==> IsPlayerCell(g[r][i], catalog[r], file, i, frames))
  }

  // ----- generate_player_sprites and main -----

  /** `generate_player_sprites`: opens the player file once and, if that
      succeeds, appends one row of `frames` cells per catalog entry to
      `cells`. A failed open returns its error with `cells` untouched. */
  method GeneratePlayerSprites(
    cells: seq<seq<GridLayoutCell>>,
    open: string -> Result<FileHandle, Error>,
    catalog: Catalog,
    frames: nat)
    returns (cells': seq<seq<GridLayoutCell>>, status: Outcome<Error>)
    ensures open(PlayerGltf).Failure? ==> status == Fail(open(PlayerGltf).error) && cells' == cells
    ensures open(PlayerGltf).Success? ==> status == Pass
    ensures open(PlayerGltf).Success? ==>
      && |cells'| == |cells| + |catalog|
      && cells'[..|cells|] == cells
      && IsPlayerGrid(cells'[|cells|..], catalog, open(PlayerGltf).value, frames)
  {
    var loaded := open(PlayerGltf);
    if loaded.Failure? {
      return cells, Fail(loaded.error);
    }
    var file := loaded.value;
    var views := CamerasLights(catalog, file);
    cells' := cells;
    var r := 0;
    while r < |views|
      invariant 0 <= r <= |views|
      invariant |cells'| == |cells| + r
      invariant cells'[..|cells|] == cells
      invariant forall q :: |cells| <= q < |cells'| ==> |cells'[q]| == frames
      invariant forall q, i :: |cells| <= q < |cells'| && 0 <= i < |cells'[q]| ==>
        IsPlayerCell(cells'[q][i], catalog[q - |cells|], file, i, frames)
    {
      var view := views[r];
      var row := [];
      var i := 0;
      while i < frames
        invariant 0 <= i <= frames
        invariant |row| == i
        invariant forall j :: 0 <= j < i ==> IsPlayerCell(row[j], catalog[r], file, j, frames)
      {
        row := row + [FrameCell(view, file, i, frames)];
        i := i + 1;
      }
      cells' := cells' + [row];
      r := r + 1;
    }
    status := Pass;
  }

  /** The job `main` builds around the grid: scale 4, one grid layout of
      `rows` by `cols` cells of the player size. The `as u32` casts keep the
      low 32 bits and `nz32` demands that neither result is zero. */
  function AssembleJob(cells: seq<seq<GridLayoutCell>>, rows: nat, cols: nat): (job: RenderJob)
    requires AsU32(rows) != 0 && AsU32(cols) != 0
    ensures job.scale == 4
    ensures job.root.Layout? && job.root.layout.grid.cells == cells
    ensures job.root.layout.grid.cellSize == PlayerSize
    ensures rows < U32_LIMIT ==> job.root.layout.grid.rows == rows
    ensures cols < U32_LIMIT ==> job.root.layout.grid.cols == cols
  {
    RenderJob(
      Nz32(SheetScale),
      Layout(Grid(GridLayout(Nz32(AsU32(rows)), Nz32(AsU32(cols)), PlayerSize, cells))))
  }

  /** The renderer's thread context and the rendered sheet, as opaque values. */
  datatype Context = Context(id: nat)
  datatype Sheet = Sheet(id: nat)

  /** What a run of `main` did: its result, the job it handed to `execute`
      (if any) and the sheet it handed to `save` (if any). */
  datatype Run = Run(status: Outcome<Error>, executed: Option<RenderJob>, saved: Option<Sheet>)

  /** `main`: generate the grid into an empty cell list, assemble the job,
      create a render context, execute the job and save the sheet to
      `SpritesheetPng`, stopping at the first error. */
  method RunMain(
    catalog: Catalog,
    frames: nat,
    open: string -> Result<FileHandle, Error>,
    newContext: Result<Context, Error>,
    execute: (Context, RenderJob) -> Result<Sheet, Error>,
    save: (Sheet, string) -> Outcome<Error>)
    returns (run: Run)
    requires open(PlayerGltf).Success? ==> AsU32(|catalog|) != 0 && AsU32(frames) != 0
    ensures open(PlayerGltf).Failure? ==> run == Run(Fail(open(PlayerGltf).error), None, None)
    ensures run.executed.Some? ==>
      && open(PlayerGltf).Success?
      && newContext.Success?
      && run.executed.value == AssembleJob(PlayerGrid(catalog, open(PlayerGltf).value, frames), |catalog|, frames)
    ensures run.saved.Some? ==>
      && run.executed.Some?
      && execute(newContext.value, run.executed.value) == Success(run.saved.value)
    ensures run.status == Pass <==>
      && open(PlayerGltf).Success?
      && newContext.Success?
      && var job := AssembleJob(PlayerGrid(catalog, open(PlayerGltf).value, frames), |catalog|, frames);
      && execute(newContext.value, job).Success?
      && save(execute(newContext.value, job).value, SpritesheetPng) == Pass
    ensures run.status == Pass ==> run.saved.Some?
    ensures open(PlayerGltf).Success? && newContext.Failure? ==>
      run == Run(Fail(newContext.error), None, None)
    ensures open(PlayerGltf).Success? && newContext.Success? ==> run.executed.Some?
    ensures open(PlayerGltf).Success? && newContext.Success? ==>
      var job := AssembleJob(PlayerGrid(catalog, open(PlayerGltf).value, frames), |catalog|, frames);
      execute(newContext.value, job).Failure? ==>
        run.status == Fail(execute(newContext.value, job).error) && run.saved == None
    ensures run.saved.Some? ==> run.status == save(run.saved.value, SpritesheetPng)
    ensures open(PlayerGltf).Success? && newContext.Success? ==>
      var job := AssembleJob(PlayerGrid(catalog, open(PlayerGltf).value, frames), |catalog|, frames);
      execute(newContext.value, job).Success? ==>
        run.saved == Some(execute(newContext.value, job).value)
  {
    var cells, generated := GeneratePlayerSprites([], open, catalog, frames);
    if generated.Fail? {
      return Run(generated, None, None);
    }
    PlayerGridUnique(cells, catalog, open(PlayerGltf).value, frames);
    var job := AssembleJob(cells, |catalog|, frames);
    if newContext.Failure? {
      return Run(Fail(newContext.error), None, None);
    }
    var sheet := execute(newContext.value, job);
    if sheet.Failure? {
      return Run(Fail(sheet.error), Some(job), None);
    }
    var saved := save(sheet.value, SpritesheetPng);
    return Run(saved, Some(job), Some(sheet.value));
  }

  // ----- The grid is exactly the specified one -----

  /** A cell meeting the specification is the cell the generator builds. */
  lemma PlayerCellUnique(c: GridLayoutCell, entry: (string, string), file: FileHandle, i: nat, frames: nat)
    requires IsPlayerCell(c, entry, file, i, frames)
    ensures c == FrameCell(ViewFor(entry, file), file, i, frames)
  {
  }

  /** Rows built from views matching the catalog meet the specification. */
  lemma {:induction false} RowsForMeetSpec(views: seq<View>, catalog: Catalog, file: FileHandle, frames: nat)
    requires |views| == |catalog|
    requires forall k :: 0 <= k < |views| ==> ViewMatches(views[k], catalog[k], file)
    ensures IsPlayerGrid(RowsFor(views, file, frames), catalog, file, frames)
    decreases |views|
  {
    if views != [] {
      RowsForMeetSpec(views[1..], catalog[1..], file, frames);
      var g := RowsFor(views, file, frames);
      assert g == [FrameRow(views[0], file, frames)] + RowsFor(views[1..], file, frames);
      forall r, i | 0 <= r < |g| && 0 <= i < |g[r]|
        ensures IsPlayerCell(g[r][i], catalog[r], file, i, frames)
      {
        if r > 0 {
          assert g[r] == RowsFor(views[1..], file, frames)[r - 1];
        }
      }
    }
  }

  /** The grid `PlayerGrid` builds meets the specification: one row per
      entry, `frames` cells per row, each the right view at the right weight. */
  lemma PlayerGridMeetsSpec(catalog: Catalog, file: FileHandle, frames: nat)
    ensures IsPlayerGrid(PlayerGrid(catalog, file, frames), catalog, file, frames)
  {
    RowsForMeetSpec(CamerasLights(catalog, file), catalog, file, frames);
  }

  /** Conversely, the specification has exactly one solution: `PlayerGrid`. */
  lemma PlayerGridUnique(g: seq<seq<GridLayoutCell>>, catalog: Catalog, file: FileHandle, frames: nat)
    requires IsPlayerGrid(g, catalog, file, frames)
    ensures g == PlayerGrid(catalog, file, frames)
  {
    var p := PlayerGrid(catalog, file, frames);
    PlayerGridMeetsSpec(catalog, file, frames);
    forall r | 0 <= r < |g|
      ensures g[r] == p[r]
    {
      forall i | 0 <= i < |g[r]|
        ensures g[r][i] == p[r][i]
      {
        PlayerCellUnique(g[r][i], catalog[r], file, i, frames);
        PlayerCellUnique(p[r][i], catalog[r], file, i, frames);
      }
    }
  }
}
