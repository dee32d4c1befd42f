# Spritesheet grid construction, in Dafny

This project models the generator behind the game's player spritesheet
(`assets/spritesheets/src/main.rs`). The generator opens the player's glTF
scene once. It then turns a catalog of view directions into one camera
query and one light query per direction (`cameras_lights`). Next it
expands "directions × walk frames" into a row-major grid of render
requests (`generate_player_sprites`). Finally, `main` wraps the grid in a
render job with declared rows, columns, cell size and scale, executes the
job and saves the sheet.

The model is functional. Queries, requests, layout cells and jobs are
immutable datatypes. The direction catalog and the frame count are
parameters; the shipped eight directions and eight frames are constants,
covered by an instance lemma. A scene file handle is an opaque
`FileHandle` id. Its identity is the only thing the grid depends on.
Animation weights are exact ratios `Ratio(i, frames)`. Colours use exact
real channels.

Modules:

- `Wrappers` holds `Option`, `Result` and `Outcome`, where `Outcome` is
  Rust's `Result<(), E>`.
- `Num` holds `u32`, `NonZeroU32`, the `as u32` cast and exact ratios.
- `Query3d` and `Renderer` hold the request and layout value types the
  generator builds.
- `Spritesheets` holds the constants, `nz32`, `cameras_lights`, the grid
  and its field-by-field specification, `generate_player_sprites`, the job
  assembly and `main`.
- `SpritesheetProperties` holds lemmas about the grid and the job.

The external collaborators are parameters of `RunMain` and
`GeneratePlayerSprites`:

- the file cache's `open`, as a function from a path to a handle or an error;
- the render context creation, as a given result;
- `execute` and `save`, as functions.

Two facts about the code shape the model:

- With an empty catalog, `main` would call `nz32(0)` after a successful
  open, which main.rs:37 documents as undefined behaviour. The model
  therefore makes non-zero row and column counts a precondition of
  `AssembleJob`, and of `RunMain` whenever the open succeeds.
- The row count is `CAMERAS_LIGHTS.len() as u32`, a truncating cast. The
  declared rows equal the catalog length only when that length fits in
  32 bits. The shipped catalog has 8 entries.

## Model

| member | source | states |
|---|---|---|
| Num.AsU32 | assets/spritesheets/src/main.rs:68-69 | the `as u32` cast leaves a count below 2^32 unchanged and never makes a count larger |
| Spritesheets.Nz32 | assets/spritesheets/src/main.rs:37-40 | callers must pass a non-zero `u32`; the result is that same number as a `NonZeroU32` |
| Spritesheets.CamerasLights | assets/spritesheets/src/main.rs:121-143 | one view per catalog entry, in catalog order; view `k` names camera `catalog[k].0` and lights `catalog[k].1`, each with scene `None` and bound to the one file passed in |
| SpritesheetProperties.CamerasLightsRoundTrip | assets/spritesheets/src/main.rs:121-143 | reading the camera and light names back out of the views gives exactly the catalog |
| Spritesheets.GeneratePlayerSprites | assets/spritesheets/src/main.rs:82-119 | a failed open returns its error and leaves `cells` untouched; otherwise the result is `Pass`, the existing rows are unchanged, and exactly `catalog` many rows of `frames` cells are appended, cell `(r, i)` being the player cell for entry `r` at frame `i` |
| Spritesheets.PlayerCellUnique | assets/spritesheets/src/main.rs:91-113 | the per-cell specification determines the cell completely: any cell meeting it is the generator's single request for that view and frame |
| Spritesheets.RowsForMeetSpec | assets/spritesheets/src/main.rs:88-116 | one row per view, in order, each holding `frames` cells meeting the per-cell specification for its catalog entry |
| Spritesheets.PlayerGridMeetsSpec | assets/spritesheets/src/main.rs:88-116 | the built grid has `catalog` many rows of `frames` cells, and cell `(r, i)` names entry `r`'s camera and lights at weight `i / frames` with all shared fields |
| Spritesheets.PlayerGridUnique | assets/spritesheets/src/main.rs:88-116 | conversely, any grid meeting the specification equals the built grid |
| SpritesheetProperties.CellView | assets/spritesheets/src/main.rs:88-95 | cell `(r, i)` is a single request whose camera and lights are the `r`-th pair produced by `cameras_lights`, the same for every frame of the row |
| SpritesheetProperties.CellsShareFields | assets/spritesheets/src/main.rs:86-113 | every cell has the player size, a fully transparent background, ambient light `white * 0.4`, the all-in-default-scene filter, an unnamed animation starting at time 0 and an outline of thickness 0; its camera, lights and geometry all read the single file opened at the start |
| SpritesheetProperties.RowWeights | assets/spritesheets/src/main.rs:90-105 | in every row, frame `i` is at weight `i / frames`; the first weight is exactly 0, the weights strictly increase, and none reaches 1 |
| Spritesheets.AssembleJob | assets/spritesheets/src/main.rs:65-73 | the job has scale 4 and a grid layout of player-size cells holding the given cells; its declared rows and columns are the given counts when these fit in a `u32`; the counts must not truncate to zero |
| SpritesheetProperties.PlayerJobConsistent | assets/spritesheets/src/main.rs:62-72 | the job built around the generated grid declares exactly as many rows and columns as the grid holds |
| SpritesheetProperties.GridIndependentOfHandle | assets/spritesheets/src/main.rs:86-110 | building the grid against another handle gives the same requests, only re-bound to the other handle |
| SpritesheetProperties.ShippedSheet | assets/spritesheets/src/main.rs:42-57 | the shipped constants give a consistent 8 by 8 grid of 32 by 32 cells at scale 4, with row `r` looking through direction `r` at weight `i / 8` |
| Spritesheets.RunMain | assets/spritesheets/src/main.rs:59-80 | a failed open stops the run before any job is executed or anything saved; the job handed to `execute` is the one assembled around the generated grid; `save` only receives a sheet that `execute` returned for that job; the run succeeds exactly when open, context creation, execute and save all succeed; a failing step's error is returned unchanged, once open and context creation succeed the assembled job is always executed, and once execute succeeds its sheet is always handed to `save`; the non-zero counts are demanded only when the open succeeds |

## Left out

- The weak file cache (`WeakFileCache::open_gltf`), its `Arc<Mutex<File>>` sharing and its eviction are foreign library code. `open` is a function parameter returning an opaque handle or an error.
- `ThreadRenderContext::new`, `RenderJob::execute` and `sheet.save` belong to the external renderer and to file I/O. They are parameters of `RunMain`. The model records only which job was executed and which sheet was saved.
- `f32` arithmetic is left out. Weights are exact ratios `(i, frames)`, and the ambient light is exactly `0.4` per channel. `Milliseconds` holds an exact real.
- `Rgba::black()` and `Rgb::white()` are defined in the renderer library, which is not part of this model. They are taken to be opaque black `(0, 0, 0, 1)` and `(1, 1, 1)`.
- glTF parsing, resolving camera and light names, and the pixel size of the output sheet all happen inside the renderer library, so they are not modelled.
- Query and layout variants the generator never builds are not modelled. Examples are inline cameras and lights, other geometry filters, and other animation positions.
- `anyhow::Error` is an opaque `Error` value. Every error is passed through unchanged.
- AssembleJob: declared rows and columns equal the given counts only below 2^32, because the source casts them with `as u32` before `nz32`.
