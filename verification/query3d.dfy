/** Value descriptors naming what to extract from a loaded scene file
    (the `spritec::query3d` and `spritec::math` types the generator uses).
    Only the variants the spritesheet generator constructs are modelled. */
module Query3d {
  import opened Wrappers
  import opened Num

  /** Opaque identity of one loaded glTF file, as handed out by the file
      cache; two queries holding the same handle share one parsed scene. */
  datatype FileHandle = FileHandle(id: nat)

  /** `CameraQuery::Named`: a camera found by name, optionally in a scene. */
  datatype CameraQuery = NamedCamera(name: string, scene: Option<string>)

  /** `LightQuery::Named`: the lights found by name, optionally in a scene. */
  datatype LightQuery = NamedLights(name: string, scene: Option<string>)

  /** The geometry filter; only `all_in_default_scene()` is used. */
  datatype GeometryFilter = AllInDefaultScene

  datatype Milliseconds = Milliseconds(msec: real)

  /** `AnimationPosition::RelativeTime`: the pose `weight` of the way through
      the clip, measured from `startTime`. */
  datatype AnimationPosition = RelativeTime(startTime: Milliseconds, weight: Ratio)

  datatype AnimationQuery = AnimationQuery(name: Option<string>, position: AnimationPosition)

  datatype GeometryQuery = GeometryQuery(models: GeometryFilter, animation: Option<AnimationQuery>)

  /** Colours with exact real channels (the source uses `f32`). */
  datatype Rgb = Rgb(r: real, g: real, b: real)
  {
    /** `Rgb * k`: every channel scaled by `k`. */
    function Scale(k: real): Rgb
    {
      Rgb(r * k, g * k, b * k)
    }
  }

  datatype Rgba = Rgba(r: real, g: real, b: real, a: real)

  const White: Rgb := Rgb(1.0, 1.0, 1.0)
  const Black: Rgba := Rgba(0.0, 0.0, 0.0, 1.0)
}
