/** The windowing store: one window/level configuration, absent until first set. */
module Windowing {
  import opened Wrappers

  datatype WindowingConfig = WindowingConfig(level: real, width: real, min: real, max: real)

  datatype ConfigPatch = ConfigPatch(level: Option<real>, width: Option<real>, min: Option<real>, max: Option<real>)

  const DefaultWindowWidth: real := 400.0
  const DefaultWindowLevel: real := 40.0

  const DefaultConfig := WindowingConfig(DefaultWindowLevel, DefaultWindowWidth, 0.0, 1000.0)

  /** `{...config, ...patch}`. */
  function Patched(c: WindowingConfig, p: ConfigPatch): (r: WindowingConfig)
    ensures r.level == (if p.level.Some? then p.level.value else c.level)
    ensures r.width == (if p.width.Some? then p.width.value else c.width)
    ensures r.min == (if p.min.Some? then p.min.value else c.min)
    ensures r.max == (if p.max.Some? then p.max.value else c.max)
  {
    WindowingConfig(p.level.GetOr(c.level), p.width.GetOr(c.width), p.min.GetOr(c.min), p.max.GetOr(c.max))
  }

  /** Applying a patch twice is applying it once, and the empty patch changes nothing. */
  lemma PatchedIdempotent(c: WindowingConfig, p: ConfigPatch)
    ensures Patched(Patched(c, p), p) == Patched(c, p)
    ensures Patched(c, ConfigPatch(None, None, None, None)) == c
  {
  }

  class WindowingStore {
    var config: Option<WindowingConfig>

    constructor ()
      ensures config == None
    {
      config := None;
    }

    /** `setConfig`: patches the configuration, starting from the defaults when there is none yet. */
    method SetConfig(patch: ConfigPatch)
      modifies this
      ensures config == Some(Patched(old(config).GetOr(DefaultConfig), patch))
    {
      if config.Some? {
        config := Some(Patched(config.value, patch));
      } else {
        config := Some(Patched(DefaultConfig, patch));
      }
    }
  }
}
