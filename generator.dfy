/** The icon-generation orchestrator: the best-effort batch over a list of
    targets, the bundled favicon, and the run that applies the request's
    defaults and sequences the light, dark and favicon stages.

    Each operation is given twice: as a function from the state before to
    the result and the state after (the specification the properties are
    proved about), and as a method that performs the effects step by step
    on a `Disk` and is proved to agree with that function. */
module Generator {
  import opened Wrappers
  import opened Config
  import opened Density
  import opened Effects

  /** What became of one target: written, or failed and skipped. */
  datatype Outcome = Generated(name: string, size: int) | Failed(name: string)

  /** The one error that escapes the per-target and favicon error handling. */
  datatype Error = MkdirFailed(dir: Path)

  /** What became of the bundled favicon. */
  datatype FaviconOutcome = FaviconWritten(path: Path) | FaviconFailed

  /** What a completed run reports, stage by stage; `None` marks a stage
      that did not run. */
  datatype Report = Report(
    light: seq<Outcome>,
    dark: Option<seq<Outcome>>,
    favicon: Option<FaviconOutcome>)

  /** A request with its defaults applied. */
  datatype Settings = Settings(
    input: Path,
    inputDark: Option<Path>,
    outputDir: Path,
    sizes: seq<IconConfig>,
    darkSizes: Option<seq<IconConfig>>,
    generateFavicon: bool,
    faviconDir: Path,
    density: int)

  const DefaultDensity: int := 300
  const FaviconName: string := "favicon.ico"

  /** The request with every absent field replaced by its default. */
  function Resolve(cfg: GeneratorConfig): (s: Settings)
  {
    Settings(
      cfg.input,
      cfg.inputDark,
      cfg.outputDir,
      if cfg.sizes.Some? then cfg.sizes.value else DefaultSizes,
      cfg.darkSizes,
      if cfg.generateFavicon.Some? then cfg.generateFavicon.value else true,
      if cfg.faviconDir.Some? then cfg.faviconDir.value else cfg.outputDir,
      if cfg.density.Some? then cfg.density.value else DefaultDensity)
  }

  /** The dark stage runs when a dark input is given and is not the empty
      path, and a dark target list is given (an empty list still counts). */
  predicate DarkEnabled(s: Settings)
  {
    s.inputDark.Some? && s.inputDark.value != "" && s.darkSizes.Some?
  }

  // ---------------------------------------------------------------------
  // The batch over a target list

  /** The render job for one target: a square of the target's size, at the
      size's effective density and with its kernel, written to the target's
      name inside `dir`. */
  function TargetJob(src: Path, dir: Path, density: int, t: IconConfig): RenderJob
  {
    RenderJob(src, t.size, t.size, EffectiveDensity(t.size, density),
              Some(KernelFor(t.size)), ToFile(Join(dir, t.name)))
  }

  /** The render jobs for a whole target list, in list order. */
  function BatchJobs(src: Path, cs: seq<IconConfig>, dir: Path, density: int): (jobs: seq<RenderJob>)
  {
    seq(|cs|, i requires 0 <= i < |cs| => TargetJob(src, dir, density, cs[i]))
  }

  /** A target's outcome given what its render produced. */
  function OutcomeOf(t: IconConfig, png: Option<Bytes>): Outcome
  {
    if png.Some? then Generated(t.name, t.size) else Failed(t.name)
  }

  /** The targets rendered one after another; a failed target is recorded
      and the next one is tried. Every target gets one outcome, under its own
      name, and no file present before is removed. */
  function Batch(env: Env, st: State, src: Path, cs: seq<IconConfig>, dir: Path, density: int)
    : (res: (seq<Outcome>, State))
    ensures |res.0| == |cs|
    ensures forall i :: 0 <= i < |cs| ==> res.0[i].name == cs[i].name
    ensures st.files.Keys <= res.1.files.Keys
    ensures |res.1.trace| == |st.trace| + |cs| && res.1.trace[..|st.trace|] == st.trace
    decreases |cs|
  {
    if cs == [] then ([], st)
    else
      var (outcomes, st1) := Batch(env, st, src, cs[..|cs| - 1], dir, density);
      var t := cs[|cs| - 1];
      var (png, st2) := RenderStep(env, st1, TargetJob(src, dir, density, t));
      (outcomes + [OutcomeOf(t, png)], st2)
  }

  /** One icon set: create the output directory (a failure here escapes),
      then the batch. */
  function IconsFromSvg(env: Env, st: State, src: Path, cs: seq<IconConfig>, dir: Path, density: int)
    : (Result<seq<Outcome>, Error>, State)
  {
    var (ok, st1) := MkdirStep(env, st, dir);
    if !ok then (Err(MkdirFailed(dir)), st1)
    else
      var (outcomes, st2) := Batch(env, st1, src, cs, dir, density);
      (Ok(outcomes), st2)
  }

  method GenerateIconsFromSvg(disk: Disk, env: Env, svgPath: Path, configs: seq<IconConfig>,
                              outputDir: Path, density: int)
    returns (r: Result<seq<Outcome>, Error>)
    modifies disk
    ensures (r, disk.Snapshot()) == IconsFromSvg(env, old(disk.Snapshot()), svgPath, configs, outputDir, density)
  {
    var ok := disk.EnsureDir(env, outputDir);
    if !ok {
      return Err(MkdirFailed(outputDir));
    }
    ghost var start := disk.Snapshot();
    var outcomes: seq<Outcome> := [];
    var i := 0;
    while i < |configs|
      invariant 0 <= i <= |configs|
      invariant (outcomes, disk.Snapshot()) == Batch(env, start, svgPath, configs[..i], outputDir, density)
    {
      var t := configs[i];
      var png := disk.RenderImage(env, TargetJob(svgPath, outputDir, density, t));
      if png.Some? {
        outcomes := outcomes + [Generated(t.name, t.size)];
      } else {
        outcomes := outcomes + [Failed(t.name)];
      }
      assert configs[..i + 1][..i] == configs[..i];
      i := i + 1;
    }
    assert configs[..|configs|] == configs;
    r := Ok(outcomes);
  }

  // ---------------------------------------------------------------------
  // The bundled favicon

  /** A favicon frame: the primary source rendered to a buffer, with the
      library's default kernel. */
  function FaviconJob(src: Path, size: int, density: int): RenderJob
  {
    RenderJob(src, size, size, density, None, ToBuffer)
  }

  function FaviconJob16(src: Path, density: int): RenderJob
  {
    FaviconJob(src, 16, density * 8)
  }

  function FaviconJob32(src: Path, density: int): RenderJob
  {
    FaviconJob(src, 32, density * 6)
  }

  /** Render the 16 and 32 pixel frames, bundle them in that order, write
      the bundle; the first failing step ends the attempt. */
  function Favicon(env: Env, st: State, src: Path, outPath: Path, density: int)
    : (FaviconOutcome, State)
  {
    var (png16, st1) := RenderStep(env, st, FaviconJob16(src, density));
    if png16.None? then (FaviconFailed, st1)
    else
      var (png32, st2) := RenderStep(env, st1, FaviconJob32(src, density));
      if png32.None? then (FaviconFailed, st2)
      else
        var (ico, st3) := BundleStep(env, st2, [png16.value, png32.value]);
        if ico.None? then (FaviconFailed, st3)
        else
          var (ok, st4) := WriteStep(env, st3, outPath, ico.value);
          (if ok then FaviconWritten(outPath) else FaviconFailed, st4)
  }

  method GenerateFavicon(disk: Disk, env: Env, svgPath: Path, outputPath: Path, density: int)
    returns (r: FaviconOutcome)
    modifies disk
    ensures (r, disk.Snapshot()) == Favicon(env, old(disk.Snapshot()), svgPath, outputPath, density)
  {
    var png16 := disk.RenderImage(env, FaviconJob16(svgPath, density));
    if png16.None? {
      return FaviconFailed;
    }
    var png32 := disk.RenderImage(env, FaviconJob32(svgPath, density));
    if png32.None? {
      return FaviconFailed;
    }
    var ico := disk.BundleIcons(env, [png16.value, png32.value]);
    if ico.None? {
      return FaviconFailed;
    }
    var ok := disk.WriteFile(env, outputPath, ico.value);
    if !ok {
      return FaviconFailed;
    }
    r := FaviconWritten(outputPath);
  }

  // ---------------------------------------------------------------------
  // The whole run

  /** The dark set, when enabled; writes into the light set's directory. */
  function DarkStage(env: Env, st: State, s: Settings): (Result<Option<seq<Outcome>>, Error>, State)
  {
    if !DarkEnabled(s) then (Ok(None), st)
    else
      var (r, st1) := IconsFromSvg(env, st, s.inputDark.value, s.darkSizes.value, s.outputDir, s.density);
      (if r.Err? then Err(r.error) else Ok(Some(r.value)), st1)
  }

  /** The favicon, when enabled: create its directory (a failure here
      escapes), then build it from the primary source. */
  function FaviconStage(env: Env, st: State, s: Settings): (Result<Option<FaviconOutcome>, Error>, State)
  {
    if !s.generateFavicon then (Ok(None), st)
    else
      var (ok, st1) := MkdirStep(env, st, s.faviconDir);
      if !ok then (Err(MkdirFailed(s.faviconDir)), st1)
      else
        var (f, st2) := Favicon(env, st1, s.input, Join(s.faviconDir, FaviconName), s.density);
        (Ok(Some(f)), st2)
  }

  /** The light set, then the dark set, then the favicon; an `Ok` result is
      the run reaching its completion message. */
  function Run(env: Env, st: State, cfg: GeneratorConfig): (Result<Report, Error>, State)
  {
    var s := Resolve(cfg);
    var (light, st1) := IconsFromSvg(env, st, s.input, s.sizes, s.outputDir, s.density);
    if light.Err? then (Err(light.error), st1)
    else
      var (dark, st2) := DarkStage(env, st1, s);
      if dark.Err? then (Err(dark.error), st2)
      else
        var (fav, st3) := FaviconStage(env, st2, s);
        if fav.Err? then (Err(fav.error), st3)
        else (Ok(Report(light.value, dark.value, fav.value)), st3)
  }

  method GenerateIcons(disk: Disk, env: Env, config: GeneratorConfig) returns (r: Result<Report, Error>)
    modifies disk
    ensures (r, disk.Snapshot()) == Run(env, old(disk.Snapshot()), config)
  {
    var s := Resolve(config);
    var light := GenerateIconsFromSvg(disk, env, s.input, s.sizes, s.outputDir, s.density);
    if light.Err? {
      return Err(light.error);
    }
    var dark: Option<seq<Outcome>> := None;
    if DarkEnabled(s) {
      var d := GenerateIconsFromSvg(disk, env, s.inputDark.value, s.darkSizes.value, s.outputDir, s.density);
      if d.Err? {
        return Err(d.error);
      }
      dark := Some(d.value);
    }
    var favicon: Option<FaviconOutcome> := None;
    if s.generateFavicon {
      var ok := disk.EnsureDir(env, s.faviconDir);
      if !ok {
        return Err(MkdirFailed(s.faviconDir));
      }
      var f := GenerateFavicon(disk, env, s.input, Join(s.faviconDir, FaviconName), s.density);
      favicon := Some(f);
    }
    r := Ok(Report(light.value, dark, favicon));
  }
}
