/** What the orchestrator promises, proved about the specification functions
    of module Generator (and so, through their `ensures`, about its
    methods). */
module GeneratorProperties {
  import opened Wrappers
  import opened Config
  import opened Density
  import opened Effects
  import opened Generator

  /** The trace entries of a list of render jobs, in order. */
  function RenderEvents(jobs: seq<RenderJob>): (es: seq<Event>)
  {
    seq(|jobs|, i requires 0 <= i < |jobs| => Render(jobs[i]))
  }

  /** The render jobs recorded in a trace, in order. */
  function RenderJobs(trace: seq<Event>): (jobs: seq<RenderJob>)
    decreases |trace|
  {
    if trace == [] then []
    else
      var last := trace[|trace| - 1];
      RenderJobs(trace[..|trace| - 1]) + (if last.Render? then [last.job] else [])
  }

  lemma {:induction false} RenderJobsAppend(a: seq<Event>, b: seq<Event>)
    ensures RenderJobs(a + b) == RenderJobs(a) + RenderJobs(b)
    decreases |b|
  {
    if b != [] {
      assert (a + b)[..|a + b| - 1] == a + b[..|b| - 1];
      RenderJobsAppend(a, b[..|b| - 1]);
    } else {
      assert a + b == a;
    }
  }

  lemma {:induction false} RenderJobsOfRenders(jobs: seq<RenderJob>)
    ensures RenderJobs(RenderEvents(jobs)) == jobs
    decreases |jobs|
  {
    if jobs != [] {
      assert RenderEvents(jobs)[..|jobs| - 1] == RenderEvents(jobs[..|jobs| - 1]);
      RenderJobsOfRenders(jobs[..|jobs| - 1]);
    }
  }

  // ---------------------------------------------------------------------
  // The batch

  /** Every target is attempted, and its outcome depends on its own render
      only: a failure elsewhere in the list does not change it. */
  lemma {:induction false} BatchOutcomeAt(env: Env, st: State, src: Path, cs: seq<IconConfig>,
                                          dir: Path, density: int, i: int)
    requires 0 <= i < |cs|
    ensures Batch(env, st, src, cs, dir, density).0[i]
         == OutcomeOf(cs[i], env.render(TargetJob(src, dir, density, cs[i])))
    decreases |cs|
  {
    if i < |cs| - 1 {
      BatchOutcomeAt(env, st, src, cs[..|cs| - 1], dir, density, i);
    }
  }

  /** The targets are rendered one at a time, in list order, each exactly
      once and nothing else is done. */
  lemma {:induction false} BatchTrace(env: Env, st: State, src: Path, cs: seq<IconConfig>,
                                      dir: Path, density: int)
    ensures Batch(env, st, src, cs, dir, density).1.trace
         == st.trace + RenderEvents(BatchJobs(src, cs, dir, density))
    decreases |cs|
  {
    if cs != [] {
      var init := cs[..|cs| - 1];
      BatchTrace(env, st, src, init, dir, density);
      assert RenderEvents(BatchJobs(src, cs, dir, density))
          == RenderEvents(BatchJobs(src, init, dir, density))
             + [Render(TargetJob(src, dir, density, cs[|cs| - 1]))];
    }
  }

  /** A path that no successful target of the batch writes to keeps its
      content, or its absence: earlier writes are never undone. */
  lemma {:induction false} BatchKeepsOtherFiles(env: Env, st: State, src: Path, cs: seq<IconConfig>,
                                                dir: Path, density: int, p: Path)
    requires forall i :: 0 <= i < |cs| && env.render(TargetJob(src, dir, density, cs[i])).Some?
               ==> Join(dir, cs[i].name) != p
    ensures var files := Batch(env, st, src, cs, dir, density).1.files;
      (p in files <==> p in st.files) && (p in st.files ==> files[p] == st.files[p])
    decreases |cs|
  {
    if cs != [] {
      BatchKeepsOtherFiles(env, st, src, cs[..|cs| - 1], dir, density, p);
    }
  }

  /** A target whose render succeeds leaves its image at `dir`/name when no
      later target writing to the same path succeeds; a later target at that
      path that fails leaves the earlier image in place. */
  lemma {:induction false} BatchWritesTarget(env: Env, st: State, src: Path, cs: seq<IconConfig>,
                                             dir: Path, density: int, i: int)
    requires 0 <= i < |cs|
    requires env.render(TargetJob(src, dir, density, cs[i])).Some?
    requires forall j :: i < j < |cs| && Join(dir, cs[j].name) == Join(dir, cs[i].name)
               ==> env.render(TargetJob(src, dir, density, cs[j])).None?
    ensures var files := Batch(env, st, src, cs, dir, density).1.files;
      Join(dir, cs[i].name) in files
      && files[Join(dir, cs[i].name)] == env.render(TargetJob(src, dir, density, cs[i])).value
    decreases |cs|
  {
    var last := |cs| - 1;
    if i < last {
      BatchWritesTarget(env, st, src, cs[..last], dir, density, i);
    }
  }

  /** After the batch, every target whose render succeeded has a file at
      `dir`/name. */
  lemma {:induction false} BatchCreatesPath(env: Env, st: State, src: Path, cs: seq<IconConfig>,
                                            dir: Path, density: int, i: int)
    requires 0 <= i < |cs|
    requires env.render(TargetJob(src, dir, density, cs[i])).Some?
    ensures Join(dir, cs[i].name) in Batch(env, st, src, cs, dir, density).1.files
    decreases |cs|
  {
    if i < |cs| - 1 {
      BatchCreatesPath(env, st, src, cs[..|cs| - 1], dir, density, i);
    }
  }

  // ---------------------------------------------------------------------
  // The favicon

  /** The favicon frames are the 16 and 32 pixel targets' renders of the
      primary source, at the same densities the size buckets give, kept in
      memory and left to the library's default kernel. */
  lemma FaviconDensitiesAgree(src: Path, dir: Path, density: int, name: string)
    ensures FaviconJob16(src, density).density == EffectiveDensity(16, density)
    ensures FaviconJob32(src, density).density == EffectiveDensity(32, density)
    ensures FaviconJob16(src, density)
         == TargetJob(src, dir, density, IconConfig(name, 16)).(kernel := None, dest := ToBuffer)
    ensures FaviconJob32(src, density)
         == TargetJob(src, dir, density, IconConfig(name, 32)).(kernel := None, dest := ToBuffer)
  {
  }

  /** The favicon is written, as one file at `outPath` holding the bundle of
      the 16 and then the 32 pixel frame, exactly when both renders, the
      bundling and the write succeed; otherwise no file changes. */
  lemma FaviconWrittenIff(env: Env, st: State, src: Path, outPath: Path, density: int)
    ensures var (f, st') := Favicon(env, st, src, outPath, density);
      var png16 := env.render(FaviconJob16(src, density));
      var png32 := env.render(FaviconJob32(src, density));
      var allOk := png16.Some? && png32.Some?
        && env.bundle([png16.value, png32.value]).Some? && env.canWrite(outPath);
      (f.FaviconWritten? <==> allOk)
      && (f.FaviconWritten? ==> f.path == outPath)
      && st'.files == if allOk then st.files[outPath := env.bundle([png16.value, png32.value]).value]
                      else st.files
  {
  }

  /** Rendering the favicon reads only its source, renders only to memory,
      and attempts the 32 pixel frame only after the 16 pixel one
      succeeded. */
  lemma FaviconRenders(env: Env, st: State, src: Path, outPath: Path, density: int)
    ensures var st' := Favicon(env, st, src, outPath, density).1;
      st'.trace[..|st.trace|] == st.trace
      && RenderJobs(st'.trace) == RenderJobs(st.trace) + FaviconAttempts(env, src, density)
  {
    var png16 := env.render(FaviconJob16(src, density));
    var png32 := env.render(FaviconJob32(src, density));
    var st' := Favicon(env, st, src, outPath, density).1;
    var r16 := [Render(FaviconJob16(src, density))];
    var r32 := [Render(FaviconJob32(src, density))];
    var tail :=
      if png16.None? then r16
      else if png32.None? then r16 + r32
      else if env.bundle([png16.value, png32.value]).None? then r16 + r32 + [Bundle([png16.value, png32.value])]
      else r16 + r32 + [Bundle([png16.value, png32.value]), Write(outPath)];
    assert st'.trace == st.trace + tail;
    RenderJobsAppend(st.trace, tail);
    assert RenderJobs(r16) == [FaviconJob16(src, density)];
    if png16.Some? {
      RenderJobsAppend(r16, r32);
      if png32.Some? {
        RenderJobsAppend(r16 + r32, tail[2..]);
        assert tail == r16 + r32 + tail[2..];
      }
    }
  }

  /** The favicon renders attempted: the 16 pixel frame, then the 32 pixel
      frame if the first succeeded. */
  function FaviconAttempts(env: Env, src: Path, density: int): (jobs: seq<RenderJob>)
  {
    [FaviconJob16(src, density)]
    + (if env.render(FaviconJob16(src, density)).Some? then [FaviconJob32(src, density)] else [])
  }

  // ---------------------------------------------------------------------
  // The run

  /** Defaults of an absent field: the five built-in targets, the favicon
      enabled and written next to the PNGs, and density 300. */
  lemma ResolveDefaults(cfg: GeneratorConfig)
    ensures var s := Resolve(cfg);
      (cfg.sizes.None? ==>
         (s.sizes == DefaultSizes
          && |s.sizes| == 5 && s.sizes[0].size == 16 && s.sizes[1].size == 32
          && s.sizes[2].size == 180 && s.sizes[3].size == 192 && s.sizes[4].size == 512))
      && (cfg.generateFavicon.None? ==> s.generateFavicon)
      && (cfg.faviconDir.None? ==> s.faviconDir == s.outputDir)
      && (cfg.density.None? ==> s.density == 300)
      && (cfg.sizes.Some? ==> s.sizes == cfg.sizes.value)
      && (cfg.density.Some? ==> s.density == cfg.density.value)
      && (cfg.generateFavicon.Some? ==> s.generateFavicon == cfg.generateFavicon.value)
      && (cfg.faviconDir.Some? ==> s.faviconDir == cfg.faviconDir.value)
  {
  }

  /** The directories a run must create succeed. */
  predicate DirsOk(env: Env, s: Settings)
  {
    env.canMkdir(s.outputDir) && (s.generateFavicon ==> env.canMkdir(s.faviconDir))
  }

  /** The run reaches completion exactly when its directories can be
      created: no render, bundling or write failure stops it. */
  lemma RunCompletesIff(env: Env, st: State, cfg: GeneratorConfig)
    ensures Run(env, st, cfg).0.Ok? <==> DirsOk(env, Resolve(cfg))
    ensures Run(env, st, cfg).0.Err? ==>
      (Run(env, st, cfg).0.error == MkdirFailed(Resolve(cfg).outputDir)
       || Run(env, st, cfg).0.error == MkdirFailed(Resolve(cfg).faviconDir))
    ensures Run(env, st, cfg).0.Err? ==> !env.canMkdir(Run(env, st, cfg).0.error.dir)
    ensures !env.canMkdir(Resolve(cfg).outputDir) ==>
      Run(env, st, cfg).0 == Err(MkdirFailed(Resolve(cfg).outputDir))
  {
  }

  /** A completed run reports one outcome per light target, a dark report
      exactly when the dark stage is enabled (one outcome per dark target),
      and a favicon outcome exactly when the favicon is enabled. */
  lemma RunReport(env: Env, st: State, cfg: GeneratorConfig)
    requires Run(env, st, cfg).0.Ok?
    ensures var s := Resolve(cfg); var rep := Run(env, st, cfg).0.value;
      |rep.light| == |s.sizes|
      && (forall i :: 0 <= i < |s.sizes| ==> rep.light[i].name == s.sizes[i].name)
      && (rep.dark.Some? <==> DarkEnabled(s))
      && (rep.dark.Some? ==>
            (|rep.dark.value| == |s.darkSizes.value|
             && forall i :: 0 <= i < |s.darkSizes.value| ==> rep.dark.value[i].name == s.darkSizes.value[i].name))
      && (rep.favicon.Some? <==> s.generateFavicon)
  {
  }

  /** The planned render jobs in order: the light targets from the primary
      source, the dark targets from the dark source (both into the output
      directory), then the favicon frames from the primary source. */
  function Plan(cfg: GeneratorConfig): (jobs: seq<RenderJob>)
  {
    var s := Resolve(cfg);
    BatchJobs(s.input, s.sizes, s.outputDir, s.density)
    + (if DarkEnabled(s) then BatchJobs(s.inputDark.value, s.darkSizes.value, s.outputDir, s.density) else [])
    + (if s.generateFavicon then [FaviconJob16(s.input, s.density), FaviconJob32(s.input, s.density)] else [])
  }

  /** Every planned job renders a square of the target size; the light and
      dark jobs write into the output directory, the favicon jobs read the
      primary source and render to memory. */
  lemma PlanShape(cfg: GeneratorConfig, k: int)
    requires 0 <= k < |Plan(cfg)|
    ensures var s := Resolve(cfg); var job := Plan(cfg)[k];
      var nLight := |s.sizes|;
      var nDark := if DarkEnabled(s) then |s.darkSizes.value| else 0;
      job.width == job.height
      && (k < nLight ==>
            (job.source == s.input && job.width == s.sizes[k].size
             && job.dest == ToFile(Join(s.outputDir, s.sizes[k].name))))
      && (nLight <= k < nLight + nDark ==>
            (job.source == s.inputDark.value
             && job.width == s.darkSizes.value[k - nLight].size
             && job.dest == ToFile(Join(s.outputDir, s.darkSizes.value[k - nLight].name))))
      && (nLight + nDark <= k ==>
            (job.source == s.input && job.dest == ToBuffer
             && job.width == 16 * (k - nLight - nDark + 1)))
  {
  }

  /** A run whose directories can be created attempts exactly the planned
      render jobs, in plan order; only a failed 16 pixel favicon frame cuts
      off the last, 32 pixel one. */
  lemma RunFollowsPlan(env: Env, st: State, cfg: GeneratorConfig)
    requires DirsOk(env, Resolve(cfg))
    ensures var s := Resolve(cfg); var plan := Plan(cfg);
      var attempted := RenderJobs(Run(env, st, cfg).1.trace);
      if s.generateFavicon && env.render(FaviconJob16(s.input, s.density)).None?
      then attempted == RenderJobs(st.trace) + plan[..|plan| - 1]
      else attempted == RenderJobs(st.trace) + plan
  {
    var s := Resolve(cfg);
    var lightJobs := BatchJobs(s.input, s.sizes, s.outputDir, s.density);
    var st2 := IconsFromSvg(env, st, s.input, s.sizes, s.outputDir, s.density).1;
    IconSetRenders(env, st, s.input, s.sizes, s.outputDir, s.density);
    var darkJobs := if DarkEnabled(s) then BatchJobs(s.inputDark.value, s.darkSizes.value, s.outputDir, s.density) else [];
    var st3 := DarkStage(env, st2, s).1;
    if DarkEnabled(s) {
      IconSetRenders(env, st2, s.inputDark.value, s.darkSizes.value, s.outputDir, s.density);
    }
    assert RenderJobs(st3.trace) == RenderJobs(st.trace) + lightJobs + darkJobs;
    var st4 := FaviconStage(env, st3, s).1;
    assert Run(env, st, cfg).1 == st4;
    var fav16 := [FaviconJob16(s.input, s.density)];
    var fav32 := [FaviconJob32(s.input, s.density)];
    if s.generateFavicon {
      FaviconStageRenders(env, st3, s);
      assert Plan(cfg) == lightJobs + darkJobs + fav16 + fav32;
      assert RenderJobs(st4.trace) == RenderJobs(st.trace) + lightJobs + darkJobs + FaviconAttempts(env, s.input, s.density);
      var base := RenderJobs(st.trace);
      if env.render(FaviconJob16(s.input, s.density)).None? {
        assert FaviconAttempts(env, s.input, s.density) == fav16;
        assert Plan(cfg)[..|Plan(cfg)| - 1] == lightJobs + darkJobs + fav16;
        ConcatAssoc(base, lightJobs, darkJobs, fav16);
      } else {
        assert FaviconAttempts(env, s.input, s.density) == fav16 + fav32;
        ConcatAssoc(base, lightJobs, darkJobs, fav16 + fav32);
      }
    } else {
      assert Plan(cfg) == lightJobs + darkJobs;
      assert st4 == st3;
      ConcatAssoc(RenderJobs(st.trace), lightJobs, darkJobs, []);
      assert lightJobs + darkJobs + [] == lightJobs + darkJobs;
    }
  }

  /** Regrouping a four-way concatenation, kept apart so that the run lemma
      does not reassociate sequences in its own large context. */
  lemma ConcatAssoc<T>(a: seq<T>, b: seq<T>, c: seq<T>, d: seq<T>)
    ensures a + b + c + d == a + (b + c + d)
  {
  }

  /** An enabled favicon stage whose directory can be created renders what
      the favicon attempts and nothing else. */
  lemma FaviconStageRenders(env: Env, st: State, s: Settings)
    requires s.generateFavicon && env.canMkdir(s.faviconDir)
    ensures RenderJobs(FaviconStage(env, st, s).1.trace)
         == RenderJobs(st.trace) + FaviconAttempts(env, s.input, s.density)
  {
    var st1 := MkdirStep(env, st, s.faviconDir).1;
    RenderJobsAppend(st.trace, [Mkdir(s.faviconDir)]);
    assert RenderJobs(st1.trace) == RenderJobs(st.trace);
    FaviconRenders(env, st1, s.input, Join(s.faviconDir, FaviconName), s.density);
  }

  /** An icon set whose directory can be created renders exactly its
      targets' jobs, in list order. */
  lemma IconSetRenders(env: Env, st: State, src: Path, cs: seq<IconConfig>, dir: Path, density: int)
    requires env.canMkdir(dir)
    ensures RenderJobs(IconsFromSvg(env, st, src, cs, dir, density).1.trace)
         == RenderJobs(st.trace) + BatchJobs(src, cs, dir, density)
  {
    var jobs := BatchJobs(src, cs, dir, density);
    var st1 := MkdirStep(env, st, dir).1;
    BatchTrace(env, st1, src, cs, dir, density);
    RenderJobsAppend(st.trace, [Mkdir(dir)]);
    RenderJobsAppend(st1.trace, RenderEvents(jobs));
    RenderJobsOfRenders(jobs);
  }

  /** Once the light and dark sets are done, the favicon stage touches no
      file except the favicon, and that one only when it is written. */
  lemma RunFaviconKeepsPngs(env: Env, st: State, cfg: GeneratorConfig)
    requires Run(env, st, cfg).0.Ok?
    ensures var s := Resolve(cfg);
      var pngs := DarkStage(env, IconsFromSvg(env, st, s.input, s.sizes, s.outputDir, s.density).1, s).1.files;
      var rep := Run(env, st, cfg).0.value;
      var files := Run(env, st, cfg).1.files;
      var path := Join(s.faviconDir, FaviconName);
      (rep.favicon == Some(FaviconWritten(path)) ==> path in files && files == pngs[path := files[path]])
      && (rep.favicon != Some(FaviconWritten(path)) ==> files == pngs)
  {
    var s := Resolve(cfg);
    if s.generateFavicon {
      var st2 := DarkStage(env, IconsFromSvg(env, st, s.input, s.sizes, s.outputDir, s.density).1, s).1;
      FaviconWrittenIff(env, MkdirStep(env, st2, s.faviconDir).1, s.input, Join(s.faviconDir, FaviconName), s.density);
    }
  }

  /** Every oracle succeeds. */
  ghost predicate AllSucceed(env: Env)
  {
    (forall j :: env.render(j).Some?) && (forall fs :: env.bundle(fs).Some?)
    && (forall p :: env.canWrite(p)) && (forall d :: env.canMkdir(d))
  }

  /** When nothing fails, the run completes, every light and dark target is
      reported generated and its file exists, and so does the favicon when
      enabled. */
  lemma RunAllSucceed(env: Env, st: State, cfg: GeneratorConfig)
    requires AllSucceed(env)
    ensures var s := Resolve(cfg); var (r, st') := Run(env, st, cfg);
      r.Ok?
      && (forall i :: 0 <= i < |s.sizes| ==>
            r.value.light[i] == Generated(s.sizes[i].name, s.sizes[i].size)
            && Join(s.outputDir, s.sizes[i].name) in st'.files)
      && (DarkEnabled(s) ==> forall i :: 0 <= i < |s.darkSizes.value| ==>
            r.value.dark.value[i] == Generated(s.darkSizes.value[i].name, s.darkSizes.value[i].size)
            && Join(s.outputDir, s.darkSizes.value[i].name) in st'.files)
      && (s.generateFavicon ==>
            (r.value.favicon == Some(FaviconWritten(Join(s.faviconDir, FaviconName)))
             && Join(s.faviconDir, FaviconName) in st'.files))
  {
    var s := Resolve(cfg);
    var st1 := MkdirStep(env, st, s.outputDir).1;
    var st2 := Batch(env, st1, s.input, s.sizes, s.outputDir, s.density).1;
    forall i | 0 <= i < |s.sizes|
      ensures Batch(env, st1, s.input, s.sizes, s.outputDir, s.density).0[i]
           == Generated(s.sizes[i].name, s.sizes[i].size)
      ensures Join(s.outputDir, s.sizes[i].name) in st2.files
    {
      BatchOutcomeAt(env, st1, s.input, s.sizes, s.outputDir, s.density, i);
      BatchCreatesPath(env, st1, s.input, s.sizes, s.outputDir, s.density, i);
    }
    var st3 := DarkStage(env, st2, s).1;
    if DarkEnabled(s) {
      var cs := s.darkSizes.value;
      var st2a := MkdirStep(env, st2, s.outputDir).1;
      forall i | 0 <= i < |cs|
        ensures Batch(env, st2a, s.inputDark.value, cs, s.outputDir, s.density).0[i]
             == Generated(cs[i].name, cs[i].size)
        ensures Join(s.outputDir, cs[i].name) in st3.files
      {
        BatchOutcomeAt(env, st2a, s.inputDark.value, cs, s.outputDir, s.density, i);
        BatchCreatesPath(env, st2a, s.inputDark.value, cs, s.outputDir, s.density, i);
      }
    }
    if s.generateFavicon {
      FaviconWrittenIff(env, MkdirStep(env, st3, s.faviconDir).1, s.input, Join(s.faviconDir, FaviconName), s.density);
    }
  }
}
