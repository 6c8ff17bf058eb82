/** The outside world the generator acts on: output paths, the render jobs
    handed to the rasteriser, the file system as a map from path to content,
    and a trace of every effect attempted, in order. The rasteriser, the icon
    bundler, file writes and directory creation are oracles that may fail. */
module Effects {
  import opened Wrappers
  import opened Density

  type Path = string
  type Bytes = seq<bv8>

  /** Joining a directory and a file name: the directory, a separator, the
      name. */
  function Join(dir: Path, name: string): Path
  {
    dir + "/" + name
  }

  /** Within one directory, different names give different paths. */
  lemma JoinInjective(dir: Path, a: string, b: string)
    requires Join(dir, a) == Join(dir, b)
    ensures a == b
  {
    calc {
      a;
      Join(dir, a)[|dir| + 1..];
      Join(dir, b)[|dir| + 1..];
      b;
    }
  }

  /** Where a rendered image goes: a PNG file, or an in-memory buffer. */
  datatype Dest = ToFile(path: Path) | ToBuffer

  /** One call of the rasteriser: the source read, the raster dimensions,
      the rasterisation density, the resampling kernel (`None`: the library
      default) and the destination. */
  datatype RenderJob = RenderJob(
    source: Path,
    width: int,
    height: int,
    density: int,
    kernel: Option<Kernel>,
    dest: Dest)

  /** One attempted effect. */
  datatype Event =
    | Mkdir(dir: Path)
    | Render(job: RenderJob)
    | Bundle(frames: seq<Bytes>)
    | Write(path: Path)

  /** The oracles: what the rasteriser produces for a job (a `ToFile` job
      that succeeds has also written its file), what the bundler produces
      from a list of PNG buffers, and whether a write or a directory creation
      at a path succeeds. */
  datatype Env = Env(
    render: RenderJob -> Option<Bytes>,
    bundle: seq<Bytes> -> Option<Bytes>,
    canWrite: Path -> bool,
    canMkdir: Path -> bool)

  /** The file system and the trace of effects so far. */
  datatype State = State(files: map<Path, Bytes>, trace: seq<Event>)

  /** Creating a directory (recursively): recorded, and it may fail. */
  function MkdirStep(env: Env, st: State, dir: Path): (bool, State)
  {
    (env.canMkdir(dir), State(st.files, st.trace + [Mkdir(dir)]))
  }

  /** Running the rasteriser on one job; a successful file job stores the
      image at its path. */
  function RenderStep(env: Env, st: State, job: RenderJob): (Option<Bytes>, State)
  {
    var png := env.render(job);
    var files := if png.Some? && job.dest.ToFile? then st.files[job.dest.path := png.value] else st.files;
    (png, State(files, st.trace + [Render(job)]))
  }

  /** Bundling PNG buffers into one icon container. */
  function BundleStep(env: Env, st: State, frames: seq<Bytes>): (Option<Bytes>, State)
  {
    (env.bundle(frames), State(st.files, st.trace + [Bundle(frames)]))
  }

  /** Writing a buffer to a path. */
  function WriteStep(env: Env, st: State, path: Path, data: Bytes): (bool, State)
  {
    var ok := env.canWrite(path);
    (ok, State(if ok then st.files[path := data] else st.files, st.trace + [Write(path)]))
  }

  /** The file system the generator writes into, with the trace of effects. */
  class Disk {
    var files: map<Path, Bytes>
    var trace: seq<Event>

    function Snapshot(): State
      reads this
    {
      State(files, trace)
    }

    method EnsureDir(env: Env, dir: Path) returns (ok: bool)
      modifies this
      ensures ok == env.canMkdir(dir)
      ensures files == old(files) && trace == old(trace) + [Mkdir(dir)]
      ensures (ok, Snapshot()) == MkdirStep(env, old(Snapshot()), dir)
    {
      ok := env.canMkdir(dir);
      trace := trace + [Mkdir(dir)];
    }

    method RenderImage(env: Env, job: RenderJob) returns (png: Option<Bytes>)
      modifies this
      ensures png == env.render(job) && trace == old(trace) + [Render(job)]
      ensures files == if png.Some? && job.dest.ToFile? then old(files)[job.dest.path := png.value] else old(files)
      ensures (png, Snapshot()) == RenderStep(env, old(Snapshot()), job)
    {
      png := env.render(job);
      if png.Some? && job.dest.ToFile? {
        files := files[job.dest.path := png.value];
      }
      trace := trace + [Render(job)];
    }

    method BundleIcons(env: Env, frames: seq<Bytes>) returns (ico: Option<Bytes>)
      modifies this
      ensures ico == env.bundle(frames)
      ensures files == old(files) && trace == old(trace) + [Bundle(frames)]
      ensures (ico, Snapshot()) == BundleStep(env, old(Snapshot()), frames)
    {
      ico := env.bundle(frames);
      trace := trace + [Bundle(frames)];
    }

    method WriteFile(env: Env, path: Path, data: Bytes) returns (ok: bool)
      modifies this
      ensures ok == env.canWrite(path) && trace == old(trace) + [Write(path)]
      ensures files == if ok then old(files)[path := data] else old(files)
      ensures (ok, Snapshot()) == WriteStep(env, old(Snapshot()), path, data)
    {
      ok := env.canWrite(path);
      if ok {
        files := files[path := data];
      }
      trace := trace + [Write(path)];
    }
  }
}
