# faviforge icon generator — Dafny model

faviforge turns an SVG into a set of PNG icons and a `favicon.ico`. Its one
component with logic of its own is the orchestrator in `src/generator.ts`:

- a size-dependent choice of rasterisation density and resampling kernel;
- `generateIconsFromSvg`, a best-effort loop that renders each
  `(name, size)` target and writes it into the output directory, catching
  and skipping a failed target;
- `generateFavicon`, which renders the primary SVG at 16 and 32 pixels,
  bundles both buffers into one ICO and writes it;
- `generateIcons`, which applies the request's defaults and runs the light
  set, the dark set (when configured) and the favicon, in that order.

The model is split into six modules:

- `Wrappers` (`wrappers.dfy`): `Option` and `Result`.
- `Config` (`config.dfy`): `IconConfig`, `GeneratorConfig` with `Option` for
  every optional field, and the tables `DefaultSizes` and `DarkModeSizes`.
- `Density` (`density.dfy`): `EffectiveDensity` and `KernelFor`, plus an
  independent table-based statement of the size buckets. The lemmas tie the
  two together.
- `Effects` (`effects.dfy`): everything outside the generator.
  - Render jobs record source, width, height, density, kernel and
    destination.
  - The rasteriser, the ICO bundler, file writes and directory creation
    are oracles in an `Env` value, and each may fail.
  - The class `Disk` holds the file system as a map from path to bytes,
    plus a trace of every effect attempted, in order.
- `Generator` (`generator.dfy`): each source function appears twice.
  - As a specification function from the state before to the result and
    the state after: `Batch`, `IconsFromSvg`, `Favicon`, `Run`.
  - As an imperative method on a `Disk`: `GenerateIconsFromSvg` with its
    `while` loop, `GenerateFavicon` and `GenerateIcons`.
  - Each method is proved equal to its specification function.
- `GeneratorProperties` (`properties.dfy`): the properties the source
  promises, proved about the specification functions.

Two behaviours of the code are easy to miss, and the model keeps both:

- **When the dark stage runs.** The code tests `inputDark && darkSizes`
  with JavaScript truthiness. An empty dark input path therefore disables
  the stage. An empty dark target list does not: the stage still runs,
  creates the directory and renders nothing. `Generator.DarkEnabled`
  encodes this.
- **The favicon kernel.** The favicon frames are rendered without an
  explicit kernel, so they get the library default (`kernel == None`),
  not the size-based choice of the per-target renders.

## Model

| member | source | states |
|---|---|---|
| Density.EffectiveDensity | src/generator.ts:25-32 | the effective density is never below a non-negative base density and never above eight times it |
| Density.Bucket | src/generator.ts:25-32 | every size is assigned a bucket among the four (≤16, 17–32, 33–64, >64) that actually contains it |
| Density.BucketUnique | src/generator.ts:25-32 | no size lies in two buckets; a boundary value belongs to the smaller-size bucket |
| Density.DensityByBucket | src/generator.ts:25-38 | a size is in exactly one bucket; effective density = base × 8, 6, 2 or 1 by bucket; lanczos3 is chosen exactly for the three buckets up to 64, lanczos2 above |
| Density.DensityNonIncreasing | src/generator.ts:25-38 | a larger target never gets a higher density than a smaller one, and never the sharper kernel when the smaller does not |
| Config.TablesHaveDistinctNames | src/config.constants.ts:3-16 | the default and dark tables each name every file once, and share no file name |
| Effects.JoinInjective | src/generator.ts:41 | within one directory, different target names give different output paths |
| Effects.Disk.EnsureDir | src/generator.ts:8-10 | directory creation is recorded, may fail, and changes no file |
| Effects.Disk.RenderImage | src/generator.ts:34-41 | one rasteriser call is recorded; a successful file job stores its image at its path, a buffer job or a failure changes no file |
| Effects.Disk.BundleIcons | src/generator.ts:75 | the bundler is called on the given buffers in the given order and changes no file |
| Effects.Disk.WriteFile | src/generator.ts:76 | a write stores the buffer at the path exactly when it succeeds |
| Generator.Batch | src/generator.ts:23-48 | every target gets exactly one outcome, in list order, under its own name; one render event per target is appended; no existing file disappears |
| Generator.GenerateIconsFromSvg | src/generator.ts:12-49 | the loop's result and the new disk equal the specification `IconsFromSvg`: directory creation first (its failure escapes), then the batch |
| Generator.GenerateFavicon | src/generator.ts:51-83 | result and new disk equal `Favicon`: 16px render, 32px render, bundle, write, stopping at the first failure |
| Generator.GenerateIcons | src/generator.ts:85-126 | result and new disk equal `Run`: defaults applied, then light, dark, favicon stages in order |
| GeneratorProperties.BatchOutcomeAt | src/generator.ts:23-48 | target i's outcome is Generated exactly when its own render succeeds; failures of other targets never change it, so every later target is still attempted |
| GeneratorProperties.BatchTrace | src/generator.ts:23-41 | the batch renders the targets one at a time in list order, each exactly once: a size×size job at the bucket density and kernel, written to join(outputDir, name) |
| GeneratorProperties.BatchKeepsOtherFiles | src/generator.ts:23-48 | a path no successful target writes to keeps its content or its absence: earlier writes are never undone |
| GeneratorProperties.BatchWritesTarget | src/generator.ts:34-41 | a successful target leaves its rendered image at join(outputDir, name) unless a later target writing to the same path succeeds; a later target at that path that fails leaves the earlier image in place |
| GeneratorProperties.BatchCreatesPath | src/generator.ts:34-41 | after the batch, each successful target's path exists |
| GeneratorProperties.IconSetRenders | src/generator.ts:21-41 | an icon set whose directory can be created renders exactly its targets' jobs, in order |
| GeneratorProperties.FaviconDensitiesAgree | src/generator.ts:59-73 | the favicon's hard-coded densities `density*8` and `density*6` equal the bucket function at 16 and 32; the frames are those targets' jobs, rendered to memory |
| GeneratorProperties.FaviconWrittenIff | src/generator.ts:58-82 | favicon.ico is written, holding the bundle of [16px, 32px], if and only if both renders, the bundling and the write succeed; otherwise no file changes |
| GeneratorProperties.FaviconRenders | src/generator.ts:58-73 | the favicon renders only the given source to memory: the 16px frame, then the 32px frame only if the first succeeded |
| GeneratorProperties.FaviconStageRenders | src/generator.ts:120-123 | an enabled favicon stage whose directory exists renders only the favicon frames |
| GeneratorProperties.ResolveDefaults | src/generator.ts:86-95 | absent fields default to the five built-in targets (16, 32, 180, 192, 512), favicon enabled, faviconDir = outputDir, density 300; present fields are kept |
| GeneratorProperties.RunCompletesIff | src/generator.ts:100-125 | the run reaches its completion message if and only if its directories can be created; otherwise it fails naming a directory that could not be created, the output directory whenever that one fails (it is created first); render, bundle and write failures never stop it |
| GeneratorProperties.RunReport | src/generator.ts:100-123 | a completed run reports one outcome per light target, a dark report if and only if a non-empty dark input path and a dark target list are both given (one outcome per dark target), and a favicon outcome if and only if the favicon is enabled |
| GeneratorProperties.PlanShape | src/generator.ts:100-123 | every planned job is square; light jobs read `input`, dark jobs read `inputDark`, both write into `outputDir`; favicon jobs read `input` only, render to memory at 16 then 32 |
| GeneratorProperties.RunFollowsPlan | src/generator.ts:100-123 | a run attempts exactly the planned render jobs in stage order (light, dark, favicon); only a failed 16px favicon frame cuts off the 32px one |
| GeneratorProperties.RunFaviconKeepsPngs | src/generator.ts:119-123 | the favicon stage changes no file except favicon.ico, and that one only when it is written, so PNGs already written are kept |
| GeneratorProperties.RunAllSucceed | src/generator.ts:85-126 | when nothing fails, the run completes, every light and dark target is reported generated and has its file, and favicon.ico exists when enabled |

## Left out

- Rasterisation by `sharp` is an oracle from render job to optional bytes. Not modelled: SVG parsing, `fit: "contain"` scaling, transparent padding, PNG encoding, Lanczos resampling. The job records the square dimensions, density, kernel and destination it is given. The fixed fit and background options are not recorded.
- `png-to-ico` and the ICO container format: an oracle from a list of buffers to optional bytes.
- The oracles are pure functions. The same job, path or buffer list always gives the same answer. A file system that changes between two calls is therefore not modelled. One consequence: the dark stage's second `ensureDir` of the same output directory cannot fail once the first succeeded.
- A failed write leaves the file as it was. The real `writeFile` opens the file with truncation before writing, so a write that fails after the open (a full disk, say) can leave `favicon.ico` truncated; `FaviconWrittenIff`'s "otherwise no file changes" relies on the model's simplification.
- `mkdir` recursive semantics, `writeFile` and `path.join` normalisation are not modelled. Directory creation is a success flag, with no directory set. `Join` is plain concatenation with `/`.
- Console output is not modelled: stage labels, per-target success lines, error messages and the completion line. Per-target outcomes stand in for the messages and carry the target's name. An `Ok` result stands for reaching the completion line. The `label` parameter of `generateIconsFromSvg` is therefore dropped.
- `async`/`await`: every effect runs in sequence, as ordinary method calls.
- Density and size are unbounded integers. JavaScript numbers are doubles, and `parseInt` can produce `NaN`. Neither is modelled.
- `src/cli.ts` is not part of this model: flag parsing, help text, the `parseInt` of the density, and the conditional `darkSizes` spread.
- The process exit code is not modelled. The source never turns a per-target failure into one. The model returns the per-target outcomes to the caller instead.
