/** The shapes of an icon target and of a generation request, and the two
    built-in target tables. */
module Config {
  import opened Wrappers

  /** One output PNG: its file name and its side length in pixels. */
  datatype IconConfig = IconConfig(name: string, size: int)

  /** A generation request; `None` stands for a field the caller left out. */
  datatype GeneratorConfig = GeneratorConfig(
    input: string,
    inputDark: Option<string>,
    outputDir: string,
    sizes: Option<seq<IconConfig>>,
    darkSizes: Option<seq<IconConfig>>,
    generateFavicon: Option<bool>,
    faviconDir: Option<string>,
    density: Option<int>)

  /** The light-mode targets used when a request names none. */
  const DefaultSizes: seq<IconConfig> := [
    IconConfig("icon-16x16.png", 16),
    IconConfig("icon-32x32.png", 32),
    IconConfig("apple-touch-icon.png", 180),
    IconConfig("android-chrome-192x192.png", 192),
    IconConfig("android-chrome-512x512.png", 512)
  ]

  /** The dark-mode targets the command line supplies with a dark input. */
  const DarkModeSizes: seq<IconConfig> := [
    IconConfig("apple-touch-icon-dark.png", 180),
    IconConfig("android-chrome-192x192-dark.png", 192),
    IconConfig("android-chrome-512x512-dark.png", 512)
  ]

  /** No two targets of the table share a file name. */
  predicate DistinctNames(cs: seq<IconConfig>)
  {
    forall i, j :: 0 <= i < j < |cs| ==> cs[i].name != cs[j].name
  }

  /** The built-in tables name every file once, so no target of theirs
      overwrites another. */
  lemma TablesHaveDistinctNames()
    ensures DistinctNames(DefaultSizes) && DistinctNames(DarkModeSizes)
    ensures forall i, j :: 0 <= i < |DefaultSizes| && 0 <= j < |DarkModeSizes| ==>
      DefaultSizes[i].name != DarkModeSizes[j].name
  {
  }
}
