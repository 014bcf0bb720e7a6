/**
 * `createWebpackConfig` of `apps/test-bundles/webpackUtils.js`: one webpack
 * configuration per entry, in `Object.keys` order, each with a bundle
 * analyser in static-report mode whose stats-file options depend on the
 * entry's `includeStats`, and without `target` for
 * `@fluentui/react-northstar`.
 *
 * `resources.createConfig` is a foreign library; a configuration here holds
 * the options passed to it, and whether the configuration it returns has a
 * `target` is the parameter `baseHasTarget`.
 */
module WebpackConfig {
  import opened Wrappers
  import opened BundleNames
  import opened Fixtures
  import opened Entries

  /** The `statsOptions` passed when stats are included. */
  datatype StatsOptions = StatsOptions(
    assets: bool, modules: bool, builtAt: bool, outputPath: bool, namedChunkGroups: bool,
    logging: bool, children: bool, source: bool, reasons: bool, chunks: bool,
    cached: bool, cachedAssets: bool, performance: bool, timings: bool)

  /** Assets and modules on, everything else off. */
  const StatsDetail: StatsOptions :=
    StatsOptions(true, true, false, false, false, false, false, false, false, false, false, false, false, false)

  /** `BundleAnalyzerPlugin.Options`; an absent field is `None`. */
  datatype AnalyzerOptions = AnalyzerOptions(
    analyzerMode: string,
    reportFilename: string,
    openAnalyzer: bool,
    generateStatsFile: bool,
    logLevel: string,
    statsOptions: Option<StatsOptions>,
    statsFilename: Option<string>)

  /** One webpack configuration: what `createWebpackConfig` passes to `createConfig`, and `target`'s presence. */
  datatype Config = Config(
    name: string,
    entry: map<string, string>,
    outputFilename: string,
    outputPath: string,
    externals: map<string, string>,
    minimize: bool,
    extractComments: bool,
    analyzer: AnalyzerOptions,
    hasTarget: bool)

  const Externals: map<string, string> := map["react" := "React", "react-dom" := "ReactDOM"]

  /** `path.resolve(__dirname, 'dist', normalizedPkgName)`, with `__dirname` as `scriptDir`. */
  function OutputPath(scriptDir: string, packageName: string): string {
    scriptDir + "/dist/" + GetFolderName(packageName)
  }

  /**
   * The options for one entry: a static report `<entry>.stats.html` that is
   * not opened, logging at `warn`; a stats file `<entry>.stats.json` with
   * its detail options exactly when `includeStats` holds.
   */
  method AnalyzerPluginOptions(entryName: string, includeStats: bool) returns (options: AnalyzerOptions)
    ensures options.analyzerMode == "static" && !options.openAnalyzer && options.logLevel == "warn"
    ensures options.reportFilename == entryName + ".stats.html"
    ensures options.generateStatsFile == includeStats
    ensures options.statsFilename.Some? <==> includeStats
    ensures options.statsOptions.Some? <==> includeStats
    ensures includeStats ==> options.statsFilename == Some(entryName + ".stats.json")
    ensures includeStats ==> options.statsOptions == Some(StatsDetail)
  {
    options := AnalyzerOptions("static", entryName + ".stats.html", false, false, "warn", None, None);
    if includeStats {
      options := options.(generateStatsFile := true, statsOptions := Some(StatsDetail),
                          statsFilename := Some(entryName + ".stats.json"));
    }
  }

  /** What the configuration built for entry `entryName` with descriptor `d` holds. */
  ghost predicate DescribesEntry(c: Config, entryName: string, d: EntryDescriptor, packageName: string,
                                 scriptDir: string, baseHasTarget: bool)
  {
    && c.name == entryName
    && c.entry == map[entryName := d.entryPath]
    && c.outputFilename == "[name].min.js"
    && c.outputPath == OutputPath(scriptDir, packageName)
    && c.externals == Externals
    && c.minimize && !c.extractComments
    && c.analyzer.analyzerMode == "static" && !c.analyzer.openAnalyzer && c.analyzer.logLevel == "warn"
    && c.analyzer.reportFilename == entryName + ".stats.html"
    && c.analyzer.generateStatsFile == d.includeStats
    && (c.analyzer.statsFilename.Some? <==> d.includeStats)
    && (c.analyzer.statsOptions.Some? <==> d.includeStats)
    && (d.includeStats ==> c.analyzer.statsFilename == Some(entryName + ".stats.json"))
    && (c.hasTarget <==> baseHasTarget && packageName != NorthstarPackage)
  }

  /** `createWebpackConfig(entries, packageName)`: exactly one configuration per key, in key order. */
  method CreateWebpackConfig(entries: EntryTable, packageName: string, scriptDir: string, baseHasTarget: bool)
    returns (configs: seq<Config>)
    requires entries.Valid()
    ensures |configs| == |entries.keys|
    ensures forall i :: 0 <= i < |configs| ==>
              entries.keys[i] in entries.values &&
              DescribesEntry(configs[i], entries.keys[i], entries.values[entries.keys[i]],
                             packageName, scriptDir, baseHasTarget)
  {
    var normalizedPkgName := GetFolderName(packageName);
    configs := [];
    var i := 0;
    while i < |entries.keys|
      invariant 0 <= i <= |entries.keys|
      invariant |configs| == i
      invariant forall k :: 0 <= k < i ==>
                  entries.keys[k] in entries.values &&
                  DescribesEntry(configs[k], entries.keys[k], entries.values[entries.keys[k]],
                                 packageName, scriptDir, baseHasTarget)
    {
      var entryName := entries.keys[i];
      var d := entries.values[entryName];
      var analyzerOptions := AnalyzerPluginOptions(entryName, d.includeStats);
      var config := Config(entryName, map[entryName := d.entryPath], "[name].min.js",
                           scriptDir + "/dist/" + normalizedPkgName, Externals, true, false,
                           analyzerOptions, baseHasTarget);
      if packageName == NorthstarPackage {
        config := config.(hasTarget := false);
      }
      configs := configs + [config];
      i := i + 1;
    }
  }
}
