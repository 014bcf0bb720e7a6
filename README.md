# Bundle-size fixture and webpack-config helpers, modelled in Dafny

This project models the core of `apps/test-bundles/webpackUtils.js`, the helper the bundle-size tests use. The model covers:

- **Name derivation.** `getFolderName` drops the first `@fluentui/`. `buildEntries` makes each entry key from the package name (first `@` removed, first `/` turned into `-`), a `-`, and the item name less its `/.js$/` match.
- **Fixture selection.** Each of the three fixture creators decides which items of a directory listing get a fixture file, and what path and import statement it has:
  - `createFluentNorthstarFixtures`: one fixture per non-empty folder.
  - `createFluentReactFixtures`: one fixture per `.js`-matching file that is not excluded.
  - `createEntry`: exactly one `index.js`.
- **Entry accumulation.** `buildEntries` updates the caller's dictionary in place. Later keys overwrite earlier ones, and new keys go last in `Object.keys` order.
- **Config rules.** `createWebpackConfig` builds one config per key. The analyser report is `<entry>.stats.html`. The stats-file options appear only when `includeStats` holds. `target` is removed for `@fluentui/react-northstar`.

Two JavaScript rules are modelled exactly:

- A string pattern in `String.prototype.replace` replaces only the first occurrence (`JsStrings.ReplaceFirst`, built on the leftmost search `JsStrings.IndexOf`).
- `/.js$/` has an unescaped dot. It matches any character other than a line terminator, followed by `js`, at the end of the name. So `foojs` is selected and becomes `fo` (`JsStrings.MatchesDotJs`, `JsStrings.StripDotJs`).

Modules, one per concern of the source file:

- `Wrappers`: `Option`, used for absent values and omitted arguments.
- `JsStrings`: the JavaScript string semantics above.
- `BundleNames`: folder names, fixture paths, entry keys.
- `Fixtures`: the listing items (`DirItem`), the attempted writes (`FileWrite`, `WriteOutcome`), and the three creators. `createEntry` has no loop and is a function. The two folder-scanning creators are methods with loops. Each is proved against a specification function that gives the selected names in listing order.
- `Entries`: `EntryTable` is a class standing for the JavaScript object: its keys in insertion order and its values. `BuildEntries` and `EntryTable.AddListing` mutate it and are proved against `Accumulate` (the dictionary afterwards) and `KeyOrder` (the key order afterwards). `BuildEntry` is a function.
- `WebpackConfig`: the analyser options and the per-entry configs.

Inputs the source takes from its environment are parameters:

- The directory listing.
- The set of paths whose write throws.
- The working directory for `path.resolve`, and the script directory for `__dirname`.
- Whether the config returned by the webpack library has a `target`.

## Model

| member | source | states |
|---|---|---|
| `JsStrings.IndexOf` | apps/test-bundles/webpackUtils.js:204 | the search behind `replace` with a string pattern: the result is an occurrence with none before it, and "none" means there is no occurrence anywhere |
| `JsStrings.ReplaceFirstAt` | apps/test-bundles/webpackUtils.js:204 | `s.replace(pat, rep)` replaces the first occurrence of `pat`, whatever follows it |
| `JsStrings.ReplaceFirstAbsent` | apps/test-bundles/webpackUtils.js:204 | `s.replace(pat, rep)` returns `s` unchanged when `pat` does not occur |
| `JsStrings.StripDotJsOfJsFile` | apps/test-bundles/webpackUtils.js:175 | a name `<stem>.js` matches `/.js$/`, and `replace(/.js$/, '')` gives back exactly `<stem>` |
| `JsStrings.StripDotJsAnyCharacter` | apps/test-bundles/webpackUtils.js:127-130 | the unescaped dot: `foojs` matches and becomes `fo`; a line terminator before `js` does not match |
| `BundleNames.GetFolderNameScoped` | apps/test-bundles/webpackUtils.js:203-205 | `getFolderName('@fluentui/' + n)` is `n` |
| `BundleNames.GetFolderNameFirstOnly` | apps/test-bundles/webpackUtils.js:203-205 | only the first `@fluentui/` is removed; a second one stays |
| `BundleNames.GetFolderNameUnscoped` | apps/test-bundles/webpackUtils.js:203-205 | a name without `@fluentui/` is returned unchanged |
| `BundleNames.FluentFolders` | apps/test-bundles/webpackUtils.js:99-109 | the northstar and react fixtures go to the folders `react-northstar` and `react` |
| `BundleNames.FixtureFileLayout` | apps/test-bundles/webpackUtils.js:8 | a fixture file is `temp/fixtures/<folder>/<file>`; `path.join` drops the trailing `/` of the fixture root |
| `BundleNames.NormalizedScopeScoped` | apps/test-bundles/webpackUtils.js:177 | for `@scope/lib` with no `/` in the scope, the key prefix is `scope-lib`; any later `/` in `lib` stays |
| `BundleNames.EntryKeyScoped` | apps/test-bundles/webpackUtils.js:175-177 | the key for item `x` of `@scope/lib` is `scope-lib-` followed by `x` less its `/.js$/` match |
| `BundleNames.FluentEntryKey` | apps/test-bundles/webpackUtils.js:175-177 | the key of fixture `<stem>.js` of package `@fluentui/<lib>` is `fluentui-<lib>-<stem>` |
| `BundleNames.EntryKeyExample` | apps/test-bundles/webpackUtils.js:174-181 | `@scope/lib` with `Button.js` and `Icon.js` gives the keys `scope-lib-Button` and `scope-lib-Icon` |
| `BundleNames.EntryKeyHasDash` | apps/test-bundles/webpackUtils.js:177 | every key holds a `-`, so it is never an array index and `Object.keys` keeps it in insertion order |
| `Fixtures.CreateFluentNorthstarFixtures` | apps/test-bundles/webpackUtils.js:98-116 | exactly one write attempt per non-empty folder, in listing order, each with its fixture path and import text; a failed write does not stop the later ones |
| `Fixtures.NorthstarSourcesIff` | apps/test-bundles/webpackUtils.js:102-105 | a name gets a northstar fixture iff it is non-empty and listed as a folder, so files never get one |
| `Fixtures.NorthstarFixturePath` | apps/test-bundles/webpackUtils.js:106-110 | the northstar fixture for `X` is written to `temp/fixtures/react-northstar/X.js` |
| `Fixtures.CreateFluentReactFixtures` | apps/test-bundles/webpackUtils.js:121-142 | exactly one write attempt per selected file, in listing order, with its fixture path and import text; a failed write does not stop the later ones |
| `Fixtures.ReactSourcesIff` | apps/test-bundles/webpackUtils.js:119-129 | a name gets a react fixture iff it is listed as a file, is non-empty, matches `/.js$/` and is not `index.js`, `version.js` or `index.bundle.js` |
| `Fixtures.ExcludedNeverSelected` | apps/test-bundles/webpackUtils.js:118-119 | an excluded file name is never selected, whatever the listing holds |
| `Fixtures.DotlessJsFileSelected` | apps/test-bundles/webpackUtils.js:127-135 | a file `foojs` is selected, and its fixture is `fo.js` |
| `Fixtures.ReactFixtureOfJsFile` | apps/test-bundles/webpackUtils.js:130-135 | the fixture of `<stem>.js` is `temp/fixtures/react/<stem>.js`, with content `import * as p from '@fluentui/react/lib/<stem>'; console.log(p)` |
| `Fixtures.CreateEntryScoped` | apps/test-bundles/webpackUtils.js:147-157 | `createEntry('@fluentui/<n>')` makes one write, of `import * as p from '@fluentui/<n>'; console.log(p)` to `temp/fixtures/<n>/index.js`; it succeeds iff that path is writable |
| `Entries.EntryTable.constructor` | apps/test-bundles/webpackUtils.js:170 | the default `entries = {}` is an empty, valid table |
| `Entries.EntryTable.Set` | apps/test-bundles/webpackUtils.js:177-180 | assigning a key overwrites its value; a new key goes last in key order, and an existing key keeps its place |
| `Entries.EntryTable.AddListing` | apps/test-bundles/webpackUtils.js:174-181 | the `forEach` loop: afterwards the table equals `Accumulate` of the listing over the old values, with keys in `KeyOrder` |
| `Entries.BuildEntries` | apps/test-bundles/webpackUtils.js:170-184 | the same object is updated and returned, or a fresh one when `entries` is omitted; its contents and key order afterwards are `Accumulate` and `KeyOrder` of the listing, with `includeStats` defaulting to true |
| `Entries.AccumulateKeys` | apps/test-bundles/webpackUtils.js:174-181 | the keys afterwards are exactly the old keys plus one key per listed item, so two calls give the union of their keys |
| `Entries.AccumulateIncludeStats` | apps/test-bundles/webpackUtils.js:170-180 | every key written carries the call's `includeStats` |
| `Entries.AccumulateUntouched` | apps/test-bundles/webpackUtils.js:174-181 | a key no listed item produces keeps its old value, or stays absent |
| `Entries.AccumulateLastWins` | apps/test-bundles/webpackUtils.js:174-181 | for a duplicate key, the last listed item producing it wins |
| `Entries.AccumulateOverrides` | apps/test-bundles/webpackUtils.js:170-183 | a key written by a call ends up the same whatever the dictionary held before, so the second of two calls wins on shared keys |
| `Entries.KeyOrderShape` | apps/test-bundles/webpackUtils.js:174-181 | the key order keeps the old keys first and in order, has no duplicates, and holds exactly the old and the added keys |
| `Entries.BuildEntryMatchesCreateEntry` | apps/test-bundles/webpackUtils.js:191-198 | `buildEntry` points at the resolved file `createEntry` writes, equals what `buildEntries` records for that `index.js`, and has `includeStats` true unless it is passed false |
| `WebpackConfig.AnalyzerPluginOptions` | apps/test-bundles/webpackUtils.js:20-54 | static mode, not opened, log level `warn`, report `<entry>.stats.html`; `generateStatsFile` equals `includeStats`; `statsOptions` and `statsFilename` (`<entry>.stats.json`) are present iff `includeStats` holds |
| `WebpackConfig.CreateWebpackConfig` | apps/test-bundles/webpackUtils.js:16-90 | exactly one config per key, in key order, each with its entry path, output, externals, minifier and analyser options as above; `target` is present iff the library's config has one and the package is not `@fluentui/react-northstar` |

## Left out

- Filesystem effects: `readdirSync` becomes the listing, `statSync(..).isDirectory()` becomes a flag on each item, and `outputFileSync` becomes a `WriteOutcome`. A failure to read a directory or stat an item propagates in the source. The model has no such failure.
- The file contents a run leaves behind are not modelled; a write is an attempted `(path, content)` pair and whether it succeeded.
- `console.log` of caught errors is not modelled. Only the "catch and continue" control flow is kept.
- Path normalisation: `path.join` and `path.resolve` are joining with `/`. `.`, `..` and repeated separators are not normalised, and `path.resolve` uses a `cwd` parameter. A directory listing never yields a name with a separator.
- `require.resolve` and the package dist paths it leads to are not modelled. The listing stands for what that directory holds.
- `resources.createConfig`, `TerserPlugin` and `BundleAnalyzerPlugin` are foreign libraries. A `Config` holds the options passed to them. Whether the returned config has a `target` is the parameter `baseHasTarget`.
- WebpackConfig.CreateWebpackConfig: `Object.keys` lists integer-like keys first in JavaScript. The model keeps insertion order. Keys made by `buildEntries` always contain `-` and are never integer-like (`BundleNames.EntryKeyHasDash`). Integer-like keys supplied by a caller are not modelled.
- Strings are sequences of Unicode code points, not UTF-16 code units. The model is exact except for a character outside the Basic Multilingual Plane right before `js`. In JavaScript `.` matches only its low surrogate.
- JsStrings.ReplaceFirst: `$` patterns in the replacement string are not interpreted. The replacements used here (`''` and `'-'`) contain none.
- `createFluentReactFixtures` computes `isFolder ? itemName : …` inside a branch that requires `!isFolder`, so the first arm is dead. The model keeps only the live arm.
- `includeStats` read from an entry is a boolean. JavaScript truthiness of other values is not modelled.
- The package-name-specific `target` deletion is modelled as the name check the code performs, and directory order is kept as given. The code has no capability flag and no sorting.
