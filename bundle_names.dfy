/**
 * Names and paths derived from a package name in `apps/test-bundles/webpackUtils.js`:
 * the fixture folder (`getFolderName`), fixture file paths under
 * `temp/fixtures/`, and the webpack entry key written by `buildEntries`.
 *
 * `path.join` and `path.resolve` are modelled as joining with `/`:
 * a directory listing never yields a name with a separator in it, and the
 * trailing `/` of `FIXTURE_PATH` is dropped by `path.join`.
 */
module BundleNames {
  import opened JsStrings

  /** The scope `getFolderName` strips. */
  const FluentScope: string := "@fluentui/"

  /** `FIXTURE_PATH` as `path.join` normalises it. */
  const FixtureRoot: string := "temp/fixtures"

  /** `getFolderName`: the package name with its first `@fluentui/` removed. */
  function GetFolderName(packageName: string): string {
    ReplaceFirst(packageName, FluentScope, "")
  }

  /** `path.join(FIXTURE_PATH, folderName)`. */
  function FixtureDir(folderName: string): string {
    FixtureRoot + "/" + folderName
  }

  /** `path.join(FIXTURE_PATH, folderName, fileName)`. */
  function FixtureFile(folderName: string, fileName: string): string {
    FixtureDir(folderName) + "/" + fileName
  }

  /** A fixture file sits at `temp/fixtures/<folder>/<file>`. */
  lemma FixtureFileLayout(folderName: string, fileName: string)
    ensures FixtureFile(folderName, fileName) == "temp/fixtures/" + folderName + "/" + fileName
  {
    assert FixtureRoot + "/" == "temp/fixtures/";
  }

  /** `path.resolve(p)` for a relative `p`, against the working directory `cwd`. */
  function Resolve(cwd: string, p: string): string {
    cwd + "/" + p
  }

  /** `packageName.replace('@', '').replace('/', '-')`. */
  function NormalizedScope(packageName: string): string {
    ReplaceFirst(ReplaceFirst(packageName, "@", ""), "/", "-")
  }

  /** The key `buildEntries` writes for one listed item. */
  function EntryKey(packageName: string, itemName: string): string {
    NormalizedScope(packageName) + "-" + StripDotJs(itemName)
  }

  /** A `@fluentui/` package maps to the folder named after the rest of its name. */
  lemma GetFolderNameScoped(name: string)
    ensures GetFolderName(FluentScope + name) == name
  {
    ReplaceFirstPrefix(FluentScope, name, "");
  }

  /** Only the first `@fluentui/` is stripped; a second one stays. */
  lemma GetFolderNameFirstOnly(name: string)
    ensures GetFolderName(FluentScope + FluentScope + name) == FluentScope + name
  {
    assert FluentScope + FluentScope + name == FluentScope + (FluentScope + name);
    GetFolderNameScoped(FluentScope + name);
  }

  /** A name that does not contain `@fluentui/` is its own folder name. */
  lemma GetFolderNameUnscoped(name: string)
    requires forall i: nat :: !OccursAt(name, FluentScope, i)
    ensures GetFolderName(name) == name
  {
    ReplaceFirstAbsent(name, FluentScope, "");
  }

  /** The two folders the fixture creators write to. */
  lemma FluentFolders()
    ensures GetFolderName(FluentScope + "react") == "react"
    ensures GetFolderName(FluentScope + "react-northstar") == "react-northstar"
  {
    GetFolderNameScoped("react");
    GetFolderNameScoped("react-northstar");
  }

  /**
   * For a scoped package `@scope/lib` (the scope without `/`), the first `@`
   * goes and the first `/` becomes `-`; any later `/` in `lib` is kept.
   */
  lemma NormalizedScopeScoped(scope: string, lib: string)
    requires '/' !in scope
    ensures NormalizedScope("@" + scope + "/" + lib) == scope + "-" + lib
  {
    var rest := scope + "/" + lib;
    assert "@" + scope + "/" + lib == "@" + rest;
    ReplaceFirstPrefix("@", rest, "");
    assert ReplaceFirst("@" + rest, "@", "") == rest;
    assert rest == scope + ['/'] + lib;
    ReplaceFirstCharAt(scope, '/', lib, "-");
  }

  /** So the entry key of `@scope/lib` is `scope-lib-` followed by the item name less its `/.js$/` match. */
  lemma EntryKeyScoped(scope: string, lib: string, itemName: string)
    requires '/' !in scope
    ensures EntryKey("@" + scope + "/" + lib, itemName) == scope + "-" + lib + "-" + StripDotJs(itemName)
  {
    NormalizedScopeScoped(scope, lib);
  }

  /** The entry key of the fixture `<stem>.js` of a `@fluentui/<lib>` package is `fluentui-<lib>-<stem>`. */
  lemma FluentEntryKey(lib: string, stem: string)
    ensures EntryKey(FluentScope + lib, stem + ".js") == "fluentui-" + lib + "-" + stem
  {
    assert FluentScope == "@" + "fluentui" + "/";
    assert FluentScope + lib == "@" + "fluentui" + "/" + lib;
    NormalizedScopeScoped("fluentui", lib);
    StripDotJsOfJsFile(stem);
    assert "fluentui" + "-" + lib == "fluentui-" + lib;
  }

  /** The worked example: `@scope/lib` with `Button.js` gives `scope-lib-Button`. */
  lemma EntryKeyExample()
    ensures EntryKey("@scope/lib", "Button.js") == "scope-lib-Button"
    ensures EntryKey("@scope/lib", "Icon.js") == "scope-lib-Icon"
  {
    assert "@scope/lib" == "@" + "scope" + "/" + "lib";
    assert "Button.js" == "Button" + ".js" && "Icon.js" == "Icon" + ".js";
    assert "scope-lib-Button" == "scope" + "-" + "lib" + "-" + "Button";
    assert "scope-lib-Icon" == "scope" + "-" + "lib" + "-" + "Icon";
    EntryKeyScoped("scope", "lib", "Button.js");
    StripDotJsOfJsFile("Button");
    EntryKeyScoped("scope", "lib", "Icon.js");
    StripDotJsOfJsFile("Icon");
  }

  /**
   * Every entry key holds a `-`, so it is never an array index and
   * `Object.keys` lists it in insertion order.
   */
  lemma EntryKeyHasDash(packageName: string, itemName: string)
    ensures '-' in EntryKey(packageName, itemName)
  {
    var k := EntryKey(packageName, itemName);
    assert k[|NormalizedScope(packageName)|] == '-';
  }
}
