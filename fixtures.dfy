/**
 * The fixture creators of `apps/test-bundles/webpackUtils.js`:
 * `createFluentNorthstarFixtures`, `createFluentReactFixtures` and
 * `createEntry`. A directory listing is an input sequence of items in
 * `readdirSync` order; each `fs.outputFileSync` call is an attempted write
 * whose failure (a path the environment cannot write) is caught and does not
 * stop the remaining items.
 */
module Fixtures {
  import opened JsStrings
  import opened BundleNames

  /** One child of a listed directory, with what `statSync(..).isDirectory()` says of it. */
  datatype DirItem = DirItem(name: string, isDirectory: bool)

  /** The arguments of one `fs.outputFileSync(path, content)` call. */
  datatype FileWrite = FileWrite(path: string, content: string)

  /** An attempted write and whether it returned normally (a throw is caught and logged). */
  datatype WriteOutcome = WriteOutcome(write: FileWrite, ok: bool)

  /** Attempting `w` where the paths in `unwritable` make `outputFileSync` throw. */
  function Attempt(w: FileWrite, unwritable: set<string>): WriteOutcome {
    WriteOutcome(w, w.path !in unwritable)
  }

  /** `@fluentui/react-northstar`. */
  const NorthstarPackage: string := FluentScope + "react-northstar"

  /** `@fluentui/react`. */
  const ReactPackage: string := FluentScope + "react"

  /** Files which are never top-level entries. */
  const TopLevelEntryFileExclusions: seq<string> := ["index.js", "version.js", "index.bundle.js"]

  // ----- @fluentui/react-northstar: one fixture per component folder -----

  /** `isFolder && itemName`. */
  predicate IsNorthstarSource(item: DirItem) {
    item.isDirectory && item.name != ""
  }

  /** The names of the listed items that get a northstar fixture, in listing order. */
  function NorthstarSources(listing: seq<DirItem>): seq<string> {
    if listing == [] then []
    else
      var last := listing[|listing| - 1];
      NorthstarSources(listing[..|listing| - 1]) + if IsNorthstarSource(last) then [last.name] else []
  }

  function NorthstarImport(itemName: string): string {
    "import { " + itemName + " } from '" + NorthstarPackage + "'; console.log(" + itemName + ")"
  }

  function NorthstarFixture(itemName: string): FileWrite {
    FileWrite(FixtureFile(GetFolderName(NorthstarPackage), itemName + ".js"), NorthstarImport(itemName))
  }

  /**
   * `createFluentNorthstarFixtures`: one write attempt per non-empty folder,
   * in listing order, each going on whether or not the ones before it failed.
   */
  method CreateFluentNorthstarFixtures(listing: seq<DirItem>, unwritable: set<string>)
    returns (outcomes: seq<WriteOutcome>)
    ensures |outcomes| == |NorthstarSources(listing)|
    ensures forall k :: 0 <= k < |outcomes| ==>
              outcomes[k] == Attempt(NorthstarFixture(NorthstarSources(listing)[k]), unwritable)
  {
    outcomes := [];
    var i := 0;
    while i < |listing|
      invariant 0 <= i <= |listing|
      invariant |outcomes| == |NorthstarSources(listing[..i])|
      invariant forall k :: 0 <= k < |outcomes| ==>
                  outcomes[k] == Attempt(NorthstarFixture(NorthstarSources(listing[..i])[k]), unwritable)
    {
      var item := listing[i];
      if item.isDirectory && item.name != "" {
        var importStatement := NorthstarImport(item.name);
        var entryPath := FixtureFile(GetFolderName(NorthstarPackage), item.name + ".js");
        var ok := entryPath !in unwritable;
        outcomes := outcomes + [WriteOutcome(FileWrite(entryPath, importStatement), ok)];
      }
      assert listing[..i + 1][..i] == listing[..i];
      i := i + 1;
    }
    assert listing[..i] == listing;
  }

  /** A name gets a northstar fixture iff it is non-empty and listed as a folder. */
  lemma {:induction false} NorthstarSourcesIff(listing: seq<DirItem>, name: string)
    ensures name in NorthstarSources(listing) <==> name != "" && DirItem(name, true) in listing
  {
    if listing != [] {
      var init := listing[..|listing| - 1];
      NorthstarSourcesIff(init, name);
      assert listing == init + [listing[|listing| - 1]];
    }
  }

  /** A northstar fixture goes to `temp/fixtures/react-northstar/<X>.js`. */
  lemma NorthstarFixturePath(itemName: string)
    ensures NorthstarFixture(itemName).path == "temp/fixtures/react-northstar/" + itemName + ".js"
  {
    var file := itemName + ".js";
    NorthstarFixtureFolder(itemName);
    FixtureFileLayout("react-northstar", file);
    assert "temp/fixtures/" + "react-northstar" + "/" + file == "temp/fixtures/react-northstar/" + file;
  }

  lemma NorthstarFixtureFolder(itemName: string)
    ensures NorthstarFixture(itemName).path == FixtureFile("react-northstar", itemName + ".js")
  {
    GetFolderNameScoped("react-northstar");
  }

  // ----- @fluentui/react: one fixture per top-level module file -----

  /** `itemName && itemName.match(/.js$/) && !TopLevelEntryFileExclusions.includes(itemName)`, and not a folder. */
  predicate IsReactSource(item: DirItem) {
    item.name != "" && MatchesDotJs(item.name) && item.name !in TopLevelEntryFileExclusions && !item.isDirectory
  }

  /** The names of the listed items that get a react fixture, in listing order. */
  function ReactSources(listing: seq<DirItem>): seq<string> {
    if listing == [] then []
    else
      var last := listing[|listing| - 1];
      ReactSources(listing[..|listing| - 1]) + if IsReactSource(last) then [last.name] else []
  }

  function ReactImport(item: string): string {
    "import * as p from '" + ReactPackage + "/lib/" + item + "'; console.log(p)"
  }

  /** The fixture for a selected file: its name loses the `/.js$/` match and gains `.js` again. */
  function ReactFixture(itemName: string): FileWrite {
    var item := StripDotJs(itemName);
    FileWrite(FixtureFile(GetFolderName(ReactPackage), item + ".js"), ReactImport(item))
  }

  /**
   * `createFluentReactFixtures`: one write attempt per selected file, in
   * listing order, each going on whether or not the ones before it failed.
   */
  method CreateFluentReactFixtures(listing: seq<DirItem>, unwritable: set<string>)
    returns (outcomes: seq<WriteOutcome>)
    ensures |outcomes| == |ReactSources(listing)|
    ensures forall k :: 0 <= k < |outcomes| ==>
              outcomes[k] == Attempt(ReactFixture(ReactSources(listing)[k]), unwritable)
  {
    outcomes := [];
    var i := 0;
    while i < |listing|
      invariant 0 <= i <= |listing|
      invariant |outcomes| == |ReactSources(listing[..i])|
      invariant forall k :: 0 <= k < |outcomes| ==>
                  outcomes[k] == Attempt(ReactFixture(ReactSources(listing[..i])[k]), unwritable)
    {
      var itemName := listing[i].name;
      var isFolder := listing[i].isDirectory;
      var isAllowedFile := itemName != "" && MatchesDotJs(itemName) && itemName !in TopLevelEntryFileExclusions;
      if isAllowedFile && !isFolder {
        var item := StripDotJs(itemName);
        var importStatement := ReactImport(item);
        var entryPath := FixtureFile(GetFolderName(ReactPackage), item + ".js");
        var ok := entryPath !in unwritable;
        outcomes := outcomes + [WriteOutcome(FileWrite(entryPath, importStatement), ok)];
      }
      assert listing[..i + 1][..i] == listing[..i];
      i := i + 1;
    }
    assert listing[..i] == listing;
  }

  /**
   * A name gets a react fixture iff it is listed as a file, is non-empty,
   * matches `/.js$/` and is not one of the excluded file names.
   */
  lemma {:induction false} ReactSourcesIff(listing: seq<DirItem>, name: string)
    ensures name in ReactSources(listing) <==>
              && DirItem(name, false) in listing
              && name != ""
              && MatchesDotJs(name)
              && name !in TopLevelEntryFileExclusions
  {
    if listing != [] {
      var init := listing[..|listing| - 1];
      ReactSourcesIff(init, name);
      assert listing == init + [listing[|listing| - 1]];
    }
  }

  /** A file named `foojs`, with no dot, is selected too, and its fixture is `fo.js`. */
  lemma DotlessJsFileSelected()
    ensures IsReactSource(DirItem("foojs", false))
    ensures ReactFixture("foojs").path == FixtureFile("react", "fo.js")
  {
    StripDotJsAnyCharacter();
    ReactFixtureFolder("foojs");
  }

  /** No listing, whatever it holds, makes an excluded file a fixture source. */
  lemma ExcludedNeverSelected(listing: seq<DirItem>, name: string)
    requires name in TopLevelEntryFileExclusions
    ensures name !in ReactSources(listing)
  {
    ReactSourcesIff(listing, name);
  }

  /** The react fixture for `<stem>.js` is `temp/fixtures/react/<stem>.js` importing `@fluentui/react/lib/<stem>`. */
  lemma ReactFixtureOfJsFile(stem: string)
    ensures ReactFixture(stem + ".js").path == "temp/fixtures/react/" + stem + ".js"
    ensures ReactFixture(stem + ".js").content == "import * as p from '@fluentui/react/lib/" + stem + "'; console.log(p)"
  {
    StripDotJsOfJsFile(stem);
    ReactFixtureFolder(stem + ".js");
    FixtureFileLayout("react", stem + ".js");
    assert "temp/fixtures/" + "react" + "/" == "temp/fixtures/react/";
    ReactImportText(stem);
  }

  lemma ReactFixtureFolder(itemName: string)
    ensures ReactFixture(itemName).path == FixtureFile("react", StripDotJs(itemName) + ".js")
  {
    GetFolderNameScoped("react");
  }

  lemma ReactImportText(item: string)
    ensures ReactImport(item) == "import * as p from '@fluentui/react/lib/" + item + "'; console.log(p)"
  {
    var head := "import * as p from '" + ReactPackage + "/lib/";
    assert ReactPackage == "@fluentui/react";
    assert head == "import * as p from '@fluentui/react/lib/";
  }

  // ----- the whole package: one fixture, whatever the package -----

  function EntryImport(packageName: string): string {
    "import * as p from '" + packageName + "'; console.log(p)"
  }

  /** `createEntry`: exactly one write attempt, of `index.js` in the package's fixture folder. */
  function CreateEntry(packageName: string, unwritable: set<string>): WriteOutcome {
    Attempt(FileWrite(FixtureFile(GetFolderName(packageName), "index.js"), EntryImport(packageName)), unwritable)
  }

  /** For a `@fluentui/` package the entry fixture is `temp/fixtures/<name>/index.js`. */
  lemma CreateEntryScoped(name: string, unwritable: set<string>)
    ensures CreateEntry(FluentScope + name, unwritable).write.path == "temp/fixtures/" + name + "/index.js"
    ensures CreateEntry(FluentScope + name, unwritable).write.content == "import * as p from '@fluentui/" + name + "'; console.log(p)"
    ensures CreateEntry(FluentScope + name, unwritable).ok <==> "temp/fixtures/" + name + "/index.js" !in unwritable
  {
    GetFolderNameScoped(name);
    var path := FixtureFile(name, "index.js");
    assert path == "temp/fixtures/" + name + "/index.js";
    assert "import * as p from '" + (FluentScope + name) == "import * as p from '@fluentui/" + name;
  }
}
