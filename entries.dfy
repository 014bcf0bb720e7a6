/**
 * Webpack entries built from generated fixtures: `buildEntries`, which
 * updates the caller's dictionary in place one listed item at a time, and
 * `buildEntry`, the single entry for the whole-package fixture.
 *
 * The dictionary is a JavaScript object: assigning to an existing key keeps
 * its place in `Object.keys` order, a new key goes last.
 */
module Entries {
  import opened Wrappers
  import opened JsStrings
  import opened BundleNames
  import opened Fixtures

  /** `{ entryPath, includeStats }`. */
  datatype EntryDescriptor = EntryDescriptor(entryPath: string, includeStats: bool)

  /** `includeStats` left out (undefined) defaults to true. */
  function IncludeStatsOrDefault(includeStats: Option<bool>): bool {
    includeStats.GetOr(true)
  }

  predicate Distinct(s: seq<string>) {
    forall i, j :: 0 <= i < j < |s| ==> s[i] != s[j]
  }

  /** The descriptor `buildEntries` writes for one listed fixture. */
  function EntryFor(packageName: string, itemName: string, includeStats: bool, cwd: string): EntryDescriptor {
    EntryDescriptor(Resolve(cwd, FixtureFile(GetFolderName(packageName), itemName)), includeStats)
  }

  /** The keys `buildEntries` writes, one per listed item, in listing order. */
  function EntryKeys(packageName: string, items: seq<string>): (keys: seq<string>)
    ensures |keys| == |items|
    ensures forall i :: 0 <= i < |items| ==> keys[i] == EntryKey(packageName, items[i])
  {
    if items == [] then []
    else EntryKeys(packageName, items[..|items| - 1]) + [EntryKey(packageName, items[|items| - 1])]
  }

  /** The dictionary after assigning, item by item, the entries for `items` over `m`. */
  function Accumulate(m: map<string, EntryDescriptor>, packageName: string, items: seq<string>,
                      includeStats: bool, cwd: string): map<string, EntryDescriptor>
  {
    if items == [] then m
    else
      var last := items[|items| - 1];
      Accumulate(m, packageName, items[..|items| - 1], includeStats, cwd)
        [EntryKey(packageName, last) := EntryFor(packageName, last, includeStats, cwd)]
  }

  /** `Object.keys` order after assigning the keys `added` in turn to an object whose keys were `keys`. */
  function KeyOrder(keys: seq<string>, added: seq<string>): seq<string> {
    if added == [] then keys
    else
      var prev := KeyOrder(keys, added[..|added| - 1]);
      var last := added[|added| - 1];
      if last in prev then prev else prev + [last]
  }

  /** A JavaScript object from entry names to descriptors, with its key order. */
  class EntryTable {
    var keys: seq<string>
    var values: map<string, EntryDescriptor>

    ghost predicate Valid()
      reads this
    {
      Distinct(keys) && forall k :: k in values <==> k in keys
    }

    /** `{}`. */
    constructor ()
      ensures Valid() && keys == [] && values == map[]
    {
      keys := [];
      values := map[];
    }

    /** `entries[key] = d`. */
    method Set(key: string, d: EntryDescriptor)
      requires Valid()
      modifies this
      ensures Valid()
      ensures values == old(values)[key := d]
      ensures keys == if key in old(values) then old(keys) else old(keys) + [key]
    {
      if key !in values {
        keys := keys + [key];
      }
      values := values[key := d];
    }

    /** The `forEach` of `buildEntries`: one assignment per listed item, in listing order. */
    method AddListing(packageName: string, listing: seq<string>, includeStats: bool, cwd: string)
      requires Valid()
      modifies this
      ensures Valid()
      ensures keys == KeyOrder(old(keys), EntryKeys(packageName, listing))
      ensures values == Accumulate(old(values), packageName, listing, includeStats, cwd)
    {
      var i := 0;
      while i < |listing|
        invariant 0 <= i <= |listing|
        invariant Valid()
        invariant keys == KeyOrder(old(keys), EntryKeys(packageName, listing[..i]))
        invariant values == Accumulate(old(values), packageName, listing[..i], includeStats, cwd)
      {
        var itemName := listing[i];
        Set(EntryKey(packageName, itemName), EntryFor(packageName, itemName, includeStats, cwd));
        AccumulateStep(old(keys), old(values), packageName, listing, includeStats, cwd, i);
        i := i + 1;
      }
      assert listing[..i] == listing;
    }
  }

  /**
   * `buildEntries(packageName, entries, includeStats)` over the fixture
   * folder listing `listing`. A null `entries` stands for the argument being
   * left out, which gives a fresh `{}`; otherwise the same object is updated
   * and returned.
   */
  method BuildEntries(packageName: string, entries: EntryTable?, includeStats: Option<bool>,
                      listing: seq<string>, cwd: string)
    returns (r: EntryTable)
    requires entries != null ==> entries.Valid()
    modifies entries
    ensures r.Valid()
    ensures entries != null ==> r == entries
    ensures entries == null ==> fresh(r)
    ensures entries != null ==>
              && r.keys == KeyOrder(old(entries.keys), EntryKeys(packageName, listing))
              && r.values == Accumulate(old(entries.values), packageName, listing, IncludeStatsOrDefault(includeStats), cwd)
    ensures entries == null ==>
              && r.keys == KeyOrder([], EntryKeys(packageName, listing))
              && r.values == Accumulate(map[], packageName, listing, IncludeStatsOrDefault(includeStats), cwd)
  {
    if entries == null {
      r := new EntryTable();
    } else {
      r := entries;
    }
    r.AddListing(packageName, listing, IncludeStatsOrDefault(includeStats), cwd);
  }

  /** One more listed item: one more assignment. */
  lemma AccumulateStep(keys: seq<string>, m: map<string, EntryDescriptor>, packageName: string, items: seq<string>,
                       includeStats: bool, cwd: string, i: nat)
    requires i < |items|
    ensures KeyOrder(keys, EntryKeys(packageName, items[..i + 1]))
            == var prev := KeyOrder(keys, EntryKeys(packageName, items[..i]));
               var key := EntryKey(packageName, items[i]);
               if key in prev then prev else prev + [key]
    ensures Accumulate(m, packageName, items[..i + 1], includeStats, cwd)
            == Accumulate(m, packageName, items[..i], includeStats, cwd)
                 [EntryKey(packageName, items[i]) := EntryFor(packageName, items[i], includeStats, cwd)]
  {
    var done := items[..i + 1];
    assert done[..i] == items[..i];
    assert EntryKeys(packageName, done) == EntryKeys(packageName, items[..i]) + [EntryKey(packageName, items[i])];
  }

  /** `buildEntry`: the resolved fixture folder plus `/index.js`, and `includeStats` defaulting to true. */
  function BuildEntry(packageName: string, includeStats: Option<bool>, cwd: string): EntryDescriptor {
    EntryDescriptor(Resolve(cwd, FixtureDir(GetFolderName(packageName))) + "/index.js", IncludeStatsOrDefault(includeStats))
  }

  // ----- what the accumulated dictionary holds -----

  /** The keys afterwards are the keys before plus one per listed item. */
  lemma {:induction false} AccumulateKeys(m: map<string, EntryDescriptor>, packageName: string, items: seq<string>,
                                          includeStats: bool, cwd: string)
    ensures Accumulate(m, packageName, items, includeStats, cwd).Keys
            == m.Keys + set k | k in EntryKeys(packageName, items)
  {
    if items != [] {
      var init := items[..|items| - 1];
      AccumulateKeys(m, packageName, init, includeStats, cwd);
      assert EntryKeys(packageName, items) == EntryKeys(packageName, init) + [EntryKey(packageName, items[|items| - 1])];
    }
  }

  /** Every key written carries the `includeStats` the call was given. */
  lemma {:induction false} AccumulateIncludeStats(m: map<string, EntryDescriptor>, packageName: string, items: seq<string>,
                                                  includeStats: bool, cwd: string, i: nat)
    requires i < |items|
    ensures EntryKey(packageName, items[i]) in Accumulate(m, packageName, items, includeStats, cwd)
    ensures Accumulate(m, packageName, items, includeStats, cwd)[EntryKey(packageName, items[i])].includeStats == includeStats
  {
    var init := items[..|items| - 1];
    if i < |items| - 1 {
      AccumulateIncludeStats(m, packageName, init, includeStats, cwd, i);
    }
  }

  /** A key no listed item produces keeps whatever it had before (or stays absent). */
  lemma {:induction false} AccumulateUntouched(m: map<string, EntryDescriptor>, packageName: string, items: seq<string>,
                                               includeStats: bool, cwd: string, k: string)
    requires k !in EntryKeys(packageName, items)
    ensures k in Accumulate(m, packageName, items, includeStats, cwd) <==> k in m
    ensures k in m ==> Accumulate(m, packageName, items, includeStats, cwd)[k] == m[k]
  {
    if items != [] {
      var init := items[..|items| - 1];
      assert EntryKeys(packageName, items) == EntryKeys(packageName, init) + [EntryKey(packageName, items[|items| - 1])];
      AccumulateUntouched(m, packageName, init, includeStats, cwd, k);
    }
  }

  /** For a duplicate key the last listed item that produces it wins. */
  lemma {:induction false} AccumulateLastWins(m: map<string, EntryDescriptor>, packageName: string, items: seq<string>,
                                              includeStats: bool, cwd: string, i: nat)
    requires i < |items|
    requires forall j :: i < j < |items| ==> EntryKey(packageName, items[j]) != EntryKey(packageName, items[i])
    ensures EntryKey(packageName, items[i]) in Accumulate(m, packageName, items, includeStats, cwd)
    ensures Accumulate(m, packageName, items, includeStats, cwd)[EntryKey(packageName, items[i])]
            == EntryFor(packageName, items[i], includeStats, cwd)
  {
    if i < |items| - 1 {
      var init := items[..|items| - 1];
      AccumulateLastWins(m, packageName, init, includeStats, cwd, i);
    }
  }

  /**
   * A key a call produces ends up with the same descriptor whatever the
   * dictionary held before the call: the second of two calls wins on every
   * key they share.
   */
  lemma {:induction false} AccumulateOverrides(m1: map<string, EntryDescriptor>, m2: map<string, EntryDescriptor>,
                                               packageName: string, items: seq<string>,
                                               includeStats: bool, cwd: string, k: string)
    requires k in EntryKeys(packageName, items)
    ensures k in Accumulate(m1, packageName, items, includeStats, cwd)
    ensures k in Accumulate(m2, packageName, items, includeStats, cwd)
    ensures Accumulate(m1, packageName, items, includeStats, cwd)[k]
            == Accumulate(m2, packageName, items, includeStats, cwd)[k]
  {
    var init := items[..|items| - 1];
    var last := EntryKey(packageName, items[|items| - 1]);
    assert EntryKeys(packageName, items) == EntryKeys(packageName, init) + [last];
    if k != last {
      AccumulateOverrides(m1, m2, packageName, init, includeStats, cwd, k);
    }
  }

  // ----- Object.keys order -----

  /** The keys already present stay first and in their order; the others appear once each. */
  lemma {:induction false} KeyOrderShape(keys: seq<string>, added: seq<string>)
    requires Distinct(keys)
    ensures Distinct(KeyOrder(keys, added))
    ensures |keys| <= |KeyOrder(keys, added)| && KeyOrder(keys, added)[..|keys|] == keys
    ensures forall k :: k in KeyOrder(keys, added) <==> k in keys || k in added
  {
    if added != [] {
      var init := added[..|added| - 1];
      KeyOrderShape(keys, init);
      assert added == init + [added[|added| - 1]];
      var prev := KeyOrder(keys, init);
      if added[|added| - 1] !in prev {
        assert (prev + [added[|added| - 1]])[..|keys|] == prev[..|keys|];
      }
    }
  }

  // ----- agreement with the fixture creators -----

  /**
   * `buildEntry` points at the file `createEntry` writes, and equals what
   * `buildEntries` would record for that `index.js`.
   */
  lemma BuildEntryMatchesCreateEntry(packageName: string, includeStats: Option<bool>, cwd: string, unwritable: set<string>)
    ensures BuildEntry(packageName, includeStats, cwd).entryPath == Resolve(cwd, CreateEntry(packageName, unwritable).write.path)
    ensures BuildEntry(packageName, includeStats, cwd)
            == EntryFor(packageName, "index.js", IncludeStatsOrDefault(includeStats), cwd)
    ensures BuildEntry(packageName, includeStats, cwd).includeStats == (includeStats != Some(false))
  {
    var dir := FixtureDir(GetFolderName(packageName));
    assert Resolve(cwd, dir) + "/index.js" == Resolve(cwd, dir + "/" + "index.js");
  }
}
