/**
 * The import script (load_data.py): every streamed record is cut down to the
 * vulnerability columns, records without an id are skipped, the asset named by
 * (component name, component version, product) is looked up or created, the
 * vulnerability is merged by id, and the session is committed every hundred
 * records and at the end of each file.
 *
 * The database is two tables: the asset rows, whose row at index i has id
 * i + 1 as an autoincrement key hands them out, and the vulnerability rows,
 * keyed by their id. A commit is counted, not snapshotted.
 */
module Loader {
  import opened Wrappers

  /** A JSON value as the streaming parser yields it; numbers are kept exact. */
  datatype Value =
    | Null
    | Bool(b: bool)
    | Number(x: real)
    | Text(s: string)
    | Array(elems: seq<Value>)
    | Object(fields: map<string, Value>)

  /** Python truthiness: None, False, zero and empty strings and containers are false. */
  predicate Truthy(v: Value) {
    match v
    case Null => false
    case Bool(b) => b
    case Number(x) => x != 0.0
    case Text(s) => s != ""
    case Array(elems) => elems != []
    case Object(fields) => fields != map[]
  }

  /** One streamed record: a JSON object. */
  type Item = map<string, Value>

  /** `dict.get(k)`: a missing key reads as None. */
  function Get(item: Item, k: string): Value {
    if k in item then item[k] else Null
  }

  predicate StartsWith(s: string, prefix: string) {
    |prefix| <= |s| && s[..|prefix|] == prefix
  }

  predicate EndsWith(s: string, suffix: string) {
    |suffix| <= |s| && s[|s| - |suffix|..] == suffix
  }

  /** Columns a spreadsheet export adds without a header ("Unnamed: 0", ...). */
  const UnnamedPrefix := "Unnamed"

  /** `db.session.commit()` is called after every this many stored records. */
  const BatchSize := 100

  // ---------------------------------------------------------------------------
  // One record: filter, id check, asset, merge
  // ---------------------------------------------------------------------------

  /** `filtered_item`: the entries whose key is a vulnerability column and not an unnamed one. */
  function FilterItem(item: Item, validKeys: set<string>): (f: Item)
    ensures forall k :: k in f <==> k in item && k in validKeys && !StartsWith(k, UnnamedPrefix)
    ensures forall k :: k in f ==> f[k] == item[k]
  {
    map k | k in item && k in validKeys && !StartsWith(k, UnnamedPrefix) :: item[k]
  }

  /** Filtering twice keeps what filtering once kept. */
  lemma FilterItemIdempotent(item: Item, validKeys: set<string>)
    ensures FilterItem(FilterItem(item, validKeys), validKeys) == FilterItem(item, validKeys)
  {
  }

  /** The record is stored: its filtered id is truthy. */
  predicate HasId(f: Item) {
    Truthy(Get(f, "id"))
  }

  /** The record names an asset: both component name and product are truthy. */
  predicate WantsAsset(f: Item) {
    Truthy(Get(f, "component_name")) && Truthy(Get(f, "product"))
  }

  /** The three columns the asset query filters on. */
  datatype AssetKey = AssetKey(name: Value, version: Value, product: Value)

  datatype AssetRow = AssetRow(name: Value, version: Value, product: Value, filePath: Value, engagement: Value) {
    function Key(): AssetKey {
      AssetKey(name, version, product)
    }
  }

  function KeyOf(f: Item): AssetKey {
    AssetKey(Get(f, "component_name"), Get(f, "component_version"), Get(f, "product"))
  }

  function NewRow(f: Item): AssetRow {
    AssetRow(Get(f, "component_name"), Get(f, "component_version"), Get(f, "product"),
             Get(f, "file_path"), Get(f, "engagement"))
  }

  /** The id the asset table gives the row at `index`. */
  function RowId(index: nat): nat {
    index + 1
  }

  /** `filter_by(...).first()`: the index of the first row whose three columns match. */
  function FindAsset(rows: seq<AssetRow>, key: AssetKey): (r: Option<nat>)
    ensures r.Some? ==> r.value < |rows| && rows[r.value].Key() == key
    ensures r.Some? ==> forall j :: 0 <= j < r.value ==> rows[j].Key() != key
    ensures r.None? ==> forall j :: 0 <= j < |rows| ==> rows[j].Key() != key
  {
    if rows == [] then None
    else if rows[0].Key() == key then Some(0)
    else match FindAsset(rows[1..], key)
      case None => None
      case Some(i) => Some(i + 1)
  }

  /** `rows` extended by rows whose key no earlier row has. */
  predicate FreshAppend(rows: seq<AssetRow>, rows': seq<AssetRow>) {
    && |rows| <= |rows'|
    && rows'[..|rows|] == rows
    && forall i, j :: 0 <= i < j < |rows'| && |rows| <= j ==> rows'[i].Key() != rows'[j].Key()
  }

  /** At most one row per (name, version, product). */
  predicate UniqueKeys(rows: seq<AssetRow>) {
    forall i, j :: 0 <= i < j < |rows| ==> rows[i].Key() != rows[j].Key()
  }

  lemma FreshAppendTransitive(a: seq<AssetRow>, b: seq<AssetRow>, c: seq<AssetRow>)
    requires FreshAppend(a, b) && FreshAppend(b, c)
    ensures FreshAppend(a, c)
  {
    assert c[..|a|] == c[..|b|][..|a|];
    forall i, j | 0 <= i < j < |c| && |a| <= j
      ensures c[i].Key() != c[j].Key()
    {
      if j < |b| {
        assert c[i] == b[i] && c[j] == b[j];
      }
    }
  }

  lemma FreshAppendUnique(rows: seq<AssetRow>, rows': seq<AssetRow>)
    requires UniqueKeys(rows) && FreshAppend(rows, rows')
    ensures UniqueKeys(rows')
  {
    forall i, j | 0 <= i < j < |rows'|
      ensures rows'[i].Key() != rows'[j].Key()
    {
      if j < |rows| {
        assert rows'[i] == rows[i] && rows'[j] == rows[j];
      }
    }
  }

  /** Appending rows leaves every earlier match where it was. */
  lemma FindAssetStable(rows: seq<AssetRow>, rows': seq<AssetRow>, key: AssetKey)
    requires |rows| <= |rows'| && rows'[..|rows|] == rows
    requires FindAsset(rows, key).Some?
    ensures FindAsset(rows', key) == FindAsset(rows, key)
  {
    var i := FindAsset(rows, key).value;
    assert rows'[i] == rows[i];
    assert forall j :: 0 <= j < i ==> rows'[j] == rows[j];
  }

  /**
   * With a truthy name and product the asset is looked up,
   * created when missing, and its id is written into the record as
   * `asset_id`; otherwise neither table nor record changes.
   */
  function AttachAsset(rows: seq<AssetRow>, f: Item): (r: (seq<AssetRow>, Item))
    ensures FreshAppend(rows, r.0) && |r.0| <= |rows| + 1
    ensures !WantsAsset(f) ==> r == (rows, f)
    ensures WantsAsset(f) ==>
      && FindAsset(r.0, KeyOf(f)).Some?
      && r.1 == f["asset_id" := Number(RowId(FindAsset(r.0, KeyOf(f)).value) as real)]
    ensures FindAsset(rows, KeyOf(f)).Some? ==> r.0 == rows
    ensures |r.0| > |rows| ==> WantsAsset(f) && FindAsset(rows, KeyOf(f)).None? && r.0[|rows|] == NewRow(f)
    ensures forall k :: k in f && k != "asset_id" ==> k in r.1 && r.1[k] == f[k]
  {
    if WantsAsset(f) then
      match FindAsset(rows, KeyOf(f))
      case Some(i) =>
        (rows, f["asset_id" := Number(RowId(i) as real)])
      case None =>
        var rows' := rows + [NewRow(f)];
        assert rows'[..|rows|] == rows;
        assert forall j :: 0 <= j < |rows| ==> rows'[j] == rows[j];
        assert rows'[|rows|].Key() == KeyOf(f);
        assert FindAsset(rows', KeyOf(f)) == Some(|rows|);
        (rows', f["asset_id" := Number(RowId(|rows|) as real)])
    else
      (rows, f)
  }

  /**
   * `db.session.merge(Vulnerability(**rec))`: the row with the record's id
   * takes every column the record carries; a new id adds a row.
   */
  function Upsert(store: map<Value, Item>, rec: Item): (r: map<Value, Item>)
    requires "id" in rec
    ensures r.Keys == store.Keys + {rec["id"]}
    ensures forall k :: k in rec ==> k in r[rec["id"]] && r[rec["id"]][k] == rec[k]
    ensures rec["id"] in store ==> forall k :: k in store[rec["id"]] && k !in rec ==> k in r[rec["id"]] && r[rec["id"]][k] == store[rec["id"]][k]
    ensures rec["id"] !in store ==> r[rec["id"]] == rec
    ensures forall v :: v in store && v != rec["id"] ==> r[v] == store[v]
  {
    var id := rec["id"];
    store[id := if id in store then store[id] + rec else rec]
  }

  /** The database state the script changes. */
  datatype Db = Db(assets: seq<AssetRow>, vulns: map<Value, Item>, commits: nat)

  /** One pass of the inner loop: `count` is the file's running count before the record. */
  function StepItem(db: Db, count: nat, item: Item, validKeys: set<string>): (r: (Db, nat))
    ensures !HasId(FilterItem(item, validKeys)) ==> r == (db, count)
    ensures HasId(FilterItem(item, validKeys)) ==> r.1 == count + 1
    ensures FreshAppend(db.assets, r.0.assets)
  {
    var f := FilterItem(item, validKeys);
    if !HasId(f) then (db, count)
    else
      var (assets, rec) := AttachAsset(db.assets, f);
      var n := count + 1;
      (Db(assets, Upsert(db.vulns, rec), if n % BatchSize == 0 then db.commits + 1 else db.commits), n)
  }

  /** What a stored record does to the two tables. */
  lemma StepItemTables(db: Db, count: nat, item: Item, validKeys: set<string>)
    requires HasId(FilterItem(item, validKeys))
    ensures var f := FilterItem(item, validKeys);
      var r := StepItem(db, count, item, validKeys).0;
      r.assets == AttachAsset(db.assets, f).0 && r.vulns == Upsert(db.vulns, AttachAsset(db.assets, f).1)
  {
  }

  /** What the loop body does to the state and the count for a stored record. */
  lemma StepItemStored(db: Db, count: nat, item: Item, validKeys: set<string>)
    requires HasId(FilterItem(item, validKeys))
    ensures var f := FilterItem(item, validKeys);
      var (assets, rec) := AttachAsset(db.assets, f);
      StepItem(db, count, item, validKeys)
        == (Db(assets, Upsert(db.vulns, rec), if (count + 1) % BatchSize == 0 then db.commits + 1 else db.commits), count + 1)
  {
  }

  /** The inner loop over the records of one file, from running count `count`. */
  function RunItems(db: Db, count: nat, items: seq<Item>, validKeys: set<string>): (Db, nat)
    decreases |items|
  {
    if items == [] then (db, count)
    else
      var (d, c) := RunItems(db, count, items[..|items| - 1], validKeys);
      StepItem(d, c, items[|items| - 1], validKeys)
  }

  /** One file: the loop from count 0, then the final commit. */
  function RunFile(db: Db, items: seq<Item>, validKeys: set<string>): (Db, nat) {
    var (d, c) := RunItems(db, 0, items, validKeys);
    (d.(commits := d.commits + 1), c)
  }

  /** A directory entry and, for a JSON file, the records it streams. */
  datatype DataFile = DataFile(name: string, items: seq<Item>)

  /** The outer loop: files not ending in ".json" are passed over; one count per loaded file. */
  function RunDirectory(db: Db, files: seq<DataFile>, validKeys: set<string>): (Db, seq<nat>)
    decreases |files|
  {
    if files == [] then (db, [])
    else
      var (d, counts) := RunDirectory(db, files[..|files| - 1], validKeys);
      var file := files[|files| - 1];
      if EndsWith(file.name, ".json") then
        var (d', c) := RunFile(d, file.items, validKeys);
        (d', counts + [c])
      else
        (d, counts)
  }

  // ---------------------------------------------------------------------------
  // What a run promises
  // ---------------------------------------------------------------------------

  /** The ids of the records that are stored, in order, repeats included. */
  function StoredIds(items: seq<Item>, validKeys: set<string>): seq<Value>
    decreases |items|
  {
    if items == [] then []
    else
      var f := FilterItem(items[|items| - 1], validKeys);
      StoredIds(items[..|items| - 1], validKeys) + (if HasId(f) then [Get(f, "id")] else [])
  }

  /** The count goes up by one per stored record and never for a skipped one. */
  lemma {:induction false} RunItemsCount(db: Db, count: nat, items: seq<Item>, validKeys: set<string>)
    ensures RunItems(db, count, items, validKeys).1 == count + |StoredIds(items, validKeys)|
    decreases |items|
  {
    if items != [] {
      RunItemsCount(db, count, items[..|items| - 1], validKeys);
    }
  }

  lemma DivStep(m: nat)
    ensures (m + 1) / BatchSize == m / BatchSize + (if (m + 1) % BatchSize == 0 then 1 else 0)
  {
    var q, r := m / BatchSize, m % BatchSize;
    assert m == BatchSize * q + r;
    if r == BatchSize - 1 {
      assert m + 1 == BatchSize * (q + 1);
    } else {
      assert m + 1 == BatchSize * q + (r + 1);
    }
  }

  /** One commit each time the running count reaches a multiple of the batch size. */
  lemma {:induction false} RunItemsCommits(db: Db, count: nat, items: seq<Item>, validKeys: set<string>)
    ensures RunItems(db, count, items, validKeys).0.commits + count / BatchSize
         == db.commits + RunItems(db, count, items, validKeys).1 / BatchSize
    decreases |items|
  {
    if items != [] {
      var front := items[..|items| - 1];
      RunItemsCommits(db, count, front, validKeys);
      var (d, c) := RunItems(db, count, front, validKeys);
      DivStep(c);
    }
  }

  /** A file with `count` stored records is committed `count / 100 + 1` times. */
  lemma RunFileCommits(db: Db, items: seq<Item>, validKeys: set<string>)
    ensures RunFile(db, items, validKeys).0.commits
         == db.commits + RunFile(db, items, validKeys).1 / BatchSize + 1
  {
    RunItemsCommits(db, 0, items, validKeys);
  }

  /** The file's count is the number of records with a truthy id. */
  lemma RunFileCount(db: Db, items: seq<Item>, validKeys: set<string>)
    ensures RunFile(db, items, validKeys).1 == |StoredIds(items, validKeys)|
  {
    RunItemsCount(db, 0, items, validKeys);
  }

  /** The vulnerability table gains exactly the ids of the stored records. */
  lemma {:induction false} RunItemsVulnKeys(db: Db, count: nat, items: seq<Item>, validKeys: set<string>)
    ensures RunItems(db, count, items, validKeys).0.vulns.Keys
         == db.vulns.Keys + (set v | v in StoredIds(items, validKeys))
    decreases |items|
  {
    if items != [] {
      RunItemsVulnKeys(db, count, items[..|items| - 1], validKeys);
    }
  }

  /** From an empty table, one vulnerability row per distinct stored id. */
  lemma RunFileDistinctIds(db: Db, items: seq<Item>, validKeys: set<string>)
    requires db.vulns == map[]
    ensures RunFile(db, items, validKeys).0.vulns.Keys == set v | v in StoredIds(items, validKeys)
  {
    RunItemsVulnKeys(db, 0, items, validKeys);
  }

  /** The ids of every record stored from the ".json" files, in loading order. */
  function DirectoryStoredIds(files: seq<DataFile>, validKeys: set<string>): seq<Value>
    decreases |files|
  {
    if files == [] then []
    else
      var file := files[|files| - 1];
      DirectoryStoredIds(files[..|files| - 1], validKeys)
        + (if EndsWith(file.name, ".json") then StoredIds(file.items, validKeys) else [])
  }

  /**
   * A whole run: the vulnerability table gains exactly the stored ids of all
   * the files, so from an empty table it holds one row per distinct truthy id.
   */
  lemma {:induction false} RunDirectoryVulnKeys(db: Db, files: seq<DataFile>, validKeys: set<string>)
    ensures RunDirectory(db, files, validKeys).0.vulns.Keys
         == db.vulns.Keys + (set v | v in DirectoryStoredIds(files, validKeys))
    decreases |files|
  {
    if files != [] {
      var front := files[..|files| - 1];
      RunDirectoryVulnKeys(db, front, validKeys);
      var (d, counts) := RunDirectory(db, front, validKeys);
      var file := files[|files| - 1];
      if EndsWith(file.name, ".json") {
        RunItemsVulnKeys(d, 0, file.items, validKeys);
        var a := DirectoryStoredIds(front, validKeys);
        var b := StoredIds(file.items, validKeys);
        assert DirectoryStoredIds(files, validKeys) == a + b;
        assert (set v | v in a + b) == (set v | v in a) + (set v | v in b);
      }
    }
  }

  /** Rows are only appended, and an appended row's key is new to the table. */
  lemma {:induction false} RunItemsFreshAppend(db: Db, count: nat, items: seq<Item>, validKeys: set<string>)
    ensures FreshAppend(db.assets, RunItems(db, count, items, validKeys).0.assets)
    decreases |items|
  {
    if items != [] {
      var front := items[..|items| - 1];
      RunItemsFreshAppend(db, count, front, validKeys);
      var (d, c) := RunItems(db, count, front, validKeys);
      FreshAppendTransitive(db.assets, d.assets, RunItems(db, count, items, validKeys).0.assets);
    }
  }

  /** A table with one row per triple still has one row per triple after a file. */
  lemma RunFileUniqueAssets(db: Db, items: seq<Item>, validKeys: set<string>)
    requires UniqueKeys(db.assets)
    ensures UniqueKeys(RunFile(db, items, validKeys).0.assets)
  {
    RunItemsFreshAppend(db, 0, items, validKeys);
    FreshAppendUnique(db.assets, RunFile(db, items, validKeys).0.assets);
  }

  /** An asset found before the run is the one found, with the same id, after it. */
  lemma RunItemsKeepsAssetIds(db: Db, count: nat, items: seq<Item>, validKeys: set<string>, key: AssetKey)
    requires FindAsset(db.assets, key).Some?
    ensures FindAsset(RunItems(db, count, items, validKeys).0.assets, key) == FindAsset(db.assets, key)
  {
    RunItemsFreshAppend(db, count, items, validKeys);
    FindAssetStable(db.assets, RunItems(db, count, items, validKeys).0.assets, key);
  }

  /** The record is stored and its filtered form names an asset. */
  predicate NamesAsset(item: Item, validKeys: set<string>) {
    HasId(FilterItem(item, validKeys)) && WantsAsset(FilterItem(item, validKeys))
  }

  /** Every stored record that names an asset has its asset row after the run. */
  lemma {:induction false} RunItemsCoversAssets(db: Db, count: nat, items: seq<Item>, validKeys: set<string>, k: nat)
    requires k < |items| && NamesAsset(items[k], validKeys)
    ensures FindAsset(RunItems(db, count, items, validKeys).0.assets, KeyOf(FilterItem(items[k], validKeys))).Some?
    decreases |items|
  {
    var n := |items| - 1;
    var front := items[..n];
    var prev := RunItems(db, count, front, validKeys);
    var after := StepItem(prev.0, prev.1, items[n], validKeys).0.assets;
    assert RunItems(db, count, items, validKeys).0.assets == after;
    var key := KeyOf(FilterItem(items[k], validKeys));
    if k < n {
      assert front[k] == items[k];
      RunItemsCoversAssets(db, count, front, validKeys, k);
      FindAssetStable(prev.0.assets, after, key);
    } else {
      StepItemTables(prev.0, prev.1, items[n], validKeys);
    }
  }

  /** `row` is the row some stored record of `items` that names an asset would create. */
  predicate CreatedBy(row: AssetRow, items: seq<Item>, validKeys: set<string>) {
    exists k :: 0 <= k < |items| && NamesAsset(items[k], validKeys) && row == NewRow(FilterItem(items[k], validKeys))
  }

  /** Every row the run adds was created for a stored record that names an asset. */
  lemma {:induction false} RunItemsNoPhantomAssets(db: Db, count: nat, items: seq<Item>, validKeys: set<string>)
    ensures forall j :: |db.assets| <= j < |RunItems(db, count, items, validKeys).0.assets| ==>
      CreatedBy(RunItems(db, count, items, validKeys).0.assets[j], items, validKeys)
    decreases |items|
  {
    if items != [] {
      var n := |items| - 1;
      var front := items[..n];
      RunItemsNoPhantomAssets(db, count, front, validKeys);
      RunItemsFreshAppend(db, count, front, validKeys);
      var prev := RunItems(db, count, front, validKeys);
      var d := prev.0;
      var after := StepItem(d, prev.1, items[n], validKeys).0.assets;
      assert RunItems(db, count, items, validKeys).0.assets == after;
      assert after[..|d.assets|] == d.assets;
      forall j | |db.assets| <= j < |after|
        ensures CreatedBy(after[j], items, validKeys)
      {
        if j < |d.assets| {
          assert after[j] == d.assets[j];
          assert CreatedBy(d.assets[j], front, validKeys);
          var k :| 0 <= k < |front| && NamesAsset(front[k], validKeys) && d.assets[j] == NewRow(FilterItem(front[k], validKeys));
          assert front[k] == items[k];
        } else {
          StepItemTables(d, prev.1, items[n], validKeys);
          assert NamesAsset(items[n], validKeys) && after[j] == NewRow(FilterItem(items[n], validKeys));
        }
      }
    }
  }

  /** The record is stored under id `v`. */
  predicate StoredAs(item: Item, validKeys: set<string>, v: Value) {
    HasId(FilterItem(item, validKeys)) && Get(FilterItem(item, validKeys), "id") == v
  }

  /**
   * The last record stored under an id decides every column it carries in
   * that id's row (its asset id aside, which `RunItemsLastAssetId` states).
   */
  lemma {:induction false} RunItemsLastWriteWins(db: Db, count: nat, items: seq<Item>, validKeys: set<string>, j: nat)
    requires j < |items| && HasId(FilterItem(items[j], validKeys))
    requires forall l :: j < l < |items| ==> !StoredAs(items[l], validKeys, Get(FilterItem(items[j], validKeys), "id"))
    ensures var f := FilterItem(items[j], validKeys);
      var store := RunItems(db, count, items, validKeys).0.vulns;
      && Get(f, "id") in store
      && forall k :: k in f && k != "asset_id" ==> k in store[Get(f, "id")] && store[Get(f, "id")][k] == f[k]
    decreases |items|
  {
    var n := |items| - 1;
    var front := items[..n];
    var f := FilterItem(items[j], validKeys);
    var v := Get(f, "id");
    var prev := RunItems(db, count, front, validKeys);
    var store := StepItem(prev.0, prev.1, items[n], validKeys).0.vulns;
    assert RunItems(db, count, items, validKeys).0.vulns == store;
    var g := FilterItem(items[n], validKeys);
    if j < n {
      assert front[j] == items[j];
      forall l | j < l < |front|
        ensures !StoredAs(front[l], validKeys, v)
      {
        assert front[l] == items[l];
      }
      RunItemsLastWriteWins(db, count, front, validKeys, j);
      assert !StoredAs(items[n], validKeys, v);
      if HasId(g) {
        StepItemTables(prev.0, prev.1, items[n], validKeys);
        var rec := AttachAsset(prev.0.assets, g).1;
        assert rec["id"] == Get(g, "id") != v;
        assert store[v] == prev.0.vulns[v];
      }
    } else {
      StepItemTables(prev.0, prev.1, items[n], validKeys);
      var rec := AttachAsset(prev.0.assets, g).1;
      assert rec["id"] == v;
    }
  }

  /** A record stored under another id leaves the row of `v` as it was. */
  lemma StepKeepsOtherRecord(db: Db, count: nat, item: Item, validKeys: set<string>, v: Value)
    requires !StoredAs(item, validKeys, v) && v in db.vulns
    ensures v in StepItem(db, count, item, validKeys).0.vulns
    ensures StepItem(db, count, item, validKeys).0.vulns[v] == db.vulns[v]
  {
    if HasId(FilterItem(item, validKeys)) {
      StepItemTables(db, count, item, validKeys);
    }
  }

  /**
   * The `asset_id` in the row of the last record stored under an id: the id
   * of the asset it names, as found in the final table; for a record naming
   * no asset, its own `asset_id` column when it has one (otherwise `merge`
   * keeps whatever an earlier record left there).
   */
  lemma {:induction false} RunItemsLastAssetId(db: Db, count: nat, items: seq<Item>, validKeys: set<string>, j: nat)
    requires j < |items| && HasId(FilterItem(items[j], validKeys))
    requires forall l :: j < l < |items| ==> !StoredAs(items[l], validKeys, Get(FilterItem(items[j], validKeys), "id"))
    ensures var f := FilterItem(items[j], validKeys);
      var after := RunItems(db, count, items, validKeys).0;
      WantsAsset(f) ==>
        && FindAsset(after.assets, KeyOf(f)).Some?
        && Get(f, "id") in after.vulns
        && "asset_id" in after.vulns[Get(f, "id")]
        && after.vulns[Get(f, "id")]["asset_id"] == Number(RowId(FindAsset(after.assets, KeyOf(f)).value) as real)
    ensures var f := FilterItem(items[j], validKeys);
      var store := RunItems(db, count, items, validKeys).0.vulns;
      !WantsAsset(f) && "asset_id" in f ==>
        Get(f, "id") in store && "asset_id" in store[Get(f, "id")] && store[Get(f, "id")]["asset_id"] == f["asset_id"]
    decreases |items|
  {
    var n := |items| - 1;
    var front := items[..n];
    var f := FilterItem(items[j], validKeys);
    var v := Get(f, "id");
    var prev := RunItems(db, count, front, validKeys);
    var next := StepItem(prev.0, prev.1, items[n], validKeys).0;
    assert RunItems(db, count, items, validKeys).0 == next;
    var g := FilterItem(items[n], validKeys);
    if j < n {
      assert front[j] == items[j];
      forall l | j < l < |front|
        ensures !StoredAs(front[l], validKeys, v)
      {
        assert front[l] == items[l];
      }
      RunItemsLastAssetId(db, count, front, validKeys, j);
      assert !StoredAs(items[n], validKeys, v);
      if WantsAsset(f) || "asset_id" in f {
        StepKeepsOtherRecord(prev.0, prev.1, items[n], validKeys, v);
      }
      if WantsAsset(f) {
        FindAssetStable(prev.0.assets, next.assets, KeyOf(f));
      }
    } else {
      StepItemTables(prev.0, prev.1, items[n], validKeys);
      var rec := AttachAsset(prev.0.assets, g).1;
      assert rec["id"] == v;
    }
  }

  /** Loading a directory keeps every asset row and never duplicates a triple. */
  lemma {:induction false} RunDirectoryFreshAppend(db: Db, files: seq<DataFile>, validKeys: set<string>)
    ensures FreshAppend(db.assets, RunDirectory(db, files, validKeys).0.assets)
    decreases |files|
  {
    if files != [] {
      var front := files[..|files| - 1];
      RunDirectoryFreshAppend(db, front, validKeys);
      var (d, counts) := RunDirectory(db, front, validKeys);
      var file := files[|files| - 1];
      if EndsWith(file.name, ".json") {
        RunItemsFreshAppend(d, 0, file.items, validKeys);
        FreshAppendTransitive(db.assets, d.assets, RunDirectory(db, files, validKeys).0.assets);
      }
    }
  }

  /** One reported count per ".json" file, in listing order. */
  lemma {:induction false} RunDirectoryCounts(db: Db, files: seq<DataFile>, validKeys: set<string>)
    ensures |RunDirectory(db, files, validKeys).1| == |JsonFiles(files)|
    ensures forall i :: 0 <= i < |JsonFiles(files)| ==>
      RunDirectory(db, files, validKeys).1[i] == |StoredIds(JsonFiles(files)[i].items, validKeys)|
    decreases |files|
  {
    if files != [] {
      var front := files[..|files| - 1];
      RunDirectoryCounts(db, front, validKeys);
      var (d, counts) := RunDirectory(db, front, validKeys);
      var file := files[|files| - 1];
      if EndsWith(file.name, ".json") {
        RunFileCount(d, file.items, validKeys);
      }
    }
  }

  /** The files of the listing that the script opens. */
  function JsonFiles(files: seq<DataFile>): seq<DataFile>
    decreases |files|
  {
    if files == [] then []
    else
      var file := files[|files| - 1];
      JsonFiles(files[..|files| - 1]) + (if EndsWith(file.name, ".json") then [file] else [])
  }

  // ---------------------------------------------------------------------------
  // The script, step by step, against the session's tables
  // ---------------------------------------------------------------------------

  class Database {
    var assets: seq<AssetRow>
    var vulns: map<Value, Item>
    var commits: nat

    function State(): Db
      reads this
    {
      Db(assets, vulns, commits)
    }

    constructor (initial: Db)
      ensures State() == initial
    {
      assets, vulns, commits := initial.assets, initial.vulns, initial.commits;
    }

    /** `Asset.query.filter_by(name=..., version=..., product=...).first()`, as a scan of the rows. */
    method QueryAsset(key: AssetKey) returns (r: Option<nat>)
      ensures r == FindAsset(assets, key)
    {
      var i := 0;
      while i < |assets| && assets[i].Key() != key
        invariant 0 <= i <= |assets|
        invariant forall j :: 0 <= j < i ==> assets[j].Key() != key
      {
        i := i + 1;
      }
      r := if i < |assets| then Some(i) else None;
    }

    /** The get-or-create block: returns the record with `asset_id` set when an asset is named. */
    method GetOrCreateAsset(f: Item) returns (rec: Item)
      modifies this
      ensures (assets, rec) == AttachAsset(old(assets), f)
      ensures vulns == old(vulns) && commits == old(commits)
    {
      rec := f;
      var name, version, product := Get(f, "component_name"), Get(f, "component_version"), Get(f, "product");
      if Truthy(name) && Truthy(product) {
        var found := QueryAsset(AssetKey(name, version, product));
        var index: nat;
        match found {
          case Some(i) =>
            index := i;
          case None =>
            // `db.session.add(asset)` and `flush()`: the row gets the next id
            assets := assets + [AssetRow(name, version, product, Get(f, "file_path"), Get(f, "engagement"))];
            index := |assets| - 1;
        }
        rec := rec["asset_id" := Number(RowId(index) as real)];
      }
    }

    method Merge(rec: Item)
      requires "id" in rec
      modifies this
      ensures vulns == Upsert(old(vulns), rec)
      ensures assets == old(assets) && commits == old(commits)
    {
      var id := rec["id"];
      vulns := vulns[id := if id in vulns then vulns[id] + rec else rec];
    }

    method Commit()
      modifies this
      ensures commits == old(commits) + 1
      ensures assets == old(assets) && vulns == old(vulns)
    {
      commits := commits + 1;
    }

      /** The body of the inner loop for one streamed record. */
    method LoadItem(item: Item, validKeys: set<string>, count: nat) returns (count': nat)
      modifies this
      ensures (State(), count') == StepItem(old(State()), count, item, validKeys)
    {
      ghost var before := State();
      var f := FilterItem(item, validKeys);
      count' := count;
      if !Truthy(Get(f, "id")) {
        return;
      }
      var rec := GetOrCreateAsset(f);
      assert (assets, rec) == AttachAsset(before.assets, f);
      Merge(rec);
      assert vulns == Upsert(before.vulns, rec);
      count' := count + 1;
      if count' % BatchSize == 0 {
        Commit();
      }
      assert commits == if count' % BatchSize == 0 then before.commits + 1 else before.commits;
      StepItemStored(before, count, item, validKeys);
    }

    /** The `with open(...)` block for one file. */
    method LoadFile(items: seq<Item>, validKeys: set<string>) returns (count: nat)
      modifies this
      ensures (State(), count) == RunFile(old(State()), items, validKeys)
    {
      count := 0;
      for i := 0 to |items|
        invariant (State(), count) == RunItems(old(State()), 0, items[..i], validKeys)
      {
        assert items[..i + 1][..i] == items[..i];
        count := LoadItem(items[i], validKeys, count);
      }
      assert items[..|items|] == items;
      Commit();
    }

    /** `load_data`: every ".json" file of the listing, in order; returns each file's count. */
    method LoadData(files: seq<DataFile>, validKeys: set<string>) returns (counts: seq<nat>)
      modifies this
      ensures (State(), counts) == RunDirectory(old(State()), files, validKeys)
    {
      counts := [];
      for i := 0 to |files|
        invariant (State(), counts) == RunDirectory(old(State()), files[..i], validKeys)
      {
        assert files[..i + 1][..i] == files[..i];
        if EndsWith(files[i].name, ".json") {
          var c := LoadFile(files[i].items, validKeys);
          counts := counts + [c];
        }
      }
      assert files[..|files|] == files;
    }
  }
}
