# BluePriori: dashboard derivations and the vulnerability loader

BluePriori ranks software components ("assets") by the priority of the
vulnerabilities found in them. This project is a Dafny model of the two pieces of
the repository that hold real logic, with proofs about each.

- **The dashboard (`frontend/src/App.jsx`), module `Dashboard` in `dashboard.dfy`.**
  The React component keeps five pieces of state: `assets`, `loading`, `error`,
  `sortKey` and `sortDirection`. They are the fields of the class `Dashboard.App`.
  - `handleSort` is `App.HandleSort`, specified by the pure toggle function `ToggleSort`.
  - `fetchAssets` and `handleRefresh` are `App.FetchAssets` and `App.HandleRefresh`.
    They run in two steps: `App.BeginFetch`, then `App.SettleFetch`. The HTTP
    response is an argument: either `Fetched(list)` or `FetchFailed`.
  - The comparator of `sortedAssets` is `Compare`. The copy-sort is `SortBy`, a
    stable insertion sort. Its contract is a sorted permutation, and
    `SortByStable` proves it stable, like the ES2019 `Array.prototype.sort`.
  - The `reduce` that builds `groupedData` is the loop method `GroupByProduct`.
    It updates a map accumulator with one entry per product. This is the corrected
    accumulator: the source's `{}` inherits the `Object.prototype` names, which
    `KeysAsWritten` models (see Findings). `ChartData` then maps the keys in
    first-seen order to their averages. Both are proved equal to the pure
    specifications `Products`, `TotalScore`, `CountOf` and `ChartOf`.

- **The loader (`load_data.py`), module `Loader` in `loader.dfy`.**
  The SQLAlchemy session is the class `Loader.Database`. It has three fields:
  - `assets`: the asset table as a sequence of rows. The row at index `i` has id `i + 1`.
  - `vulns`: the vulnerability table as a map from `id` to record.
  - `commits`: how many times `commit()` was called.

  `LoadData` walks the directory listing of data files, `LoadFile` the items of
  one file, and `LoadItem` one item. Each loop method is proved equal to a pure
  fold (`RunDirectory`, `RunFile`/`RunItems`, `StepItem`). The properties of the
  loader are lemmas about those folds:
  - key filtering;
  - skipping items with a falsy `id`;
  - at most one asset per `(name, version, product)`;
  - asset ids are reused;
  - last write wins per `id`;
  - the per-file count;
  - `count / 100 + 1` commits per file.

A JSON value is `Loader.Value`, with Python truthiness (`Truthy`). The dictionary
`item.get(k)` returns `Null` for a missing key (`Get`). JavaScript `<` on strings
is the lexicographic order `StrLess`. Scores are exact `real`s.

One behaviour of the code is modelled as written: once a fetch fails, the
dashboard stays on the error view. Nothing clears `error`, and that view has no
Refresh button.

## Model

| member | source | states |
|---|---|---|
| Dashboard.StrLessIrreflexive | frontend/src/App.jsx:49-50 | no string is `<` itself |
| Dashboard.StrLessAsymmetric | frontend/src/App.jsx:49-50 | `a < b` excludes `b < a` |
| Dashboard.StrLessTransitive | frontend/src/App.jsx:49-50 | string `<` is transitive |
| Dashboard.StrLessTotal | frontend/src/App.jsx:49-50 | two different strings are always ordered one way or the other |
| Dashboard.KeyLessAsymmetric | frontend/src/App.jsx:49-50 | `a[sortKey] < b[sortKey]` excludes `b[sortKey] < a[sortKey]`, for every column |
| Dashboard.KeyTrichotomy | frontend/src/App.jsx:49-51 | for every column two assets are `<`, `>` or equal in it, and equal keys are neither `<` nor `>` |
| Dashboard.KeyLessSplit | frontend/src/App.jsx:49-50 | if `a < c` in a column then `a < b` or `b < c` (negative transitivity, needed for a consistent comparator) |
| Dashboard.Compare | frontend/src/App.jsx:49-51 | the comparator returns -1, 0 or 1, returns 0 exactly when the keys are neither `<` nor `>`, and its sign follows the direction |
| Dashboard.CompareAntisymmetric | frontend/src/App.jsx:49-51 | `cmp(a, b) == -cmp(b, a)` |
| Dashboard.CompareTransitive | frontend/src/App.jsx:49-51 | `cmp(a, b) <= 0` and `cmp(b, c) <= 0` give `cmp(a, c) <= 0`, so the comparator is consistent |
| Dashboard.Insert | frontend/src/App.jsx:48 | inserting into the sorted prefix adds exactly that one asset |
| Dashboard.InsertSorted | frontend/src/App.jsx:48-52 | inserting into a sorted list keeps it sorted |
| Dashboard.SortBy | frontend/src/App.jsx:48-52 | `sortedAssets` is a permutation of `assets` and is ordered by the comparator |
| Dashboard.SortByStable | frontend/src/App.jsx:48 | assets with equal keys keep their original relative order (stable sort) |
| Dashboard.SortedAscendingMeaning | frontend/src/App.jsx:49-50 | sorted ascending is exactly "no later asset has a smaller key" |
| Dashboard.SortedDescendingMeaning | frontend/src/App.jsx:49-50 | sorted descending is exactly "no later asset has a larger key" |
| Dashboard.SortByOfSorted | frontend/src/App.jsx:48-52 | sorting a list that is already sorted leaves it unchanged |
| Dashboard.SortByIdempotent | frontend/src/App.jsx:48-52 | sorting twice gives the same list as sorting once |
| Dashboard.FirstIndex | frontend/src/App.jsx:34-36 | the position where a product first appears in `assets` |
| Dashboard.ProductsExact | frontend/src/App.jsx:34-43 | a product is a key of `groupedData` exactly when some asset has it |
| Dashboard.ProductsDistinct | frontend/src/App.jsx:34-43 | no product is a key twice |
| Dashboard.CountPositive | frontend/src/App.jsx:35-39 | a product's count is positive exactly when it is a key, so the average never divides by zero |
| Dashboard.FirstIndexOfPrefix | frontend/src/App.jsx:34-36 | a product seen in a prefix is first seen at the same index in the whole list |
| Dashboard.ProductsFirstSeenOrder | frontend/src/App.jsx:34-43 | keys are listed in the order their products first appear |
| Dashboard.AbsentProduct | frontend/src/App.jsx:35-39 | a product that is not a key has total 0 and count 0 |
| Dashboard.TotalScoreBounds | frontend/src/App.jsx:38-39 | a product's total lies between count × lower bound and count × upper bound of the scores |
| Dashboard.GroupByProduct | frontend/src/App.jsx:34-41 | with the corrected (prototype-free) accumulator, the `reduce` gives one accumulator entry per product present and none other, holding the sum of that product's scores and the number of its assets (at least 1), with keys in first-seen order |
| Dashboard.ChartData | frontend/src/App.jsx:43-46 | `chartData` is the per-product average list `ChartOf` |
| Dashboard.ChartOneEntryPerProduct | frontend/src/App.jsx:34-46 | the chart has an entry for a product exactly when some asset has that product, and never two entries for the same product |
| Dashboard.ChartFirstSeenOrder | frontend/src/App.jsx:34-46 | chart entries appear in the order their products first appear in `assets` |
| Dashboard.ChartAverages | frontend/src/App.jsx:45 | each entry's `averagePriority` is that product's score total divided by its (positive) count |
| Dashboard.AverageInRange | frontend/src/App.jsx:45 | the average lies between the lowest and the highest score bound |
| Dashboard.RatioInRange | frontend/src/App.jsx:45 | total divided by count lies within the score bounds |
| Dashboard.ChartAverageInRange | frontend/src/App.jsx:43-46 | every chart average lies within the bounds of the scores |
| Dashboard.ChartExample | frontend/src/App.jsx:34-46 | A(10), A(30), B(50) chart as [A: 20, B: 50] |
| Dashboard.InheritedProductDroppedAsWritten | frontend/src/App.jsx:34-41 | as written, an asset whose product is `constructor` occurs but gets no chart entry |
| Dashboard.KeysAsWrittenAgree | frontend/src/App.jsx:34-43 | as written, keys agree with `Products` when no product is an `Object.prototype` member name |
| Dashboard.Flip | frontend/src/App.jsx:56 | the direction flip always changes the direction |
| Dashboard.ToggleSort | frontend/src/App.jsx:54-61 | the key becomes the clicked key; the same key flips the direction, a new key sorts descending |
| Dashboard.ToggleSortTwice | frontend/src/App.jsx:54-61 | clicking the current column twice restores the state |
| Dashboard.ToggleSortNewThenSame | frontend/src/App.jsx:54-61 | clicking a new column twice sorts it ascending |
| Dashboard.FetchAllMeaning | frontend/src/App.jsx:13-23 | after a series of fetches, `assets` is the list from the last successful one (unchanged if all failed); `error` is set if any failed and is never cleared; `loading` ends false |
| Dashboard.App.constructor | frontend/src/App.jsx:7-11 | initial state: no assets, loading, no error, sorted by priority score descending |
| Dashboard.App.HandleSort | frontend/src/App.jsx:54-61 | the sort state moves by `ToggleSort` and the data state is unchanged |
| Dashboard.App.BeginFetch | frontend/src/App.jsx:14 | sets `loading` and nothing else |
| Dashboard.App.SettleFetch | frontend/src/App.jsx:15-22 | success replaces `assets` wholesale and keeps `error`; failure keeps `assets` and sets the error message; `loading` ends false |
| Dashboard.App.FetchAssets | frontend/src/App.jsx:13-23 | one fetch moves the view state as in `FetchAll` and leaves the sort state alone |
| Dashboard.App.HandleRefresh | frontend/src/App.jsx:29-31 | a refresh is one more `fetchAssets` |
| Dashboard.App.SortedAssets | frontend/src/App.jsx:48-52 | the rows are a sorted permutation of `assets` for the current key and direction, and `assets` itself is not changed |
| Dashboard.App.Chart | frontend/src/App.jsx:43-46 | the chart of the current `assets` |
| Loader.FilterItem | load_data.py:19 | keeps exactly the keys of `item` that are valid columns and do not start with `Unnamed`, with their values |
| Loader.FilterItemIdempotent | load_data.py:19 | filtering twice is the same as filtering once |
| Loader.FindAsset | load_data.py:35 | the query's `first()` returns the first row with the `(name, version, product)` key, or none when no row has it |
| Loader.FreshAppendTransitive | load_data.py:35-39 | "only appends rows with new keys" composes |
| Loader.FreshAppendUnique | load_data.py:35-39 | such appends keep asset keys unique |
| Loader.FindAssetStable | load_data.py:35-40 | a found asset is found at the same id after more rows are appended |
| Loader.AttachAsset | load_data.py:28-40 | without a truthy `component_name` and `product` the item is untouched and no lookup happens; otherwise an existing asset's id is reused or one new row is appended with the item's fields, and `asset_id` is set to that row's id; other keys are kept |
| Loader.Upsert | load_data.py:42-43 | `merge` keys the table by `id`: the record's columns win, older columns it does not set are kept, other ids are untouched |
| Loader.StepItem | load_data.py:19-46 | an item whose filtered `id` is falsy changes nothing (no asset, no upsert, no count); otherwise the count goes up by one; assets are only appended with new keys |
| Loader.StepItemTables | load_data.py:34-46 | a counted item's assets and vulnerabilities are `AttachAsset` and then `Upsert` of its record |
| Loader.RunItemsCount | load_data.py:16-21 | the count goes up by the number of items with a truthy `id` |
| Loader.DivStep | load_data.py:45 | `count / 100` goes up by one exactly when `count % 100 == 0` after the increment |
| Loader.RunItemsCommits | load_data.py:44-46 | the loop commits once for each 100 counted items |
| Loader.RunFileCommits | load_data.py:44-48 | a file makes `count / 100 + 1` commits |
| Loader.RunFileCount | load_data.py:16-21 | a file's `count` is the number of its items with a truthy `id` |
| Loader.RunItemsVulnKeys | load_data.py:42-43 | the vulnerability ids after the loop are the earlier ones plus the truthy ids that were merged |
| Loader.RunFileDistinctIds | load_data.py:42-43 | starting from an empty table, the table holds one record per distinct truthy id of the file |
| Loader.RunItemsFreshAppend | load_data.py:34-40 | the loop only appends assets, each with a new key |
| Loader.RunFileUniqueAssets | load_data.py:35-40 | after a file there is at most one asset per `(name, version, product)` |
| Loader.RunItemsKeepsAssetIds | load_data.py:35-40 | an existing asset keeps its id: later items reuse it instead of creating another |
| Loader.RunItemsCoversAssets | load_data.py:34-40 | every counted item with a truthy `component_name` and `product` has its asset in the table afterwards |
| Loader.RunItemsNoPhantomAssets | load_data.py:34-39 | every new asset row comes from some counted item with a truthy name and product |
| Loader.RunItemsLastWriteWins | load_data.py:42-43 | the record stored for an id carries the columns of the last item with that id |
| Loader.RunItemsLastAssetId | load_data.py:34-43 | if the last item with an id names an asset, the stored `asset_id` is that asset's id in the final table; if it names none, its own `asset_id` column wins when it has one |
| Loader.RunDirectoryVulnKeys | load_data.py:11-43 | over the whole run, the vulnerability ids are the earlier ones plus every truthy id stored from a `.json` file, one row per distinct id |
| Loader.RunDirectoryFreshAppend | load_data.py:11-40 | loading the whole directory only appends assets with new keys |
| Loader.RunDirectoryCounts | load_data.py:11-49 | one count per `.json` file, each the number of that file's items with a truthy `id` |
| Loader.Database.constructor | load_data.py:5 | the session starts from the given tables |
| Loader.Database.QueryAsset | load_data.py:35 | the lookup loop returns `FindAsset` and changes nothing |
| Loader.Database.GetOrCreateAsset | load_data.py:34-40 | the asset table and item move by `AttachAsset`; the vulnerability table and commit count are unchanged |
| Loader.Database.Merge | load_data.py:42-43 | the vulnerability table moves by `Upsert`; nothing else changes |
| Loader.Database.Commit | load_data.py:46 | counts one commit; the tables are unchanged |
| Loader.Database.LoadItem | load_data.py:17-47 | one item moves the state and count by `StepItem` |
| Loader.Database.LoadFile | load_data.py:15-49 | one file moves the state and count by `RunFile` |
| Loader.Database.LoadData | load_data.py:8-49 | the whole directory moves the state and counts by `RunDirectory` |

## Left out

- JSX rendering, the table and chart markup, and the `loading`/`error` early-return views (UI only).
- The axios request, its URL and the `useEffect` mount trigger: a fetch is an argument, `Fetched(list)` or `FetchFailed`.
- Overlapping fetches: each fetch settles before another starts. With real `async` calls, two in flight can interleave their updates.
- Recharts and the `toFixed(2)` formatting (a foreign library and float printing).
- Floating point: scores are exact reals, so rounding, `NaN` and `undefined` keys (priority score missing from the backend response) are not modelled.
- Dashboard.StrLess: compares characters as Unicode scalar values. JavaScript compares UTF-16 code units, which differs only for characters outside the Basic Multilingual Plane.
- Dashboard.GroupByProduct: assumes no product name is an array-index string such as `"42"`. `Object.keys` lists such keys first, in numeric order, not in first-seen order. It also assumes no product is an `Object.prototype` property name (see Findings). The as-written behaviour for those names is `KeysAsWritten`.
- Dashboard.App.HandleSort: the column is one of the five table headers (`SortKey`). The source accepts any string, and an unknown column compares as `undefined`.
- The backend route that serves `/assets` is not part of this model; asset records are taken as given.
- Directory listing, file opening, `ijson` streaming and `print` logging: the files and their parsed items are arguments.
- The Decimal-to-float conversion (number representation only; `Value.Number` is exact).
- SQLAlchemy session mechanics: `add`/`flush` are the appended row, `merge` is the overlay `Upsert`, and `commit` is only counted. Transactions, rollback and autoflush are not modelled.
- Loader.Database.GetOrCreateAsset: assumes autoincrement ids `1, 2, 3, ...` over a table that only grows (SQLite's rowid with no deletions).
- models.py is not part of this model: `valid_keys` is an argument, and `asset_id` is assumed to be a column of the vulnerability table.
- Exceptions: malformed JSON, database errors, and the `TypeError` for an unknown column are not modelled.
- Loader.RunItemsLastAssetId: when the last item with an id names no asset and has no `asset_id` column, the row keeps the `asset_id` an earlier item left there. `merge` copies only the columns that were set; `Upsert` models this as written, and the lemma does not pin the value further.
- Loader.Value: equality is structural, so Python's `True == 1` and `1 == 1.0` as dictionary keys are not modelled.

## Findings

| source | as written | input that shows it | evidently intended | confidence | as-written member | corrected member |
|---|---|---|---|---|---|---|
| frontend/src/App.jsx:34-41 | the accumulator is `{}`, so `acc[asset.product]` for a name such as `constructor` or `toString` is an inherited `Object.prototype` member. It is truthy, so no own key is created, and the product never reaches `Object.keys` or the chart | one asset with product `"constructor"` | every product present in `assets` gets exactly one chart entry (for example, with `Object.create(null)` or a `Map` accumulator) | high; not executed | Dashboard.InheritedProductDroppedAsWritten | Dashboard.ChartOneEntryPerProduct |
