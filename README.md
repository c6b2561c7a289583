# sqlite-wasm-test, modelled in Dafny

`src/app.tsx` opens an in-browser SQLite database through sql.js and creates two
tables, `items (id, name)` and `subitems (id, item_id, name)`. Both have an
`integer primary key autoincrement` id. Two parts of the app do the real work,
and this project models both.

- **The bulk generator.** "Create a ton of rows" drives the async generator
  `createATonOfRows`. Its loop runs for `i` from 1 while `i < 500000`. Each
  iteration calls `createItem` once and `createSubitem` twice with the id of
  that item. Every 200th iteration yields `i * 3`, which the page shows as
  "Rows in DB". After the loop the generator yields `500000 * 3`.
- **The query form.** `submit` trims the typed text and appends `;` unless the
  text already ends with one. It runs the statement with `exec` and shows
  either "executed in …ms" with the rendered result sets or the text of the
  thrown error. `isRunning` is raised for the call and lowered in `finally`.

Files:

- `store.dfy`: module `Store`, plus module `Wrappers` for `Option`.
  - The two tables live in a `Database` class. Each table is a `seq` of rows
    with an AUTOINCREMENT counter.
  - An insert appends a row and returns the counter's value.
  - An insert past the largest rowid (2^63 - 1) fails. SQLite reports this as
    SQLITE_FULL for an AUTOINCREMENT table.
  - The class invariant says that ids are positive, below the counter, and
    strictly increasing along each table.
- `progress.dfy`: module `Progress`, the sequence of values the generator
  yields.
- `generator.dfy`: module `Generator`.
  - `createItem`, `createSubitem` and `createATonOfRows` become methods on a
    `Database`. The loop's invariants tie the tables to the specification
    functions `ItemsAfter` and `SubitemsAfter`.
  - The amount of items is a parameter with `amountOfItems >= 1`.
    `CreateOnFreshDatabase` runs the app's own value, 500000.
  - The off-by-one of the source is kept:
    - a completed run inserts `amountOfItems - 1` items and twice as many
      subitems;
    - it still reports `amountOfItems * 3` last;
    - the app therefore ends showing 1500000 while 1499997 rows were inserted.
- `query.dfy`: module `Query`.
  - ECMAScript `String.prototype.trim`, using the WhiteSpace and
    LineTerminator code points.
  - The normalisation `submit` applies.
  - A `Form` class with the two signals and `Submit`.

The model keeps the loop bounds as written: `amountOfItems - 1` iterations,
then a final report of `amountOfItems * 3`. A run that hits a failing insert
ends with that failure:
- the exception leaves the generator;
- rows already inserted stay;
- nothing more is yielded.

## Model

| member | source | states |
|---|---|---|
| Store.Database.constructor | src/app.tsx:13-28 | A new database has both tables empty and both AUTOINCREMENT counters at 1. The id invariant holds. |
| Store.Database.InsertItem | src/app.tsx:145 | The insert succeeds exactly when the counter has not passed 2^63 - 1. On success it appends `(id, name)` with the counter's value as id and advances the counter. That id exceeds every id already in `items`. On failure `items` is unchanged. `subitems` is never touched. The id invariant is kept. |
| Store.Database.InsertSubitem | src/app.tsx:152 | The same for `subitems`: the row stores `item_id` as given and the new id exceeds all earlier ones. `items` is untouched. |
| Store.ItemIdsIncrease | src/app.tsx:16-17 | Under the table invariant, every item id lies in `[1, next)`. Ids strictly increase between any two rows, so they are unique. |
| Store.SubitemIdsIncrease | src/app.tsx:21-22 | The same for subitem ids. |
| Store.ItemIdsExtend | src/app.tsx:17 | Appending a row with the counter's id and advancing the counter preserves the invariant. |
| Store.SubitemIdsExtend | src/app.tsx:22 | The same for `subitems`. |
| Generator.CreateItem | src/app.tsx:142-147 | `createItem` returns the id of the row it appended to `items`. It fails exactly when the table is exhausted. |
| Generator.CreateSubitem | src/app.tsx:149-154 | `createSubitem` appends a subitem that points at the given item id and returns its id. It fails exactly when the table is exhausted. |
| Generator.CreateItemAndSubitems | src/app.tsx:128-130 | The loop body inserts one item, then two subitems that carry that item's id. `done` counts the inserts that succeeded before the first failure, and the counters decide it exactly:<br>• 0 when the item counter is exhausted;<br>• at least 2 when both counters have room for one more id;<br>• 3 when the subitem counter has room for two.<br>The tables and counters are given for each value of `done`. Every subitem added points at the most recently inserted item, the last row of `items`. |
| Generator.IterationExtendsRun | src/app.tsx:127-130 | After `j` iterations, one more pass of the loop body either extends the run to `j + 1` iterations or leaves the tables of a run that failed after `done` inserts. |
| Generator.RunIteration | src/app.tsx:127-130 | Iteration `j + 1` fails exactly when `j + 1` iterations do not fit in the id space. The item insert fails exactly when item id `a + j` is past the limit, and both subitem ids are attempted exactly when `a + j` and `b + 2j` are within it. A completed iteration leaves the run state of `j + 1` iterations. A failed one leaves the failure state, with `StoppedAt(a, b, j, done)`. |
| Generator.YieldProgress | src/app.tsx:132-133 | After iteration `i`, the values yielded so far are `InLoop(i)`. |
| Generator.RunLoop | src/app.tsx:127-136 | The loop either completes all `amountOfItems - 1` iterations, leaving the run state of that many iterations and yielding `InLoop(amountOfItems - 1)`, or fails in iteration `completed + 1 < amountOfItems`. A failed loop leaves the failure state at `completed` and `partial` and yields `InLoop(completed)`. |
| Generator.CreateATonOfRows | src/app.tsx:123-140 | The run fails exactly when `amountOfItems - 1` iterations do not fit. A completed run:<br>• advances the item counter by `amountOfItems - 1` and the subitem counter by twice that;<br>• leaves the tables at `ItemsAfter`/`SubitemsAfter(amountOfItems - 1)`;<br>• yields exactly `Reported(amountOfItems)`.<br>A failed run:<br>• stops at the first insert that finds no id: `completed` iterations fit and the next does not, and `partial` is 0 exactly when the item counter is exhausted there and at least 2 exactly when both counters still have room (`StoppedAt`);<br>• advances the counters by the inserts that succeeded;<br>• leaves the rows of the completed iterations plus the inserts of the failing iteration;<br>• yields only the in-loop values so far. |
| Generator.StoppedBefore | src/app.tsx:127-130 | A run that stops in iteration `completed + 1` cannot complete any longer run. |
| Generator.StoppedAtDetermined | src/app.tsx:127-130 | The starting counters decide where a failing run stops: two stop positions for the same counters are equal. |
| Generator.StoppedAtExamples | src/app.tsx:127-130 | With the item counter at 2^63 - 1, the run stops at the item insert of iteration 2. With the subitem counter there, it stops at the second subitem insert of iteration 1. |
| Generator.ItemsAfterAt | src/app.tsx:127-128 | A run keeps the rows already present. Item `j` of the run has id `start + j` and the name of call `3j`. |
| Generator.SubitemsAfterAt | src/app.tsx:127-130 | A run keeps the subitems already present. Iteration `j + 1` appends ids `start + 2j` and `start + 2j + 1`, both pointing at item `start + j`. |
| Generator.RunTables | src/app.tsx:127-130 | `n` iterations add `n` items and `2n` subitems, with consecutive fresh ids. Each subitem's `item_id` is the id of the item inserted in the same iteration. |
| Generator.FinalReportOvercounts | src/app.tsx:127-138 | The last reported value is three more than the rows a completed run inserted. This is the off-by-one of the source. |
| Generator.CreateOnFreshDatabase | src/app.tsx:10-50 | On a fresh database with 500000 items, the page ends showing 1500000 after inserting 1499997 rows. |
| Progress.InLoopBounded | src/app.tsx:127-135 | `InLoop(n)`, the values the loop yields in iterations 1..n, has at most one value per iteration. Every value is positive and at most `n * 3`. |
| Progress.Reported | src/app.tsx:127-138 | Everything a completed run yields: between 1 and `amountOfItems` values, the last being `amountOfItems * 3`. `ReportedIncreasing` proves the rest. |
| Progress.InLoopClosedForm | src/app.tsx:127-135 | After `n` iterations the loop has yielded `n / 200` values. Value `k` is `3 * 200 * (k + 1)`. |
| Progress.YieldedByIteration | src/app.tsx:132-133 | Iteration `i` yields `i * 3` exactly when `i % 200 == 0`. That value is at position `i / 200 - 1`. |
| Progress.InLoopValuesAreBatchBoundaries | src/app.tsx:132-133 | Every in-loop value is `i * 3` for an iteration `i` that is a multiple of 200. |
| Progress.ReportedIncreasing | src/app.tsx:127-138 | A completed run reports `(amountOfItems - 1) / 200 + 1` values. They strictly increase, and the last, `amountOfItems * 3`, exceeds all earlier ones. |
| Progress.ReportedFor500000 | src/app.tsx:125-138 | For 500000 items there are 2499 in-loop yields, the last 1499400, then 1500000: 2500 values in all. |
| Query.TrimStart | src/app.tsx:82 | The start of `trim`: it never lengthens the text. Its meaning is stated by `TrimStartSplits` and `TrimStartSkips`. |
| Query.TrimEnd | src/app.tsx:82 | The end of `trim`: it never lengthens the text. Its meaning is stated by `TrimEndSplits` and `TrimEndSkips`. |
| Query.Trim | src/app.tsx:82 | `.trim()`: it never lengthens the text. Its meaning is stated by `TrimSplits` and `TrimUnique`, which together determine it. |
| Query.TrimStartSplits | src/app.tsx:82 | The start of `trim` removes a run of white space and stops at a character that is not white space. |
| Query.TrimEndSplits | src/app.tsx:82 | The end of `trim` removes a run of white space and stops at a character that is not white space. |
| Query.TrimSplits | src/app.tsx:82 | The input is white space, then `Trim(s)`, then white space, and `Trim(s)` neither starts nor ends with white space. |
| Query.TrimStartSkips | src/app.tsx:82 | White space in front of text that starts otherwise is exactly what the start of `trim` removes. |
| Query.TrimEndSkips | src/app.tsx:82 | White space after text that ends otherwise is exactly what the end of `trim` removes. |
| Query.TrimUnique | src/app.tsx:82 | Whenever the input is white space, trimmed text, white space, `trim` returns that text. Together with `TrimSplits`, this determines `trim` completely. |
| Query.TrimIdempotent | src/app.tsx:82 | Trimming twice is the same as trimming once. |
| Query.TrimIgnoresSurroundingWhiteSpace | src/app.tsx:82 | Extra white space around the input does not change the result of `trim`. |
| Query.Normalize | src/app.tsx:82-86 | The statement ends with `;`. It is the trimmed input when that already ends with `;`, and the trimmed input followed by `;` otherwise. |
| Query.NormalizeIsTrimmed | src/app.tsx:82-86 | The statement neither starts nor ends with white space. |
| Query.NormalizeIdempotent | src/app.tsx:82-86 | Normalising a normalised statement changes nothing. |
| Query.NormalizeIgnoresSurroundingWhiteSpace | src/app.tsx:82-86 | White space typed around a query does not change the statement that runs. |
| Query.NormalizeExamples | src/app.tsx:82-86 | `" select 1 "` becomes `"select 1;"`, `"select 1;"` is kept, and blank input becomes `";"`. |
| Query.Form.constructor | src/app.tsx:70-71 | The form starts not running and shows "enter a query above…". |
| Query.Form.Submit | src/app.tsx:74-98 | After `submit` the form is not running. If `exec` of the normalised statement returns result sets, the result is the timing line followed by their rendering. If it throws, the result is the error's text. |

## Left out

- The sql.js engine is not modelled; only the two tables and their AUTOINCREMENT counters are. In `Submit`, `exec` is a function parameter that returns result sets or the thrown error's text. A query run from the form does not change the modelled tables.
- `randomName` draws random bytes. It becomes a `NameSource` parameter: the name handed out by the k-th call of a run.
- `wait` (the `requestAnimationFrame` pause between batches), `console.time`, and the async hand-over of yielded values to the page are left out. The generator's yields are collected as a sequence in order, and `CreateOnFreshDatabase` shows them one after another as "Rows in DB".
- `performance.now` timing and the `JSON.stringify` rendering of result sets are string parameters of `Submit`. `Threw` carries the text `String(e)` produces; for an `Error` that is `Error: ` followed by its message.
- The generator's contract assumes that nothing else writes to the tables while a run is in progress. In the app the run pauses in `await wait()` between batches, and the query form stays usable meanwhile. A query that inserts into `items` or `subitems` during a pause would shift the ids, so the consecutive ids `ItemsAfter` and `SubitemsAfter` describe would no longer hold.
- JavaScript strings are sequences of UTF-16 code units and may hold lone surrogates, which a Dafny `string` cannot represent. Neither `trim` nor `endsWith(';')` treats surrogates specially, so the model's `string` is enough for the normalisation.
- `exportDB` and `doExport` (Blob, object URL and download link) are browser I/O and are not modelled.
- `toHex` and the other third-party imports are not part of this model.
- The Preact UI is not modelled: rendering, the disabling of buttons and input, and `preventDefault`/`stopPropagation`. `isRunning` is modelled only as the field `Submit` raises and lowers. Its intermediate `true` state is not observable, because `submit` is synchronous.
- Database opening is modelled as the `Database` constructor. The asynchronous loading of the wasm module is left out.
- Numbers are unbounded integers. Ids near 2^63 - 1 would lose precision as JavaScript numbers above 2^53. The model keeps them exact and only bounds them by SQLite's rowid limit.
- The only failure of an insert that is modelled is exhaustion of the AUTOINCREMENT counter. Other engine errors, such as out of memory, are not.
- `item_id` is not checked against `items` by the store, because foreign keys are not enforced. The model proves that the generator only writes ids of items it just inserted.
- The id returned by `createSubitem` is returned by `Generator.CreateSubitem`, as in the source; the loop ignores it, as the source does.
