# Spreadsheet A1 codec, grid store and proxified message ports, in Dafny

This project models two parts of a small browser library.

**`Spreadsheet.js`** is an in-memory spreadsheet. Columns are named in A1 notation. Column 0 is `A`, column 25 is `Z`, column 26 is `AA` and column 18277 is `ZZZ`: a bijective base-26 numbering.

- Two module-level tables (`mapIndexToAlpha`, `mapAlphaToIndex`) translate names to indices. They are filled lazily: A..Z at load (`alpha1`), up to ZZ on demand (`alpha2`), up to ZZZ on demand (`alpha3`).
- `Sheet.toA1` and `Sheet.fromA1` convert between an address record `{ rowIndex, columnIndex, rowCount?, columnCount? }` and text such as `B3` or `B3:D7`. `validateAddress` and `isNNI` check a record.
- A `Sheet` keeps an append-only log of rectangular blocks. `setGridData` and `setGridValues` append to it; `getGridCell` reads it newest block first.
- A `Spreadsheet` keeps a list of sheets (`addSheet`).

**`proxify.ts`** is a remote-procedure-call layer over a `MessagePort`.

- `proxify(port)` returns a caller proxy. Reading a member of it gives a proxy one member further down a path. Calling it posts `{ id, path, args }` and records the promise callbacks under `id`.
- `proxify(port, target)` answers each request. It dereferences the path from the target, applies the member, and posts `{ id, result }` or `{ id, error }`.
- `transfer` marks a value with its transfer list.
- `closeProxifyPort` and `unproxify` post `{ close: true }`, close the port and reject every outstanding call.

## Structure

| file | module | contents |
|---|---|---|
| `wrappers.dfy` | `Wrappers` | `Option`, `Result` |
| `columns.dfy` | `Columns` | column names as bijective base-26, JavaScript string `<` on names |
| `decimal.dfy` | `Decimal` | decimal numerals (`${n}`, `parseInt(s, 10)`) |
| `address.dfy` | `Addresses` | the address record, `isNNI` (with `value \| 0` as 32-bit wrap-around), `validateAddress` |
| `column_tables.dfy` | `AlphaTables` | class `ColumnTables`: the two tables and `alpha1`/`alpha2`/`alpha3` |
| `a1.dfy` | `A1` | the A1 pattern, `fromA1`, `toA1`, round trips, findings |
| `cell_values.dfy` | `CellValues` | the values of `setGridValues` and their `ExtendedValue` cells |
| `sheet.dfy` | `Sheets` | classes `Sheet` and `Spreadsheet`, the block log, reads and bounds |
| `proxy_values.dfy` | `ProxyValues` | keys, values, messages, transfer lists, `transfer` |
| `proxy_target.dfy` | `ProxyTarget` | the target listener: path dereference, apply, reply |
| `proxy_port.dfy` | `ProxyPort` | proxies, class `Endpoint` (one port with its module state), closing |

### How the model is built

Module-level mutable state becomes a class. The column tables are a `ColumnTables` object holding a sequence and a map. The per-port state of `proxify.ts` is an `Endpoint` holding:

- the posted messages;
- the caller listener's callbacks map;
- whether that map is still registered;
- the settlement of every call's promise.

Each method that changes state is proved against a pure function of the table length or of the old state:

- `FromA1` against `FromA1Prepared`/`FromA1Result`;
- `ToA1` against `ToA1Prepared`/`ToA1Text`;
- `SetGridData` against `Block`/`Grow`;
- `GetGridCell` against `ReadCell`;
- `CloseProxifyPort` against `RejectAll`.

The properties are lemmas about those functions.

The model follows the code's own JavaScript semantics, written out:

- A column the tables do not hold prints as `undefined` in a template literal.
- `value | 0` wraps to 32 bits.
- `alphaY.lengh` is `undefined`, so the length half of the swap guard is always false.
- A row stored as `{}` makes `getGridCell` throw when it reads `rowData.values.length`.
- An id missing from the callbacks map makes the caller listener throw.

### Closing, and other behaviour taken as written

The model follows the code on these points:

- `closeProxifyPort` always posts `{ close: true }` first (`src/proxify.ts:130`). This also happens when it runs because a `{ close: true }` was received (`src/proxify.ts:29-30`, `src/proxify.ts:63-64`), so a received close is answered with a close. A second close posts again.
- Closing drops only the registration in `mapPortToPromiseCallbacks`. The caller listener still holds its `callbacks` Map, which is not cleared. A response that arrives after a close still finds its entry, but that call was already rejected, and a settled promise does not change. `Settle` models this, and `Extends` is part of `DeliverToCaller`'s contract.
- `unproxify` on a proxy other than the root passes `undefined` to `closeProxifyPort`, which throws a TypeError. Every proxy answers `PROXY_DETECTOR` with a truthy proxy, but only the root is in `mapProxyToPort`.
- `fromA1` does not reorder `AA1:B1` (the `lengh` typo). See Findings.

## Model

| member | source | states |
|---|---|---|
| Columns.AlphabetCodes | src/Spreadsheet.js:7-10 | the alphabet is A..Z in code-point order; the batch limits are 26, 702 and 18278 |
| Columns.NameToIndex | src/Spreadsheet.js:238-269 | the name the tables list for column i is looked up as i |
| Columns.IndexToName | src/Spreadsheet.js:238-269 | every non-empty upper-case string is the name of the column it denotes |
| Columns.NameInjective | src/Spreadsheet.js:227-269 | no two columns get the same name, so `mapAlphaToIndex` is a function |
| Columns.NameLength | src/Spreadsheet.js:8-10 | a name has one letter below 26, two below 702 and three below 18278 |
| Columns.NameLengthMonotone | src/Spreadsheet.js:253-269 | a larger column never has a shorter name |
| Columns.NameOrder | src/Spreadsheet.js:195-198 | among names of one length, JavaScript's string `<` orders them as their columns |
| Columns.NameNotBelow | src/Spreadsheet.js:195-198 | the name of a column never compares below the name of a smaller column of the same length |
| Decimal.NumeralWellFormed | src/Spreadsheet.js:168-175 | the decimal text of a positive row number matches `[1-9]\d*` |
| Decimal.NumeralRoundTrip | src/Spreadsheet.js:190-192 | `parseInt` of the decimal text of n is n |
| Decimal.NumeralPositive | src/Spreadsheet.js:183-190 | a numeral matched by `[1-9]\d*` is at least 1, so `numberX - 1` is a row index |
| Addresses.ToInt32 | src/Spreadsheet.js:289 | `value \| 0` lies in the signed 32-bit range and agrees with value modulo 2^32 |
| Addresses.IsNNIRange | src/Spreadsheet.js:288-290 | isNNI accepts exactly the integers 0 .. 2^31 - 1 |
| Addresses.ValidateAddress | src/Spreadsheet.js:271-285 | the check fails exactly on invalid records (a bad index or count, or one count without the other), with "Invalid address" naming the record |
| AlphaTables.NameAt | src/Spreadsheet.js:167-173 | an index within the tables prints the name of that column; any other prints "undefined" |
| AlphaTables.IndexAt | src/Spreadsheet.js:210-216 | a lookup finds exactly the upper-case names of columns the tables hold, and finds their column |
| AlphaTables.ColumnTables.constructor | src/Spreadsheet.js:226-235 | after module load the tables hold A..Z, entry i naming column i and the map inverting the list |
| AlphaTables.ColumnTables.Append | src/Spreadsheet.js:229-232 | one push and one matching set: the next column's name is added to both tables |
| AlphaTables.ColumnTables.Alpha1 | src/Spreadsheet.js:227-234 | on empty tables, adds A..Z in order |
| AlphaTables.ColumnTables.Alpha2 | src/Spreadsheet.js:238-250 | extends the tables to ZZ (702 names), or does nothing when they already reach that far; the tables stay consistent |
| AlphaTables.ColumnTables.Alpha3 | src/Spreadsheet.js:253-269 | extends the tables to ZZZ (18278 names) by way of alpha2; the tables stay consistent |
| AlphaTables.ColumnTables.AppendLetters | src/Spreadsheet.js:260-265 | the innermost loop of alpha3 (and the inner loop of alpha2): pushes the 26 names that extend the name of column q, keeping the tables consistent, so they end 26 entries further on |
| AlphaTables.ColumnTables.GetAlpha | src/Spreadsheet.js:167 | `mapIndexToAlpha[i]` as a template literal prints it |
| AlphaTables.ColumnTables.GetIndex | src/Spreadsheet.js:210 | `mapAlphaToIndex.get(s)` |
| A1.MatchCell | src/Spreadsheet.js:183 | one corner matched at the front: letters then a numeral without a leading zero, the text being the corner followed by the rest |
| A1.MatchA1 | src/Spreadsheet.js:183-186 | a match yields well-formed groups that spell the whole address text |
| A1.MatchComplete | src/Spreadsheet.js:183 | every text of one or two well-formed corners matches, with exactly those groups |
| A1.Orient | src/Spreadsheet.js:193-202 | the row numbers are the two numerals, smaller first, each at least 1; the letter groups are the two written ones, swapped exactly when the guard holds; a single cell is taken as written |
| A1.RowOrderIrrelevant | src/Spreadsheet.js:199-201 | under either guard, a range text with its two row numerals exchanged ("A5:B1" for "A1:B5") prepares the same tables and reads as the same record, or fails as well |
| A1.FromA1ResultWith | src/Spreadsheet.js:184-220 | "Invalid A1 address" exactly when the pattern fails; otherwise non-negative indices, counts present together and only for ranges, row count at least 1 |
| A1.CornersResult | src/Spreadsheet.js:210-219 | succeeds exactly when every corner's letters are in the tables; then rowIndex is the first number minus 1, columnIndex the first corner's column, and a range has the inclusive counts `numberY - rowIndex` and `last - columnIndex + 1`; otherwise ColumnUndefined |
| A1.FromA1 | src/Spreadsheet.js:182-221 | prepares the tables for the last corner's letter count and returns what FromA1Result gives on the prepared tables; the tables stay consistent |
| A1.LookupCorners | src/Spreadsheet.js:210-219 | the lookups at the end of fromA1 agree with CornersResult |
| A1.ToA1Text | src/Spreadsheet.js:154-176 | "Invalid address" exactly when the record is invalid |
| A1.ToA1 | src/Spreadsheet.js:154-176 | extends the tables as far as `columnIndex + (columnCount ?? 0)` demands and returns ToA1Text on them |
| A1.FormatA1 | src/Spreadsheet.js:167-175 | the text built from a validated record agrees with ToA1Text |
| A1.IndexAtName | src/Spreadsheet.js:210 | a column below the table length is found under its own name |
| A1.CornerWellFormed | src/Spreadsheet.js:167-170 | a corner toA1 writes within ZZZ matches the corner pattern and reads back its row number |
| A1.RangePrepared | src/Spreadsheet.js:158-165 | for a range within ZZZ, toA1's preparation reaches past its last column |
| A1.RangeText | src/Spreadsheet.js:173-175 | the text toA1 writes for a range is its two corners joined by a colon |
| A1.RangeLookup | src/Spreadsheet.js:210-218 | looking up the corners of a range's text gives the range back |
| A1.RangeRoundTrip | src/Spreadsheet.js:154-221 | fromA1(toA1(a)) == a for every valid range with counts at least 1 within ZZZ, on tables of any reachable length |
| A1.CellRoundTrip | src/Spreadsheet.js:154-221 | fromA1(toA1(a)) == a for a single cell within ZZZ, except columns AA and AAA on tables not yet extended that far |
| A1.ToA1GapExample | src/Spreadsheet.js:159-170 | as written, toA1 of row 0, column 26 on the initial tables returns "undefined1" |
| A1.ToA1FixedCovers | src/Spreadsheet.js:159-165 | with an absent count taken as 1, the prepared tables hold every column toA1 prints |
| A1.CellRoundTripFixed | src/Spreadsheet.js:154-221 | with that preparation, every single cell within ZZZ survives the round trip, columns AA and AAA included |
| A1.BackwardRangeText | src/Spreadsheet.js:183 | "AA1:B1" matches as the corners AA1 and B1 |
| A1.FromA1TypoExample | src/Spreadsheet.js:195-198 | as written, "AA1:B1" is not reordered: a column count of -24 on extended tables, an unknown column on the initial ones |
| A1.OrderedCorners | src/Spreadsheet.js:195-198 | corners that the intended guard leaves unswapped name columns in increasing order |
| A1.FromA1FixedRanges | src/Spreadsheet.js:193-219 | with the intended guard, every upper-case text the pattern matches reads as an address, and a range has positive counts whichever way round it is written |
| CellValues.Classify | src/Spreadsheet.js:52-68 | no value exactly for non-string, non-number, non-boolean input; a formula exactly for strings starting with '='; the value is recoverable from the cell |
| CellValues.ClassifySourceValue | src/Spreadsheet.js:52-68 | every well-kinded cell value is what classifying its own value gives |
| CellValues.CellFor | src/Spreadsheet.js:69 | `{}` exactly when the value is not a string, number or boolean |
| Sheets.ResolveResult | src/Spreadsheet.js:78-82 | a record resolves exactly when it is valid, and to itself; a resolved address has non-negative indices |
| Sheets.ResolveRange | src/Spreadsheet.js:78-82 | resolves text with fromA1 (which prepares the tables) and a record with validateAddress, as ResolveResult says |
| Sheets.BuildBlock | src/Spreadsheet.js:89-103 | the nested loops build Block(a, f): row i, cell j is f(columnIndex + j, rowIndex + i), and a row without cells is `{}` |
| Sheets.ScanBlocks | src/Spreadsheet.js:137-147 | a failing read is the row stored without values |
| Sheets.LastWriteWins | src/Spreadsheet.js:137-146 | the newest block holding a cell decides it, unless a later block stops the scan there |
| Sheets.NeverWritten | src/Spreadsheet.js:137-147 | a cell no block reaches reads as `{}` |
| Sheets.RowWithoutValuesFails | src/Spreadsheet.js:142-143 | the read throws when the newest block reaching the cell stored its row as `{}` |
| Sheets.ReadBack | src/Spreadsheet.js:94-106 | every cell of an appended block reads back as f gave it, whatever came before |
| Sheets.ReadAround | src/Spreadsheet.js:94-106 | cells outside an appended block read as they did before it, provided the block has a column or the cell is outside its rows or left of it |
| Sheets.ColumnlessBlockShadows | src/Spreadsheet.js:102 | a block with no columns (a count of 0, or the -24 of "AA1:B1") stores its rows as `{}`, so every later read in those rows at or right of its start column throws, as RowWithoutValuesFails describes (src/Spreadsheet.js:143) |
| Sheets.Grow | src/Spreadsheet.js:109-118 | the bounds are the running maxima from 0×0: each is the largest of the old bound, 0 and the block's end (`rowIndex + rowCount`, `columnIndex + columnCount`) |
| Sheets.GrowKeepsBounded | src/Spreadsheet.js:105-118 | appending a block and growing the bounds keeps every block inside the bounds |
| Sheets.OutsideUnwritten | src/Spreadsheet.js:132-135 | no block holds a cell outside the bounds, so the early `null` loses nothing |
| Sheets.Sheet.constructor | src/Spreadsheet.js:38-39 | a new sheet has no title, no bounds and no blocks |
| Sheets.Sheet.SetGridData | src/Spreadsheet.js:77-119 | on a range that resolves, appends exactly Block(a, f) and grows the bounds; on an error nothing changes; the title is untouched |
| Sheets.Sheet.AppendBlock | src/Spreadsheet.js:89-118 | builds the block for a resolved address, appends it after the earlier blocks and grows the bounds to Grow(old bounds, a); every block stays within the bounds |
| Sheets.Sheet.SetGridValues | src/Spreadsheet.js:46-71 | setGridData with each value classified into its cell |
| Sheets.Sheet.Scan | src/Spreadsheet.js:137-147 | the loop over the reversed log computes ScanBlocks |
| Sheets.Sheet.GetGridCell | src/Spreadsheet.js:125-148 | resolves the address, then returns ReadCell: `null` outside the bounds, otherwise the scan's result |
| Sheets.WrittenCellReadsBack | src/Spreadsheet.js:77-148 | after setGridData, getGridCell of any cell of the range returns f's cell for it |
| Sheets.WrittenValueReadsBack | src/Spreadsheet.js:46-148 | after setGridValues, getGridCell of any cell of the range returns the classified value |
| Sheets.Spreadsheet.constructor | src/Spreadsheet.js:20-22 | a new spreadsheet has no sheets |
| Sheets.Spreadsheet.AddSheet | src/Spreadsheet.js:28-35 | appends one fresh, empty sheet, whose title is set exactly when the title given is truthy |
| ProxyValues.Dedup | src/proxify.ts:43-46 | `[...new Set(list)]`: the same elements, each once |
| ProxyValues.DedupNoDup | src/proxify.ts:43-46 | a list without repetitions is unchanged |
| ProxyValues.PortsAmong | src/proxify.ts:119 | the arguments kept are exactly the message ports among them |
| ProxyValues.MarkedAmong | src/proxify.ts:120 | exactly the values the arguments were marked with by transfer |
| ProxyValues.CallTransferablesExactly | src/proxify.ts:118-122 | a request transfers exactly the port arguments and the arguments' marked values, each once |
| ProxyValues.ResultTransferablesExactly | src/proxify.ts:43-47 | a response transfers exactly the result if it is a port, and its marked values, each once |
| ProxyValues.TransferRegistry.constructor | src/proxify.ts:17 | no value is marked at first |
| ProxyValues.TransferRegistry.Transfer | src/proxify.ts:92-95 | marks an object with its list and returns it; a primitive throws the WeakMap key TypeError and changes nothing |
| ProxyTarget.Member | src/proxify.ts:38 | reading off undefined or null fails with "Cannot read properties of undefined (reading '<key>')" (or of null); an object that has the key gives that member; anything else gives undefined |
| ProxyTarget.ResolvePath | src/proxify.ts:37-39 | the empty path gives `[null, target]` |
| ProxyTarget.ResolveIsWalk | src/proxify.ts:37-39 | the reduce finds what walking the path from the target finds; the owner is what the path without its last key leads to |
| ProxyTarget.Apply | src/proxify.ts:41 | an undefined or null member fails reading `.apply` ("Cannot read properties of undefined (reading 'apply')", or of null); any other value that is not a function fails with "member.apply is not a function"; a function is called with the owner as receiver and the arguments, and its return or throw is the outcome |
| ProxyTarget.ErrorPayloadOf | src/proxify.ts:48-54 | an Error is sent as the record of exactly its own string-named properties, with their values; any other thrown value as it is |
| ProxyTarget.Reply | src/proxify.ts:34-54 | one message with the request's id: the result with its transfer list when the call returned, the error record without a transfer list when anything threw |
| ProxyTarget.TargetReply | src/proxify.ts:28-54 | any message but a close is answered once with its id; a message without a path is answered with an error |
| ProxyTarget.EmptyPathCallsTarget | src/proxify.ts:37-41 | an empty path calls the target itself with `null` as the receiver |
| ProxyTarget.MemberCallReceiver | src/proxify.ts:37-41 | a non-empty path calls the member it leads to, with the object before it as the receiver |
| ProxyPort.Get | src/proxify.ts:99-109 | UNREACHABLE gives the parent proxy (null for the root), 'then' gives undefined, any other key a proxy one member further down |
| ProxyPort.ReadAllPath | src/proxify.ts:99-108 | reading plain keys one after another gives a proxy for the concatenated path |
| ProxyPort.UnreachableUndoesGet | src/proxify.ts:102-108 | UNREACHABLE of a member's proxy is the proxy it was read from |
| ProxyPort.Settle | src/proxify.ts:114 | a promise settles once; later resolve or reject calls change nothing |
| ProxyPort.RejectAll | src/proxify.ts:133-139 | every given call is rejected with "port closed" unless it settled earlier; earlier settlements are kept |
| ProxyPort.RejectEach | src/proxify.ts:136-138 | the loop over the callbacks rejects each one, as RejectAll says |
| ProxyPort.CloseRejectsPending | src/proxify.ts:133-139 | closing rejects every call still pending in a registered table, and keeps every earlier settlement |
| ProxyPort.CloseTwice | src/proxify.ts:129-140 | closing twice posts `{ close: true }` twice; the second close finds no registration, so the settlements are those the first close left |
| ProxyPort.Endpoint.Proxify | src/proxify.ts:25-83 | a truthy target installs the target listener; otherwise the caller listener with an empty, registered table |
| ProxyPort.Endpoint.ChooseId | src/proxify.ts:115 | an id no pending call uses |
| ProxyPort.Endpoint.Invoke | src/proxify.ts:111-124 | with no registered table, rejects with "port closed" and posts nothing; otherwise records the id and posts exactly one request with its transfer list |
| ProxyPort.Endpoint.CloseProxifyPort | src/proxify.ts:129-140 | posts a close, closes the port and, once, rejects every pending call and drops the registration |
| ProxyPort.Endpoint.DeliverToCaller | src/proxify.ts:62-75 | a close closes; a known id settles its call (resolved with its result, else rejected with its error) and leaves the table; an unknown id throws reading `resolve` off undefined for a `{ id, result }` message, `reject` otherwise, and changes nothing; settlements only grow |
| ProxyPort.Endpoint.DeliverToTarget | src/proxify.ts:28-55 | a close closes and is not answered; any other message is answered with exactly one reply |
| ProxyPort.Endpoint.Answer | src/proxify.ts:33-54 | posts exactly TargetReply for the message and changes nothing but the outbox |
| ProxyPort.Endpoint.Unproxify | src/proxify.ts:85-90 | the port and the root proxy close the port; any other proxy throws and nothing changes |
| ProxyPort.CallThrough | src/proxify.ts:28-75 | a call through the channel settles with the target's outcome (its value, or its error record), and its id leaves the table |

## Left out

- Port delivery: a closed `MessagePort` receives no more messages. The model records `closed` but leaves it to the caller of `DeliverToCaller`/`DeliverToTarget` not to deliver to a closed port.
- Garbage collection: the `FinalizationRegistry` that closes a port when its root proxy is collected is not modelled. `port.start?.()` is not modelled either.
- Asynchrony: promises, `await` and event-loop ordering are not modelled. Messages are delivered one at a time, in the order the caller of the model chooses. A target method that returns a thenable is taken as returning its settled value.
- Structured cloning: values cross the channel as they are. Functions and symbols in arguments, and the `DataCloneError` they would raise, are not modelled. Paths are sequences of keys.
- ProxyPort.Endpoint.ChooseId: the source draws `Math.random()` in base 36 and does not check for collisions. The model's ids are natural numbers, and `Invoke` takes the id as a parameter, so a colliding id overwrites an entry as in the source.
- ProxyTarget.Member: prototype chains, getters and members of primitive values (such as `"abc".length`) are not modelled. Reading a member of a primitive gives undefined.
- ProxyTarget.ErrorPayloadOf: an engine TypeError is sent as its `message` only. Its `stack` is not modelled.
- ProxyTarget.Apply: side effects of target functions on the object graph are not modelled. A behaviour maps the receiver and arguments to a completion.
- ProxyValues.MarkedAmong: `flat(Infinity)` also flattens nested arrays inside marked lists. The model takes each list as flat.
- ProxyPort.Endpoint.DeliverToCaller: `Object.assign(new Error(), data.error)` is modelled as the error record itself. Its coercions are not modelled.
- A1.FromA1: letters the tables do not hold, lower-case letters included, make the model return `ColumnUndefined`, and `setGridData`/`getGridCell` pass that error on. The source returns a record instead:
  - a single cell such as `"a1"` gives `columnIndex` `undefined` and no counts;
  - a range whose first corner is unknown gives `columnIndex` `undefined` and `columnCount` `NaN`;
  - a range whose second corner is unknown, such as `"A1:b2"`, gives its real `columnIndex` (0) and `columnCount` `NaN`.
  `getGridCell` on the first two returns `null`, since `undefined < n` is false. On the third it reads the first corner's cell. `setGridData` on the single cell stores one cell, `f(NaN, rowIndex)`, because `Object.assign` supplies a column count of 1. On the two ranges it stores `{}` rows. In all three the row bound stays a number and only the column bound becomes `NaN`.
- A1.FromA1: row numerals are read as exact integers. The source's `parseInt` gives a double, so numerals above 2^53 are rounded.
- ProxyTarget.Apply: the error messages are those of the V8 engine. Other engines word the TypeErrors differently.
- ProxyValues.ReadError: a symbol key is named `Symbol()` in these messages. The model does not keep a symbol's description, which V8 would print inside the parentheses.
- CellValues.JsValue: numbers are mathematical reals. `NaN`, the infinities and `-0` are not represented, and neither is `isNNI` of a non-integer number.
- Sheets.Sheet: `Spreadsheet.properties` and any `Sheet.properties` key other than `title` and `gridProperties` are not modelled.

## Findings

| source | as written | input that shows it | evidently intended | confidence | as-written member | corrected member |
|---|---|---|---|---|---|---|
| src/Spreadsheet.js:159-160 | prepares the tables only when `columnIndex + (columnCount ?? 0) > 26`, so a single cell in column 26 leaves them at A..Z | `toA1({ rowIndex: 0, columnIndex: 26 })` on the initial tables returns `"undefined1"`, not `"AA1"` | count a single cell as one column wide (`columnCount ?? 1`), so every printed column is in the tables | not executed | A1.ToA1GapExample | A1.CellRoundTripFixed |
| src/Spreadsheet.js:195 | `alphaY.lengh < alphaX.length` reads a missing property, so corners of different lengths are never swapped | `fromA1("AA1:B1")` on tables reaching ZZZ gives `columnIndex` 26 and `columnCount` -24; on the initial tables it looks up `AA` in unextended tables | `alphaY.length < alphaX.length`: order the corners by column, giving `columnIndex` 1 and `columnCount` 26 | not executed | A1.FromA1TypoExample | A1.FromA1FixedRanges |
