# Spreadsheet import, deals board and task list — a Dafny model

This project models the logic of a small CRM in Dafny and proves properties of the model.

- **The spreadsheet import** (`routes/import.js`). It has four parts:
  - The country resolver, `COUNTRY_MAP` with `mapCountry`.
  - The row normalisers: `rowToItem` for client sheets, and `rowToInstagram` with its `toBool` for lead-account sheets.
  - The three POST handlers with their batch loops:
    - `/clients` writes clients and their deals in chunks of 50, records a failed chunk and carries on.
    - `/instagram` writes lead accounts in chunks of 50 and answers 500 at the first refused chunk.
    - `/create-deals-from-clients` back-fills a deal for every client without one, with the same aborting loop.
  - The set-difference selection of `/create-deals-from-clients`.
- **The deals board** (`src/components/DealsKanban.jsx`):
  - the six columns of `STAGES`;
  - the stage fallback of a deal card;
  - the columns of `getDealsByStage`;
  - the drag-and-drop transition `handleDragEnd`, on a `Board` object that holds `deals` and `activeId`.
- **The task list** (`src/components/Tasks.jsx`):
  - the filter predicate of `filteredTasks`;
  - the status toggle of `handleToggleStatus`;
  - `getPriorityLabel`.

Inputs from outside the program are modelled like this:

- **The spreadsheet.** A parsed sheet is a sequence of rows. A row maps column names to cells `Str | Num | Bool | Empty`, where `Empty` is JavaScript `undefined`. A sheet the reader cannot parse is `Failure(message)`.
- **The record store.** It is an oracle `Store = (Insert, nat) -> Reply`. It is given the insert and the number of inserts the request has already issued. It answers `Failed(message)` or `Inserted(rows)`, and nothing is assumed about how many rows come back.
- **The handlers.** Each handler is a function from its inputs to an `Outcome`: the HTTP response plus the inserts sent, in order. Each also has a method with the handler's own `for (i = 0; i < n; i += 50)` loop, proved equal to that function.

The proofs establish that:

- chunking reproduces the records in order, in ⌈n/50⌉ chunks;
- errors are tagged with 1-based batch numbers, in order;
- a client chunk's error is there exactly when the store refused that chunk;
- the counters are the sums of the rows the store returned;
- the client loop attempts every chunk;
- an aborting loop stops at its first refusal;
- deals are linked to clients by position;
- the back-fill is idempotent when no client has id 0;
- a drop onto a column changes only the dragged deal's stage;
- a drop onto a card is a permutation;
- the six columns partition the deals with a known stage;
- the two task views split the list.

Modules, one file each:

- `Wrappers` (wrappers.dfy): `Option` and `Result`.
- `JsValues` (jsvalues.dfy): the JavaScript value semantics the import relies on. These are truthiness, `||` chains, `String(v)`, `toLowerCase()`, `trim()` and `slice(0, n)`.
- `Records` (records.dfy): the records, the store and the responses.
- `CountryResolver` (country.dfy).
- `RowNormalizers` (rows.dfy).
- `Chunks` (chunks.dfy): the slicing of the three loops.
- `Filters` (filters.dfy): `Array.prototype.filter` and its laws.
- `BatchWriter` (writer.dfy): the two kinds of loop as functions of the batches and the store.
- `ImportRoutes` (routes.dfy): the three handlers.
- `Kanban` (kanban.dfy).
- `TaskList` (tasks.dfy).

Cases where the code's behaviour is easy to get wrong, as the model states them:

- `toBool` is case-insensitive only for `'true'` and `'истина'`. `'Да'`, `'YES'` and `'Yes'` are false, and so is the number 1.
- An optional client field whose cell is only white space becomes `""`, not `null`. Its cell is truthy, so `phone ? ... : null` keeps it.
- Only the client import carries on after a failed chunk. The lead-account import and the deal back-fill stop at the first refused chunk and answer 500, after the earlier chunks have been written.
- `total` in the client report is the number of rows with a name. It is not "imported + skipped": `total` plus the skipped rows is the number of rows.
- The extension check takes the text after the last dot. A name with no dot is its own extension, so a file named `xls` passes.
- A client whose id is 0 never counts as having a deal, because `filter(Boolean)` drops 0. The back-fill therefore gives it a new deal on every run.
- The back-fill ignores the errors of its two `select`s. A failed select arrives as no rows.

## Model

| member | source | states |
|---|---|---|
| CountryResolver.TableValues | routes/import.js:10-22 | every value of `COUNTRY_MAP` is one of the eleven canonical CRM country names, none of them empty |
| CountryResolver.CountryKey | routes/import.js:25 | `(row.country \|\| row.country_code \|\| '').toString().trim().toLowerCase()`; its shape is stated by CountryKeyShape and CountryKeyOfCell |
| CountryResolver.MapCountry | routes/import.js:24-28 | `None` exactly when the trimmed, lower-cased first truthy of `country`/`country_code` is empty; the table's name when the table has that key; the key itself otherwise |
| CountryResolver.CountryKeyShape | routes/import.js:25 | the key looked up has no upper-case letter and no white space at either end |
| CountryResolver.MapCountryRange | routes/import.js:24-28 | a resolved country is non-empty and is either a canonical name or the row's own lower-cased, trimmed text |
| CountryResolver.CountryKeyOfCell | routes/import.js:25 | for a `country` cell holding trimmed text, the key is that text lower-cased |
| CountryResolver.MapCountryOfCode | routes/import.js:27 | "RU" resolves to "Россия" |
| CountryResolver.MapCountryOfUnknownName | routes/import.js:27 | an unknown name ("Peru") passes through lower-cased ("peru") |
| CountryResolver.MapCountryOfNothing | routes/import.js:26 | a row whose only cell is an empty `country`, and a row with no cells, resolve to `null` |
| CountryResolver.CountryCodeFallback | routes/import.js:25 | `country_code` is consulted only when `country` is falsy |
| CountryResolver.CanonicalNameIsNotAKey | routes/import.js:27 | resolving is not idempotent: the canonical "Россия" comes back as "россия" |
| CountryResolver.MapCountryAsWritten | routes/import.js:27 | the property read as written, including inherited object members; `None` exactly for an empty key |
| CountryResolver.InheritedKeyCounterexample | routes/import.js:27 | the country text "Constructor" yields the inherited `constructor` member as written, and "constructor" in the corrected resolver |
| CountryResolver.AsWrittenAgreesElsewhere | routes/import.js:27 | away from the inherited member names, the as-written read and the corrected resolver give the same answer |
| JsValues.Get | routes/import.js:32 | a column the row does not have reads as `undefined` |
| JsValues.FirstTruthy | routes/import.js:32-35 | an `a \|\| b \|\| fallback` chain is its first truthy operand, or the fallback when none is truthy |
| JsValues.Digits | routes/import.js:39 | the decimal digits of a natural number denote it, and only 0 is written with a leading zero |
| JsValues.Decimal | routes/import.js:39 | `String(n)` of an integer: a minus sign exactly for a negative `n`, then digits that denote `\|n\|`, with no leading zero except for `"0"` itself |
| JsValues.Text | routes/import.js:39 | `String(v)` of a text cell is the text itself |
| JsValues.Lower | routes/import.js:25 | `toLowerCase()` keeps the length and lower-cases each character |
| JsValues.LowerIdempotent | routes/import.js:25 | lower-casing twice is lower-casing once |
| JsValues.Trim | routes/import.js:36 | `trim()` is no longer than `s`, has no white space at either end, and is `""` exactly for an all-white-space text |
| JsValues.Lead | routes/import.js:36 | the number of leading white-space characters: all of them white space, and the next one (if any) not |
| JsValues.TrimIsInfix | routes/import.js:36 | `trim()` is the infix of `s` that starts where its leading white space ends and is followed only by white space |
| JsValues.TrimIdempotent | routes/import.js:36 | trimming twice is trimming once |
| JsValues.Truncate | routes/import.js:39 | `slice(0, n)` is the prefix of length `min(|s|, n)` |
| RowNormalizers.OptionalText | routes/import.js:40-42 | `v ? String(v).trim().slice(0, n) : null` is `null` exactly for a falsy cell, else the prefix of the trimmed text of length `min(\|trim\|, n)` |
| RowNormalizers.ClientOf | routes/import.js:37-44 | the client's name is the prefix of the trimmed name of length `min(\|trim\|, 255)`, non-empty and starting with no white space; status is `active`; phone (50), company (255) and email (255) are the optional texts of `phone`, of `name \|\| city \|\| address` and of `email \|\| website` |
| RowNormalizers.ItemCountry | routes/import.js:45 | the deal country is never empty: the resolved country, or "Россия" when it resolves to `null` |
| RowNormalizers.RowToItem | routes/import.js:31-47 | `null` exactly when the first truthy of `name`/`name_for_emails`/`query` is not text or is all white space; otherwise the row's client and its country |
| RowNormalizers.BlankNameSkipsRow | routes/import.js:36 | a name cell of white space skips the row |
| RowNormalizers.BlankPhoneIsEmpty | routes/import.js:40 | a phone cell of white space gives the phone `""`, not `null` |
| RowNormalizers.NumericNameSkipsRow | routes/import.js:36 | a non-zero number in the name column skips the row |
| RowNormalizers.NormalizeClients | routes/import.js:66 | `rows.map(rowToItem).filter(Boolean)` has at most as many items as rows |
| RowNormalizers.NormalizeClientsCounts | routes/import.js:66 | items plus skipped rows are all the rows; no item exactly when every row is skipped |
| RowNormalizers.NormalizeClientsConcat | routes/import.js:66 | normalising keeps row order: it distributes over concatenation |
| RowNormalizers.NormalizeClientsSingle | routes/import.js:66 | a single row contributes exactly its item, or nothing |
| RowNormalizers.ToBool | routes/import.js:135-140 | `toBool`; what it accepts and refuses is stated by the ToBool lemmas below |
| RowNormalizers.DecimalIsLower | routes/import.js:137 | `String(n).toLowerCase()` of an integer is `String(n)` |
| RowNormalizers.ToBoolOfNonText | routes/import.js:135-140 | a non-text cell is true exactly when it is the boolean `true`; the number 1 is false |
| RowNormalizers.ToBoolIgnoresCaseOfTrue | routes/import.js:137-138 | "TRUE", "True" and "ИСТИНА" are true |
| RowNormalizers.ToBoolExactWords | routes/import.js:136 | "1", "да" and "yes" are true, while "Да", "YES" and "Yes" are false |
| RowNormalizers.ToBoolOtherWords | routes/import.js:135-140 | "0", "", "no" and "true " are false |
| RowNormalizers.ToBoolOfLower | routes/import.js:135-140 | a text `toBool` accepts is still accepted once lower-cased |
| RowNormalizers.TrimmedOrNull | routes/import.js:143-144 | `(v \|\| '').toString().trim().slice(0, n) \|\| null` is `null` exactly for a falsy or all-white-space cell, else the prefix of the trimmed text of length `min(\|trim\|, n)`, non-empty with no leading white space |
| RowNormalizers.RowToAccount | routes/import.js:132-148 | `null` exactly when the username source is not text or is blank; otherwise the username is the prefix of the trimmed text of length `min(\|trim\|, 255)`, the link is TrimmedOrNull of `user_link \|\| link` and the full name of `full_name \|\| name` (500 each), and the flags are `toBool` of their cells |
| RowNormalizers.NormalizeAccounts | routes/import.js:172 | `rows.map(rowToInstagram).filter(Boolean)` has at most as many accounts as rows |
| RowNormalizers.NormalizeAccountsCounts | routes/import.js:172 | accounts plus skipped rows are all the rows; no account exactly when every row is skipped |
| Chunks.NumChunksIsCeiling | routes/import.js:80 | the loop runs ⌈n/50⌉ times: the least count whose chunks cover `n` records, zero exactly for no records |
| Chunks.Chunk | routes/import.js:81 | each slice is non-empty and at most 50 long, and every slice but the last is exactly 50 long |
| Chunks.ChunksOf | routes/import.js:80-81 | there are as many slices as iterations |
| Chunks.ChunksPrefix | routes/import.js:80-81 | the first `k` slices, concatenated, are the first `50·k` records (or all of them) |
| Chunks.ChunksCover | routes/import.js:80-81 | concatenating the slices reproduces the records in order |
| Chunks.LoopIndex | routes/import.js:80 | `i = 50·k < n` exactly while `k` is below the chunk count |
| Chunks.LoopChunk | routes/import.js:81 | `slice(i, i + 50)` at `i = 50·k` is chunk `k` |
| Chunks.ChunkAt | routes/import.js:81 | chunk `k - 1` is `slice(50·(k-1), 50·k)`, cut at the end of the records |
| Chunks.BatchNumber | routes/import.js:90 | `Math.floor(i / 50)` at `i = 50·k` is `k` |
| Chunks.ChunksOf120 | routes/import.js:75-81 | 120 records make three chunks: the first 50, the next 50 and the last 20 |
| BatchWriter.ClientRecords | routes/import.js:82 | `batch.map(it => it.client)` has one record per item |
| BatchWriter.ClientRecordsAt | routes/import.js:82 | record `i` of the map is item `i`'s client |
| BatchWriter.ClientRecordsConcat | routes/import.js:82 | the map distributes over concatenation |
| BatchWriter.IdAt | routes/import.js:98 | `insertedClients?.[idx]?.id \|\| null` is the id at that position, unless it is missing, null or 0 |
| BatchWriter.DealsFor | routes/import.js:96-103 | one deal per item of the chunk |
| BatchWriter.DealsForAt | routes/import.js:96-103 | deal `idx` is titled with client `idx`'s name, linked to `insertedClients?.[idx]?.id \|\| null`, stage `new`, amount and probability 0, country of item `idx` |
| BatchWriter.DealsLinkedByPosition | routes/import.js:96-103 | when the store returns one non-zero id per client, deal `idx` has that client's name, the id at `idx`, stage `new`, amount and probability 0, and the item's country |
| BatchWriter.DealsUnlinkedBeyondIds | routes/import.js:98 | a deal whose id row is missing or unusable is still built in full, with a `null` client id |
| BatchWriter.StepErrors | routes/import.js:89-111 | an iteration adds at most one entry to `errors`, tagged with its 1-based batch number |
| BatchWriter.ClientStep | routes/import.js:80-115 | one pass of the client loop body; its effects are stated by StepErrorsEffect, StepSentEffect, StepDealsEffect, StepErrorEntries and RunStepCounts |
| BatchWriter.ClientRun | routes/import.js:76-115 | the client loop after `k` passes; its properties are the ClientRun lemmas below |
| BatchWriter.StepErrorsEffect | routes/import.js:89-114 | an iteration only appends to `errors` |
| BatchWriter.StepSentEffect | routes/import.js:84-87 | an iteration sends its chunk's client insert whatever the store answers |
| BatchWriter.ClientRunSendsEveryBatch | routes/import.js:89-92 | `continue`: every chunk's client insert is sent, in order, whatever the store answers to the earlier ones |
| BatchWriter.StepDealsEffect | routes/import.js:89-108 | an iteration sends no deal insert when its client insert is refused, and otherwise exactly one: the chunk's deals paired by position with the returned client rows |
| BatchWriter.DealsSent | routes/import.js:89-108 | after the store's answer to a chunk's client insert, the chunk sends one deal insert if the clients were taken and none if they were refused |
| BatchWriter.ClientRunSendsDeals | routes/import.js:80-108 | the deal inserts of the first `k` passes are, in order, one per chunk whose clients were taken, built from that chunk's returned rows; a refused chunk contributes none |
| BatchWriter.ClientRunCoversItems | routes/import.js:80-87 | the client inserts of the whole loop, concatenated, are the clients of every item in order |
| BatchWriter.AppendKeepsOrder | routes/import.js:90 | appending at most one entry for batch `k + 1` keeps `errors` ordered |
| BatchWriter.ClientErrorsOrdered | routes/import.js:90 | `errors` is ordered by batch number, with numbers from 1 to the batches run |
| BatchWriter.StepErrorEntries | routes/import.js:89-111 | an iteration keeps earlier entries and adds a client error exactly when its clients are refused, or a deal error exactly when its clients are taken and its deals refused |
| BatchWriter.RunClientEntries | routes/import.js:89-92 | iteration `k` of the run adds its client error exactly when the store refused its clients |
| BatchWriter.RunDealEntries | routes/import.js:110-111 | iteration `k` of the run adds its deal error exactly when the store took its clients and refused its deals |
| BatchWriter.ClientErrorIffRefused | routes/import.js:89-92 | `{batch: c + 1, message: m}` is in `errors` exactly when the store refused chunk `c`'s clients with `m` |
| BatchWriter.DealErrorIffRefused | routes/import.js:105-111 | `{batch: c + 1, deals: m}` is in `errors` exactly when the store took chunk `c`'s clients and refused its deals with `m` |
| BatchWriter.RunStepClean | routes/import.js:89-114 | an iteration adds no error exactly when the store took both of its inserts |
| BatchWriter.ClientRunClean | routes/import.js:78-115 | the loop ends with no error exactly when the store took every client insert and every deal insert |
| BatchWriter.RunStepCounts | routes/import.js:94-114 | an iteration adds its returned client rows to `importedClients`, even when its deals fail, and its returned deal rows to `importedDeals` |
| BatchWriter.ClientRunCounts | routes/import.js:76-114 | `importedClients` and `importedDeals` are the sums, over the chunks, of the rows the store returned for them |
| BatchWriter.ClientRunFaithful | routes/import.js:80-115 | with a store that takes every insert and returns one row per record, the first `k` chunks import every item as a client and a deal with no error |
| BatchWriter.ClientImportFaithful | routes/import.js:80-115 | with a store that takes every insert and returns one row per record, every item becomes a client and a deal |
| BatchWriter.AbortingRun | routes/import.js:179-184 | the throwing loop after `k` passes; its properties are the AbortingRun lemmas below |
| BatchWriter.AbortedStays | routes/import.js:182 | after a `throw`, nothing more is sent and the message stays |
| BatchWriter.AbortingRunStops | routes/import.js:182 | a refused chunk in a running loop is the last insert, and its message is the loop's |
| BatchWriter.AbortingRunContinues | routes/import.js:183 | a taken chunk adds its returned rows to the count and the loop goes on |
| BatchWriter.AbortingRunSends | routes/import.js:179-182 | the inserts sent are the chunks in order: all of them when the loop runs through, at least one when it aborts |
| BatchWriter.AbortingRunAccepted | routes/import.js:179-184 | the store took every insert sent, except a refused last one |
| BatchWriter.AbortingRunRefused | routes/import.js:182 | an aborted loop reports the message of its last insert, which the store refused |
| BatchWriter.AbortingRunFailsLast | routes/import.js:179-184 | an aborted loop wrote every chunk before the refused last one |
| BatchWriter.AbortingRunFaithful | routes/import.js:179-184 | with a store that takes every insert and returns one row per record the loop never aborts and counts every record of the chunks run |
| BatchWriter.AbortingImportFaithful | routes/import.js:177-186 | with a store that takes every insert and returns one row per record, every record is counted |
| ImportRoutes.LastDot | routes/import.js:56 | the index of the last dot, or -1 when there is none |
| ImportRoutes.LastDotUnique | routes/import.js:56 | those properties determine the last dot |
| ImportRoutes.LastSegment | routes/import.js:56 | `split('.').pop()` is the dot-free tail that follows the last dot, or the whole name |
| ImportRoutes.ExtensionAfterLastDot | routes/import.js:56 | the extension of `base.ext` is `ext` lower-cased |
| ImportRoutes.ExtensionWithoutDot | routes/import.js:56 | a name with no dot is its own extension |
| ImportRoutes.Extension | routes/import.js:56 | the extension is a dot-free, lower-case tail of the file name |
| ImportRoutes.ImportClients | routes/import.js:50-129 | the handler's response and inserts are those of the route function |
| ImportRoutes.ClientsRoute | routes/import.js:50-129 | the client import as a function of the upload, the sheet and the store; stated by the ClientsRoute lemmas |
| ImportRoutes.ImportBatch | routes/import.js:81-114 | one pass of the loop body is one step of the client run |
| ImportRoutes.ImportBatches | routes/import.js:75-115 | the loop's counters, errors and inserts are those of the client run over all chunks |
| ImportRoutes.ClientLoopStep | routes/import.js:80-90 | the body at `i = 50·k` runs step `k` of the client run, with `floor(i / 50) = k` |
| ImportRoutes.ClientsRouteGuards | routes/import.js:52-73 | 400 exactly for a missing file, an extension other than xlsx/xls, or no row with a name, and then nothing is written; an unreadable sheet is a 500 with the reader's message |
| ImportRoutes.ClientsRouteWrites | routes/import.js:52-124 | an insert is sent, or 200 answered, exactly when the upload is a workbook whose sheet has a named row; `total` is the number of named rows, and with the skipped rows it is every row |
| ImportRoutes.ClientsRouteFaithful | routes/import.js:117-124 | with a store that takes every insert and returns one row per record, the report is `imported = importedClients = importedDeals = total` with no `errors` |
| ImportRoutes.ClientsRouteErrors | routes/import.js:123 | `errors` is left out exactly when the store took every client insert and every deal insert |
| ImportRoutes.ClientsRouteCounts | routes/import.js:117-124 | `imported` and `importedClients` are the returned client rows, `importedDeals` the deal rows, `total` the named rows |
| ImportRoutes.AccountRecords | routes/import.js:180-181 | one record per account, in order |
| ImportRoutes.ImportInstagram | routes/import.js:151-191 | the handler's response and inserts are those of the route function |
| ImportRoutes.AccountsRoute | routes/import.js:151-191 | the lead-account import as a function of the upload, the sheet and the store; stated by the AccountsRoute lemmas |
| ImportRoutes.InsertAll | routes/import.js:179-184 | the loop answers the count or the first refusal's message, with the inserts of the aborting run |
| ImportRoutes.AbortingLoopStep | routes/import.js:179-183 | the body at `i = 50·k` inserts chunk `k`; a refusal ends the run, a success counts its rows |
| ImportRoutes.AccountsRouteGuards | routes/import.js:153-175 | 400 exactly for a missing file, an extension other than xlsx/xls/csv, or no row with a username, and then nothing is written; an unreadable sheet is a 500 with the reader's message |
| ImportRoutes.AccountsRouteFaithful | routes/import.js:186 | with a store that takes every insert and returns one row per record, `imported = total` = the accounts with a username |
| ImportRoutes.AccountsRouteAbortsAfterWrites | routes/import.js:179-190 | a 500 from the loop comes after every earlier chunk was written, with the refused chunk's message |
| ImportRoutes.LinkedClientIds | routes/import.js:204 | the set holds exactly the non-null, non-zero client ids of the deals |
| ImportRoutes.BackfillDeals | routes/import.js:211-218 | one deal per client without one, in order, titled with its name, linked to its id, stage `new`, amount and probability 0 |
| ImportRoutes.BackfillCountry | routes/import.js:196 | the body's country when it is given, "Россия" when it is missing or empty |
| ImportRoutes.CreateDealsFromClients | routes/import.js:194-237 | the handler's response and inserts are those of the route function |
| ImportRoutes.CreateDealsRoute | routes/import.js:194-237 | the deal back-fill as a function of the body country, the two selects and the store; stated by the CreateDeals lemmas |
| ImportRoutes.CreateDealsGuards | routes/import.js:198-209 | `created: 0` exactly when there is no client or every client has a deal, and then nothing is written |
| ImportRoutes.CreateDealsAbortsAfterWrites | routes/import.js:222-236 | a 500 carries the hint about the `country` column and comes after every earlier chunk was written |
| ImportRoutes.ClientsWithoutDealsExactly | routes/import.js:204-206 | a client is back-filled exactly when its id is 0 or no deal links to it |
| ImportRoutes.ClientsWithoutDealsConcat | routes/import.js:206 | the selection keeps client order: it distributes over concatenation |
| ImportRoutes.StoredBackfill | routes/import.js:211-218 | the back-filled deals, once stored, link one to each back-filled client, in order |
| ImportRoutes.BackfillIdempotent | routes/import.js:203-209 | when no client has id 0, storing the back-filled deals leaves no client without a deal, so a second run creates nothing |
| ImportRoutes.ZeroIdIsAlwaysBackfilled | routes/import.js:204 | a client with id 0 is back-filled whatever deals exist |
| ImportRoutes.CreateDealsFaithful | routes/import.js:220-229 | with a store that takes every insert and returns one row per record, `created = total` = the clients without a deal |
| Filters.Filter | src/components/Tasks.jsx:53-58 | `array.filter(keep)` keeps exactly the elements `keep` accepts, no more of them than the array; FilterConcat states the order |
| Filters.FilterConcat | src/components/Tasks.jsx:53-58 | filtering distributes over concatenation, so it keeps order |
| Kanban.KeyText | src/components/DealsKanban.jsx:206 | `over.id.toString()` of a string id is the id itself |
| Kanban.FindStage | src/components/DealsKanban.jsx:50 | `STAGES.find` gives the first entry with the id, or nothing exactly when no entry has it |
| Kanban.StageOfCard | src/components/DealsKanban.jsx:50 | a card shows its own stage when it is one of the six, else `STAGES[0]` |
| Kanban.UnknownStageShowsAsNew | src/components/DealsKanban.jsx:50 | an unknown stage shows as `new` ("Новая") |
| Kanban.StagesDistinct | src/components/DealsKanban.jsx:25-32 | the six stage ids are pairwise different |
| Kanban.NumericKeyIsNoStage | src/components/DealsKanban.jsx:206-207 | no numeric deal id names a column |
| Kanban.FindIndex | src/components/DealsKanban.jsx:220-221 | `findIndex` is the first position holding the id, or -1 exactly when none does |
| Kanban.SetStage | src/components/DealsKanban.jsx:212-216 | the map sets the stage of the entries with the id and keeps every other entry |
| Kanban.ArrayMove | src/components/DealsKanban.jsx:224 | `arrayMove` keeps the length |
| Kanban.ArrayMoveAt | src/components/DealsKanban.jsx:224 | the moved element lands at `to`, the ones in between shift by one, the rest stay |
| Kanban.ArrayMovePermutes | src/components/DealsKanban.jsx:224 | `arrayMove` is a permutation |
| Kanban.ArrayMoveUndo | src/components/DealsKanban.jsx:224 | moving back undoes the move |
| Kanban.Drop | src/components/DealsKanban.jsx:197-228 | the effect of a drop on the deals keeps their number |
| Kanban.DropWithoutTarget | src/components/DealsKanban.jsx:201 | no target, or the dragged card itself, changes nothing |
| Kanban.DropOfUnknownDeal | src/components/DealsKanban.jsx:203-204 | dragging an id no deal has changes nothing |
| Kanban.DropOnColumn | src/components/DealsKanban.jsx:206-216 | a drop on a column sets the dragged deal's stage and keeps every other deal, the other fields, the length and the order |
| Kanban.DropOnColumnChangesOneDeal | src/components/DealsKanban.jsx:212-216 | with unique ids, that is an update of the one dragged entry |
| Kanban.DropOnColumnShowsDeal | src/components/DealsKanban.jsx:206-216 | after it the dragged deal is in that column |
| Kanban.DropOnCard | src/components/DealsKanban.jsx:219-226 | a drop on another card is `arrayMove(deals, oldIndex, newIndex)`: a permutation with the dragged deal at `newIndex` |
| Kanban.DropOnNothing | src/components/DealsKanban.jsx:223 | a target that is neither a column nor a card changes nothing |
| Kanban.DealsByStage | src/components/DealsKanban.jsx:252-254 | a column holds exactly the deals with that stage |
| Kanban.ColumnKeepsOrder | src/components/DealsKanban.jsx:252-254 | a column keeps list order: it distributes over concatenation |
| Kanban.ColumnsDisjoint | src/components/DealsKanban.jsx:279-283 | two columns share no deal |
| Kanban.UnknownStageInNoColumn | src/components/DealsKanban.jsx:279-283 | a deal with an unknown stage is in no column |
| Kanban.ColumnsPartition | src/components/DealsKanban.jsx:279-283 | columns with distinct ids together hold each deal with one of their stages exactly once |
| Kanban.BoardShowsKnownDeals | src/components/DealsKanban.jsx:279-283 | the six columns hold each deal with a known stage exactly once, and no other deal |
| Kanban.Board.constructor | src/components/DealsKanban.jsx:147-175 | the board holds the loaded deals and nothing is being dragged |
| Kanban.Board.DragStart | src/components/DealsKanban.jsx:193-195 | the dragged id is recorded; the deals are unchanged |
| Kanban.Board.DragEnd | src/components/DealsKanban.jsx:197-228 | `activeId` is cleared and the deals take the drop's effect |
| TaskList.FilteredTasks | src/components/Tasks.jsx:53-58 | a view holds only tasks of the list, no more of them than the list |
| TaskList.Shown | src/components/Tasks.jsx:53-58 | the predicate of `filteredTasks` for a filter value; the views it gives are stated by the lemmas below |
| TaskList.OtherFiltersShowAll | src/components/Tasks.jsx:53-58 | `all`, and any value but `pending` and `completed`, shows every task |
| TaskList.PendingShowsUnfinished | src/components/Tasks.jsx:55 | `pending` shows exactly the tasks not completed |
| TaskList.CompletedShowsFinished | src/components/Tasks.jsx:56 | `completed` shows exactly the completed tasks |
| TaskList.PendingAndCompletedSplit | src/components/Tasks.jsx:55-56 | the two views are disjoint and together hold every task as often as the list |
| TaskList.FilterKeepsOrder | src/components/Tasks.jsx:53-58 | every view keeps list order |
| TaskList.ToggledStatus | src/components/Tasks.jsx:40 | the new status is `pending` exactly for a completed task, `completed` otherwise |
| TaskList.ToggleTwice | src/components/Tasks.jsx:40 | on `pending` and `completed`, toggling changes the status and toggling twice restores it |
| TaskList.ToggleOtherStatus | src/components/Tasks.jsx:40 | any other status toggles to `completed`, and back to `pending`, not to itself |
| TaskList.ToggleSwitchesView | src/components/Tasks.jsx:40 | toggling moves a task between the pending and completed views |
| TaskList.PriorityLabel | src/components/Tasks.jsx:347-354 | any value but `high`, `medium` and `low` is its own label |
| TaskList.PriorityLabelsDistinct | src/components/Tasks.jsx:348-352 | the three levels get three different, non-empty labels |
| TaskList.PriorityLabelIdempotent | src/components/Tasks.jsx:347-354 | labelling a label gives the label back |

## Left out

- Reading the upload: multer, `XLSX.read` and `sheet_to_json`. The parsed sheet is an input, and a sheet that cannot be read is `Failure(message)`. The csv and workbook branches of `/instagram` read the upload the same way, so both arrive as that input.
- The record store (the Supabase client). It is the oracle parameter `store`, and nothing is proved about it. The two `select`s of `/create-deals-from-clients` are inputs. Their errors are ignored, as in the handler.
- Express request and response plumbing, including `console.error`.
  - A 500 is modelled for an unreadable sheet and for a store refusal in the aborting loops.
  - Other exceptions are not represented. These are an exception inside the deal loop of `/clients`, and `undefined` rows reaching `rowToItem`.
- JsValues.Text: numbers are integers only. Fractional numbers and the exponent form of `Number.prototype.toString` are not modelled.
- JsValues.Lower: lower-cases ASCII, Latin-1 and the basic Cyrillic capitals (U+0400-U+042F) only. Other Cyrillic capitals such as Ґ, Қ, Ә and Ү, other scripts, and characters whose lower case has a different length are not modelled.
- JsValues.Trim: its own ensures state the edges and the all-white-space case. That the result is the infix of `s` after its leading white space is the lemma JsValues.TrimIsInfix, so the fact is not instantiated at every use of `trim()`.
- JsValues.Truncate: counts Unicode scalar values. JavaScript's `slice` counts UTF-16 code units, so text outside the Basic Multilingual Plane can be cut at a different place.
- TaskList.PriorityLabel: the lookup is a property read on an object literal, so inherited member names such as `constructor` return an object. This is not modelled; the priority field is an enum of `low`, `medium` and `high`. Priority and status are modelled as text only.
- BatchWriter.ClientRecords: its own ensures state the length. That record `i` is item `i`'s client is the lemma BatchWriter.ClientRecordsAt, so the fact stays out of the inductions over the loop.
- BatchWriter.DealsFor: its own ensures state the length. The contents of every deal, for any returned rows, are the lemma BatchWriter.DealsForAt, for the same reason.
- ImportRoutes.BackfillCountry: `req.body?.country` is taken as text. A JSON body whose `country` is a number, a boolean or an object passes through `||` unchanged in the handler, and the model does not represent it.
- `updateDealStage` and every `fetch`: network side effects of the board and the task list.
- The `DragOverlay`'s `activeDeal` lookup, the `@dnd-kit` sensors and collision detection, and all rendering.
- Kanban.Card: holds the id, stage, title, amount and client id. The other deal fields are carried unchanged by every operation, so they are not modelled.

## Findings

| source | as written | input that shows it | evidently intended | confidence | as-written member | corrected member |
|---|---|---|---|---|---|---|
| routes/import.js:27 | `COUNTRY_MAP[raw] \|\| raw` reads a property of an object literal, so a key such as `constructor` finds the inherited `Object` constructor and returns a function instead of text | a client row whose `country` cell is "Constructor" | only the table's own 25 keys are looked up, and other text passes through lower-cased | not executed | CountryResolver.MapCountryAsWritten, CountryResolver.InheritedKeyCounterexample | CountryResolver.MapCountry |
