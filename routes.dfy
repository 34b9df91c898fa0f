/**
 * The three POST handlers of the import router: `/clients`, `/instagram`
 * and `/create-deals-from-clients`. Each is a function from its inputs
 * (the upload, the parsed sheet, the store's answers) to the response and
 * the inserts sent, and a method with the handler's batch loop, proved
 * equal to that function.
 */
module ImportRoutes {
  import opened Wrappers
  import opened JsValues
  import opened Records
  import opened CountryResolver
  import opened RowNormalizers
  import opened Chunks
  import opened BatchWriter
  import opened Filters

  // ------------------------------------------------------------- messages

  const NoFileClients: string := "Файл не загружен. Выберите .xlsx или .xls файл."
  const WrongTypeClients: string := "Поддерживаются только файлы .xlsx и .xls"
  const NoRecordsClients: string := "В файле нет подходящих записей. Ожидаются колонки: name, phone, address, city, website."
  const NoFileAccounts: string := "Файл не загружен. Выберите .xlsx или .xls."
  const WrongTypeAccounts: string := "Поддерживаются только .xlsx, .xls, .csv"
  const NoRecordsAccounts: string := "Нет записей. Ожидаются колонки: username, user_link, full_name, is_private, is_verified."
  const NoClients: string := "Нет клиентов"
  const AllClientsHaveDeals: string := "У всех клиентов уже есть сделки"
  const CountryColumnHint: string :=
    "Убедитесь, что в таблице deals есть колонка country. Выполните supabase/migrations/add_country_to_deals.sql в Supabase SQL Editor."

  // ------------------------------------------------------------ the upload

  /** The uploaded file as the handlers see it: its original name, `""`
      when the upload has none. Its contents reach the handlers only as
      the parsed sheet. */
  datatype Upload = Upload(originalName: string)

  /** The index of the last dot of `s`, or -1 when it has none. */
  function LastDot(s: string): (d: int)
    ensures -1 <= d < |s|
    ensures d >= 0 ==> s[d] == '.'
    ensures forall j :: d < j < |s| ==> s[j] != '.'
  {
    if s == [] then -1
    else if s[|s| - 1] == '.' then |s| - 1
    else LastDot(s[..|s| - 1])
  }

  /** The three properties of `LastDot` determine it: no later index holds
      a dot. */
  lemma LastDotUnique(s: string, d: int)
    requires -1 <= d < |s|
    requires d >= 0 ==> s[d] == '.'
    requires forall j :: d < j < |s| ==> s[j] != '.'
    ensures d == LastDot(s)
  {
  }

  /** `s.split('.').pop()`: the text after the last dot, or all of `s`. */
  function LastSegment(s: string): (r: string)
    ensures '.' !in r
    ensures |r| <= |s| && r == s[|s| - |r|..]
    ensures |r| < |s| ==> s[|s| - |r| - 1] == '.'
  {
    s[LastDot(s) + 1..]
  }

  /** `(originalname || '').toLowerCase().split('.').pop()`: a dot-free,
      lower-case tail of the file name. */
  function Extension(file: Upload): (ext: string)
    ensures '.' !in ext && |ext| <= |file.originalName|
    ensures forall i :: 0 <= i < |ext| ==> !IsUpper(ext[i])
  {
    LastSegment(Lower(file.originalName))
  }

  predicate IsWorkbook(ext: string) { ext == "xlsx" || ext == "xls" }

  predicate IsSheetOrCsv(ext: string) { ext == "xlsx" || ext == "xls" || ext == "csv" }

  /** The extension is the lower-cased text after the last dot of the name. */
  lemma ExtensionAfterLastDot(base: string, ext: string)
    requires '.' !in ext
    ensures Extension(Upload(base + "." + ext)) == Lower(ext)
  {
    var name := base + "." + ext;
    var lower := Lower(name);
    assert lower == Lower(base) + "." + Lower(ext) by {
      assert forall j :: 0 <= j < |name| ==> LowerChar(name[j]) == (Lower(base) + "." + Lower(ext))[j];
    }
    forall j | |base| < j < |lower|
      ensures lower[j] != '.'
    {
      assert ext[j - |base| - 1] != '.';
    }
    LastDotUnique(lower, |base|);
    assert lower[|base| + 1..] == Lower(ext);
  }

  /** A name without a dot is its own extension: a file named "XLS" passes
      the check. */
  lemma ExtensionWithoutDot(name: string)
    requires '.' !in name
    ensures Extension(Upload(name)) == Lower(name)
  {
    var lower := Lower(name);
    forall j | 0 <= j < |lower|
      ensures lower[j] != '.'
    {
      assert name[j] != '.';
    }
    LastDotUnique(lower, -1);
  }

  // ------------------------------------------------------ POST /clients

  /** The client import: 400 without a file or with the wrong extension; 500
      when the file cannot be read as a sheet; 400 with `imported: 0` when
      no row has a name; otherwise the client loop over chunks of 50 and a
      report of its counters and errors. */
  function ClientsRoute(file: Option<Upload>, sheet: Result<seq<Row>, string>, store: Store): Outcome {
    if file.None? then Outcome(BadRequest(NoFileClients, false), [])
    else if !IsWorkbook(Extension(file.value)) then Outcome(BadRequest(WrongTypeClients, false), [])
    else match sheet
      case Failure(m) => Outcome(ServerError(m, None), [])
      case Success(rows) =>
        var items := NormalizeClients(rows);
        if items == [] then Outcome(BadRequest(NoRecordsClients, true), [])
        else
          var batches := ChunksOf(items, BatchSize);
          var t := ClientRun(batches, store, |batches|);
          Outcome(ClientsImported(t.clients, t.clients, t.deals, |items|, if t.errors == [] then None else Some(t.errors)), t.sent)
  }

  /** `router.post('/clients', ...)`. */
  method ImportClients(file: Option<Upload>, sheet: Result<seq<Row>, string>, store: Store)
    returns (response: Response, sent: seq<Insert>)
    ensures Outcome(response, sent) == ClientsRoute(file, sheet, store)
  {
    if file.None? {
      return BadRequest(NoFileClients, false), [];
    }
    var ext := Extension(file.value);
    if !IsWorkbook(ext) {
      return BadRequest(WrongTypeClients, false), [];
    }
    if sheet.Failure? {
      return ServerError(sheet.error, None), [];
    }
    var items := NormalizeClients(sheet.value);
    if |items| == 0 {
      return BadRequest(NoRecordsClients, true), [];
    }
    var importedClients, importedDeals, errors;
    importedClients, importedDeals, errors, sent := ImportBatches(items, store);
    response := ClientsImported(importedClients, importedClients, importedDeals, |items|,
                                if |errors| == 0 then None else Some(errors));
  }

  /** One iteration of the client loop: the client insert of `batch`, and the
      deal insert for the clients it created. */
  method ImportBatch(batch: seq<Item>, k: nat, store: Store,
                     clients: nat, deals: nat, errors: seq<BatchError>, sent: seq<Insert>)
    returns (clients': nat, deals': nat, errors': seq<BatchError>, sent': seq<Insert>)
    ensures ClientStep(ClientTally(clients, deals, errors, sent), k, batch, store) ==
      ClientTally(clients', deals', errors', sent')
  {
    clients', deals', errors', sent' := clients, deals, errors, sent;
    var request := Insert(Clients, ClientRecords(batch));
    var reply := store(request, |sent|);
    if reply.Failed? {
      errors' := errors + [ClientBatchFailed(k + 1, reply.message)];
      sent' := sent + [request];
    } else {
      var insertedClients := reply.rows;
      clients' := clients + |insertedClients|;
      var dealRequest := Insert(Deals, DealsFor(batch, insertedClients));
      var dealReply := store(dealRequest, |sent| + 1);
      sent' := sent + [request, dealRequest];
      if dealReply.Failed? {
        errors' := errors + [DealBatchFailed(k + 1, dealReply.message)];
      } else {
        deals' := deals + |dealReply.rows|;
      }
    }
  }

  /** The client import's loop: each chunk of 50 goes to `clients`; a
      refused chunk is recorded with its batch number and skipped; a taken
      chunk's deals go to `deals`, linked by position to the ids returned,
      and a refused deal insert is recorded too. */
  method ImportBatches(items: seq<Item>, store: Store)
    returns (importedClients: nat, importedDeals: nat, errors: seq<BatchError>, sent: seq<Insert>)
    ensures var batches := ChunksOf(items, BatchSize);
      ClientRun(batches, store, |batches|) == ClientTally(importedClients, importedDeals, errors, sent)
  {
    ghost var batches := ChunksOf(items, BatchSize);
    importedClients, importedDeals, errors, sent := 0, 0, [], [];
    var i := 0;
    ghost var k := 0;
    while i < |items|
      invariant k <= |batches| && i == BatchSize * k
      invariant ClientRun(batches, store, k) == ClientTally(importedClients, importedDeals, errors, sent)
      decreases |items| - i
    {
      ClientLoopStep(items, store, k, i);
      var batch := items[i..Min(i + BatchSize, |items|)];
      importedClients, importedDeals, errors, sent :=
        ImportBatch(batch, i / BatchSize, store, importedClients, importedDeals, errors, sent);
      i := i + BatchSize;
      k := k + 1;
    }
    LoopIndex(|items|, BatchSize, k);
  }

  /** The client loop's body at `i == BatchSize * k` runs iteration `k` of `ClientRun`. */
  lemma ClientLoopStep(items: seq<Item>, store: Store, k: nat, i: int)
    requires i == BatchSize * k && i < |items|
    ensures i <= Min(i + BatchSize, |items|) <= |items| && i / BatchSize == k
    ensures var batches := ChunksOf(items, BatchSize);
      k < |batches| &&
      ClientRun(batches, store, k + 1) == ClientStep(ClientRun(batches, store, k), k, items[i..Min(i + BatchSize, |items|)], store)
  {
    LoopChunk(items, BatchSize, k, i);
    BatchNumber(BatchSize, k);
  }

  /** The client import answers 400 exactly when the file is missing, is not
      a workbook, or has no row with a name, and then writes nothing; an
      upload the sheet reader refuses is a 500 with the reader's message. */
  lemma ClientsRouteGuards(file: Option<Upload>, sheet: Result<seq<Row>, string>, store: Store)
    ensures var o := ClientsRoute(file, sheet, store);
      o.response.BadRequest? <==>
        file.None? || !IsWorkbook(Extension(file.value)) || (sheet.Success? && NormalizeClients(sheet.value) == [])
    ensures var o := ClientsRoute(file, sheet, store);
      o.response.BadRequest? ==> o.sent == []
    ensures file.Some? && IsWorkbook(Extension(file.value)) && sheet.Failure? ==>
      ClientsRoute(file, sheet, store) == Outcome(ServerError(sheet.error, None), [])
  {
  }

  /** Nothing is written unless the upload is a workbook whose sheet has
      at least one named row; then 200 with `total` the number of such rows. */
  lemma ClientsRouteWrites(file: Option<Upload>, sheet: Result<seq<Row>, string>, store: Store)
    ensures var o := ClientsRoute(file, sheet, store);
      (o.sent != [] || o.response.ClientsImported?) <==>
        file.Some? && IsWorkbook(Extension(file.value)) && sheet.Success? && NormalizeClients(sheet.value) != []
    ensures var o := ClientsRoute(file, sheet, store);
      o.response.ClientsImported? ==>
        o.response.total == |NormalizeClients(sheet.value)| &&
        o.response.total + SkippedClientRows(sheet.value) == |sheet.value|
  {
    var o := ClientsRoute(file, sheet, store);
    if file.Some? && IsWorkbook(Extension(file.value)) && sheet.Success? && NormalizeClients(sheet.value) != [] {
      var items := NormalizeClients(sheet.value);
      var batches := ChunksOf(items, BatchSize);
      NumChunksIsCeiling(|items|, BatchSize);
      ClientRunSendsEveryBatch(batches, store, |batches|);
      NormalizeClientsCounts(sheet.value);
      assert o.sent == ClientRun(batches, store, |batches|).sent;
      assert ClientBatches(o.sent) != [];
    }
  }

  /** With a store that takes every insert, every named row becomes a client
      and a deal, and the report has no `errors`. */
  lemma ClientsRouteFaithful(name: string, rows: seq<Row>, store: Store)
    requires IsWorkbook(Extension(Upload(name)))
    requires NormalizeClients(rows) != []
    requires Faithful(store)
    ensures var n := |NormalizeClients(rows)|;
      ClientsRoute(Some(Upload(name)), Success(rows), store).response == ClientsImported(n, n, n, n, None)
  {
    ClientImportFaithful(NormalizeClients(rows), store);
  }

  /** The report leaves `errors` out exactly when the store took every
      client insert and every deal insert. */
  lemma ClientsRouteErrors(name: string, rows: seq<Row>, store: Store)
    requires IsWorkbook(Extension(Upload(name)))
    requires NormalizeClients(rows) != []
    ensures var batches := ChunksOf(NormalizeClients(rows), BatchSize);
      ClientsRoute(Some(Upload(name)), Success(rows), store).response.errors.None? <==>
        forall c :: 0 <= c < |batches| ==>
          BatchTaken(batches, store, c)
  {
    var batches := ChunksOf(NormalizeClients(rows), BatchSize);
    ClientRunClean(batches, store, |batches|);
  }

  /** The report's counters: `imported` and `importedClients` are the client
      rows the store returned, `importedDeals` the deal rows, and `total`
      the number of named rows. */
  lemma ClientsRouteCounts(name: string, rows: seq<Row>, store: Store)
    requires IsWorkbook(Extension(Upload(name)))
    requires NormalizeClients(rows) != []
    ensures var batches := ChunksOf(NormalizeClients(rows), BatchSize);
      var r := ClientsRoute(Some(Upload(name)), Success(rows), store).response;
      r.ClientsImported? &&
      r.imported == r.importedClients == ClientsTaken(batches, store, |batches|) &&
      r.importedDeals == DealsTaken(batches, store, |batches|) &&
      r.total == |NormalizeClients(rows)|
  {
    var batches := ChunksOf(NormalizeClients(rows), BatchSize);
    ClientRunCounts(batches, store, |batches|);
  }

  // ---------------------------------------------------- POST /instagram

  /** `accounts`, as the records of the lead-account inserts. */
  function AccountRecords(accounts: seq<Account>): (r: seq<Record>)
    ensures |r| == |accounts|
    ensures forall i :: 0 <= i < |r| ==> r[i] == AccountRecord(accounts[i])
  {
    seq(|accounts|, i requires 0 <= i < |accounts| => AccountRecord(accounts[i]))
  }

  /** The lead-account import: 400 without a file or with an extension other
      than xlsx, xls and csv; 500 when the file cannot be read as a sheet;
      400 when no row has a username; otherwise the aborting loop over
      chunks of 50, answering 500 with the store's message at the first
      refused chunk and 200 with the count otherwise. */
  function AccountsRoute(file: Option<Upload>, sheet: Result<seq<Row>, string>, store: Store): Outcome {
    if file.None? then Outcome(BadRequest(NoFileAccounts, false), [])
    else if !IsSheetOrCsv(Extension(file.value)) then Outcome(BadRequest(WrongTypeAccounts, false), [])
    else match sheet
      case Failure(m) => Outcome(ServerError(m, None), [])
      case Success(rows) =>
        var accounts := NormalizeAccounts(rows);
        if accounts == [] then Outcome(BadRequest(NoRecordsAccounts, false), [])
        else AccountsImport(accounts, store)
  }

  /** The lead-account import past its guards: the aborting loop over the
      chunks of the accounts, and its answer. */
  function AccountsImport(accounts: seq<Account>, store: Store): Outcome {
    var batches := ChunksOf(AccountRecords(accounts), BatchSize);
    match AbortingRun(InstagramAccounts, batches, store, |batches|)
    case Aborted(m, sent) => Outcome(ServerError(m, None), sent)
    case Running(n, sent) => Outcome(AccountsImported(n, |accounts|), sent)
  }

  /** `router.post('/instagram', ...)`. The csv and the workbook branches
      read the upload the same way, so both arrive here as `sheet`. */
  method ImportInstagram(file: Option<Upload>, sheet: Result<seq<Row>, string>, store: Store)
    returns (response: Response, sent: seq<Insert>)
    ensures Outcome(response, sent) == AccountsRoute(file, sheet, store)
  {
    if file.None? {
      return BadRequest(NoFileAccounts, false), [];
    }
    var ext := Extension(file.value);
    if !IsSheetOrCsv(ext) {
      return BadRequest(WrongTypeAccounts, false), [];
    }
    if sheet.Failure? {
      return ServerError(sheet.error, None), [];
    }
    var accounts := NormalizeAccounts(sheet.value);
    if |accounts| == 0 {
      return BadRequest(NoRecordsAccounts, false), [];
    }
    var result;
    result, sent := InsertAll(InstagramAccounts, AccountRecords(accounts), store);
    match result
    case Success(imported) => response := AccountsImported(imported, |accounts|);
    case Failure(m) => response := ServerError(m, None);
  }

  /** What the caller of an aborting loop learns: the count, or the message
      of the error it threw. */
  function RunResult(p: Progress): Result<nat, string> {
    match p
    case Aborted(m, _) => Failure(m)
    case Running(n, _) => Success(n)
  }

  /** The loop the lead-account import and the deal back-fill share:
      `for (...) { insert; if (error) throw error; count += rows }`. It
      answers the count, or the message the error thrown carries. */
  method InsertAll(table: Table, records: seq<Record>, store: Store)
    returns (result: Result<nat, string>, sent: seq<Insert>)
    ensures var batches := ChunksOf(records, BatchSize);
      var p := AbortingRun(table, batches, store, |batches|);
      result == RunResult(p) && sent == p.sent
  {
    ghost var batches := ChunksOf(records, BatchSize);
    var inserted: nat := 0;
    sent := [];
    var i := 0;
    ghost var k := 0;
    while i < |records|
      invariant k <= |batches| && i == BatchSize * k
      invariant AbortingRun(table, batches, store, k) == Running(inserted, sent)
      decreases |records| - i
    {
      AbortingLoopStep(table, records, store, k, i);
      var batch := records[i..Min(i + BatchSize, |records|)];
      var request := Insert(table, batch);
      var reply := store(request, |sent|);
      if reply.Failed? {
        return Failure(reply.message), sent + [request];
      }
      inserted := inserted + |reply.rows|;
      sent := sent + [request];
      i := i + BatchSize;
      k := k + 1;
    }
    LoopIndex(|records|, BatchSize, k);
    result := Success(inserted);
  }

  /** The aborting loop's body at `i == BatchSize * k`, in a run still going,
      inserts chunk `k`: a refusal ends the run with that insert last, a
      success counts its rows and the run goes on. */
  lemma AbortingLoopStep(table: Table, records: seq<Record>, store: Store, k: nat, i: int)
    requires i == BatchSize * k && i < |records|
    requires AbortingRun(table, ChunksOf(records, BatchSize), store, k).Running?
    ensures i <= Min(i + BatchSize, |records|) <= |records|
    ensures var batches := ChunksOf(records, BatchSize);
      var p := AbortingRun(table, batches, store, k);
      var request := Insert(table, records[i..Min(i + BatchSize, |records|)]);
      k < |batches| &&
      (store(request, |p.sent|).Failed? ==>
        AbortingRun(table, batches, store, |batches|) == Aborted(store(request, |p.sent|).message, p.sent + [request])) &&
      (store(request, |p.sent|).Inserted? ==>
        AbortingRun(table, batches, store, k + 1) == Running(p.inserted + |store(request, |p.sent|).rows|, p.sent + [request]))
  {
    var batches := ChunksOf(records, BatchSize);
    LoopChunk(records, BatchSize, k, i);
    var request := Insert(table, batches[k]);
    match store(request, |AbortingRun(table, batches, store, k).sent|)
    case Failed(m) => AbortingRunStops(table, batches, store, k, m);
    case Inserted(_) => AbortingRunContinues(table, batches, store, k);
  }

  /** The lead-account import answers 400 exactly when the file is missing,
      has another extension than xlsx, xls or csv, or has no row with a
      username, and then it has written nothing; an upload the sheet reader
      refuses is a 500 with the reader's message. */
  lemma AccountsRouteGuards(file: Option<Upload>, sheet: Result<seq<Row>, string>, store: Store)
    ensures var o := AccountsRoute(file, sheet, store);
      o.response.BadRequest? <==>
        file.None? || !IsSheetOrCsv(Extension(file.value)) || (sheet.Success? && NormalizeAccounts(sheet.value) == [])
    ensures var o := AccountsRoute(file, sheet, store);
      o.response.BadRequest? ==> o.sent == []
    ensures file.Some? && IsSheetOrCsv(Extension(file.value)) && sheet.Failure? ==>
      AccountsRoute(file, sheet, store) == Outcome(ServerError(sheet.error, None), [])
  {
  }

  /** With a store that takes every insert, every account with a username is
      imported. */
  lemma AccountsRouteFaithful(name: string, rows: seq<Row>, store: Store)
    requires IsSheetOrCsv(Extension(Upload(name)))
    requires NormalizeAccounts(rows) != []
    requires Faithful(store)
    ensures var n := |NormalizeAccounts(rows)|;
      AccountsRoute(Some(Upload(name)), Success(rows), store).response == AccountsImported(n, n)
  {
    AbortingImportFaithful(InstagramAccounts, AccountRecords(NormalizeAccounts(rows)), store);
  }

  /** A 500 after the loop has started is not a clean failure: every chunk
      before the refused one was written, and the answer says nothing of
      them. */
  lemma AccountsRouteAbortsAfterWrites(name: string, rows: seq<Row>, store: Store)
    requires IsSheetOrCsv(Extension(Upload(name)))
    requires NormalizeAccounts(rows) != []
    ensures var o := AccountsRoute(Some(Upload(name)), Success(rows), store);
      o.response.ServerError? ==>
        o.sent != [] &&
        store(o.sent[|o.sent| - 1], |o.sent| - 1) == Failed(o.response.error) &&
        forall c :: 0 <= c < |o.sent| - 1 ==> store(o.sent[c], c).Inserted?
  {
    var accounts := NormalizeAccounts(rows);
    var batches := ChunksOf(AccountRecords(accounts), BatchSize);
    AbortingRunFailsLast(InstagramAccounts, batches, store);
    assert AccountsRoute(Some(Upload(name)), Success(rows), store) == AccountsImport(accounts, store);
  }

  // ------------------------------------ POST /create-deals-from-clients

  /** A row of `select('id, name')` on the clients. */
  datatype StoredClient = StoredClient(id: int, name: string)

  /** A row of `select('client_id')` on the deals. */
  datatype StoredDeal = StoredDeal(clientId: Option<int>)

  /** `new Set((deals || []).map(d => d.client_id).filter(Boolean))`: the
      client ids some deal links to, with null and 0 dropped. */
  function LinkedClientIds(deals: seq<StoredDeal>): (ids: set<int>)
    ensures forall i :: 0 <= i < |deals| && deals[i].clientId.Some? && deals[i].clientId.value != 0 ==>
      deals[i].clientId.value in ids
    ensures forall id :: id in ids ==> id != 0 && StoredDeal(Some(id)) in deals
  {
    set d | d in deals && d.clientId.Some? && d.clientId.value != 0 :: d.clientId.value
  }

  /** `clients.filter(c => !clientsWithDeals.has(c.id))`. */
  function ClientsWithoutDeals(clients: seq<StoredClient>, deals: seq<StoredDeal>): seq<StoredClient> {
    var linked := LinkedClientIds(deals);
    Filter(clients, (c: StoredClient) => c.id !in linked)
  }

  /** The deal a client without one gets. */
  function BackfillDeal(c: StoredClient, country: string): Deal {
    Deal(c.name, Some(c.id), "new", 0, 0, country)
  }

  /** `dealsToInsert`: one deal per client, in the clients' order. */
  function BackfillDeals(clients: seq<StoredClient>, country: string): (r: seq<Record>)
    ensures |r| == |clients|
    ensures forall i :: 0 <= i < |r| ==> r[i] == DealRecord(BackfillDeal(clients[i], country))
  {
    seq(|clients|, i requires 0 <= i < |clients| => DealRecord(BackfillDeal(clients[i], country)))
  }

  /** `req.body?.country || 'Россия'`, with `""` for a missing or falsy body field. */
  function BackfillCountry(bodyCountry: string): (country: string)
    ensures country != ""
    ensures bodyCountry != "" ==> country == bodyCountry
    ensures bodyCountry == "" ==> country == DefaultCountry
  {
    if bodyCountry == "" then DefaultCountry else bodyCountry
  }

  /** The deal back-fill: "no clients" and "every client has a deal" are
      answered with `created: 0` and no insert; otherwise one deal per
      client without one, written by the aborting loop, whose 500 carries
      the hint about the `country` column. The two selects' errors are
      ignored by the handler; a failed select arrives here as no rows. */
  function CreateDealsRoute(bodyCountry: string, clients: seq<StoredClient>, deals: seq<StoredDeal>, store: Store): Outcome {
    if clients == [] then Outcome(NoDealsCreated(NoClients), [])
    else
      var without := ClientsWithoutDeals(clients, deals);
      if without == [] then Outcome(NoDealsCreated(AllClientsHaveDeals), [])
      else BackfillImport(without, BackfillCountry(bodyCountry), store)
  }

  /** The deal back-fill past its guards: the aborting loop over the chunks
      of the new deals, and its answer. */
  function BackfillImport(without: seq<StoredClient>, country: string, store: Store): Outcome {
    var batches := ChunksOf(BackfillDeals(without, country), BatchSize);
    match AbortingRun(Deals, batches, store, |batches|)
    case Aborted(m, sent) => Outcome(ServerError(m, Some(CountryColumnHint)), sent)
    case Running(n, sent) => Outcome(DealsCreated(n, |without|), sent)
  }

  /** `router.post('/create-deals-from-clients', ...)`. */
  method CreateDealsFromClients(bodyCountry: string, clients: seq<StoredClient>, deals: seq<StoredDeal>, store: Store)
    returns (response: Response, sent: seq<Insert>)
    ensures Outcome(response, sent) == CreateDealsRoute(bodyCountry, clients, deals, store)
  {
    var country := BackfillCountry(bodyCountry);
    if |clients| == 0 {
      return NoDealsCreated(NoClients), [];
    }
    var without := ClientsWithoutDeals(clients, deals);
    if |without| == 0 {
      return NoDealsCreated(AllClientsHaveDeals), [];
    }
    var result;
    result, sent := InsertAll(Deals, BackfillDeals(without, country), store);
    match result
    case Success(created) => response := DealsCreated(created, |without|);
    case Failure(m) => response := ServerError(m, Some(CountryColumnHint));
  }

  /** The back-fill answers `created: 0` exactly when there is no client or
      every client has a deal, and then it has written nothing. */
  lemma CreateDealsGuards(bodyCountry: string, clients: seq<StoredClient>, deals: seq<StoredDeal>, store: Store)
    ensures var o := CreateDealsRoute(bodyCountry, clients, deals, store);
      o.response.NoDealsCreated? <==> clients == [] || ClientsWithoutDeals(clients, deals) == []
    ensures var o := CreateDealsRoute(bodyCountry, clients, deals, store);
      o.response.NoDealsCreated? ==> o.sent == []
  {
  }

  /** A 500 of the back-fill carries the hint about the `country` column and
      comes after every earlier chunk of deals was written. */
  lemma CreateDealsAbortsAfterWrites(bodyCountry: string, clients: seq<StoredClient>, deals: seq<StoredDeal>, store: Store)
    ensures var o := CreateDealsRoute(bodyCountry, clients, deals, store);
      o.response.ServerError? ==>
        o.response.hint == Some(CountryColumnHint) &&
        o.sent != [] &&
        store(o.sent[|o.sent| - 1], |o.sent| - 1) == Failed(o.response.error) &&
        forall c :: 0 <= c < |o.sent| - 1 ==> store(o.sent[c], c).Inserted?
  {
    var without := ClientsWithoutDeals(clients, deals);
    if clients != [] && without != [] {
      var batches := ChunksOf(BackfillDeals(without, BackfillCountry(bodyCountry)), BatchSize);
      AbortingRunFailsLast(Deals, batches, store);
      assert CreateDealsRoute(bodyCountry, clients, deals, store) == BackfillImport(without, BackfillCountry(bodyCountry), store);
    }
  }

  /** A client is back-filled exactly when no deal links to its id; the
      back-filled clients keep the order of the select. */
  lemma ClientsWithoutDealsExactly(clients: seq<StoredClient>, deals: seq<StoredDeal>, c: StoredClient)
    ensures c in ClientsWithoutDeals(clients, deals) <==>
      c in clients && (c.id == 0 || StoredDeal(Some(c.id)) !in deals)
  {
    if c.id != 0 && StoredDeal(Some(c.id)) in deals {
      var i :| 0 <= i < |deals| && deals[i] == StoredDeal(Some(c.id));
      assert c.id in LinkedClientIds(deals);
    }
  }

  /** Splitting the clients splits the back-fill the same way. */
  lemma ClientsWithoutDealsConcat(a: seq<StoredClient>, b: seq<StoredClient>, deals: seq<StoredDeal>)
    ensures ClientsWithoutDeals(a + b, deals) == ClientsWithoutDeals(a, deals) + ClientsWithoutDeals(b, deals)
  {
    var linked := LinkedClientIds(deals);
    FilterConcat(a, b, (c: StoredClient) => c.id !in linked);
  }

  /** The deals a back-fill writes, as the next run's `select('client_id')` sees them. */
  function StoredBackfill(clients: seq<StoredClient>): (r: seq<StoredDeal>)
    ensures |r| == |clients|
    ensures forall i :: 0 <= i < |r| ==> r[i] == StoredDeal(Some(clients[i].id))
  {
    seq(|clients|, i requires 0 <= i < |clients| => StoredDeal(Some(clients[i].id)))
  }

  /** When no client has id 0, running the back-fill twice creates nothing
      the second time: once its deals are stored, every client has a deal. */
  lemma BackfillIdempotent(clients: seq<StoredClient>, deals: seq<StoredDeal>, bodyCountry: string, store: Store)
    requires clients != []
    requires forall i :: 0 <= i < |clients| ==> clients[i].id != 0
    ensures var after := deals + StoredBackfill(ClientsWithoutDeals(clients, deals));
      ClientsWithoutDeals(clients, after) == [] &&
      CreateDealsRoute(bodyCountry, clients, after, store) == Outcome(NoDealsCreated(AllClientsHaveDeals), [])
  {
    var without := ClientsWithoutDeals(clients, deals);
    var after := deals + StoredBackfill(without);
    var linked := LinkedClientIds(after);
    forall i | 0 <= i < |clients|
      ensures clients[i].id in linked
    {
      var c := clients[i];
      ClientsWithoutDealsExactly(clients, deals, c);
      if StoredDeal(Some(c.id)) in deals {
        var d :| 0 <= d < |deals| && deals[d] == StoredDeal(Some(c.id));
        assert after[d] == deals[d];
      } else {
        var w :| 0 <= w < |without| && without[w] == c;
        assert after[|deals| + w] == StoredDeal(Some(c.id));
      }
    }
    FilterNone(clients, (c: StoredClient) => c.id !in linked);
  }

  /** A client whose id is 0 never counts as having a deal: `filter(Boolean)`
      drops 0 from the linked ids, so every run back-fills it again. */
  lemma ZeroIdIsAlwaysBackfilled(clients: seq<StoredClient>, deals: seq<StoredDeal>, c: StoredClient)
    requires c in clients && c.id == 0
    ensures c in ClientsWithoutDeals(clients, deals)
  {
    ClientsWithoutDealsExactly(clients, deals, c);
  }

  /** With a store that takes every insert, each client without a deal
      gets one, titled with its name and linked to its id. */
  lemma CreateDealsFaithful(bodyCountry: string, clients: seq<StoredClient>, deals: seq<StoredDeal>, store: Store)
    requires ClientsWithoutDeals(clients, deals) != []
    requires Faithful(store)
    ensures var n := |ClientsWithoutDeals(clients, deals)|;
      CreateDealsRoute(bodyCountry, clients, deals, store).response == DealsCreated(n, n)
  {
    var without := ClientsWithoutDeals(clients, deals);
    AbortingImportFaithful(Deals, BackfillDeals(without, BackfillCountry(bodyCountry)), store);
  }
}
