/**
 * The batch writers of the import routes, as functions of the batches and
 * of the store's answers. `ClientRun` is the client import's loop, which
 * records a failed batch and goes on; `AbortingRun` is the loop of the
 * lead-account import and of the deal back-fill, which stops at the first
 * failed batch and lets the route answer 500. The routes run them over
 * `ChunksOf(records, BatchSize)`.
 */
module BatchWriter {
  import opened Wrappers
  import opened Records
  import opened Chunks

  // ------------------------------------------------------------ client loop

  /** `batch.map(it => it.client)`, as the records of one insert. */
  function ClientRecords(items: seq<Item>): (r: seq<Record>)
    ensures |r| == |items|
  {
    if items == [] then [] else [ClientRecord(items[0].client)] + ClientRecords(items[1..])
  }

  /** Record `i` of a client insert is item `i`'s client. */
  lemma {:induction false} ClientRecordsAt(items: seq<Item>)
    ensures forall i :: 0 <= i < |items| ==> ClientRecords(items)[i] == ClientRecord(items[i].client)
    decreases |items|
  {
    if items != [] {
      ClientRecordsAt(items[1..]);
    }
  }

  lemma {:induction false} ClientRecordsConcat(a: seq<Item>, b: seq<Item>)
    ensures ClientRecords(a + b) == ClientRecords(a) + ClientRecords(b)
    decreases |a|
  {
    if a == [] {
      assert a + b == b;
    } else {
      assert (a + b)[1..] == a[1..] + b;
      ClientRecordsConcat(a[1..], b);
    }
  }

  /** `insertedClients?.[idx]?.id || null`: the id, unless the row is
      missing or its id is null or 0. */
  function IdAt(rows: seq<IdRow>, idx: nat): (r: Option<int>)
    ensures r.Some? <==> idx < |rows| && rows[idx].id.Some? && rows[idx].id.value != 0
    ensures r.Some? ==> r == rows[idx].id
  {
    if idx < |rows| && rows[idx].id.Some? && rows[idx].id.value != 0 then rows[idx].id else None
  }

  /** The deal a client-import item gets, linked to `clientId`. */
  function ImportDeal(item: Item, clientId: Option<int>): Deal {
    Deal(item.client.name, clientId, "new", 0, 0, item.country)
  }

  /** `dealsBatch`: one deal per item of the batch, linked by position to the
      ids the client insert returned. */
  function DealsFor(batch: seq<Item>, rows: seq<IdRow>): (r: seq<Record>)
    ensures |r| == |batch|
  {
    seq(|batch|, idx requires 0 <= idx < |batch| => DealRecord(ImportDeal(batch[idx], IdAt(rows, idx))))
  }

  /** Deal `idx` of a chunk is titled with client `idx`'s name, linked to the
      id at `idx` when there is a usable one, in stage `new` with amount and
      probability 0, and carries item `idx`'s country. */
  lemma DealsForAt(batch: seq<Item>, rows: seq<IdRow>)
    ensures forall idx :: 0 <= idx < |batch| ==>
      DealsFor(batch, rows)[idx] == DealRecord(Deal(batch[idx].client.name, IdAt(rows, idx), "new", 0, 0, batch[idx].country))
  {
  }

  /** Deals are linked by position: when the client insert returned one
      non-zero id per client, deal `idx` belongs to client `idx`, is titled
      with that client's name and carries that item's country. */
  lemma DealsLinkedByPosition(batch: seq<Item>, rows: seq<IdRow>)
    requires |rows| == |batch|
    requires forall idx :: 0 <= idx < |rows| ==> rows[idx].id.Some? && rows[idx].id.value != 0
    ensures forall idx :: 0 <= idx < |batch| ==>
      DealsFor(batch, rows)[idx] == DealRecord(Deal(batch[idx].client.name, rows[idx].id, "new", 0, 0, batch[idx].country))
  {
  }

  /** A deal whose client row is missing, or came back without a usable id,
      is still inserted, without a client. */
  lemma DealsUnlinkedBeyondIds(batch: seq<Item>, rows: seq<IdRow>, idx: nat)
    requires idx < |batch|
    requires idx >= |rows| || rows[idx].id == None || rows[idx].id == Some(0)
    ensures DealsFor(batch, rows)[idx] == DealRecord(Deal(batch[idx].client.name, None, "new", 0, 0, batch[idx].country))
  {
  }

  /** The client loop's state: the two counters, the `errors` list, and the
      inserts sent so far. */
  datatype ClientTally = ClientTally(clients: nat, deals: nat, errors: seq<BatchError>, sent: seq<Insert>)

  /** One iteration of the client loop, on the batch with index `k`
      (reported as batch number `k + 1`). */
  function ClientStep(t: ClientTally, k: nat, batch: seq<Item>, store: Store): ClientTally {
    var request := Insert(Clients, ClientRecords(batch));
    match store(request, |t.sent|)
    case Failed(m) =>
      ClientTally(t.clients, t.deals, t.errors + [ClientBatchFailed(k + 1, m)], t.sent + [request])
    case Inserted(ids) =>
      var dealRequest := Insert(Deals, DealsFor(batch, ids));
      var sent := t.sent + [request, dealRequest];
      match store(dealRequest, |t.sent| + 1)
      case Failed(m) =>
        ClientTally(t.clients + |ids|, t.deals, t.errors + [DealBatchFailed(k + 1, m)], sent)
      case Inserted(dealIds) =>
        ClientTally(t.clients + |ids|, t.deals + |dealIds|, t.errors, sent)
  }

  /** The client loop after its first `k` iterations over `batches`. */
  function ClientRun(batches: seq<seq<Item>>, store: Store, k: nat): ClientTally
    requires k <= |batches|
  {
    if k == 0 then ClientTally(0, 0, [], [])
    else ClientStep(ClientRun(batches, store, k - 1), k - 1, batches[k - 1], store)
  }

  /** The store's answer to the client insert of batch `k`. */
  function ClientReply(batches: seq<seq<Item>>, store: Store, k: nat): Reply
    requires k < |batches|
  {
    store(Insert(Clients, ClientRecords(batches[k])), |ClientRun(batches, store, k).sent|)
  }

  /** The store's answer to the deal insert of batch `k`, which is sent only
      when its client insert succeeded. */
  function DealReply(batches: seq<seq<Item>>, store: Store, k: nat): Reply
    requires k < |batches|
    requires ClientReply(batches, store, k).Inserted?
  {
    var request := Insert(Deals, DealsFor(batches[k], ClientReply(batches, store, k).rows));
    store(request, |ClientRun(batches, store, k).sent| + 1)
  }

  /** The entries one iteration adds to `errors`: none, or one for its batch. */
  function StepErrors(t: ClientTally, k: nat, batch: seq<Item>, store: Store): (e: seq<BatchError>)
    ensures |e| <= 1 && forall i :: 0 <= i < |e| ==> e[i].Batch() == k + 1
  {
    var request := Insert(Clients, ClientRecords(batch));
    match store(request, |t.sent|)
    case Failed(m) => [ClientBatchFailed(k + 1, m)]
    case Inserted(ids) =>
      match store(Insert(Deals, DealsFor(batch, ids)), |t.sent| + 1)
      case Failed(m) => [DealBatchFailed(k + 1, m)]
      case Inserted(_) => []
  }

  /** The client inserts among `sent`, in order. */
  function ClientBatches(sent: seq<Insert>): seq<seq<Record>> {
    if sent == [] then []
    else
      var last := sent[|sent| - 1];
      ClientBatches(sent[..|sent| - 1]) + (if last.table == Clients then [last.records] else [])
  }

  lemma ClientBatchesSnoc(sent: seq<Insert>, extra: seq<Insert>)
    requires 1 <= |extra| <= 2
    requires extra[0].table == Clients
    requires |extra| == 2 ==> extra[1].table != Clients
    ensures ClientBatches(sent + extra) == ClientBatches(sent) + [extra[0].records]
  {
    if |extra| == 1 {
      assert (sent + extra)[..|sent|] == sent;
    } else {
      assert (sent + extra)[..|sent| + 1] == sent + extra[..1];
      assert (sent + extra[..1])[..|sent|] == sent;
    }
  }

  /** An iteration only appends to `errors`. */
  lemma StepErrorsEffect(t: ClientTally, k: nat, batch: seq<Item>, store: Store)
    ensures ClientStep(t, k, batch, store).errors == t.errors + StepErrors(t, k, batch, store)
  {
  }

  /** An iteration sends its batch's clients, whatever the store answers. */
  lemma StepSentEffect(t: ClientTally, k: nat, batch: seq<Item>, store: Store)
    ensures ClientBatches(ClientStep(t, k, batch, store).sent) == ClientBatches(t.sent) + [ClientRecords(batch)]
  {
    var request := Insert(Clients, ClientRecords(batch));
    match store(request, |t.sent|)
    case Failed(m) =>
      ClientBatchesSnoc(t.sent, [request]);
    case Inserted(ids) =>
      ClientBatchesSnoc(t.sent, [request, Insert(Deals, DealsFor(batch, ids))]);
  }

  /** The client inserts of the first `k` batches, in order. */
  function ClientRequests(batches: seq<seq<Item>>, k: nat): (r: seq<seq<Record>>)
    requires k <= |batches|
    ensures |r| == k
  {
    if k == 0 then [] else ClientRequests(batches, k - 1) + [ClientRecords(batches[k - 1])]
  }

  /** Every batch's client insert is sent, in order, whatever the store
      answers: a failed batch does not stop the loop. */
  lemma {:induction false} ClientRunSendsEveryBatch(batches: seq<seq<Item>>, store: Store, k: nat)
    requires k <= |batches|
    ensures ClientBatches(ClientRun(batches, store, k).sent) == ClientRequests(batches, k)
    decreases k
  {
    if k > 0 {
      ClientRunSendsEveryBatch(batches, store, k - 1);
      StepSentEffect(ClientRun(batches, store, k - 1), k - 1, batches[k - 1], store);
    }
  }

  /** Concatenating the client inserts is taking the clients of the
      concatenated batches. */
  lemma {:induction false} FlattenClientRecords(batches: seq<seq<Item>>, k: nat)
    requires k <= |batches|
    ensures Flatten(ClientRequests(batches, k)) == ClientRecords(Flatten(batches[..k]))
    decreases k
  {
    if k > 0 {
      FlattenClientRecords(batches, k - 1);
      FlattenSnoc(ClientRequests(batches, k - 1), ClientRecords(batches[k - 1]));
      FlattenPrefix(batches, k);
      ClientRecordsConcat(Flatten(batches[..k - 1]), batches[k - 1]);
    }
  }

  /** Over the chunks of `items`, the client inserts of the whole loop,
      concatenated, are the clients of every item in order: none is
      dropped, repeated or reordered. */
  lemma ClientRunCoversItems(items: seq<Item>, store: Store)
    ensures var batches := ChunksOf(items, BatchSize);
      Flatten(ClientBatches(ClientRun(batches, store, |batches|).sent)) == ClientRecords(items)
  {
    var batches := ChunksOf(items, BatchSize);
    ClientRunSendsEveryBatch(batches, store, |batches|);
    FlattenClientRecords(batches, |batches|);
    ChunksCover(items, BatchSize);
    assert batches[..|batches|] == batches;
  }

  /** The deal inserts among `sent`, in order. */
  function DealBatches(sent: seq<Insert>): seq<seq<Record>> {
    if sent == [] then []
    else
      var last := sent[|sent| - 1];
      DealBatches(sent[..|sent| - 1]) + (if last.table == Deals then [last.records] else [])
  }

  lemma DealBatchesSnoc(sent: seq<Insert>, extra: seq<Insert>)
    requires 1 <= |extra| <= 2
    requires extra[0].table != Deals
    requires |extra| == 2 ==> extra[1].table == Deals
    ensures DealBatches(sent + extra) == DealBatches(sent) + (if |extra| == 2 then [extra[1].records] else [])
  {
    if |extra| == 1 {
      assert (sent + extra)[..|sent|] == sent;
    } else {
      assert (sent + extra)[..|sent| + 1] == sent + extra[..1];
      assert (sent + extra[..1])[..|sent|] == sent;
    }
  }

  /** The deal insert a batch sends after the store's `reply` to its client
      insert: none after a refusal, else the deals built from the rows. */
  function DealsSent(batch: seq<Item>, reply: Reply): (r: seq<seq<Record>>)
    ensures |r| == if reply.Inserted? then 1 else 0
  {
    if reply.Inserted? then [DealsFor(batch, reply.rows)] else []
  }

  /** An iteration sends a deal insert only when its client insert was
      taken, and then the deals paired by position with the returned rows. */
  lemma StepDealsEffect(t: ClientTally, k: nat, batch: seq<Item>, store: Store)
    ensures DealBatches(ClientStep(t, k, batch, store).sent) ==
      DealBatches(t.sent) + DealsSent(batch, store(Insert(Clients, ClientRecords(batch)), |t.sent|))
  {
    var request := Insert(Clients, ClientRecords(batch));
    match store(request, |t.sent|)
    case Failed(m) =>
      DealBatchesSnoc(t.sent, [request]);
    case Inserted(ids) =>
      DealBatchesSnoc(t.sent, [request, Insert(Deals, DealsFor(batch, ids))]);
  }

  /** The deal inserts of the first `k` batches: for each batch whose clients
      were taken, its deals built from the returned rows; nothing for a
      batch whose clients were refused. */
  function DealRequests(batches: seq<seq<Item>>, store: Store, k: nat): (r: seq<seq<Record>>)
    requires k <= |batches|
    ensures |r| <= k
  {
    if k == 0 then []
    else
      DealRequests(batches, store, k - 1) + DealsSent(batches[k - 1], ClientReply(batches, store, k - 1))
  }

  /** Pass `k` of the loop adds the deal insert of batch `k - 1`, if any, so
      the deal inserts of `k - 1` passes extend to those of `k`. */
  lemma RunDealsStep(batches: seq<seq<Item>>, store: Store, k: nat)
    requires 0 < k <= |batches|
    requires DealBatches(ClientRun(batches, store, k - 1).sent) == DealRequests(batches, store, k - 1)
    ensures DealBatches(ClientRun(batches, store, k).sent) == DealRequests(batches, store, k)
  {
    StepDealsEffect(ClientRun(batches, store, k - 1), k - 1, batches[k - 1], store);
  }

  /** The loop's deal inserts are exactly those of DealRequests: a refused
      chunk sends none, an accepted one sends its deals linked by position. */
  lemma {:induction false} ClientRunSendsDeals(batches: seq<seq<Item>>, store: Store, k: nat)
    requires k <= |batches|
    ensures DealBatches(ClientRun(batches, store, k).sent) == DealRequests(batches, store, k)
    decreases k
  {
    if k > 0 {
      ClientRunSendsDeals(batches, store, k - 1);
      RunDealsStep(batches, store, k);
    }
  }

  /** `errors` ordered by batch number, at most one entry per batch, every
      batch number between 1 and `k`. */
  ghost predicate ErrorsOrdered(e: seq<BatchError>, k: nat) {
    (forall i, j :: 0 <= i < j < |e| ==> e[i].Batch() < e[j].Batch()) &&
    (forall i :: 0 <= i < |e| ==> 1 <= e[i].Batch() <= k)
  }

  /** Appending at most one entry for the next batch keeps `errors` ordered. */
  lemma AppendKeepsOrder(e: seq<BatchError>, extra: seq<BatchError>, k: nat)
    requires ErrorsOrdered(e, k)
    requires |extra| <= 1 && forall i :: 0 <= i < |extra| ==> extra[i].Batch() == k + 1
    ensures ErrorsOrdered(e + extra, k + 1)
  {
    var n := |e|;
    assert forall i :: 0 <= i < n ==> (e + extra)[i] == e[i];
    assert forall i :: n <= i < |e + extra| ==> (e + extra)[i] == extra[i - n];
  }

  /** The `errors` list of the loop is ordered by batch number, has at most
      one entry per batch, and names only batches the loop visited. */
  lemma {:induction false} ClientErrorsOrdered(batches: seq<seq<Item>>, store: Store, k: nat)
    requires k <= |batches|
    ensures ErrorsOrdered(ClientRun(batches, store, k).errors, k)
    decreases k
  {
    if k > 0 {
      ClientErrorsOrdered(batches, store, k - 1);
      var t := ClientRun(batches, store, k - 1);
      StepErrorsEffect(t, k - 1, batches[k - 1], store);
      AppendKeepsOrder(t.errors, StepErrors(t, k - 1, batches[k - 1], store), k - 1);
    }
  }

  /** An iteration on batch `k` leaves the entries of earlier batches as they
      were, and adds a client error for its own batch exactly when the store
      refuses its clients, or a deal error exactly when the store takes the
      clients and refuses the deals. */
  lemma StepErrorEntries(t: ClientTally, k: nat, batch: seq<Item>, store: Store, b: nat, m: string)
    requires ErrorsOrdered(t.errors, k)
    ensures var after := ClientStep(t, k, batch, store).errors;
      var reply := store(Insert(Clients, ClientRecords(batch)), |t.sent|);
      (b <= k ==> (ClientBatchFailed(b, m) in after <==> ClientBatchFailed(b, m) in t.errors)) &&
      (b <= k ==> (DealBatchFailed(b, m) in after <==> DealBatchFailed(b, m) in t.errors)) &&
      (ClientBatchFailed(k + 1, m) in after <==> reply == Failed(m)) &&
      (DealBatchFailed(k + 1, m) in after <==>
        reply.Inserted? && store(Insert(Deals, DealsFor(batch, reply.rows)), |t.sent| + 1) == Failed(m))
  {
    StepErrorsEffect(t, k, batch, store);
    var extra := StepErrors(t, k, batch, store);
    assert ClientBatchFailed(k + 1, m) !in t.errors && DealBatchFailed(k + 1, m) !in t.errors;
    if b <= k {
      assert ClientBatchFailed(b, m) !in extra && DealBatchFailed(b, m) !in extra;
    }
  }

  /** Iteration `k` of the loop, on batch number `k`, in terms of the run:
      entries of earlier batches are kept, and its own client error is
      there exactly when the store refused the batch's clients. */
  lemma RunClientEntries(batches: seq<seq<Item>>, store: Store, k: nat, b: nat, m: string)
    requires 0 < k <= |batches|
    ensures b < k ==> (ClientBatchFailed(b, m) in ClientRun(batches, store, k).errors <==>
                       ClientBatchFailed(b, m) in ClientRun(batches, store, k - 1).errors)
    ensures ClientBatchFailed(k, m) in ClientRun(batches, store, k).errors <==>
      ClientReply(batches, store, k - 1) == Failed(m)
  {
    var t := ClientRun(batches, store, k - 1);
    assert ClientRun(batches, store, k) == ClientStep(t, k - 1, batches[k - 1], store);
    ClientErrorsOrdered(batches, store, k - 1);
    StepErrorEntries(t, k - 1, batches[k - 1], store, b, m);
  }

  /** The same for deal errors: its own deal error is there exactly when the
      store took the batch's clients and refused its deals. */
  lemma RunDealEntries(batches: seq<seq<Item>>, store: Store, k: nat, b: nat, m: string)
    requires 0 < k <= |batches|
    ensures b < k ==> (DealBatchFailed(b, m) in ClientRun(batches, store, k).errors <==>
                       DealBatchFailed(b, m) in ClientRun(batches, store, k - 1).errors)
    ensures DealBatchFailed(k, m) in ClientRun(batches, store, k).errors <==>
      ClientReply(batches, store, k - 1).Inserted? && DealReply(batches, store, k - 1) == Failed(m)
  {
    var t := ClientRun(batches, store, k - 1);
    assert ClientRun(batches, store, k) == ClientStep(t, k - 1, batches[k - 1], store);
    ClientErrorsOrdered(batches, store, k - 1);
    StepErrorEntries(t, k - 1, batches[k - 1], store, b, m);
  }

  /** Batch number `c + 1` has a client error exactly when the store refused
      that batch's clients, and the error carries the store's message. */
  lemma {:induction false} ClientErrorIffRefused(batches: seq<seq<Item>>, store: Store, k: nat, c: nat, m: string)
    requires c < k <= |batches|
    ensures ClientBatchFailed(c + 1, m) in ClientRun(batches, store, k).errors <==>
      ClientReply(batches, store, c) == Failed(m)
    decreases k
  {
    if c == k - 1 {
      RunClientEntries(batches, store, k, k, m);
    } else {
      var now := ClientBatchFailed(c + 1, m) in ClientRun(batches, store, k).errors;
      var before := ClientBatchFailed(c + 1, m) in ClientRun(batches, store, k - 1).errors;
      RunClientEntries(batches, store, k, c + 1, m);
      assert now == before;
      ClientErrorIffRefused(batches, store, k - 1, c, m);
      assert before == (ClientReply(batches, store, c) == Failed(m));
    }
  }

  /** Batch number `c + 1` has a deal error exactly when the store took that
      batch's clients and refused its deals. */
  lemma {:induction false} DealErrorIffRefused(batches: seq<seq<Item>>, store: Store, k: nat, c: nat, m: string)
    requires c < k <= |batches|
    ensures DealBatchFailed(c + 1, m) in ClientRun(batches, store, k).errors <==>
      ClientReply(batches, store, c).Inserted? && DealReply(batches, store, c) == Failed(m)
    decreases k
  {
    if c == k - 1 {
      RunDealEntries(batches, store, k, k, m);
    } else {
      RunDealEntries(batches, store, k, c + 1, m);
      DealErrorIffRefused(batches, store, k - 1, c, m);
    }
  }

  /** The store took both inserts of batch `k`. */
  predicate BatchTaken(batches: seq<seq<Item>>, store: Store, k: nat)
    requires k < |batches|
  {
    ClientReply(batches, store, k).Inserted? && DealReply(batches, store, k).Inserted?
  }

  /** Iteration `k` adds no error exactly when the store took both its inserts. */
  lemma RunStepClean(batches: seq<seq<Item>>, store: Store, k: nat)
    requires 0 < k <= |batches|
    ensures ClientRun(batches, store, k).errors == [] <==>
      ClientRun(batches, store, k - 1).errors == [] &&
      BatchTaken(batches, store, k - 1)
  {
    var t := ClientRun(batches, store, k - 1);
    StepErrorsEffect(t, k - 1, batches[k - 1], store);
  }

  /** The loop reports no error exactly when the store took every client
      insert and every deal insert of the first `k` batches. */
  lemma {:induction false} ClientRunClean(batches: seq<seq<Item>>, store: Store, k: nat)
    requires k <= |batches|
    ensures ClientRun(batches, store, k).errors == [] <==>
      forall c :: 0 <= c < k ==> BatchTaken(batches, store, c)
    decreases k
  {
    if k > 0 {
      ClientRunClean(batches, store, k - 1);
      RunStepClean(batches, store, k);
      if forall c :: 0 <= c < k ==> BatchTaken(batches, store, c) {
        assert forall c :: 0 <= c < k - 1 ==> BatchTaken(batches, store, c);
        assert BatchTaken(batches, store, k - 1);
      }
    }
  }

  /** The client rows the store returned for batch `c`: none when refused. */
  function ClientRows(batches: seq<seq<Item>>, store: Store, c: nat): nat
    requires c < |batches|
  {
    match ClientReply(batches, store, c)
    case Inserted(ids) => |ids|
    case Failed(_) => 0
  }

  /** The deal rows the store returned for batch `c`: none when its clients
      or its deals were refused. */
  function DealRows(batches: seq<seq<Item>>, store: Store, c: nat): nat
    requires c < |batches|
  {
    if ClientReply(batches, store, c).Inserted? && DealReply(batches, store, c).Inserted?
    then |DealReply(batches, store, c).rows| else 0
  }

  /** The client rows returned for the first `k` batches, summed. */
  function ClientsTaken(batches: seq<seq<Item>>, store: Store, k: nat): nat
    requires k <= |batches|
  {
    if k == 0 then 0 else ClientsTaken(batches, store, k - 1) + ClientRows(batches, store, k - 1)
  }

  /** The deal rows returned for the first `k` batches, summed. */
  function DealsTaken(batches: seq<seq<Item>>, store: Store, k: nat): nat
    requires k <= |batches|
  {
    if k == 0 then 0 else DealsTaken(batches, store, k - 1) + DealRows(batches, store, k - 1)
  }

  /** Iteration `k` adds its batch's returned client rows and deal rows to the counters. */
  lemma RunStepCounts(batches: seq<seq<Item>>, store: Store, k: nat)
    requires 0 < k <= |batches|
    ensures ClientRun(batches, store, k).clients == ClientRun(batches, store, k - 1).clients + ClientRows(batches, store, k - 1)
    ensures ClientRun(batches, store, k).deals == ClientRun(batches, store, k - 1).deals + DealRows(batches, store, k - 1)
  {
    var t := ClientRun(batches, store, k - 1);
    assert ClientRun(batches, store, k) == ClientStep(t, k - 1, batches[k - 1], store);
  }

  /** `importedClients` sums the client rows the store returned, whatever
      happened to the deals; `importedDeals` sums the deal rows. */
  lemma {:induction false} ClientRunCounts(batches: seq<seq<Item>>, store: Store, k: nat)
    requires k <= |batches|
    ensures ClientRun(batches, store, k).clients == ClientsTaken(batches, store, k)
    ensures ClientRun(batches, store, k).deals == DealsTaken(batches, store, k)
    decreases k
  {
    if k > 0 {
      ClientRunCounts(batches, store, k - 1);
      RunStepCounts(batches, store, k);
    }
  }

  /** A store that takes every insert and returns one id row per record. */
  ghost predicate Faithful(store: Store) {
    forall request, n :: store(request, n).Inserted? && |store(request, n).rows| == |request.records|
  }

  /** With a faithful store, the loop imports every client and every deal of
      the first `k` batches and reports no error. */
  lemma {:induction false} ClientRunFaithful(batches: seq<seq<Item>>, store: Store, k: nat)
    requires Faithful(store)
    requires k <= |batches|
    ensures var t := ClientRun(batches, store, k);
      t.clients == |Flatten(batches[..k])| && t.deals == |Flatten(batches[..k])| && t.errors == []
    decreases k
  {
    if k > 0 {
      ClientRunFaithful(batches, store, k - 1);
      FlattenPrefix(batches, k);
      var t := ClientRun(batches, store, k - 1);
      var request := Insert(Clients, ClientRecords(batches[k - 1]));
      assert store(request, |t.sent|).Inserted?;
      var ids := store(request, |t.sent|).rows;
      assert store(Insert(Deals, DealsFor(batches[k - 1], ids)), |t.sent| + 1).Inserted?;
    }
  }

  /** Over the chunks of `items`, a faithful store gets every item imported
      as a client and as a deal. */
  lemma ClientImportFaithful(items: seq<Item>, store: Store)
    requires Faithful(store)
    ensures var batches := ChunksOf(items, BatchSize);
      var t := ClientRun(batches, store, |batches|);
      t.clients == |items| && t.deals == |items| && t.errors == []
  {
    var batches := ChunksOf(items, BatchSize);
    ClientRunFaithful(batches, store, |batches|);
    ChunksCover(items, BatchSize);
    assert batches[..|batches|] == batches;
  }

  // ---------------------------------------------------------- aborting loop

  /** The state of a loop that throws on the first failed insert. */
  datatype Progress = Running(inserted: nat, sent: seq<Insert>) | Aborted(message: string, sent: seq<Insert>)

  /** The loop after its first `k` iterations over `batches`, inserting into `table`. */
  function AbortingRun(table: Table, batches: seq<seq<Record>>, store: Store, k: nat): Progress
    requires k <= |batches|
  {
    if k == 0 then Running(0, [])
    else match AbortingRun(table, batches, store, k - 1)
      case Aborted(m, sent) => Aborted(m, sent)
      case Running(n, sent) =>
        var request := Insert(table, batches[k - 1]);
        match store(request, |sent|)
        case Failed(m) => Aborted(m, sent + [request])
        case Inserted(rows) => Running(n + |rows|, sent + [request])
  }

  /** Once aborted, the loop stays aborted with the same message and sends nothing more. */
  lemma {:induction false} AbortedStays(table: Table, batches: seq<seq<Record>>, store: Store, j: nat, k: nat)
    requires j <= k <= |batches|
    requires AbortingRun(table, batches, store, j).Aborted?
    ensures AbortingRun(table, batches, store, k) == AbortingRun(table, batches, store, j)
    decreases k
  {
    if j < k {
      AbortedStays(table, batches, store, j, k - 1);
    }
  }

  /** A refused insert in a running loop is the loop's last: the run ends
      aborted with that insert's message. */
  lemma AbortingRunStops(table: Table, batches: seq<seq<Record>>, store: Store, k: nat, m: string)
    requires k < |batches| && AbortingRun(table, batches, store, k).Running?
    requires store(Insert(table, batches[k]), |AbortingRun(table, batches, store, k).sent|) == Failed(m)
    ensures AbortingRun(table, batches, store, |batches|) ==
      Aborted(m, AbortingRun(table, batches, store, k).sent + [Insert(table, batches[k])])
  {
    AbortedStays(table, batches, store, k + 1, |batches|);
  }

  /** A taken insert in a running loop adds its rows to the count and the loop runs on. */
  lemma AbortingRunContinues(table: Table, batches: seq<seq<Record>>, store: Store, k: nat)
    requires k < |batches| && AbortingRun(table, batches, store, k).Running?
    ensures var p := AbortingRun(table, batches, store, k);
      var request := Insert(table, batches[k]);
      store(request, |p.sent|).Inserted? ==>
        AbortingRun(table, batches, store, k + 1) == Running(p.inserted + |store(request, |p.sent|).rows|, p.sent + [request])
  {
  }

  /** Batch `c` is the `c`-th insert of `p`; a running loop has sent all `k`
      batches, an aborted one at least one and at most `k`. */
  ghost predicate SentInOrder(p: Progress, table: Table, batches: seq<seq<Record>>, k: nat) {
    |p.sent| <= k &&
    (p.Running? ==> |p.sent| == k) &&
    (p.Aborted? ==> |p.sent| > 0) &&
    (forall c :: 0 <= c < |p.sent| && c < |batches| ==> p.sent[c] == Insert(table, batches[c]))
  }

  /** The inserts an aborting loop sends, in order. */
  lemma {:induction false} AbortingRunSends(table: Table, batches: seq<seq<Record>>, store: Store, k: nat)
    requires k <= |batches|
    ensures SentInOrder(AbortingRun(table, batches, store, k), table, batches, k)
    decreases k
  {
    if k > 0 {
      AbortingRunSends(table, batches, store, k - 1);
    }
  }

  /** Every insert of `p` the store took, except a refused last one when `p`
      is aborted. */
  ghost predicate AcceptedBefore(p: Progress, store: Store) {
    forall c :: 0 <= c < |p.sent| && (p.Running? || c < |p.sent| - 1) ==> store(p.sent[c], c).Inserted?
  }

  /** The store took every insert of the loop but a failed last one. */
  lemma {:induction false} AbortingRunAccepted(table: Table, batches: seq<seq<Record>>, store: Store, k: nat)
    requires k <= |batches|
    ensures AcceptedBefore(AbortingRun(table, batches, store, k), store)
    decreases k
  {
    if k > 0 {
      AbortingRunAccepted(table, batches, store, k - 1);
      var p := AbortingRun(table, batches, store, k - 1);
      if p.Running? {
        var sent := p.sent + [Insert(table, batches[k - 1])];
        assert forall c :: 0 <= c < |p.sent| ==> sent[c] == p.sent[c];
      }
    }
  }

  /** An aborted loop reports the message of the insert the store refused,
      its last. */
  lemma {:induction false} AbortingRunRefused(table: Table, batches: seq<seq<Record>>, store: Store, k: nat)
    requires k <= |batches|
    ensures var p := AbortingRun(table, batches, store, k);
      p.Aborted? ==> |p.sent| > 0 && store(p.sent[|p.sent| - 1], |p.sent| - 1) == Failed(p.message)
    decreases k
  {
    if k > 0 {
      AbortingRunRefused(table, batches, store, k - 1);
    }
  }

  /** An aborted run wrote every batch before the one the store refused,
      which is its last insert and whose message it reports. */
  lemma AbortingRunFailsLast(table: Table, batches: seq<seq<Record>>, store: Store)
    ensures var p := AbortingRun(table, batches, store, |batches|);
      p.Aborted? ==>
        p.sent != [] &&
        store(p.sent[|p.sent| - 1], |p.sent| - 1) == Failed(p.message) &&
        forall c :: 0 <= c < |p.sent| - 1 ==> store(p.sent[c], c).Inserted?
  {
    AbortingRunAccepted(table, batches, store, |batches|);
    AbortingRunRefused(table, batches, store, |batches|);
  }

  /** With a faithful store the loop never aborts and counts every record of
      the first `k` batches. */
  lemma {:induction false} AbortingRunFaithful(table: Table, batches: seq<seq<Record>>, store: Store, k: nat)
    requires Faithful(store)
    requires k <= |batches|
    ensures AbortingRun(table, batches, store, k).Running?
    ensures AbortingRun(table, batches, store, k).inserted == |Flatten(batches[..k])|
    decreases k
  {
    if k > 0 {
      AbortingRunFaithful(table, batches, store, k - 1);
      FlattenPrefix(batches, k);
      var sent := AbortingRun(table, batches, store, k - 1).sent;
      assert store(Insert(table, batches[k - 1]), |sent|).Inserted?;
    }
  }

  /** Over the chunks of `records`, a faithful store gets every record inserted. */
  lemma AbortingImportFaithful(table: Table, records: seq<Record>, store: Store)
    requires Faithful(store)
    ensures var batches := ChunksOf(records, BatchSize);
      AbortingRun(table, batches, store, |batches|).Running? &&
      AbortingRun(table, batches, store, |batches|).inserted == |records|
  {
    var batches := ChunksOf(records, BatchSize);
    AbortingRunFaithful(table, batches, store, |batches|);
    ChunksCover(records, BatchSize);
    assert batches[..|batches|] == batches;
  }
}
