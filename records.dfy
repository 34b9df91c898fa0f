/**
 * The records the import routes build and the record store they write to.
 * The store is an oracle: the model proves nothing about it, and each
 * insert's answer may be anything, including a row count that differs
 * from the number of records sent.
 */
module Records {
  import opened Wrappers

  /** A client row as `rowToItem` builds it. */
  datatype Client = Client(
    name: string,
    phone: Option<string>,
    company: Option<string>,
    email: Option<string>,
    status: string)

  /** One normalised client-sheet row: the client and the country its deal gets. */
  datatype Item = Item(client: Client, country: string)

  /** A deal row as the import routes build it. */
  datatype Deal = Deal(
    title: string,
    clientId: Option<int>,
    stage: string,
    amount: int,
    probability: int,
    country: string)

  /** A lead-account row as `rowToInstagram` builds it. */
  datatype Account = Account(
    username: string,
    userLink: Option<string>,
    fullName: Option<string>,
    isPrivate: bool,
    isVerified: bool)

  datatype Table = Clients | Deals | InstagramAccounts

  datatype Record = ClientRecord(client: Client) | DealRecord(deal: Deal) | AccountRecord(account: Account)

  /** `supabase.from(table).insert(records).select('id')`. */
  datatype Insert = Insert(table: Table, records: seq<Record>)

  /** One row of `select('id')`; `None` stands for a row without a usable id. */
  datatype IdRow = IdRow(id: Option<int>)

  /** The store's answer: `{ error }` or `{ data }`. A `data` of `null`
      behaves exactly like `[]` in every use the routes make of it. */
  datatype Reply = Failed(message: string) | Inserted(rows: seq<IdRow>)

  /** The record store: the answer to an insert, given the insert and how
      many inserts the same request has issued before it. */
  type Store = (Insert, nat) -> Reply

  /** One entry of the client import's `errors` list. */
  datatype BatchError =
    | ClientBatchFailed(batch: nat, message: string)   // { batch, message }
    | DealBatchFailed(batch: nat, deals: string)       // { batch, deals }
  {
    function Batch(): nat {
      match this
      case ClientBatchFailed(b, _) => b
      case DealBatchFailed(b, _) => b
    }
  }

  /** The HTTP answer of an import route. */
  datatype Response =
    | BadRequest(error: string, importedZero: bool)     // 400; `imported: 0` when importedZero
    | ServerError(error: string, hint: Option<string>)                          // 500
    | ClientsImported(imported: nat, importedClients: nat, importedDeals: nat,
                      total: nat, errors: Option<seq<BatchError>>)
    | AccountsImported(imported: nat, total: nat)
    | NoDealsCreated(message: string)                                           // created: 0
    | DealsCreated(created: nat, total: nat)

  /** What a route answered, with the inserts it sent on the way. */
  datatype Outcome = Outcome(response: Response, sent: seq<Insert>)
}
