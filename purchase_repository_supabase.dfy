/** The local logic of the database-backed purchase repository: the row
    mapper, the rows `createMany` inserts and how query results become
    return values or errors. A query's `{ data, error }` reply is an input. */
module PurchaseRepositorySupabase {
  import opened Wrappers

  /** A row of the `purchases` table. */
  datatype PurchaseRow = PurchaseRow(
    id: string,
    created_at: string,
    buyer_id: string,
    prompt_id: string,
    payment_order_id: string)

  /** A purchase as the application sees it. */
  datatype Purchase = Purchase(
    id: string,
    createdAt: string,
    buyerId: string,
    promptId: string,
    paymentOrderId: string)

  /** A row as `createMany` sends it; the database fills `id` and `created_at`. */
  datatype NewPurchaseRow = NewPurchaseRow(buyer_id: string, prompt_id: string, payment_order_id: string)

  /** The `{ data, error }` reply of a query; `error` is the error's message. */
  datatype Reply<T> = Reply(data: Option<T>, error: Option<string>)

  /** `mapRow(row)`: a one-to-one renaming of the five columns. */
  function MapRow(row: PurchaseRow): (p: Purchase)
    ensures p.id == row.id && p.createdAt == row.created_at
    ensures p.buyerId == row.buyer_id && p.promptId == row.prompt_id
    ensures p.paymentOrderId == row.payment_order_id
  {
    Purchase(row.id, row.created_at, row.buyer_id, row.prompt_id, row.payment_order_id)
  }

  /** Distinct rows map to distinct purchases. */
  lemma MapRowInjective(a: PurchaseRow, b: PurchaseRow)
    requires MapRow(a) == MapRow(b)
    ensures a == b
  {
  }

  /** `(data || []).map(mapRow)`. */
  function MapRows(data: Option<seq<PurchaseRow>>): (r: seq<Purchase>)
    ensures data.None? ==> r == []
    ensures data.Some? ==> |r| == |data.value|
    ensures data.Some? ==> forall i :: 0 <= i < |r| ==> r[i] == MapRow(data.value[i])
  {
    var rows := data.GetOr([]);
    seq(|rows|, i requires 0 <= i < |rows| => MapRow(rows[i]))
  }

  /** The rows `createMany` sends: one per listing id, in order, each with
      the buyer and the payment order. */
  function InsertRows(buyerId: string, promptIds: seq<string>, paymentOrderId: string): (rows: seq<NewPurchaseRow>)
    ensures |rows| == |promptIds|
    ensures forall i :: 0 <= i < |rows| ==>
              rows[i].prompt_id == promptIds[i] && rows[i].buyer_id == buyerId &&
              rows[i].payment_order_id == paymentOrderId
  {
    seq(|promptIds|, i requires 0 <= i < |promptIds| => NewPurchaseRow(buyerId, promptIds[i], paymentOrderId))
  }

  /** `createMany(buyerId, promptIds, paymentOrderId)`, where `insert` is the
      database's answer to an insert of the given rows. With no ids the
      answer is `[]` whatever the database would say, since nothing is sent;
      an error reply is a failure, never a partial result. */
  function CreateMany(buyerId: string, promptIds: seq<string>, paymentOrderId: string,
                      insert: seq<NewPurchaseRow> -> Reply<seq<PurchaseRow>>): (r: Result<seq<Purchase>>)
    ensures |promptIds| == 0 ==> r == Success([])
    ensures |promptIds| > 0 ==>
              var reply := insert(InsertRows(buyerId, promptIds, paymentOrderId));
              (reply.error.Some? ==> r == Failure("Failed to create purchases: " + reply.error.value)) &&
              (reply.error.None? ==> r == Success(MapRows(reply.data)))
  {
    if |promptIds| == 0 then Success([])
    else
      var reply := insert(InsertRows(buyerId, promptIds, paymentOrderId));
      if reply.error.Some? then Failure("Failed to create purchases: " + reply.error.value)
      else Success(MapRows(reply.data))
  }

  /** `hasPurchased`: an error reply is a failure; otherwise the answer is
      whether at least one row came back. */
  function HasPurchased(reply: Reply<seq<string>>): (r: Result<bool>)
    ensures reply.error.Some? <==> r.Failure?
    ensures r.Success? ==> (r.value <==> reply.data.Some? && |reply.data.value| > 0)
  {
    if reply.error.Some? then Failure("Failed to check purchase: " + reply.error.value)
    else Success(reply.data.Some? && |reply.data.value| > 0)
  }
}
