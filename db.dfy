/** The storefront's persisted state: the settings table (key -> value strings), the orders
    table, the stock counter kept in the `totalStars` setting, and the ORM's all-or-nothing
    interactive transactions. */
module Db {
  import opened Wrappers
  import JsText

  /** The values of `Order.status`. */
  datatype Status = Pending | WaitingPayment | Paid | Completed | Failed

  /** One row of the orders table. `stars` and `price` are set when the row is created; only
      `status` changes afterwards. */
  datatype Order = Order(
    id: string,
    telegramUsername: string,
    telegramName: string,
    telegramAvatarUrl: string,
    stars: int,
    price: real,
    status: Status,
    invoiceId: Option<string>)

  /** Both tables: settings by key, orders by id. */
  datatype State = State(settings: map<string, string>, orders: map<string, Order>)

  /** Every order is filed under its own id, and no two orders share an invoice id (the
      column is unique, which is what lets the payment webhook look an order up by it). */
  ghost predicate WellFormed(st: State) {
    && (forall id :: id in st.orders ==> st.orders[id].id == id)
    && (forall a, b ::
          (a in st.orders && b in st.orders && st.orders[a].invoiceId.Some?
           && st.orders[a].invoiceId == st.orders[b].invoiceId) ==> a == b)
  }

  /** The settings key that holds the number of stars still for sale. */
  const StockKey := "totalStars"

  /** `parseInt(setting?.value || "0")`: the stock as the order and webhook transactions read
      it. A missing or empty setting reads as 0; `None` is NaN (a value that is not a number). */
  function ReadStock(settings: map<string, string>): (stock: Option<int>)
    ensures StockKey !in settings ==> stock == Some(0)
  {
    var text := if StockKey in settings && settings[StockKey] != "" then settings[StockKey] else "0";
    assert JsText.IntToString(0) == "0";
    JsText.ParseIntOfIntToString(0);
    JsText.ParseInt(text)
  }

  /** `String(newTotalStars)`: the decimal text of the new stock, or "NaN". */
  function StockText(stock: Option<int>): string {
    match stock
    case None => "NaN"
    case Some(n) => JsText.IntToString(n)
  }

  /** `currentTotalStars - stars` on JavaScript numbers: NaN stays NaN. */
  function Minus(stock: Option<int>, stars: int): Option<int> {
    match stock
    case None => None
    case Some(n) => Some(n - stars)
  }

  /** The text "NaN" reads back as NaN. */
  lemma NaNReadsAsNaN()
    ensures JsText.ParseInt("NaN") == None
  {
    var nan := "NaN";
    assert nan[0] == 'N';
    JsText.ParseIntOfNonNumeric(nan);
  }

  /** Writing a stock value and reading it back gives the same value. */
  lemma {:induction false} ReadWrittenStock(settings: map<string, string>, stock: Option<int>)
    ensures ReadStock(settings[StockKey := StockText(stock)]) == stock
  {
    var text := StockText(stock);
    var written := settings[StockKey := text];
    assert StockKey in written && written[StockKey] == text;
    match stock
    case None =>
      NaNReadsAsNaN();
    case Some(n) =>
      assert |text| >= 1;
      JsText.ParseIntOfIntToString(n);
  }

  /** Adding an order under its own, new id and without an invoice id keeps the tables well
      formed, whatever the settings become. */
  lemma AddOrderKeepsWellFormed(st: State, order: Order, settings: map<string, string>)
    requires WellFormed(st) && order.id !in st.orders && order.invoiceId.None?
    ensures WellFormed(State(settings, st.orders[order.id := order]))
  {
  }

  /** Reading the stock back after `stars` were taken from a stock read as `stock`. */
  lemma ReadDecremented(settings: map<string, string>, stars: int, stock: int, after: map<string, string>)
    requires ReadStock(settings) == Some(stock)
    requires after == settings[StockKey := StockText(Minus(ReadStock(settings), stars))]
    ensures ReadStock(after) == Some(stock - stars)
  {
    ReadWrittenStock(settings, Some(stock - stars));
  }

  /** `prisma.order.update({ where: { id }, data: { status } })`: `None` when no order has that
      id (the ORM throws); otherwise only that order's status changes. */
  function SetStatus(orders: map<string, Order>, id: string, status: Status): (r: Option<map<string, Order>>)
    ensures r.None? <==> id !in orders
    ensures r.Some? ==> r.value.Keys == orders.Keys && r.value[id] == orders[id].(status := status)
    ensures r.Some? ==> forall k :: k in orders && k != id ==> r.value[k] == orders[k]
  {
    if id in orders then Some(orders[id := orders[id].(status := status)]) else None
  }

  /** Why a transaction or an ORM call threw. */
  datatype Failure =
    | RecordNotFound          // `update` found no row to change
    | InsufficientStars       // "Недостаточно звёзд для покупки."
    | OrderNotFound           // "Order not found for invoice_id: ..."
    | StockShortAfterPayment  // "Insufficient stock after payment."
    | NullValue               // a required column was given `null`

  /** The outcome of one `$transaction`: either every write it made is committed, or its
      callback threw and every write it had made, kept here as `discarded`, is rolled back. */
  datatype Tx<T> = Commit(state: State, value: T) | Rollback(failure: Failure, discarded: State)

  /** The state after the transaction: its writes when it committed, the old state when it
      rolled back. */
  function Persisted<T>(before: State, tx: Tx<T>): (after: State)
    ensures tx.Rollback? ==> after == before
    ensures tx.Commit? ==> after == tx.state
  {
    match tx
    case Commit(st, _) => st
    case Rollback(_, _) => before
  }

  /** The database the route handlers share. Its fields are the two tables; a handler's
      transaction works on copies of them and assigns them back only when it commits. */
  class Store {
    var settings: map<string, string>
    var orders: map<string, Order>

    function Snapshot(): State
      reads this
    {
      State(settings, orders)
    }

    ghost predicate Valid()
      reads this
    {
      WellFormed(Snapshot())
    }

    /** A store seeded with existing rows. Orders waiting for or holding a crypto payment, and
        invoice ids, enter the model only this way: the code that creates them is not part of
        this model. */
    constructor (seed: State)
      requires WellFormed(seed)
      ensures Snapshot() == seed && Valid()
    {
      settings := seed.settings;
      orders := seed.orders;
    }
  }
}
