/** `POST /api/complete-order`: the admin panel marks an order COMPLETED, whatever its status. */
module CompleteOrderRoute {
  import opened Wrappers
  import JsText
  import opened Db

  /** The parsed body `{ orderId }`; `orderId` is `None` when it is absent. */
  datatype Request = Request(orderId: Option<string>)

  datatype Reply =
    | Done             // { success: true }
    | OrderIdRequired  // "orderId required"
    | UpdateFailed     // "Ошибка при обновлении статуса."
  {
    function Code(): int {
      match this
      case Done => 200
      case OrderIdRequired => 400
      case UpdateFailed => 500
    }
  }

  datatype Outcome = Outcome(state: State, reply: Reply)

  /** The handler. `body` is `None` when the body is not JSON or is `null`, so the
      destructuring throws (500). A falsy `orderId` is refused with 400; an id with no order
      makes `update` throw (500); otherwise that order's status becomes COMPLETED. */
  function CompleteOrder(st: State, body: Option<Request>): (out: Outcome)
    ensures out.reply == OrderIdRequired <==> body.Some? && !JsText.IsTruthy(body.value.orderId)
    ensures out.reply == Done <==> body.Some? && JsText.IsTruthy(body.value.orderId) && body.value.orderId.value in st.orders
    ensures out.reply != Done ==> out.state == st
    ensures out.reply == Done ==>
      var id := body.value.orderId.value;
      && out.state.settings == st.settings
      && out.state.orders.Keys == st.orders.Keys
      && out.state.orders[id] == st.orders[id].(status := Completed)
      && (forall k :: k in st.orders && k != id ==> out.state.orders[k] == st.orders[k])
  {
    if body.None? then Outcome(st, UpdateFailed)
    else if !JsText.IsTruthy(body.value.orderId) then Outcome(st, OrderIdRequired)
    else
      match SetStatus(st.orders, body.value.orderId.value, Completed)
      case None => Outcome(st, UpdateFailed)
      case Some(orders) => Outcome(st.(orders := orders), Done)
  }

  /** Completing an order twice is the same as completing it once. */
  lemma CompleteOrderIdempotent(st: State, body: Option<Request>)
    ensures var once := CompleteOrder(st, body);
      CompleteOrder(once.state, body) == once
  {
    var once := CompleteOrder(st, body);
    if once.reply == Done {
      var id := body.value.orderId.value;
      assert once.state.orders[id := once.state.orders[id].(status := Completed)] == once.state.orders;
    }
  }

  /** Unlike the Telegram button, the route completes an order in any status: FAILED and
      WAITING_PAYMENT orders included. */
  lemma AnyStatusCompletes(st: State, id: string)
    requires id != "" && id in st.orders
    ensures var out := CompleteOrder(st, Some(Request(Some(id))));
      out.reply == Done && out.state.orders[id].status == Completed
  {
  }

  /** The stock and the well-formedness of the tables are kept. */
  lemma CompleteOrderKeepsWellFormed(st: State, body: Option<Request>)
    requires WellFormed(st)
    ensures WellFormed(CompleteOrder(st, body).state)
    ensures ReadStock(CompleteOrder(st, body).state.settings) == ReadStock(st.settings)
  {
    var after := CompleteOrder(st, body).state;
    forall k | k in after.orders
      ensures after.orders[k].id == k && after.orders[k].invoiceId == st.orders[k].invoiceId
    {
    }
  }

  /** The handler on the shared store: one in-place status write. */
  method Post(store: Store, body: Option<Request>) returns (reply: Reply)
    requires store.Valid()
    modifies store
    ensures store.Valid()
    ensures Outcome(store.Snapshot(), reply) == CompleteOrder(old(store.Snapshot()), body)
  {
    CompleteOrderKeepsWellFormed(store.Snapshot(), body);
    if body.None? {
      return UpdateFailed;
    }
    if !JsText.IsTruthy(body.value.orderId) {
      return OrderIdRequired;
    }
    var id := body.value.orderId.value;
    if id !in store.orders {
      return UpdateFailed;
    }
    store.orders := store.orders[id := store.orders[id].(status := Completed)];
    reply := Done;
  }
}
