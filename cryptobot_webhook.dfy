/** `POST /api/cryptobot-webhook`: the payment provider reports a paid invoice. After the
    signature check, one transaction finds the order by its invoice id and, if it is still
    waiting for payment, takes its stars from the stock and completes it. */
module CryptobotWebhook {
  import opened Wrappers
  import JsText
  import opened Db
  import opened Telegram
  import CryptoBot

  /** `webhookData.payload`: `invoiceId` is `String(invoice_id)`. */
  datatype InvoicePayload = InvoicePayload(invoiceId: string, status: string)

  /** The parsed body: its `update_type` and its `payload` (`None` when absent). */
  datatype WebhookEvent = WebhookEvent(updateType: string, payload: Option<InvoicePayload>)

  /** The request as the handler sees it: the signature header, the raw body, and what
      `JSON.parse` makes of that body (`None` when it throws). */
  datatype Request = Request(signature: Option<string>, bodyText: string, event: Option<WebhookEvent>)

  /** The response: 403 for a bad signature, 200 for an event that is ignored, an invoice
      already handled or a confirmed payment, 500 with the error's message otherwise. */
  datatype Reply = Forbidden | NotPaymentEvent | NotPaid | AlreadyProcessed | Confirmed | ServerError(failure: WebhookFailure) {
    function Code(): int {
      match this
      case Forbidden => 403
      case ServerError(_) => 500
      case _ => 200
    }
  }

  /** Why the handler answered 500. */
  datatype WebhookFailure = Unparsable | NoPayload | TxFailed(cause: Db.Failure)

  datatype Outcome = Outcome(state: State, reply: Reply, notice: Option<Notice>)

  /** The order whose invoice id is `invoiceId` (`findUnique` on the unique column). */
  ghost function OrderWithInvoice(orders: map<string, Order>, invoiceId: string): (id: Option<string>)
    ensures id.Some? ==> id.value in orders && orders[id.value].invoiceId == Some(invoiceId)
    ensures id.None? ==> forall k :: k in orders ==> orders[k].invoiceId != Some(invoiceId)
  {
    if exists k :: k in orders && orders[k].invoiceId == Some(invoiceId) then
      var k :| k in orders && orders[k].invoiceId == Some(invoiceId);
      Some(k)
    else None
  }

  /** The transaction of lines 33-64. Its value is the completed order, or `None` when the
      order had already left WAITING_PAYMENT. On a stock shortage the callback first marks the
      order FAILED and then throws: that write is in `discarded` and is rolled back with the
      rest. A missing stock setting reads as 0; if the order's stars are not positive the
      stock update then throws for want of a row. */
  ghost function ConfirmTx(st: State, invoiceId: string): (tx: Tx<Option<Order>>)
    ensures tx.Rollback? && tx.failure != StockShortAfterPayment ==> tx.discarded == st
    ensures tx.Rollback? && tx.failure == OrderNotFound <==> OrderWithInvoice(st.orders, invoiceId).None?
    ensures tx.Commit? && tx.value.None? ==> tx.state == st
  {
    match OrderWithInvoice(st.orders, invoiceId)
    case None => Rollback(OrderNotFound, st)
    case Some(id) =>
      var order := st.orders[id];
      if order.status != WaitingPayment then Commit(st, None)
      else
        var current := ReadStock(st.settings);
        if current.Some? && current.value < order.stars then
          Rollback(StockShortAfterPayment, st.(orders := st.orders[id := order.(status := Failed)]))
        else if StockKey !in st.settings then Rollback(RecordNotFound, st)
        else
          var done := order.(status := Completed);
          Commit(State(st.settings[StockKey := StockText(Minus(current, order.stars))], st.orders[id := done]), Some(done))
  }

  /** The whole handler. `token` is the provider token the signature is keyed by. */
  ghost function HandleWebhook(st: State, req: Request, token: Option<string>, digests: CryptoBot.Digests): (out: Outcome)
    ensures out.reply == Forbidden <==> !CryptoBot.VerifyWebhookSignature(req.signature, req.bodyText, token, digests)
    ensures out.reply != Confirmed ==> out.state == st && out.notice.None?
    ensures out.reply == Confirmed <==> out.notice.Some?
  {
    if !CryptoBot.VerifyWebhookSignature(req.signature, req.bodyText, token, digests) then Outcome(st, Forbidden, None)
    else
      match req.event
      case None => Outcome(st, ServerError(Unparsable), None)
      case Some(event) =>
        if event.updateType != "invoice_paid" then Outcome(st, NotPaymentEvent, None)
        else
          match event.payload
          case None => Outcome(st, ServerError(NoPayload), None)
          case Some(payload) =>
            if payload.status != "paid" then Outcome(st, NotPaid, None)
            else
              var tx := ConfirmTx(st, payload.invoiceId);
              match tx
              case Rollback(failure, _) => Outcome(Persisted(st, tx), ServerError(TxFailed(failure)), None)
              case Commit(_, None) => Outcome(Persisted(st, tx), AlreadyProcessed, None)
              case Commit(_, Some(order)) => Outcome(Persisted(st, tx), Confirmed, Some(Notice(order, "CryptoBot-Paid")))
  }

  /** A paid-invoice event that passed the signature check, for invoice `invoiceId`. */
  predicate IsPaidEvent(req: Request, token: Option<string>, digests: CryptoBot.Digests, invoiceId: string) {
    && CryptoBot.VerifyWebhookSignature(req.signature, req.bodyText, token, digests)
    && req.event.Some? && req.event.value.updateType == "invoice_paid"
    && req.event.value.payload == Some(InvoicePayload(invoiceId, "paid"))
  }

  /** A confirmed payment: the order with that invoice id moves from WAITING_PAYMENT to
      COMPLETED, its stars leave the stock, nothing else changes, and the operator is told
      about the completed order with payment method "CryptoBot-Paid". */
  lemma {:induction false} ConfirmedPayment(st: State, req: Request, token: Option<string>, digests: CryptoBot.Digests, invoiceId: string)
    requires IsPaidEvent(req, token, digests, invoiceId)
    requires HandleWebhook(st, req, token, digests).reply == Confirmed
    ensures var id := OrderWithInvoice(st.orders, invoiceId);
      var out := HandleWebhook(st, req, token, digests);
      && id.Some? && st.orders[id.value].status == WaitingPayment
      && out.state.orders == st.orders[id.value := st.orders[id.value].(status := Completed)]
      && out.state.settings == st.settings[StockKey := StockText(Minus(ReadStock(st.settings), st.orders[id.value].stars))]
      && out.notice == Some(Notice(st.orders[id.value].(status := Completed), "CryptoBot-Paid"))
  {
  }

  /** Which paid events are confirmed: exactly those whose order is waiting for payment, when
      the stock covers its stars and the stock setting exists. */
  lemma {:induction false} WhenConfirmed(st: State, req: Request, token: Option<string>, digests: CryptoBot.Digests, invoiceId: string)
    requires IsPaidEvent(req, token, digests, invoiceId)
    ensures var id := OrderWithInvoice(st.orders, invoiceId);
      var stock := ReadStock(st.settings);
      HandleWebhook(st, req, token, digests).reply == Confirmed <==>
        && id.Some? && st.orders[id.value].status == WaitingPayment
        && !(stock.Some? && stock.value < st.orders[id.value].stars)
        && StockKey in st.settings
  {
  }

  /** An unknown invoice id is an error (500) that changes nothing. */
  lemma UnknownInvoice(st: State, req: Request, token: Option<string>, digests: CryptoBot.Digests, invoiceId: string)
    requires IsPaidEvent(req, token, digests, invoiceId)
    requires forall k :: k in st.orders ==> st.orders[k].invoiceId != Some(invoiceId)
    ensures HandleWebhook(st, req, token, digests) == Outcome(st, ServerError(TxFailed(OrderNotFound)), None)
  {
  }

  /** An order that has left WAITING_PAYMENT is not touched: the reply is 200 and the operator
      hears nothing. */
  lemma {:induction false} AlreadyHandledInvoice(st: State, req: Request, token: Option<string>, digests: CryptoBot.Digests, invoiceId: string)
    requires IsPaidEvent(req, token, digests, invoiceId)
    requires OrderWithInvoice(st.orders, invoiceId).Some?
    requires st.orders[OrderWithInvoice(st.orders, invoiceId).value].status != WaitingPayment
    ensures HandleWebhook(st, req, token, digests) == Outcome(st, AlreadyProcessed, None)
  {
  }

  /** A stock shortage after payment: the transaction marks the order FAILED and throws, so the
      reply is 500 and, the write being rolled back, the order keeps WAITING_PAYMENT and the
      stock is unchanged. */
  lemma {:induction false} ShortageRollsBackFailedStatus(st: State, req: Request, token: Option<string>, digests: CryptoBot.Digests, invoiceId: string)
    requires IsPaidEvent(req, token, digests, invoiceId)
    requires OrderWithInvoice(st.orders, invoiceId).Some?
    requires var order := st.orders[OrderWithInvoice(st.orders, invoiceId).value];
      order.status == WaitingPayment && ReadStock(st.settings).Some? && ReadStock(st.settings).value < order.stars
    ensures var id := OrderWithInvoice(st.orders, invoiceId).value;
      var tx := ConfirmTx(st, invoiceId);
      && tx == Rollback(StockShortAfterPayment, tx.discarded)
      && tx.discarded.orders[id].status == Failed
      && Persisted(st, tx) == st
      && HandleWebhook(st, req, token, digests) == Outcome(st, ServerError(TxFailed(StockShortAfterPayment)), None)
  {
  }

  /** The payment transaction is all or nothing: the tables change exactly when it commits
      a completed order, and then only that order's status and the stock change. A shortage
      rollback drops its FAILED write along with the rest. */
  lemma ConfirmIsAllOrNothing(st: State, invoiceId: string)
    ensures var tx := ConfirmTx(st, invoiceId);
      && (Persisted(st, tx) == st <==> !(tx.Commit? && tx.value.Some?))
      && (tx.Commit? && tx.value.Some? ==>
        var id := OrderWithInvoice(st.orders, invoiceId).value;
        && st.orders[id].status == WaitingPayment
        && Persisted(st, tx).orders == st.orders[id := st.orders[id].(status := Completed)]
        && Persisted(st, tx).settings == st.settings[StockKey := StockText(Minus(ReadStock(st.settings), st.orders[id].stars))])
  {
    var tx := ConfirmTx(st, invoiceId);
    if tx.Commit? && tx.value.Some? {
      var id := OrderWithInvoice(st.orders, invoiceId).value;
      assert Persisted(st, tx).orders[id].status == Completed;
    }
  }

  /** Replaying a request changes nothing more: the second run finds the order already
      completed (or fails as the first did), so the stock is decremented at most once per
      invoice and the operator is notified at most once. */
  lemma {:induction false} ReplayIsHarmless(st: State, req: Request, token: Option<string>, digests: CryptoBot.Digests)
    requires WellFormed(st)
    ensures var first := HandleWebhook(st, req, token, digests);
      var second := HandleWebhook(first.state, req, token, digests);
      && second.state == first.state
      && second.notice.None?
  {
    var first := HandleWebhook(st, req, token, digests);
    if first.reply == Confirmed {
      var invoiceId := req.event.value.payload.value.invoiceId;
      var id := OrderWithInvoice(st.orders, invoiceId).value;
      var after := first.state;
      assert after.orders[id].invoiceId == Some(invoiceId);
      UniqueInvoice(after, id, invoiceId);
      assert after.orders[id].status == Completed;
    }
  }

  /** A confirmed payment keeps the tables well formed. */
  lemma {:induction false} WebhookKeepsWellFormed(st: State, req: Request, token: Option<string>, digests: CryptoBot.Digests)
    requires WellFormed(st)
    ensures WellFormed(HandleWebhook(st, req, token, digests).state)
  {
    var out := HandleWebhook(st, req, token, digests);
    if out.reply == Confirmed {
      var invoiceId := req.event.value.payload.value.invoiceId;
      var id := OrderWithInvoice(st.orders, invoiceId).value;
      assert out.state.orders == st.orders[id := st.orders[id].(status := Completed)];
    }
  }

  /** In well-formed tables the invoice lookup finds the one order carrying that invoice id. */
  lemma UniqueInvoice(st: State, id: string, invoiceId: string)
    requires WellFormed(st) && id in st.orders && st.orders[id].invoiceId == Some(invoiceId)
    ensures OrderWithInvoice(st.orders, invoiceId) == Some(id)
  {
  }

  /** The stock never goes negative through this handler. */
  lemma {:induction false} WebhookStockStaysNonNegative(st: State, req: Request, token: Option<string>, digests: CryptoBot.Digests)
    requires ReadStock(st.settings).Some? && ReadStock(st.settings).value >= 0
    ensures var after := ReadStock(HandleWebhook(st, req, token, digests).state.settings);
      after.Some? && after.value >= 0
  {
    var out := HandleWebhook(st, req, token, digests);
    if out.reply == Confirmed {
      var invoiceId := req.event.value.payload.value.invoiceId;
      assert IsPaidEvent(req, token, digests, invoiceId);
      ConfirmedPayment(st, req, token, digests, invoiceId);
      var id := OrderWithInvoice(st.orders, invoiceId).value;
      ReadWrittenStock(st.settings, Minus(ReadStock(st.settings), st.orders[id].stars));
    }
  }

  /** The handler run against the shared store. The transaction works on copies of the two
      tables; the FAILED write is made on the copy and is lost when the callback throws. */
  method Post(store: Store, req: Request, token: Option<string>, digests: CryptoBot.Digests) returns (reply: Reply, notice: Option<Notice>)
    requires store.Valid()
    modifies store
    ensures store.Valid()
    ensures Outcome(store.Snapshot(), reply, notice) == HandleWebhook(old(store.Snapshot()), req, token, digests)
  {
    WebhookKeepsWellFormed(store.Snapshot(), req, token, digests);
    if !CryptoBot.VerifyWebhookSignature(req.signature, req.bodyText, token, digests) {
      return Forbidden, None;
    }
    if req.event.None? {
      return ServerError(Unparsable), None;
    }
    var event := req.event.value;
    if event.updateType != "invoice_paid" {
      return NotPaymentEvent, None;
    }
    if event.payload.None? {
      return ServerError(NoPayload), None;
    }
    var payload := event.payload.value;
    if payload.status != "paid" {
      return NotPaid, None;
    }
    // The transaction: reads and writes go to local copies of the tables.
    var settings, orders := store.settings, store.orders;
    if !exists k :: k in orders && orders[k].invoiceId == Some(payload.invoiceId) {
      return ServerError(TxFailed(OrderNotFound)), None;
    }
    var id :| id in orders && orders[id].invoiceId == Some(payload.invoiceId);
    UniqueInvoice(store.Snapshot(), id, payload.invoiceId);
    var order := orders[id];
    if order.status != WaitingPayment {
      return AlreadyProcessed, None;
    }
    var current := ReadStock(settings);
    if current.Some? && current.value < order.stars {
      orders := orders[id := order.(status := Failed)];
      // The callback throws here: the copies, FAILED status included, are discarded.
      return ServerError(TxFailed(StockShortAfterPayment)), None;
    }
    if StockKey !in settings {
      return ServerError(TxFailed(RecordNotFound)), None;
    }
    settings := settings[StockKey := StockText(Minus(current, order.stars))];
    var done := order.(status := Completed);
    orders := orders[id := done];
    // Commit.
    store.settings, store.orders := settings, orders;
    reply, notice := Confirmed, Some(Notice(done, "CryptoBot-Paid"));
  }
}
