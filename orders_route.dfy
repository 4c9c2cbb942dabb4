/** `POST /api/orders`: a buyer orders stars to be paid manually. The request is validated, then
    one transaction checks the stock, writes the decremented stock and creates a PENDING order;
    the operator is notified only after that transaction has committed. */
module OrdersRoute {
  import opened Wrappers
  import JsText
  import opened Db
  import opened Telegram

  /** `tier`: the chosen package. A field is `None` when it is missing or not a string, in which
      case calling `replace` on it throws. */
  datatype Tier = Tier(stars: Option<string>, price: Option<string>)

  datatype TelegramUser = TelegramUser(username: string, name: string, avatarUrl: string)

  /** The JSON body. `tier` and `telegramUser` are `None` when missing (or otherwise falsy);
      a missing `paymentMethod` is the empty string, which is just as falsy. */
  datatype OrderRequest = OrderRequest(tier: Option<Tier>, telegramUser: Option<TelegramUser>, paymentMethod: string)

  /** The response: 200 with the new order's id, 400 for a missing field or an unreadable
      tier, 409 when the stock is short, 500 for anything that threw. */
  datatype Reply = Created(orderId: string) | MissingFields | InvalidTier | SoldOut | ServerError {
    function Code(): int {
      match this
      case Created(_) => 200
      case MissingFields => 400
      case InvalidTier => 400
      case SoldOut => 409
      case ServerError => 500
    }
  }

  /** What one request does: the state afterwards, the reply, and the notification sent. */
  datatype Outcome = Outcome(state: State, reply: Reply, notice: Option<Notice>)

  /** `!tier || !telegramUser || !paymentMethod`. */
  predicate IsMissingFields(req: OrderRequest) {
    req.tier.None? || req.telegramUser.None? || req.paymentMethod == ""
  }

  /** `parseInt(stars.replace(/\s/g, ""))`: white space anywhere is ignored, so "1 000" is
      1000; `None` is NaN. */
  function Quantity(stars: string): Option<int> {
    JsText.ParseInt(JsText.RemoveWhiteSpace(stars))
  }

  /** `parseFloat(price.replace(/[^\d.]/g, ""))`: every character other than a digit or a dot
      is deleted first, so "1 500 ₽" is 1500 and no price is negative; `None` is NaN. */
  function Price(price: string): (r: Option<real>)
    ensures r.Some? ==> r.value >= 0.0
    ensures r.None? <==> JsText.ParseFloat(JsText.KeepDigitsAndDots(price)).NaN?
    ensures r.Some? ==> JsText.ParseFloat(JsText.KeepDigitsAndDots(price)) == JsText.Finite(r.value)
  {
    var kept := JsText.KeepDigitsAndDots(price);
    JsText.DigitsAndDotsParse(kept);
    match JsText.ParseFloat(kept)
    case Finite(v) => Some(v)
    case NaN => None
    case Infinity(_) => assert false; None
  }

  /** A request that passed validation: the parsed quantity and price, the buyer and the
      payment method. The quantity may be zero or negative: nothing checks its sign. */
  datatype Purchase = Purchase(stars: int, price: real, user: TelegramUser, paymentMethod: string)

  /** Lines 9-27 of the handler: the purchase a body asks for, or the reply that refuses it
      before any database access (500 for a body that is not an object or a tier field that is
      not a string). */
  function Validate(body: Option<OrderRequest>): (v: Validation)
    ensures v == Refused(MissingFields) <==> body.Some? && IsMissingFields(body.value)
    ensures v.Accepted? <==> (body.Some? && !IsMissingFields(body.value)
      && body.value.tier.value.stars.Some? && body.value.tier.value.price.Some?
      && Quantity(body.value.tier.value.stars.value).Some? && Price(body.value.tier.value.price.value).Some?)
    ensures v.Accepted? ==> v.purchase == Purchase(
      Quantity(body.value.tier.value.stars.value).value, Price(body.value.tier.value.price.value).value,
      body.value.telegramUser.value, body.value.paymentMethod)
    ensures v.Refused? ==> v.reply in {MissingFields, InvalidTier, ServerError}
  {
    match body
    case None => Refused(ServerError)
    case Some(req) =>
      if IsMissingFields(req) then Refused(MissingFields)
      else if req.tier.value.stars.None? || req.tier.value.price.None? then Refused(ServerError)
      else
        var stars := Quantity(req.tier.value.stars.value);
        var price := Price(req.tier.value.price.value);
        if stars.None? || price.None? then Refused(InvalidTier)
        else Accepted(Purchase(stars.value, price.value, req.telegramUser.value, req.paymentMethod))
  }

  datatype Validation = Accepted(purchase: Purchase) | Refused(reply: Reply)

  /** The transaction of lines 30-62: read the stock, throw when it is short, write the new
      stock (the update throws when the setting row does not exist), create the order. */
  function CreateOrderTx(st: State, p: Purchase, newId: string): (tx: Tx<Order>)
    ensures tx.Rollback? ==> tx.discarded == st
    ensures tx.Rollback? && tx.failure == InsufficientStars <==>
      ReadStock(st.settings).Some? && ReadStock(st.settings).value < p.stars
    ensures tx.Commit? ==> tx.value == Order(newId, p.user.username, p.user.name, p.user.avatarUrl, p.stars, p.price, Pending, None)
    ensures tx.Commit? ==> tx.state == State(
      st.settings[StockKey := StockText(Minus(ReadStock(st.settings), p.stars))],
      st.orders[newId := tx.value])
  {
    var current := ReadStock(st.settings);
    if current.Some? && current.value < p.stars then Rollback(InsufficientStars, st)
    else if StockKey !in st.settings then Rollback(RecordNotFound, st)
    else
      var settings := st.settings[StockKey := StockText(Minus(current, p.stars))];
      var order := Order(newId, p.user.username, p.user.name, p.user.avatarUrl, p.stars, p.price, Pending, None);
      Commit(State(settings, st.orders[newId := order]), order)
  }

  /** Lines 30-81 of the handler, once validation has produced `v`: run the transaction and
      turn its outcome into the reply. */
  function Decide(st: State, v: Validation, newId: string): (out: Outcome)
    requires newId !in st.orders
    requires v.Refused? ==> v.reply in {MissingFields, InvalidTier, ServerError}
    ensures out.reply.Created? <==> out.notice.Some?
    ensures !out.reply.Created? ==> out.state == st
    ensures v.Refused? ==> out.reply == v.reply
    ensures out.reply == SoldOut <==> (v.Accepted?
      && ReadStock(st.settings).Some? && ReadStock(st.settings).value < v.purchase.stars)
    ensures out.reply.Created? ==> v.Accepted? && StockKey in st.settings
    ensures out.reply.Created? ==>
      var order := Order(newId, v.purchase.user.username, v.purchase.user.name, v.purchase.user.avatarUrl,
        v.purchase.stars, v.purchase.price, Pending, None);
      && out.reply.orderId == newId
      && out.notice == Some(Notice(order, v.purchase.paymentMethod))
      && out.state.orders == st.orders[newId := order]
      && out.state.settings == st.settings[StockKey := StockText(Minus(ReadStock(st.settings), v.purchase.stars))]
    ensures v.Accepted? && StockKey in st.settings && !(ReadStock(st.settings).Some? && ReadStock(st.settings).value < v.purchase.stars)
      ==> out.reply.Created?
  {
    match v
    case Refused(reply) => Outcome(st, reply, None)
    case Accepted(p) =>
      var tx := CreateOrderTx(st, p, newId);
      match tx
      case Commit(_, order) => Outcome(Persisted(st, tx), Created(newId), Some(Notice(order, p.paymentMethod)))
      case Rollback(failure, _) => Outcome(Persisted(st, tx), if failure == InsufficientStars then SoldOut else ServerError, None)
  }

  /** The order transaction is all or nothing: the tables change exactly when it commits, and
      a commit leaves the stock decremented and the new order in place. */
  lemma CreateOrderIsAllOrNothing(st: State, p: Purchase, newId: string)
    requires newId !in st.orders
    ensures var tx := CreateOrderTx(st, p, newId);
      && (Persisted(st, tx) == st <==> tx.Rollback?)
      && (tx.Commit? ==>
        && newId in Persisted(st, tx).orders
        && StockKey in st.settings
        && Persisted(st, tx).settings[StockKey] == StockText(Minus(ReadStock(st.settings), p.stars)))
  {
    var tx := CreateOrderTx(st, p, newId);
    if tx.Commit? {
      assert newId in Persisted(st, tx).orders;
    }
  }

  /** The whole handler. `newId` is the id the database gives the new row. */
  function PostOrder(st: State, body: Option<OrderRequest>, newId: string): (out: Outcome)
    requires newId !in st.orders
    ensures out.reply.Created? <==> out.notice.Some?
    ensures !out.reply.Created? ==> out.state == st
    ensures out.reply == MissingFields <==> body.Some? && IsMissingFields(body.value)
    ensures out.reply == InvalidTier <==> Validate(body) == Refused(InvalidTier)
  {
    Decide(st, Validate(body), newId)
  }

  /** The stock never goes negative through this handler: the decrement happens only when the
      quantity does not exceed the stock. */
  lemma {:induction false} StockStaysNonNegative(st: State, v: Validation, newId: string)
    requires newId !in st.orders && (v.Refused? ==> v.reply in {MissingFields, InvalidTier, ServerError})
    requires ReadStock(st.settings).Some? && ReadStock(st.settings).value >= 0
    ensures var after := ReadStock(Decide(st, v, newId).state.settings);
      after.Some? && after.value >= 0
  {
    var out := Decide(st, v, newId);
    if out.reply.Created? {
      ReadWrittenStock(st.settings, Minus(ReadStock(st.settings), v.purchase.stars));
    }
  }

  /** A store without a stock setting reads as having none: any positive quantity is refused
      with 409, and a quantity of zero or less fails with 500 because the stock update finds
      no row to change. */
  lemma MissingStockSetting(st: State, p: Purchase, newId: string)
    requires newId !in st.orders && StockKey !in st.settings
    ensures Decide(st, Accepted(p), newId).reply == if p.stars > 0 then SoldOut else ServerError
    ensures Decide(st, Accepted(p), newId).state == st
  {
  }

  /** Nothing checks the sign of the quantity: an order for a negative number of stars is
      created and raises the stock by that many. */
  lemma {:induction false} NegativeQuantityRaisesStock(st: State, p: Purchase, newId: string, stock: int)
    requires newId !in st.orders && StockKey in st.settings && ReadStock(st.settings) == Some(stock)
    requires p.stars < 0 <= stock
    ensures Decide(st, Accepted(p), newId).reply == Created(newId)
    ensures ReadStock(Decide(st, Accepted(p), newId).state.settings) == Some(stock - p.stars)
  {
    var out := Decide(st, Accepted(p), newId);
    assert out.reply.Created?;
    ReadDecremented(st.settings, p.stars, stock, out.state.settings);
  }

  /** A stock setting that is not a number reads as NaN, which is never less than the quantity:
      every valid order is accepted and the stock stays "NaN". */
  lemma NaNStockAdmitsEveryOrder(st: State, p: Purchase, newId: string)
    requires newId !in st.orders && StockKey in st.settings && ReadStock(st.settings).None?
    ensures Decide(st, Accepted(p), newId).reply == Created(newId)
    ensures Decide(st, Accepted(p), newId).state.settings[StockKey] == "NaN"
  {
  }

  /** The new order gets a fresh id and no invoice id, so the tables stay well formed. */
  lemma PostOrderKeepsWellFormed(st: State, body: Option<OrderRequest>, newId: string)
    requires newId !in st.orders && WellFormed(st)
    ensures WellFormed(PostOrder(st, body, newId).state)
  {
    if Validate(body).Accepted? {
      DecideKeepsWellFormed(st, Validate(body).purchase, newId);
    }
  }

  lemma DecideKeepsWellFormed(st: State, p: Purchase, newId: string)
    requires newId !in st.orders && WellFormed(st)
    ensures WellFormed(Decide(st, Accepted(p), newId).state)
  {
    var out := Decide(st, Accepted(p), newId);
    if out.reply.Created? {
      var order := Order(newId, p.user.username, p.user.name, p.user.avatarUrl, p.stars, p.price, Pending, None);
      AddOrderKeepsWellFormed(st, order, out.state.settings);
      assert out.state == State(out.state.settings, st.orders[newId := order]);
    }
  }

  /** The handler run against the shared store. */
  method Post(store: Store, body: Option<OrderRequest>, newId: string) returns (reply: Reply, notice: Option<Notice>)
    requires store.Valid() && newId !in store.orders
    modifies store
    ensures store.Valid()
    ensures Outcome(store.Snapshot(), reply, notice) == PostOrder(old(store.Snapshot()), body, newId)
  {
    if body.None? {
      assert Validate(body) == Refused(ServerError);
      return ServerError, None;
    }
    var req := body.value;
    if req.tier.None? || req.telegramUser.None? || req.paymentMethod == "" {
      assert Validate(body) == Refused(MissingFields);
      return MissingFields, None;
    }
    var tier, user := req.tier.value, req.telegramUser.value;
    if tier.stars.None? || tier.price.None? {
      assert Validate(body) == Refused(ServerError);
      return ServerError, None;
    }
    var stars := Quantity(tier.stars.value);
    var price := Price(tier.price.value);
    if stars.None? || price.None? {
      assert Validate(body) == Refused(InvalidTier);
      return InvalidTier, None;
    }
    var p := Purchase(stars.value, price.value, user, req.paymentMethod);
    assert Validate(body) == Accepted(p);
    reply, notice := Transact(store, p, newId);
  }

  /** The transaction of a validated purchase: reads and writes go to copies of the two tables,
      which are written back only when it commits. */
  method Transact(store: Store, p: Purchase, newId: string) returns (reply: Reply, notice: Option<Notice>)
    requires store.Valid() && newId !in store.orders
    modifies store
    ensures store.Valid()
    ensures Outcome(store.Snapshot(), reply, notice) == Decide(old(store.Snapshot()), Accepted(p), newId)
  {
    ghost var before := store.Snapshot();
    DecideKeepsWellFormed(before, p, newId);
    var settings, orders := store.settings, store.orders;
    var current := ReadStock(settings);
    if current.Some? && current.value < p.stars {
      assert CreateOrderTx(before, p, newId) == Rollback(InsufficientStars, before);
      return SoldOut, None;
    }
    if StockKey !in settings {
      assert CreateOrderTx(before, p, newId) == Rollback(RecordNotFound, before);
      return ServerError, None;
    }
    settings := settings[StockKey := StockText(Minus(current, p.stars))];
    var order := Order(newId, p.user.username, p.user.name, p.user.avatarUrl, p.stars, p.price, Pending, None);
    orders := orders[newId := order];
    // Commit.
    store.settings, store.orders := settings, orders;
    reply, notice := Created(newId), Some(Notice(order, p.paymentMethod));
  }
}
