/** The admin panel's server actions: completing an order, saving the two settings in one
    transaction, and logging in and out through the `admin-auth` cookie. */
module AdminActions {
  import opened Wrappers
  import JsText
  import opened Db
  import Middleware

  /** What an action returns to the page: `{ success, message? }`. */
  datatype ActionResult = ActionResult(success: bool, message: Option<string>)

  datatype Outcome = Outcome(state: State, result: ActionResult)

  const UpdateStatusError := "Ошибка при обновлении статуса."

  /** `completeOrderAction(orderId)`: the order's status becomes COMPLETED whatever it was; when
      no order has that id, `update` throws and the action reports the error. */
  function CompleteOrderAction(st: State, orderId: string): (out: Outcome)
    ensures out.result.success <==> orderId in st.orders
    ensures !out.result.success ==> out.state == st && out.result.message == Some(UpdateStatusError)
    ensures out.result.success ==>
      && out.result.message.None?
      && out.state.settings == st.settings
      && out.state.orders.Keys == st.orders.Keys
      && out.state.orders[orderId] == st.orders[orderId].(status := Completed)
      && (forall k :: k in st.orders && k != orderId ==> out.state.orders[k] == st.orders[k])
  {
    match SetStatus(st.orders, orderId, Completed)
    case None => Outcome(st, ActionResult(false, Some(UpdateStatusError)))
    case Some(orders) => Outcome(st.(orders := orders), ActionResult(true, None))
  }

  /** Running the action twice is the same as running it once. */
  lemma CompleteOrderActionIdempotent(st: State, orderId: string)
    ensures var once := CompleteOrderAction(st, orderId);
      CompleteOrderAction(once.state, orderId) == once
  {
    var once := CompleteOrderAction(st, orderId);
    if once.result.success {
      assert once.state.orders[orderId := once.state.orders[orderId].(status := Completed)] == once.state.orders;
    }
  }

  const ExchangeRateKey := "exchangeRate"
  const SettingsSaved := "Настройки успешно обновлены!"
  const SettingsError := "Ошибка обновления настроек."

  /** `updateSettingsAction(formData)`: both values are written verbatim, creating each key when
      it is absent, in one transaction. A form field that is missing reads as `null` (`None`
      here), which the ORM refuses for the required `value` column, so the whole transaction
      fails and neither key is written. */
  function UpdateSettingsAction(st: State, exchangeRate: Option<string>, totalStars: Option<string>): (out: Outcome)
    ensures out.result.success <==> exchangeRate.Some? && totalStars.Some?
    ensures out.state.orders == st.orders
    ensures !out.result.success ==> out.state == st && out.result.message == Some(SettingsError)
    ensures out.result.success ==>
      && out.result.message == Some(SettingsSaved)
      && out.state.settings.Keys == st.settings.Keys + {ExchangeRateKey, StockKey}
      && out.state.settings[ExchangeRateKey] == exchangeRate.value
      && out.state.settings[StockKey] == totalStars.value
      && (forall k :: k in st.settings && k != ExchangeRateKey && k != StockKey ==> out.state.settings[k] == st.settings[k])
  {
    var tx := SaveSettingsTx(st, exchangeRate, totalStars);
    var result := if tx.Commit? then ActionResult(true, Some(SettingsSaved)) else ActionResult(false, Some(SettingsError));
    Outcome(Persisted(st, tx), result)
  }

  /** The batch transaction of lines 49-60: the two upserts in order. The ORM refuses a `null`
      value, so a missing first field fails before any write, and a missing second field fails
      after the first upsert, whose write is then in `discarded`. */
  function SaveSettingsTx(st: State, exchangeRate: Option<string>, totalStars: Option<string>): (tx: Tx<bool>)
    ensures tx.Commit? <==> exchangeRate.Some? && totalStars.Some?
    ensures tx.Rollback? ==> tx.failure == NullValue
    ensures tx.Commit? ==> tx.state == st.(settings := st.settings[ExchangeRateKey := exchangeRate.value][StockKey := totalStars.value])
    ensures exchangeRate.Some? && totalStars.None? ==> tx.discarded.settings == st.settings[ExchangeRateKey := exchangeRate.value]
  {
    match Upsert(st.settings, ExchangeRateKey, exchangeRate)
    case None => Rollback(NullValue, st)
    case Some(first) =>
      match Upsert(first, StockKey, totalStars)
      case None => Rollback(NullValue, st.(settings := first))
      case Some(second) => Commit(st.(settings := second), true)
  }

  /** Saving the settings is all or nothing: either both keys hold the submitted values or the
      tables are as before. The exchange rate written before a failing second upsert is rolled
      back. */
  lemma SaveSettingsIsAllOrNothing(st: State, exchangeRate: Option<string>, totalStars: Option<string>)
    ensures var tx := SaveSettingsTx(st, exchangeRate, totalStars);
      && (tx.Rollback? ==> Persisted(st, tx) == st)
      && (tx.Commit? ==>
        Persisted(st, tx).settings[ExchangeRateKey] == exchangeRate.value && Persisted(st, tx).settings[StockKey] == totalStars.value)
      && (exchangeRate.Some? && totalStars.None? ==>
        tx.discarded.settings[ExchangeRateKey] == exchangeRate.value && Persisted(st, tx) == st)
  {
  }

  /** One `setting.upsert`: `None` when the value is `null` and the ORM throws. */
  function Upsert(settings: map<string, string>, key: string, value: Option<string>): (r: Option<map<string, string>>)
    ensures r.Some? <==> value.Some?
    ensures r.Some? ==> r.value == settings[key := value.value]
  {
    if value.None? then None else Some(settings[key := value.value])
  }

  /** After a successful save the order route reads back exactly the stock typed in the form:
      no validation, so a text that is not a number leaves the stock at NaN. */
  lemma SavedStockIsRead(st: State, exchangeRate: string, totalStars: string)
    ensures var out := UpdateSettingsAction(st, Some(exchangeRate), Some(totalStars));
      ReadStock(out.state.settings) == JsText.ParseInt(if totalStars == "" then "0" else totalStars)
  {
  }

  /** The session cookie as `cookieStore.set` stores it. */
  datatype Cookie = Cookie(value: string, httpOnly: bool, secure: bool, maxAge: int, path: string)

  /** Seven days, in seconds. */
  const SessionMaxAge := 60 * 60 * 24 * 7

  /** The cookie the login action sets; `production` is `NODE_ENV == "production"`. */
  function SessionCookie(production: bool): (c: Cookie)
    ensures c.value == "true" && c.httpOnly && c.secure == production && c.path == "/"
    ensures c.maxAge == 604800
  {
    Cookie("true", true, production, SessionMaxAge, "/")
  }

  /** What a later request carries: each cookie's name and value. */
  function Values(cookies: map<string, Cookie>): (m: map<string, string>)
    ensures m.Keys == cookies.Keys
    ensures forall n :: n in m ==> m[n] == cookies[n].value
  {
    map n | n in cookies :: cookies[n].value
  }

  /** `password === process.env.ADMIN_PASSWORD`: a missing form field (`null`) never equals a
      missing variable (`undefined`); two present strings must be equal. */
  predicate PasswordMatches(password: Option<string>, adminPassword: Option<string>) {
    password.Some? && adminPassword.Some? && password.value == adminPassword.value
  }

  /** How an action ends for the browser: `redirect(location)`, or a value shown on the page. */
  datatype Response = Redirected(location: string) | Shown(message: string)

  /** The browser's cookie store. */
  class CookieJar {
    var cookies: map<string, Cookie>

    constructor (initial: map<string, Cookie>)
      ensures cookies == initial
    {
      cookies := initial;
    }

    /** `loginAction(formData)`: the right password sets the session cookie and redirects to
        `/admin`; a wrong one leaves the cookies as they were and returns the error text. */
    method Login(password: Option<string>, adminPassword: Option<string>, production: bool) returns (r: Response)
      modifies this
      ensures r == Redirected("/admin") <==> PasswordMatches(password, adminPassword)
      ensures r.Redirected? ==> cookies == old(cookies)[Middleware.AuthCookie := SessionCookie(production)]
      ensures r.Shown? ==> r.message == "Неверный пароль" && cookies == old(cookies)
    {
      if password.Some? && adminPassword.Some? && password.value == adminPassword.value {
        cookies := cookies[Middleware.AuthCookie := Cookie("true", true, production, SessionMaxAge, "/")];
      } else {
        return Shown("Неверный пароль");
      }
      r := Redirected("/admin");
    }

    /** `logoutAction()`: the session cookie is deleted and the browser sent to the login page. */
    method Logout() returns (r: Response)
      modifies this
      ensures cookies == old(cookies) - {Middleware.AuthCookie}
      ensures r == Redirected(Middleware.LoginPath)
    {
      cookies := cookies - {Middleware.AuthCookie};
      r := Redirected("/admin/login");
    }
  }

  /** After a login every admin page opens, the one the login redirects to included. */
  lemma LoginOpensAdmin(cookies: map<string, Cookie>, production: bool, pathname: string)
    ensures Middleware.Guard(pathname, Values(cookies[Middleware.AuthCookie := SessionCookie(production)])) == Middleware.Next
  {
    var m := Values(cookies[Middleware.AuthCookie := SessionCookie(production)]);
    assert Middleware.AuthCookie in m && m[Middleware.AuthCookie] == "true";
  }

  /** After a logout every protected admin page redirects to the login page. */
  lemma LogoutClosesAdmin(cookies: map<string, Cookie>, pathname: string)
    requires JsText.StartsWith(pathname, Middleware.AdminPrefix) && !JsText.StartsWith(pathname, Middleware.LoginPath)
    ensures Middleware.Guard(pathname, Values(cookies - {Middleware.AuthCookie})) == Middleware.Redirect(Middleware.LoginPath)
  {
    assert Middleware.AuthCookie !in Values(cookies - {Middleware.AuthCookie});
  }

  /** `completeOrderAction` on the shared store. */
  method CompleteOrder(store: Store, orderId: string) returns (result: ActionResult)
    requires store.Valid()
    modifies store
    ensures store.Valid()
    ensures Outcome(store.Snapshot(), result) == CompleteOrderAction(old(store.Snapshot()), orderId)
  {
    if orderId !in store.orders {
      return ActionResult(false, Some(UpdateStatusError));
    }
    ghost var before := store.Snapshot();
    store.orders := store.orders[orderId := store.orders[orderId].(status := Completed)];
    forall k | k in store.orders
      ensures store.orders[k].id == k && store.orders[k].invoiceId == before.orders[k].invoiceId
    {
    }
    result := ActionResult(true, None);
  }

  /** `updateSettingsAction` on the shared store: both upserts run on a copy of the settings
      table, which is written back only when both succeeded. */
  method UpdateSettings(store: Store, exchangeRate: Option<string>, totalStars: Option<string>) returns (result: ActionResult)
    requires store.Valid()
    modifies store
    ensures store.Valid()
    ensures Outcome(store.Snapshot(), result) == UpdateSettingsAction(old(store.Snapshot()), exchangeRate, totalStars)
  {
    var settings := store.settings;
    if exchangeRate.None? {
      return ActionResult(false, Some(SettingsError));
    }
    settings := settings[ExchangeRateKey := exchangeRate.value];
    if totalStars.None? {
      // The second upsert throws: the first one is rolled back with it.
      return ActionResult(false, Some(SettingsError));
    }
    settings := settings[StockKey := totalStars.value];
    store.settings := settings;
    result := ActionResult(true, Some(SettingsSaved));
  }
}
