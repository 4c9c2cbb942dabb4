# Stars storefront: order and stock bookkeeping in Dafny

A Next.js storefront sells Telegram Stars. It keeps two tables. The settings table maps keys to
strings; the stock of stars for sale lives there as the `totalStars` value. The orders table
holds orders with a quantity of stars, a price, a status (PENDING, WAITING_PAYMENT, PAID,
COMPLETED, FAILED) and an optional payment-provider invoice id. This project models the code
that moves orders and stock:

- the order route (`POST /api/orders`), which validates a purchase, decrements the stock and
  creates a PENDING order in one transaction, and then notifies the operator;
- the CryptoBot payment webhook, which checks the signature and then, in one transaction,
  moves the order with the paid invoice from WAITING_PAYMENT to COMPLETED and takes its
  stars from the stock;
- the Telegram callback (`POST /api/telegram-webhook`): the operator's "done" button under a
  notification moves a PENDING order to COMPLETED and edits the notification;
- the admin panel: the complete-order route, the server actions (complete an order, save the
  two settings in one transaction, log in and out by the `admin-auth` cookie), the route guard
  in front of `/admin`, the settings both pages read, and the order list with its filters,
  counters and per-status actions;
- the pure helpers these lean on: MarkdownV2 escaping and the notification text, the callback
  data, currency-name normalisation, exchange-rate selection, invoice validation and amount
  formatting, and the webhook signature guard.

Each route handler is written twice. A function over the value `Db.State` says what the
request does. A method on the shared `Db.Store` does it in place: reads and writes go to local
copies of the tables, and the copies are assigned back at the commit. The method's
postcondition equates its effect with the function. Each `$transaction` is one all-or-nothing
step (`Db.Tx`): a transaction whose callback throws leaves the tables as they were, and the
writes it had made are kept only as the `discarded` state of the rollback.

JavaScript is modelled where its behaviour decides an outcome. `parseInt`, `parseFloat`,
`String(n)`, `toFixed`, `startsWith`, `replace` and truthiness are in `JsText`. The stock is
read as `parseInt(value || "0")` and written back as `String(n)`, so a stock text that is not a
number reads as NaN and stays "NaN". Numbers are exact: integers are `int` and decimals are
`real`.

In several places the code does not do what a storefront of this kind is expected to do. The
model follows the code:

- Quantities and prices are expected to be positive. The order route only rejects NaN,
  so a negative quantity is accepted and raises the stock
  (`OrdersRoute.NegativeQuantityRaisesStock`).
- A payment that arrives after the stock ran out is expected to leave the order FAILED. In the code that write is inside the transaction that then throws, so it is rolled
  back (`CryptobotWebhook.ShortageRollsBackFailedStatus`).
- No transition is expected to leave FAILED, and completing a completed order is expected
  to be a no-op success. The complete-order route and action complete an order in any status,
  FAILED included (`CompleteOrderRoute.AnyStatusCompletes`). A second press of the Telegram
  button answers 500 (`TelegramWebhook.SecondPressChangesNothing`).
- An invoice amount is expected to exceed the minimum. The code rejects only
  amounts below it, so the minimum itself is accepted (`CryptoBot.CreateInvoice`).
- The stock is expected never to go below zero. That holds only while the stock
  reads as a number that is not negative (`OrdersRoute.StockStaysNonNegative`). A stock that
  reads as NaN admits every order (`OrdersRoute.NaNStockAdmitsEveryOrder`).

## Model

| member | source | states |
|---|---|---|
| `Db.ReadStock` | src/app/api/orders/route.ts:32-35 | a missing `totalStars` setting reads as stock 0 |
| `Db.ReadWrittenStock` | src/app/api/orders/route.ts:43-47 | writing `String(stock)` (or "NaN") and reading it back with `parseInt` gives the same stock |
| `Db.SetStatus` | src/app/api/complete-order/route.ts:9-12 | `order.update` by id fails exactly when no order has the id; otherwise only that order's status changes and the key set is kept |
| `JsText.RemoveWhiteSpace` | src/app/api/orders/route.ts:19 | no white space is left in the quantity text, and every other character stays, as often as before and in its order |
| `JsText.KeepDigitsAndDots` | src/app/api/orders/route.ts:20 | only digits and dots are left in the price text, each as often as before and in its order |
| `JsText.DigitsAndDotsParse` | src/app/api/orders/route.ts:20 | such a text parses to NaN or to a finite number that is not negative |
| `JsText.ParseIntOfIntToString` | src/app/api/orders/route.ts:46 | `parseInt(String(n)) == n` for every integer |
| `JsText.Reciprocal` | src/lib/cryptobot.ts:280 | `1 / x` is the exact inverse of a finite non-zero rate, and NaN exactly for NaN |
| `JsText.Times` | src/lib/cryptobot.ts:293 | the product of two finite rates is their exact product, and NaN absorbs |
| `JsText.IndexOf` | src/app/api/telegram-webhook/route.ts:33 | the first position where the pattern occurs, or none at all |
| `JsText.ReplaceLeadingPrefix` | src/app/api/telegram-webhook/route.ts:32-33 | replacing the first occurrence of a prefix the text starts with removes exactly that prefix |
| `OrdersRoute.Price` | src/app/api/orders/route.ts:20-22 | the price is NaN exactly when `parseFloat` of the digits-and-dots text is; otherwise it is that number and not negative |
| `OrdersRoute.Validate` | src/app/api/orders/route.ts:10-27 | 400 "missing fields" exactly when `tier`, `telegramUser` or `paymentMethod` is falsy; accepted exactly when quantity and price parse, with those values in the purchase |
| `OrdersRoute.CreateOrderTx` | src/app/api/orders/route.ts:30-62 | throws "not enough stars" exactly when the stock is a number below the quantity; a rollback discards nothing persisted; a commit writes stock − quantity and one new PENDING order with the purchase's stars and price |
| `OrdersRoute.CreateOrderIsAllOrNothing` | src/app/api/orders/route.ts:30-62 | the order transaction changes the tables exactly when it commits, and a commit leaves the new order and the decremented stock |
| `OrdersRoute.Decide` | src/app/api/orders/route.ts:30-81 | 409 exactly when the stock is short; every reply other than success leaves both tables unchanged; the notification is sent exactly on success and after the commit, with the created order |
| `OrdersRoute.PostOrder` | src/app/api/orders/route.ts:7-87 | missing fields give 400 with no change; an unparsable tier gives 400; a notice is sent exactly when the order is created |
| `OrdersRoute.StockStaysNonNegative` | src/app/api/orders/route.ts:35-46 | a stock that reads as a number ≥ 0 still reads as a number ≥ 0 after any request |
| `OrdersRoute.MissingStockSetting` | src/app/api/orders/route.ts:32-47 | without a `totalStars` row a positive quantity is refused with 409; any other quantity fails the `update` with 500; nothing changes |
| `OrdersRoute.NegativeQuantityRaisesStock` | src/app/api/orders/route.ts:19-46 | a negative quantity passes validation, is created, and raises the stock by its absolute value |
| `OrdersRoute.NaNStockAdmitsEveryOrder` | src/app/api/orders/route.ts:35-46 | a stock text that is not a number never refuses an order and stays "NaN" |
| `OrdersRoute.PostOrderKeepsWellFormed` | src/app/api/orders/route.ts:50-59 | orders stay filed under their own ids with unique invoice ids |
| `OrdersRoute.Post` | src/app/api/orders/route.ts:7-87 | the handler on the store does exactly what `PostOrder` says and keeps the store well formed |
| `OrdersRoute.Transact` | src/app/api/orders/route.ts:30-81 | the transaction on the store's copies of the two tables commits or leaves the store untouched, exactly as `Decide` says, and keeps the store well formed |
| `Telegram.ReservedCharacters` | src/lib/telegram.ts:11 | exactly 18 reserved characters, the backslash not among them |
| `Telegram.EscapeChar` | src/lib/telegram.ts:12 | a reserved character becomes backslash + itself; any other character is kept |
| `Telegram.EscapeMarkdownV2` | src/lib/telegram.ts:10-13 | output length = input length + number of reserved characters; a text without reserved characters is unchanged |
| `Telegram.ReservedAreEscaped` | src/lib/telegram.ts:12 | every reserved character of the output comes right after a backslash |
| `Telegram.UnescapeEscape` | src/lib/telegram.ts:12 | dropping each backslash before a reserved character recovers the input: escaping loses nothing |
| `Telegram.CallbackData` | src/lib/telegram.ts:43 | the callback data is "complete_order_" followed by the order id |
| `Telegram.NoticePieces` | src/lib/telegram.ts:23-39 | name, price, payment method and date are escaped; the username (twice), the stars count and the order id are inserted raw |
| `Telegram.SendMessageToAdmin` | src/lib/telegram.ts:15-44 | nothing is sent exactly when the bot token or chat id is unset or empty; otherwise the MarkdownV2 text and the "done" button for the order |
| `CryptoBot.NormalizeCurrencyName` | src/lib/cryptobot.ts:40-51 | the result is supported; it is the input exactly when the input is supported, and "TON" otherwise |
| `CryptoBot.NormalizeIdempotent` | src/lib/cryptobot.ts:40-51 | normalising twice is normalising once |
| `CryptoBot.Find` | src/lib/cryptobot.ts:266-268 | `find` returns the first entry for the pair, or none exactly when no entry has the pair |
| `CryptoBot.DefaultRate` | src/lib/cryptobot.ts:307-319 | the table value for a known currency, 1 exactly for an unknown one |
| `CryptoBot.SupportedHaveDefaultRates` | src/lib/cryptobot.ts:308-318 | every supported currency has a table rate above 1 |
| `CryptoBot.GetExchangeRate` | src/lib/cryptobot.ts:244-303 | the default rate without a token or usable response; otherwise direct, then the inverse of RUB→currency, then via USD, then the default |
| `CryptoBot.FallbackRate` | src/lib/cryptobot.ts:136-149 | the fixed pair table, "100.0" for any other pair |
| `CryptoBot.GetExchangeRates` | src/lib/cryptobot.ts:59-151 | errors for a missing token and a failed response; then the inverted target→source pair first, the direct pair, the USD product, and the fallback table |
| `CryptoBot.OppositePriorities` | src/lib/cryptobot.ts:86-114 | with both TON→RUB and RUB→TON listed, the two rate functions choose different entries |
| `CryptoBot.MinAmountFor` | src/lib/cryptobot.ts:176-186 | the minimum for the raw asset name, 0.01 when it is not listed; always positive |
| `CryptoBot.ZeroTailFrom` | src/lib/cryptobot.ts:194 | the first position from which the rest matches `/\.?0+$/` |
| `CryptoBot.DropTrailingZeros` | src/lib/cryptobot.ts:194 | the fraction digits without their trailing zeros |
| `CryptoBot.ZeroTailOfDecimal` | src/lib/cryptobot.ts:194 | on `whole.frac` the match starts at the dot when the fraction is all zeros, after the last non-zero digit otherwise, and there is none when the fraction ends in a non-zero digit |
| `CryptoBot.StripFixedText` | src/lib/cryptobot.ts:194 | stripping keeps the sign and the whole part, and leaves the fraction without trailing zeros, with no dot when nothing is left |
| `CryptoBot.FormatAmountKeepsWholePart` | src/lib/cryptobot.ts:194 | the formatted amount is the `toFixed(8)` whole part followed by the trimmed fraction |
| `CryptoBot.InvoiceDescription` | src/lib/cryptobot.ts:207 | the description names the whole order id when it has at most 8 characters, and its first 8 characters otherwise |
| `CryptoBot.CreateInvoice` | src/lib/cryptobot.ts:161-211 | token, then amount ≤ 0, then the minimum for the raw asset name are checked in that order; the request carries the raw asset, the formatted amount, the description and a one-hour expiry |
| `CryptoBot.InvoiceAmountText` | src/lib/cryptobot.ts:194-206 | the amount sent is the whole part and the trimmed fraction of `toFixed(8)` |
| `CryptoBot.VerifyWebhookSignature` | src/lib/cryptobot.ts:229-241 | false without a signature or a token; otherwise true exactly when the signature is the hex HMAC-SHA-256 of the body keyed by SHA-256 of the token |
| `CryptobotWebhook.OrderWithInvoice` | src/app/api/cryptobot-webhook/route.ts:34-36 | the order with that invoice id, or none when no order has it |
| `CryptobotWebhook.ConfirmTx` | src/app/api/cryptobot-webhook/route.ts:33-64 | "order not found" exactly when no order has the invoice; an order that is no longer WAITING_PAYMENT commits no change |
| `CryptobotWebhook.HandleWebhook` | src/app/api/cryptobot-webhook/route.ts:8-80 | 403 exactly when the signature fails; every reply but a confirmed payment leaves the tables unchanged and sends nothing |
| `CryptobotWebhook.ConfirmedPayment` | src/app/api/cryptobot-webhook/route.ts:55-68 | a confirmation moves the WAITING_PAYMENT order to COMPLETED, takes its stars from the stock, changes nothing else and notifies with "CryptoBot-Paid" |
| `CryptobotWebhook.WhenConfirmed` | src/app/api/cryptobot-webhook/route.ts:39-63 | a paid event is confirmed exactly when its order is WAITING_PAYMENT, the stock is not short and the stock row exists |
| `CryptobotWebhook.UnknownInvoice` | src/app/api/cryptobot-webhook/route.ts:34-38 | an unknown invoice gives 500 and changes nothing |
| `CryptobotWebhook.AlreadyHandledInvoice` | src/app/api/cryptobot-webhook/route.ts:39-42 | an order no longer WAITING_PAYMENT gives 200, no change and no notification |
| `CryptobotWebhook.ConfirmIsAllOrNothing` | src/app/api/cryptobot-webhook/route.ts:33-64 | the payment transaction changes the tables exactly when it commits a completed order, and then only that order's status and the stock |
| `CryptobotWebhook.ShortageRollsBackFailedStatus` | src/app/api/cryptobot-webhook/route.ts:47-53 | on a stock shortage the FAILED status is written only to the discarded state; the persisted tables are unchanged and the reply is 500 |
| `CryptobotWebhook.ReplayIsHarmless` | src/app/api/cryptobot-webhook/route.ts:39-42 | replaying any webhook request changes nothing and notifies no one, so stock is taken at most once per invoice |
| `CryptobotWebhook.WebhookKeepsWellFormed` | src/app/api/cryptobot-webhook/route.ts:56-63 | orders stay filed under their ids with unique invoice ids |
| `CryptobotWebhook.UniqueInvoice` | src/app/api/cryptobot-webhook/route.ts:35 | with unique invoice ids the lookup finds the one order holding the invoice |
| `CryptobotWebhook.WebhookStockStaysNonNegative` | src/app/api/cryptobot-webhook/route.ts:44-57 | a stock that reads as a number ≥ 0 stays so |
| `CryptobotWebhook.Post` | src/app/api/cryptobot-webhook/route.ts:8-80 | the handler on the store does exactly what `HandleWebhook` says, the FAILED write made only on the discarded copy |
| `TelegramWebhook.OrderIdOf` | src/app/api/telegram-webhook/route.ts:32-33 | an id is parsed exactly when the data starts with "complete_order_", and the data is then the callback data of that id |
| `TelegramWebhook.CallbackDataRoundTrip` | src/app/api/telegram-webhook/route.ts:32-33 | parsing the callback data of an id gives the id back |
| `TelegramWebhook.NoticeButtonNamesOrder` | src/lib/telegram.ts:42-44 | the button of every notification parses to the id of its order |
| `TelegramWebhook.HandleUpdate` | src/app/api/telegram-webhook/route.ts:24-50 | the stock and the key set never change; an order changes only from PENDING to COMPLETED; Bot API calls are made only after a successful write; an unparsable body is 500 and a body without a button press is 200, both without change |
| `TelegramWebhook.PressCompletesPendingOrder` | src/app/api/telegram-webhook/route.ts:32-42 | a press on a PENDING order completes it, edits the message to the original text followed by the status line, and answers the press |
| `TelegramWebhook.PressOnSettledOrderFails` | src/app/api/telegram-webhook/route.ts:35-38 | a press on a missing order, or one not PENDING, is 500 with no change and no Bot API call |
| `TelegramWebhook.SecondPressChangesNothing` | src/app/api/telegram-webhook/route.ts:35-38 | a second press on the same button is 500 and changes nothing |
| `TelegramWebhook.ForeignDataIgnored` | src/app/api/telegram-webhook/route.ts:32 | data without the prefix is answered 200 with no change and no call |
| `TelegramWebhook.FailureMakesNoCalls` | src/app/api/telegram-webhook/route.ts:35-48 | a 500 reply is never accompanied by a message edit |
| `TelegramWebhook.TelegramWebhookKeepsWellFormed` | src/app/api/telegram-webhook/route.ts:35-38 | orders stay filed under their ids with unique invoice ids |
| `TelegramWebhook.Post` | src/app/api/telegram-webhook/route.ts:24-50 | the handler on the store does exactly what `HandleUpdate` says |
| `CompleteOrderRoute.CompleteOrder` | src/app/api/complete-order/route.ts:5-18 | 400 exactly for a falsy `orderId`; success exactly for an existing id, which then alone becomes COMPLETED; otherwise 500 and no change |
| `CompleteOrderRoute.CompleteOrderIdempotent` | src/app/api/complete-order/route.ts:9-12 | completing twice is completing once |
| `CompleteOrderRoute.AnyStatusCompletes` | src/app/api/complete-order/route.ts:9-12 | any existing order, FAILED and WAITING_PAYMENT included, becomes COMPLETED |
| `CompleteOrderRoute.CompleteOrderKeepsWellFormed` | src/app/api/complete-order/route.ts:9-12 | the stock is untouched and the tables stay well formed |
| `CompleteOrderRoute.Post` | src/app/api/complete-order/route.ts:5-18 | the handler on the store does exactly what `CompleteOrder` says |
| `AdminActions.CompleteOrderAction` | src/app/admin/actions.ts:3-14 | succeeds exactly for an existing id, which alone becomes COMPLETED; otherwise reports the error and changes nothing |
| `AdminActions.CompleteOrderActionIdempotent` | src/app/admin/actions.ts:5-8 | running the action twice is running it once |
| `AdminActions.SaveSettingsTx` | src/app/admin/actions.ts:49-60 | the two upserts commit exactly when both values are present; a missing second value fails after the first write, which is kept only in the discarded state |
| `AdminActions.SaveSettingsIsAllOrNothing` | src/app/admin/actions.ts:49-60 | saving leaves either both submitted values or the tables as before; the exchange rate written before a failing second upsert is rolled back |
| `AdminActions.UpdateSettingsAction` | src/app/admin/actions.ts:44-66 | succeeds exactly when both form fields are present; then both are stored verbatim (created if absent) and nothing else changes; otherwise neither is written |
| `AdminActions.SavedStockIsRead` | src/app/admin/actions.ts:55-59 | after a save the order route reads the stock as `parseInt` of the saved text, with no validation |
| `AdminActions.SessionCookie` | src/app/admin/actions.ts:26-31 | the session cookie is "true", HTTP-only, secure in production, path "/", 604800 seconds |
| `AdminActions.CookieJar.Login` | src/app/admin/actions.ts:22-36 | the right password sets the session cookie and redirects to /admin; a wrong one shows "Неверный пароль" and leaves the cookies unchanged |
| `AdminActions.CookieJar.Logout` | src/app/admin/actions.ts:38-42 | the session cookie is removed and the browser goes to /admin/login |
| `AdminActions.LoginOpensAdmin` | src/app/admin/actions.ts:24-35 | after a login the route guard lets every path through, /admin included |
| `AdminActions.LogoutClosesAdmin` | src/app/admin/actions.ts:38-41 | after a logout every protected admin path redirects to the login page |
| `AdminActions.CompleteOrder` | src/app/admin/actions.ts:3-14 | the action on the store does exactly what `CompleteOrderAction` says |
| `AdminActions.UpdateSettings` | src/app/admin/actions.ts:44-66 | the action on the store writes both settings or neither, as `UpdateSettingsAction` says |
| `Middleware.Guard` | src/middleware.ts:4-16 | paths outside /admin and under /admin/login pass; every other /admin path passes exactly when `admin-auth` is "true", and otherwise redirects to /admin/login |
| `Middleware.RedirectTargetPasses` | src/middleware.ts:8-11 | the redirect target passes whatever the cookies, so a redirect never leads to another |
| `Settings.LastValueIsLastRow` | src/app/admin/page.tsx:10-16 | a key's value is that of the last row with the key, and is missing exactly when no row has it |
| `Settings.FoldSettings` | src/app/admin/page.tsx:10-16 | the folded dictionary maps each key to the value of its last row |
| `Settings.OtherRowsIgnored` | src/app/admin/page.tsx:17-20 | a row with another key, inserted anywhere, does not change a key's value |
| `AdminPage.OrDefault` | src/app/admin/page.tsx:18-19 | the stored text when present and non-empty, else the default |
| `AdminPage.GetSettings` | src/app/admin/page.tsx:8-21 | exchange rate and stock text of the last rows, "1.5" and "50000" when missing or empty |
| `HomePage.ExchangeRate` | src/app/page.tsx:23 | the star price is the stored rate as `parseFloat` reads it, or 1.5 exactly when that is NaN or zero; never NaN or zero |
| `HomePage.TotalAvailableStars` | src/app/page.tsx:24 | the stock shown is the stored stock as `parseInt` reads it, or 50000 exactly when that is NaN or zero; never zero |
| `HomePage.BuildConfig` | src/app/page.tsx:13-27 | limits 100 and 5000 whatever is stored; rate and stock from the last rows with their defaults |
| `HomePage.UndefinedIsNaN` | src/app/page.tsx:23-24 | a missing setting parses to NaN |
| `HomePage.MissingRateShowsDefault` | src/app/page.tsx:23 | without an exchange-rate setting a star costs 1.5 |
| `HomePage.ShownStockIsOrderStock` | src/app/page.tsx:24 | a non-zero stock that the order route reads is shown as it is |
| `HomePage.ZeroStockShownAsDefault` | src/app/page.tsx:24 | when the order route reads the stock as 0 (missing, empty or zero), the page shows 50000 |
| `HomePage.NaNStockShownAsDefault` | src/app/page.tsx:24 | when the order route reads the stock as NaN, and so admits every order, the page shows 50000 |
| `HomePage.SavedRateIsShown` | src/app/page.tsx:23 | after the admin saves a rate text, the page prices a star at `parseFloat` of that text, or at 1.5 when that is NaN or zero |
| `HomePage.SavedStockIsShown` | src/app/page.tsx:24 | after the admin saves a stock text, the page shows `parseInt` of that text, or 50000 when that is NaN or zero |
| `HomePage.PagesDisagreeOnZeroStock` | src/app/page.tsx:24 | whenever the stock reads as 0, the storefront shows 50000; a stored text (which reads as 0) is shown as is on the admin page, and with no text both show 50000 |
| `OrdersTable.FilteredOrders` | src/app/admin/OrdersTable.tsx:17-25 | "all" keeps every order in order; a status filter keeps exactly the orders with that status, as an order-preserving subsequence |
| `OrdersTable.BadgeCountsStatus` | src/app/admin/OrdersTable.tsx:75-99 | a status badge is the number of orders with that status |
| `OrdersTable.BadgesAddUp` | src/app/admin/OrdersTable.tsx:69-99 | the five status badges add up to the "all" badge, which is the number of orders |
| `OrdersTable.ActionFor` | src/app/admin/OrdersTable.tsx:154-205 | WAITING_PAYMENT offers "simulate"; PAID and PENDING offer "complete"; COMPLETED and FAILED offer nothing |
| `OrdersTable.CompleteButtonSettlesRow` | src/app/admin/OrdersTable.tsx:27-37 | the "complete" button completes its order, after which the row offers nothing |

## Left out

- Network I/O is not modelled. The Bot API, the CryptoBot API and the username lookup are left
  out. Provider responses are inputs (`CryptoBot.RatesResponse`). Sent messages and Bot API
  calls are outputs (`Telegram.AdminMessage`, `TelegramWebhook.BotCall`). Delivery is assumed
  to succeed: a `fetch` that throws after the write is not modelled.
- SHA-256 and HMAC are parameters (`CryptoBot.Digests`); only the guard and the comparison are
  modelled.
- Floating point is not modelled: numbers are exact reals, so rounding in `1 / x`, `x * y`,
  `toFixed` and `parseFloat` is not captured.
- `toString` of a computed rate is not modelled: `CryptoBot.GetExchangeRates` returns the
  number itself (`NumberText`).
- `String(order.price)` and the ru-RU date text are parameters of `Telegram.NoticePieces`
  (`priceText`, `dateText`).
- `Telegram.SendMessageToAdmin`: the text passed to `Render` is modelled, but the Bot API's
  own MarkdownV2 parsing is not.
- `parseFloat` exponent notation is modelled up to the exponent's value; `Infinity` literals
  are parsed, but overflow to infinity is not.
- JSON parsing is not modelled. A body is given already parsed, with `None` for one that does
  not parse or is `null`. Fields of the wrong JSON type (a number where a string is expected)
  are not modelled.
- Object keys with special meaning to JavaScript objects, such as `__proto__`, are not
  modelled in the settings fold.
- A Telegram `chat` object without an `id` is not modelled: `editMessage` would then be called
  with `undefined`, which does not throw, and the press would be answered 200. A message in the
  model has either a chat id or no `chat` at all.
- `CryptoBot.DefaultRate`: a currency named like a property every JavaScript object inherits,
  such as `constructor`, finds a function in the rate table, so `defaultRates[currency] || 1`
  yields that function; the model treats it as an unknown currency with rate 1.
- `CryptoBot.MinAmountFor`: an asset named like an inherited object property, such as
  `constructor`, finds a function in the minimum table, so `minAmounts[asset] || 0.01` yields
  that function; the model treats it as an unlisted asset with minimum 0.01.
- `revalidatePath`, logging, timestamps and the `createdAt` ordering of `findMany` are not
  modelled. Rows are given in the order the ORM returns them.
- The simulate-payment route, the crypto order creation and the code that sets invoice ids
  are not part of this model. WAITING_PAYMENT and PAID orders and invoice ids enter only
  through the store's seed state (`Db.Store.constructor`). New order ids are an input of the
  order route.
- `Middleware.Guard` is the middleware function itself. The `matcher` config, which keeps
  Next.js from calling it outside `/admin/...`, is not modelled.
- `CryptoBot.CreateInvoice`: a NaN or infinite amount is not modelled; amounts are reals.
- `CryptobotWebhook.HandleWebhook`: the event is given parsed. An `invoice_id` number is given
  as its `String(...)` text.
- Concurrency between requests is not modelled. Each transaction is one atomic step, as the
  database's transaction provides.
