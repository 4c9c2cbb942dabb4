/** `POST /api/telegram-webhook`: the operator presses the "done" button under a notification;
    Telegram sends the button's callback data, the handler completes the order if it is still
    PENDING, appends a status line to the notification and acknowledges the press. */
module TelegramWebhook {
  import opened Wrappers
  import JsText
  import opened Db
  import Telegram

  /** The `message` the button was attached to: its chat's id, its id and its text. `chatId` is
      `None` when the message has no `chat` object, and `text` is `None` when it has no text. */
  datatype TgMessage = TgMessage(chatId: Option<int>, messageId: int, text: Option<string>)

  /** `callback_query`: the query id, its `data` and its `message` (`None` when absent). */
  datatype CallbackQuery = CallbackQuery(id: string, data: Option<string>, message: Option<TgMessage>)

  /** The parsed body: `callbackQuery` is `None` for every update that is not a button press. */
  datatype Update = Update(callbackQuery: Option<CallbackQuery>)

  /** The two Bot API calls the handler makes after a successful update. */
  datatype BotCall =
    | EditMessageText(chatId: int, messageId: int, text: string, parseMode: string)
    | AnswerCallbackQuery(callbackQueryId: string, text: string)

  datatype Reply = Ok | ServerError {
    function Code(): int {
      if Ok? then 200 else 500
    }
  }

  /** The tables after the request, the reply, and the Bot API calls made, in order. */
  datatype Outcome = Outcome(state: State, reply: Reply, calls: seq<BotCall>)

  /** The line appended to the notification once the order is completed. */
  const CompletedMark := "\n\n*СТАТУС: \U{2705} ВЫПОЛНЕН*"

  /** The text of the answer to the button press. */
  const Acknowledgement := "Статус заказа обновлен!"

  /** `data.replace("complete_order_", "")` behind the `startsWith` test: the order id the
      callback data names, or `None` when it does not carry the prefix. */
  function OrderIdOf(data: string): (id: Option<string>)
    ensures id.Some? <==> JsText.StartsWith(data, Telegram.CallbackPrefix)
    ensures id.Some? ==> data == Telegram.CallbackData(id.value)
  {
    if JsText.StartsWith(data, Telegram.CallbackPrefix) then
      JsText.ReplaceLeadingPrefix(data, Telegram.CallbackPrefix);
      assert data == data[..|Telegram.CallbackPrefix|] + data[|Telegram.CallbackPrefix|..];
      Some(JsText.ReplaceFirst(data, Telegram.CallbackPrefix, ""))
    else None
  }

  /** The callback data of the notification's button names the order it was built for. */
  lemma CallbackDataRoundTrip(id: string)
    ensures OrderIdOf(Telegram.CallbackData(id)) == Some(id)
  {
    var data := Telegram.CallbackData(id);
    JsText.ReplaceLeadingPrefix(data, Telegram.CallbackPrefix);
  }

  /** Every notification with a button carries the callback data that names its order. */
  lemma NoticeButtonNamesOrder(config: Telegram.BotConfig, order: Order, paymentMethod: string, priceText: string, dateText: string)
    requires Telegram.SendMessageToAdmin(config, order, paymentMethod, priceText, dateText).Some?
    ensures OrderIdOf(Telegram.SendMessageToAdmin(config, order, paymentMethod, priceText, dateText).value.button.callbackData) == Some(order.id)
  {
    CallbackDataRoundTrip(order.id);
  }

  /** The handler. `body` is `None` when the body is not JSON or is `null`. A press whose data
      or message is missing throws before anything is written; the guarded `order.update`
      throws unless the order exists and is PENDING; a missing `chat` throws only after the
      update has been written. */
  function HandleUpdate(st: State, body: Option<Update>): (out: Outcome)
    ensures out.state.settings == st.settings && out.state.orders.Keys == st.orders.Keys
    ensures forall k :: k in st.orders ==>
      (|| out.state.orders[k] == st.orders[k]
       || (st.orders[k].status == Pending && out.state.orders[k] == st.orders[k].(status := Completed)))
    ensures out.calls != [] ==> out.reply.Ok? && out.state != st && |out.calls| == 2
    ensures out.reply.Ok? && out.state != st ==> out.calls != []
    ensures body.None? ==> out == Outcome(st, ServerError, [])
    ensures body.Some? && body.value.callbackQuery.None? ==> out == Outcome(st, Ok, [])
  {
    if body.None? then Outcome(st, ServerError, [])
    else if body.value.callbackQuery.None? then Outcome(st, Ok, [])
    else
      var q := body.value.callbackQuery.value;
      if q.message.None? || q.data.None? then Outcome(st, ServerError, [])
      else
        match OrderIdOf(q.data.value)
        case None => Outcome(st, Ok, [])
        case Some(id) =>
          if id !in st.orders || st.orders[id].status != Pending then Outcome(st, ServerError, [])
          else
            var done := st.(orders := st.orders[id := st.orders[id].(status := Completed)]);
            assert done.orders[id] != st.orders[id];
            var m := q.message.value;
            if m.chatId.None? then Outcome(done, ServerError, [])
            else
              var edit := EditMessageText(m.chatId.value, m.messageId, JsText.StringOf(m.text) + CompletedMark, "MarkdownV2");
              Outcome(done, Ok, [edit, AnswerCallbackQuery(q.id, Acknowledgement)])
  }

  /** A button press: the callback query built from its parts. */
  function Press(queryId: string, data: string, chatId: int, messageId: int, text: string): Option<Update> {
    Some(Update(Some(CallbackQuery(queryId, Some(data), Some(TgMessage(Some(chatId), messageId, Some(text)))))))
  }

  /** Pressing the button under the notification of a PENDING order completes that order,
      edits the notification to end with the status line and answers the press. */
  lemma PressCompletesPendingOrder(st: State, id: string, queryId: string, chatId: int, messageId: int, text: string)
    requires id in st.orders && st.orders[id].status == Pending
    ensures var out := HandleUpdate(st, Press(queryId, Telegram.CallbackData(id), chatId, messageId, text));
      && out.reply == Ok
      && out.state == st.(orders := st.orders[id := st.orders[id].(status := Completed)])
      && out.calls == [EditMessageText(chatId, messageId, text + CompletedMark, "MarkdownV2"),
                       AnswerCallbackQuery(queryId, Acknowledgement)]
  {
    CallbackDataRoundTrip(id);
  }

  /** A press naming an order that is missing or no longer PENDING fails with 500 before any
      Bot API call, and changes nothing. */
  lemma PressOnSettledOrderFails(st: State, id: string, queryId: string, chatId: int, messageId: int, text: string)
    requires id !in st.orders || st.orders[id].status != Pending
    ensures HandleUpdate(st, Press(queryId, Telegram.CallbackData(id), chatId, messageId, text)) == Outcome(st, ServerError, [])
  {
    CallbackDataRoundTrip(id);
  }

  /** Pressing the same button twice: the second press finds the order COMPLETED, fails with 500
      and changes nothing. */
  lemma SecondPressChangesNothing(st: State, id: string, queryId: string, chatId: int, messageId: int, text: string)
    requires id in st.orders && st.orders[id].status == Pending
    ensures var press := Press(queryId, Telegram.CallbackData(id), chatId, messageId, text);
      var first := HandleUpdate(st, press);
      HandleUpdate(first.state, press) == Outcome(first.state, ServerError, [])
  {
    PressCompletesPendingOrder(st, id, queryId, chatId, messageId, text);
    var first := HandleUpdate(st, Press(queryId, Telegram.CallbackData(id), chatId, messageId, text));
    PressOnSettledOrderFails(first.state, id, queryId, chatId, messageId, text);
  }

  /** Callback data without the prefix is ignored: 200, nothing written, no Bot API call. */
  lemma ForeignDataIgnored(st: State, queryId: string, data: string, message: TgMessage)
    requires !JsText.StartsWith(data, Telegram.CallbackPrefix)
    ensures HandleUpdate(st, Some(Update(Some(CallbackQuery(queryId, Some(data), Some(message)))))) == Outcome(st, Ok, [])
  {
  }

  /** A failed update (500 without a write) never edits the notification. */
  lemma FailureMakesNoCalls(st: State, body: Option<Update>)
    ensures HandleUpdate(st, body).reply == ServerError ==> HandleUpdate(st, body).calls == []
  {
  }

  /** Completing an order keeps the tables well formed. */
  lemma TelegramWebhookKeepsWellFormed(st: State, body: Option<Update>)
    requires WellFormed(st)
    ensures WellFormed(HandleUpdate(st, body).state)
  {
    var after := HandleUpdate(st, body).state;
    forall k | k in after.orders
      ensures after.orders[k].id == k && after.orders[k].invoiceId == st.orders[k].invoiceId
    {
    }
  }

  /** The handler on the shared store: the guarded update is one in-place status write. */
  method Post(store: Store, body: Option<Update>) returns (reply: Reply, calls: seq<BotCall>)
    requires store.Valid()
    modifies store
    ensures store.Valid()
    ensures Outcome(store.Snapshot(), reply, calls) == HandleUpdate(old(store.Snapshot()), body)
  {
    TelegramWebhookKeepsWellFormed(store.Snapshot(), body);
    if body.None? {
      return ServerError, [];
    }
    if body.value.callbackQuery.None? {
      return Ok, [];
    }
    var q := body.value.callbackQuery.value;
    if q.message.None? || q.data.None? {
      return ServerError, [];
    }
    var parsed := OrderIdOf(q.data.value);
    if parsed.None? {
      return Ok, [];
    }
    var id := parsed.value;
    if id !in store.orders || store.orders[id].status != Pending {
      return ServerError, [];
    }
    store.orders := store.orders[id := store.orders[id].(status := Completed)];
    var m := q.message.value;
    if m.chatId.None? {
      // With no `chat`, reading `chat.id` throws after the write: the status change stays.
      return ServerError, [];
    }
    var text := JsText.StringOf(m.text) + CompletedMark;
    calls := [EditMessageText(m.chatId.value, m.messageId, text, "MarkdownV2"), AnswerCallbackQuery(q.id, Acknowledgement)];
    reply := Ok;
  }
}
