/** The operator notification sent through the Telegram bot: MarkdownV2 escaping, the text of
    the "new order" message, and the inline button whose callback data names the order. */
module Telegram {
  import opened Wrappers
  import JsText
  import opened Db

  /** The characters `escapeMarkdownV2` puts a backslash in front of. */
  const Reserved := "_*[]()~`>#+-=|{}.!"

  predicate IsReserved(c: char) {
    || c == '_' || c == '*' || c == '[' || c == ']' || c == '(' || c == ')'
    || c == '~' || c == '`' || c == '>' || c == '#' || c == '+' || c == '-'
    || c == '=' || c == '|' || c == '{' || c == '}' || c == '.' || c == '!'
  }

  /** `IsReserved` is membership in `Reserved`: exactly 18 characters, the backslash not among them. */
  lemma ReservedCharacters()
    ensures |Reserved| == 18 && '\\' !in Reserved
    ensures forall c :: IsReserved(c) <==> c in Reserved
  {
  }

  /** The number of reserved characters in `s`. */
  function ReservedCount(s: string): nat {
    if s == [] then 0 else (if IsReserved(s[0]) then 1 else 0) + ReservedCount(s[1..])
  }

  /** What `escapeMarkdownV2` turns one character into. */
  function EscapeChar(c: char): (r: string)
    ensures |r| >= 1 && r[|r| - 1] == c && !IsReserved(r[0])
    ensures IsReserved(c) <==> |r| == 2
  {
    if IsReserved(c) then ['\\', c] else [c]
  }

  /** `escapeMarkdownV2`: every reserved character gets a backslash in front of it; every other
      character, the backslash included, is copied as it is. */
  function EscapeMarkdownV2(s: string): (r: string)
    ensures |r| == |s| + ReservedCount(s)
    ensures (forall i :: 0 <= i < |s| ==> !IsReserved(s[i])) ==> r == s
    ensures |r| > 0 ==> !IsReserved(r[0])
  {
    if s == [] then []
    else EscapeChar(s[0]) + EscapeMarkdownV2(s[1..])
  }

  lemma {:induction false} EscapedAt(s: string, i: nat)
    requires i < |EscapeMarkdownV2(s)| && IsReserved(EscapeMarkdownV2(s)[i])
    ensures i > 0 && EscapeMarkdownV2(s)[i - 1] == '\\'
  {
    var head, tail := EscapeChar(s[0]), EscapeMarkdownV2(s[1..]);
    var r := head + tail;
    assert r == EscapeMarkdownV2(s);
    if i < |head| {
      assert r[i] == head[i];
    } else {
      assert r[i] == tail[i - |head|];
      if i > |head| {
        EscapedAt(s[1..], i - |head|);
        assert r[i - 1] == tail[i - 1 - |head|];
      }
    }
  }

  /** In the escaped text every reserved character comes right after a backslash. */
  lemma ReservedAreEscaped(s: string)
    ensures var r := EscapeMarkdownV2(s);
      forall i :: 0 <= i < |r| && IsReserved(r[i]) ==> i > 0 && r[i - 1] == '\\'
  {
    forall i | 0 <= i < |EscapeMarkdownV2(s)| && IsReserved(EscapeMarkdownV2(s)[i]) {
      EscapedAt(s, i);
    }
  }

  /** Drops each backslash that directly precedes a reserved character. */
  function UnescapeMarkdownV2(r: string): (s: string)
    ensures |s| <= |r|
  {
    if r == [] then []
    else if |r| >= 2 && r[0] == '\\' && IsReserved(r[1]) then [r[1]] + UnescapeMarkdownV2(r[2..])
    else [r[0]] + UnescapeMarkdownV2(r[1..])
  }

  lemma UnescapeEscapedHead(c: char, tail: string)
    requires IsReserved(c)
    ensures UnescapeMarkdownV2(['\\', c] + tail) == [c] + UnescapeMarkdownV2(tail)
  {
    var r := ['\\', c] + tail;
    assert r[0] == '\\' && r[1] == c && r[2..] == tail;
  }

  lemma UnescapePlainHead(c: char, tail: string)
    requires !IsReserved(c) && (tail == [] || !IsReserved(tail[0]))
    ensures UnescapeMarkdownV2([c] + tail) == [c] + UnescapeMarkdownV2(tail)
  {
    var r := [c] + tail;
    assert r[0] == c && r[1..] == tail;
    assert |r| >= 2 ==> r[1] == tail[0];
  }

  /** Escaping loses nothing: unescaping the escaped text gives the original back, whatever
      backslashes the original already held. */
  lemma {:induction false} UnescapeEscape(s: string)
    ensures UnescapeMarkdownV2(EscapeMarkdownV2(s)) == s
  {
    if s != [] {
      var tail := EscapeMarkdownV2(s[1..]);
      UnescapeEscape(s[1..]);
      assert EscapeMarkdownV2(s) == EscapeChar(s[0]) + tail;
      if IsReserved(s[0]) {
        assert EscapeChar(s[0]) == ['\\', s[0]];
        UnescapeEscapedHead(s[0], tail);
      } else {
        assert EscapeChar(s[0]) == [s[0]];
        UnescapePlainHead(s[0], tail);
      }
      assert s == [s[0]] + s[1..];
    }
  }

  /** The prefix of the inline button's callback data. */
  const CallbackPrefix := "complete_order_"

  /** The callback data of the "done" button under the notification for order `id`. */
  function CallbackData(id: string): (data: string)
    ensures |data| == |CallbackPrefix| + |id|
    ensures JsText.StartsWith(data, CallbackPrefix) && data[|CallbackPrefix|..] == id
  {
    CallbackPrefix + id
  }

  /** One stretch of the notification text: template text written as it is, a field passed
      through `EscapeMarkdownV2`, or a field inserted raw. */
  datatype Piece = Markup(text: string) | Escaped(field: string) | Raw(field: string)

  function Render(pieces: seq<Piece>): string {
    if pieces == [] then ""
    else
      var first := match pieces[0]
        case Markup(t) => t
        case Escaped(f) => EscapeMarkdownV2(f)
        case Raw(f) => f;
      first + Render(pieces[1..])
  }

  /** The fields that are escaped, in order of appearance. */
  function EscapedFields(pieces: seq<Piece>): seq<string> {
    if pieces == [] then []
    else (if pieces[0].Escaped? then [pieces[0].field] else []) + EscapedFields(pieces[1..])
  }

  /** The fields that are inserted raw, in order of appearance. */
  function RawFields(pieces: seq<Piece>): seq<string> {
    if pieces == [] then []
    else (if pieces[0].Raw? then [pieces[0].field] else []) + RawFields(pieces[1..])
  }

  lemma {:induction false} FieldsOfAppend(a: seq<Piece>, b: seq<Piece>)
    ensures EscapedFields(a + b) == EscapedFields(a) + EscapedFields(b)
    ensures RawFields(a + b) == RawFields(a) + RawFields(b)
  {
    if a != [] {
      FieldsOfAppend(a[1..], b);
      assert (a + b)[0] == a[0];
      assert (a + b)[1..] == a[1..] + b;
    } else {
      assert a + b == b;
    }
  }

  /** Template text followed by one field. */
  function Field(markup: string, field: Piece): (p: seq<Piece>)
    requires !field.Markup?
    ensures EscapedFields(p) == if field.Escaped? then [field.field] else []
    ensures RawFields(p) == if field.Raw? then [field.field] else []
  {
    var p := [Markup(markup), field];
    assert p[1..] == [field] && [field][1..] == [];
    assert EscapedFields([field]) == (if field.Escaped? then [field.field] else []) + EscapedFields([]);
    assert RawFields([field]) == (if field.Raw? then [field.field] else []) + RawFields([]);
    p
  }

  /** `pieces` followed by template text and one more field. */
  function Then(pieces: seq<Piece>, markup: string, field: Piece): (p: seq<Piece>)
    requires !field.Markup?
    ensures EscapedFields(p) == EscapedFields(pieces) + if field.Escaped? then [field.field] else []
    ensures RawFields(p) == RawFields(pieces) + if field.Raw? then [field.field] else []
  {
    FieldsOfAppend(pieces, Field(markup, field));
    pieces + Field(markup, field)
  }

  /** `pieces` followed by closing template text. */
  function Close(pieces: seq<Piece>, markup: string): (p: seq<Piece>)
    ensures EscapedFields(p) == EscapedFields(pieces) && RawFields(p) == RawFields(pieces)
  {
    FieldsOfAppend(pieces, [Markup(markup)]);
    assert [Markup(markup)][1..] == [];
    pieces + [Markup(markup)]
  }

  /** The "new order" message. The buyer's name, the price, the payment method and the date
      are escaped; the username (inside a link target and a code span), the number of stars and
      the order id (inside a code span) are inserted raw. `priceText` is `String(order.price)`
      and `dateText` the order's creation time as the ru-RU locale prints it. */
  function NoticePieces(order: Order, paymentMethod: string, priceText: string, dateText: string): (p: seq<Piece>)
    ensures EscapedFields(p) == [order.telegramName, priceText, paymentMethod, dateText]
    ensures RawFields(p) == [order.telegramUsername, order.telegramUsername, JsText.IntToString(order.stars), order.id]
  {
    var p1 := Then([], "\n*Новый заказ \\!* \U{1F6D2}\n\n*Пользователь:* [", Escaped(order.telegramName));
    assert EscapedFields(p1) == [order.telegramName];
    assert RawFields(p1) == [];
    var p2 := Then(p1, "](https://t.me/", Raw(order.telegramUsername));
    assert EscapedFields(p2) == [order.telegramName];
    assert RawFields(p2) == [order.telegramUsername];
    var p3 := Then(p2, ") \\(`@", Raw(order.telegramUsername));
    assert EscapedFields(p3) == [order.telegramName];
    assert RawFields(p3) == [order.telegramUsername, order.telegramUsername];
    var p4 := Then(p3, "`\\)\n*Заказ:* *", Raw(JsText.IntToString(order.stars)));
    assert EscapedFields(p4) == [order.telegramName];
    assert RawFields(p4) == [order.telegramUsername, order.telegramUsername, JsText.IntToString(order.stars)];
    var p5 := Then(p4, "* \U{2B50}\U{FE0F} за *", Escaped(priceText));
    assert EscapedFields(p5) == [order.telegramName, priceText];
    assert RawFields(p5) == [order.telegramUsername, order.telegramUsername, JsText.IntToString(order.stars)];
    var p6 := Then(p5, "* \U{20BD}\n*Способ оплаты:* ", Escaped(paymentMethod));
    assert EscapedFields(p6) == [order.telegramName, priceText, paymentMethod];
    assert RawFields(p6) == [order.telegramUsername, order.telegramUsername, JsText.IntToString(order.stars)];
    var p7 := Then(p6, "\n*ID заказа:* `", Raw(order.id));
    assert EscapedFields(p7) == [order.telegramName, priceText, paymentMethod];
    assert RawFields(p7) == [order.telegramUsername, order.telegramUsername, JsText.IntToString(order.stars), order.id];
    var p8 := Then(p7, "`\n*Время:* ", Escaped(dateText));
    assert EscapedFields(p8) == [order.telegramName, priceText, paymentMethod, dateText];
    assert RawFields(p8) == [order.telegramUsername, order.telegramUsername, JsText.IntToString(order.stars), order.id];
    Close(p8, "\n  ")
  }

  /** One call of `sendMessageToAdmin`: the order and the payment method shown. */
  datatype Notice = Notice(order: Order, paymentMethod: string)

  /** The bot's environment: `TELEGRAM_BOT_TOKEN` and `TELEGRAM_CHAT_ID` (`None` when unset). */
  datatype BotConfig = BotConfig(token: Option<string>, chatId: Option<string>)

  datatype InlineButton = InlineButton(text: string, callbackData: string)

  /** The `sendMessage` request: chat, text, parse mode and the one-button keyboard. */
  datatype AdminMessage = AdminMessage(chatId: string, text: string, parseMode: string, button: InlineButton)

  /** `sendMessageToAdmin`: the request it sends, or `None` when the bot is not configured and
      it returns without sending. Whatever the delivery does, nothing is thrown to the caller,
      so the caller's reply never depends on it. */
  function SendMessageToAdmin(config: BotConfig, order: Order, paymentMethod: string, priceText: string, dateText: string): (m: Option<AdminMessage>)
    ensures m.None? <==> !JsText.IsTruthy(config.token) || !JsText.IsTruthy(config.chatId)
    ensures m.Some? ==> m.value.chatId == config.chatId.value && m.value.parseMode == "MarkdownV2"
    ensures m.Some? ==> m.value.text == Render(NoticePieces(order, paymentMethod, priceText, dateText))
    ensures m.Some? ==> m.value.button == InlineButton("\U{2705} Выполнено", CallbackData(order.id))
  {
    if !JsText.IsTruthy(config.token) || !JsText.IsTruthy(config.chatId) then None
    else
      var text := Render(NoticePieces(order, paymentMethod, priceText, dateText));
      Some(AdminMessage(config.chatId.value, text, "MarkdownV2", InlineButton("\U{2705} Выполнено", CallbackData(order.id))))
  }
}
