/** The Crypto Pay client: currency names, exchange-rate selection with its fallbacks, invoice
    validation and amount formatting, and the webhook signature check. The HTTP calls are not
    modelled: what the provider answered is an input. */
module CryptoBot {
  import opened Wrappers
  import JsText

  /** The assets the client knows. */
  const Supported: seq<string> := ["USDT", "TON", "BTC", "ETH", "LTC", "BNB", "TRX"]

  /** `normalizeCurrencyName`: a supported asset is kept, anything else becomes "TON". */
  function NormalizeCurrencyName(currency: string): (r: string)
    ensures r in Supported
    ensures r == currency <==> currency in Supported
    ensures currency !in Supported ==> r == "TON"
  {
    if currency in Supported then currency else "TON"
  }

  /** Normalising twice is normalising once. */
  lemma NormalizeIdempotent(currency: string)
    ensures NormalizeCurrencyName(NormalizeCurrencyName(currency)) == NormalizeCurrencyName(currency)
  {
  }

  /** One entry of the provider's `getExchangeRates` answer: 1 `source` = `rate` `target`. */
  datatype ExchangeRate = ExchangeRate(source: string, target: string, rate: string)

  /** The provider's answer: its `ok` flag and its `result` list (`None` when absent). */
  datatype RatesResponse = RatesResponse(ok: bool, result: Option<seq<ExchangeRate>>)

  predicate IsPair(r: ExchangeRate, source: string, target: string) {
    r.source == source && r.target == target
  }

  /** `rates[i]` is the entry `rates.find` returns for the pair: the first one that matches. */
  predicate IsFirst(rates: seq<ExchangeRate>, i: int, source: string, target: string) {
    && 0 <= i < |rates|
    && IsPair(rates[i], source, target)
    && forall j :: 0 <= j < i ==> !IsPair(rates[j], source, target)
  }

  predicate HasPair(rates: seq<ExchangeRate>, source: string, target: string) {
    exists i :: 0 <= i < |rates| && IsPair(rates[i], source, target)
  }

  /** `rates.find(r => r.source === source && r.target === target)`, searching from `from`. */
  function FindFrom(rates: seq<ExchangeRate>, source: string, target: string, from: nat): (i: Option<nat>)
    requires from <= |rates|
    requires forall j :: 0 <= j < from ==> !IsPair(rates[j], source, target)
    ensures i.Some? ==> IsFirst(rates, i.value, source, target)
    ensures i.None? <==> !HasPair(rates, source, target)
    decreases |rates| - from
  {
    if from == |rates| then None
    else if IsPair(rates[from], source, target) then Some(from)
    else FindFrom(rates, source, target, from + 1)
  }

  function Find(rates: seq<ExchangeRate>, source: string, target: string): (i: Option<nat>)
    ensures i.Some? ==> IsFirst(rates, i.value, source, target)
    ensures i.None? <==> !HasPair(rates, source, target)
  {
    FindFrom(rates, source, target, 0)
  }

  /** The fixed rates, in roubles, used when the provider cannot be asked. */
  const DefaultRates: map<string, real> := map[
    "TON" := 250.0, "USDT" := 78.0, "BTC" := 5000000.0, "ETH" := 300000.0,
    "BNB" := 45000.0, "TRX" := 25.0, "LTC" := 15000.0]

  /** `getDefaultRate`: the table value, or 1 for a currency the table does not list. */
  function DefaultRate(currency: string): (r: real)
    ensures currency in DefaultRates ==> r == DefaultRates[currency]
    ensures r == 1.0 <==> currency !in DefaultRates
    ensures r >= 1.0
  {
    if currency in DefaultRates then DefaultRates[currency] else 1.0
  }

  /** Every supported asset has a table rate. */
  lemma SupportedHaveDefaultRates(currency: string)
    requires currency in Supported
    ensures DefaultRate(currency) > 1.0
  {
  }

  /** `getExchangeRate(currency)`: the price of one unit in roubles. It never throws: with no
      token, an answer that could not be fetched or read, or `ok` false, it returns the
      default rate. Otherwise it takes the first currency->RUB entry; failing that the
      reciprocal of the first RUB->currency entry; failing that the product of the first
      currency->USD and USD->RUB entries; failing that the default rate. */
  function GetExchangeRate(currency: string, token: Option<string>, response: Result<RatesResponse>): (r: JsText.JsNumber)
    ensures !JsText.IsTruthy(token) || response.Failure? || !response.value.ok || response.value.result.None?
      ==> r == JsText.Finite(DefaultRate(currency))
    ensures JsText.IsTruthy(token) && response.Success? && response.value.ok && response.value.result.Some? ==>
      var rates := response.value.result.value;
      && (forall i :: IsFirst(rates, i, currency, "RUB") ==> r == JsText.ParseFloat(rates[i].rate))
      && (!HasPair(rates, currency, "RUB") ==>
           forall i :: IsFirst(rates, i, "RUB", currency) ==> r == JsText.Reciprocal(JsText.ParseFloat(rates[i].rate)))
      && (!HasPair(rates, currency, "RUB") && !HasPair(rates, "RUB", currency) ==>
           forall i, k :: IsFirst(rates, i, currency, "USD") && IsFirst(rates, k, "USD", "RUB") ==>
             r == JsText.Times(JsText.ParseFloat(rates[i].rate), JsText.ParseFloat(rates[k].rate)))
      && (!HasPair(rates, currency, "RUB") && !HasPair(rates, "RUB", currency)
          && (!HasPair(rates, currency, "USD") || !HasPair(rates, "USD", "RUB")) ==>
           r == JsText.Finite(DefaultRate(currency)))
  {
    if !JsText.IsTruthy(token) || response.Failure? || !response.value.ok || response.value.result.None? then
      JsText.Finite(DefaultRate(currency))
    else
      var rates := response.value.result.value;
      match Find(rates, currency, "RUB")
      case Some(i) => JsText.ParseFloat(rates[i].rate)
      case None =>
        match Find(rates, "RUB", currency)
        case Some(i) => JsText.Reciprocal(JsText.ParseFloat(rates[i].rate))
        case None =>
          match (Find(rates, currency, "USD"), Find(rates, "USD", "RUB"))
          case (Some(i), Some(k)) => JsText.Times(JsText.ParseFloat(rates[i].rate), JsText.ParseFloat(rates[k].rate))
          case _ => JsText.Finite(DefaultRate(currency))
  }

  /** The answer's `rate` field: a text copied from the provider or from the fallback table,
      or `n.toString()` of a computed number `n`. */
  datatype RateText = Verbatim(text: string) | NumberText(n: JsText.JsNumber)

  /** The object `getExchangeRates` returns (its constant flags left out). */
  datatype Quote = Quote(source: string, target: string, rate: RateText)

  /** The pair table `getExchangeRates` falls back on, keyed "SOURCE-TARGET". */
  const FallbackRates: map<string, string> := map[
    "TON-RUB" := "255.0", "USDT-RUB" := "77.0", "BTC-RUB" := "9000000.0", "ETH-RUB" := "280000.0"]

  /** `fallbackRates[key] || "100.0"`. */
  function FallbackRate(key: string): (r: string)
    ensures key in FallbackRates ==> r == FallbackRates[key]
    ensures key !in FallbackRates ==> r == "100.0"
  {
    if key in FallbackRates then FallbackRates[key] else "100.0"
  }

  const TokenMissing := "CryptoBot API token is not configured."
  const RatesFailed := "Failed to get exchange rates from CryptoBot."
  /** The TypeError thrown by `data.result.find` when the answer has no `result`. */
  const NoResult := "Cannot read properties of undefined (reading 'find')"

  /** `getExchangeRates(source = "TON", target = "RUB")`. Unlike `getExchangeRate` it throws
      when the token is missing, the answer cannot be fetched or read, or `ok` is false; it
      looks for the reversed pair target->source (and inverts it) BEFORE the direct pair
      source->target; then it tries source->USD times USD->target; then the pair table. The
      raw `source` is used throughout: its normalised name is only logged. */
  function GetExchangeRates(source: Option<string>, target: Option<string>, token: Option<string>, response: Result<RatesResponse>): (r: Result<Quote>)
    ensures !JsText.IsTruthy(token) ==> r == Failure(TokenMissing)
    ensures JsText.IsTruthy(token) && response.Failure? ==> r == Failure(response.error)
    ensures JsText.IsTruthy(token) && response.Success? && !response.value.ok ==> r == Failure(RatesFailed)
    ensures r.Success? ==> r.value.source == source.GetOr("TON") && r.value.target == target.GetOr("RUB")
    ensures r.Success? <==> JsText.IsTruthy(token) && response.Success? && response.value.ok && response.value.result.Some?
    ensures r.Success? ==>
      var (s, t, rates) := (source.GetOr("TON"), target.GetOr("RUB"), response.value.result.value);
      && (forall i :: IsFirst(rates, i, t, s) ==> r.value.rate == NumberText(JsText.Reciprocal(JsText.ParseFloat(rates[i].rate))))
      && (!HasPair(rates, t, s) ==> forall i :: IsFirst(rates, i, s, t) ==> r.value.rate == Verbatim(rates[i].rate))
      && (!HasPair(rates, t, s) && !HasPair(rates, s, t) ==>
           forall i, k :: IsFirst(rates, i, s, "USD") && IsFirst(rates, k, "USD", t) ==>
             r.value.rate == NumberText(JsText.Times(JsText.ParseFloat(rates[i].rate), JsText.ParseFloat(rates[k].rate))))
      && (!HasPair(rates, t, s) && !HasPair(rates, s, t) && (!HasPair(rates, s, "USD") || !HasPair(rates, "USD", t)) ==>
           r.value.rate == Verbatim(FallbackRate(s + "-" + t)))
  {
    var s, t := source.GetOr("TON"), target.GetOr("RUB");
    if !JsText.IsTruthy(token) then Failure(TokenMissing)
    else if response.Failure? then Failure(response.error)
    else if !response.value.ok then Failure(RatesFailed)
    else if response.value.result.None? then Failure(NoResult)
    else
      var rates := response.value.result.value;
      match Find(rates, t, s)
      case Some(i) => Success(Quote(s, t, NumberText(JsText.Reciprocal(JsText.ParseFloat(rates[i].rate)))))
      case None =>
        match Find(rates, s, t)
        case Some(i) => Success(Quote(s, t, Verbatim(rates[i].rate)))
        case None =>
          match (Find(rates, s, "USD"), Find(rates, "USD", t))
          case (Some(i), Some(k)) =>
            Success(Quote(s, t, NumberText(JsText.Times(JsText.ParseFloat(rates[i].rate), JsText.ParseFloat(rates[k].rate)))))
          case _ => Success(Quote(s, t, Verbatim(FallbackRate(s + "-" + t))))
  }

  /** When the answer lists both a TON->RUB and a RUB->TON entry, the two rate functions
      disagree on which one they use: `getExchangeRate` takes the direct entry and
      `getExchangeRates` inverts the reversed one. */
  lemma OppositePriorities(token: Option<string>, rates: seq<ExchangeRate>, i: nat, k: nat)
    requires JsText.IsTruthy(token)
    requires IsFirst(rates, i, "TON", "RUB") && IsFirst(rates, k, "RUB", "TON")
    ensures GetExchangeRate("TON", token, Success(RatesResponse(true, Some(rates)))) == JsText.ParseFloat(rates[i].rate)
    ensures GetExchangeRates(None, None, token, Success(RatesResponse(true, Some(rates))))
      == Success(Quote("TON", "RUB", NumberText(JsText.Reciprocal(JsText.ParseFloat(rates[k].rate)))))
  {
  }

  /** The smallest amount `createInvoice` accepts for an asset, and how `String` prints it. */
  datatype MinAmount = MinAmount(value: real, text: string)

  /** The per-asset minimums, keyed by the asset name exactly as given. */
  const MinAmounts: map<string, MinAmount> := map[
    "TON" := MinAmount(0.01, "0.01"), "USDT" := MinAmount(1.0, "1"),
    "BTC" := MinAmount(0.00001, "0.00001"), "ETH" := MinAmount(0.001, "0.001"),
    "BNB" := MinAmount(0.01, "0.01"), "TRX" := MinAmount(1.0, "1"), "LTC" := MinAmount(0.001, "0.001")]

  /** `minAmounts[asset] || 0.01`: the raw asset name is looked up, so an asset the table does
      not list (including a lower-case spelling of a listed one) gets 0.01. */
  function MinAmountFor(asset: string): (m: MinAmount)
    ensures asset in MinAmounts ==> m == MinAmounts[asset]
    ensures asset !in MinAmounts ==> m == MinAmount(0.01, "0.01")
    ensures m.value > 0.0
  {
    if asset in MinAmounts then MinAmounts[asset] else MinAmount(0.01, "0.01")
  }

  /** `t` is what `/\.?0+$/` matches when anchored at its start: an optional dot followed by one
      or more zeros and nothing else. */
  predicate IsZeroTail(t: string) {
    if |t| > 0 && t[0] == '.' then IsZeros(t[1..]) else IsZeros(t)
  }

  /** One or more zeros. */
  predicate IsZeros(z: string) {
    |z| >= 1 && forall i :: 0 <= i < |z| ==> z[i] == '0'
  }

  /** Where the regular expression `/\.?0+$/` first matches in `s`, looking from `from` on. */
  function ZeroTailFrom(s: string, from: nat): (i: Option<nat>)
    requires from <= |s|
    ensures i.Some? ==> from <= i.value <= |s| && IsZeroTail(s[i.value..])
    ensures i.Some? ==> forall j :: from <= j < i.value ==> !IsZeroTail(s[j..])
    ensures i.None? ==> forall j :: from <= j <= |s| ==> !IsZeroTail(s[j..])
    decreases |s| - from
  {
    if IsZeroTail(s[from..]) then Some(from)
    else if from == |s| then None
    else ZeroTailFrom(s, from + 1)
  }

  /** `s.replace(/\.?0+$/, '')`: the first match, which runs to the end of `s`, is deleted. */
  function StripZeroTail(s: string): string {
    match ZeroTailFrom(s, 0)
    case None => s
    case Some(i) => s[..i]
  }

  /** `f` without its trailing zeros. */
  function DropTrailingZeros(f: string): (t: string)
    ensures |t| <= |f| && t == f[..|t|]
    ensures forall i :: |t| <= i < |f| ==> f[i] == '0'
    ensures t == [] || t[|t| - 1] != '0'
  {
    if f == [] || f[|f| - 1] != '0' then f else DropTrailingZeros(f[..|f| - 1])
  }

  /** `amount.toFixed(8).replace(/\.?0+$/, '')`. */
  function FormatAmount(amount: real): string {
    StripZeroTail(JsText.ToFixed(amount, 8))
  }

  /** A character other than a zero, past any leading dot, spoils a zero tail. */
  lemma NotZeroTail(x: string, k: nat)
    requires k < |x| && x[k] != '0' && (k > 0 || x[k] != '.')
    ensures !IsZeroTail(x)
  {
    if x[0] == '.' {
      assert x[1..][k - 1] == x[k];
    } else {
      assert !IsZeros(x);
    }
  }

  /** The first zero tail is the one at `i` when none starts earlier. */
  lemma ZeroTailAt(s: string, i: nat)
    requires i <= |s| && IsZeroTail(s[i..])
    requires forall j :: 0 <= j < i ==> !IsZeroTail(s[j..])
    ensures ZeroTailFrom(s, 0) == Some(i)
  {
  }

  /** In `head + "." + f`, where `head` holds no dot, no zero tail starts before the last
      digit of `f` that is not a zero. */
  lemma {:induction false} NoEarlyZeroTail(head: string, f: string)
    requires forall i :: 0 <= i < |head| ==> head[i] != '.'
    requires forall i :: 0 <= i < |f| ==> JsText.IsDigit(f[i])
    ensures var s := head + "." + f;
      forall j :: 0 <= j < |head| + 1 + |DropTrailingZeros(f)| && (j < |head| || DropTrailingZeros(f) != []) ==>
        !IsZeroTail(s[j..])
  {
    var s := head + "." + f;
    var t := DropTrailingZeros(f);
    var d := |head|;
    forall j | 0 <= j < d
      ensures !IsZeroTail(s[j..])
    {
      assert s[j..][d - j] == '.';
      NotZeroTail(s[j..], d - j);
    }
    forall j | d <= j < d + 1 + |t| && t != []
      ensures !IsZeroTail(s[j..])
    {
      var last := d + |t|;
      assert s[last] == f[|t| - 1] == t[|t| - 1];
      assert s[j..][last - j] == s[last];
      if j > d {
        assert s[j..][0] == f[j - d - 1];
      }
      NotZeroTail(s[j..], last - j);
    }
  }

  /** Where the first zero tail of `head + "." + f` starts, when `head` holds no dot: at the
      dot when `f` is all zeros, after the last digit of `f` that is not a zero otherwise, and
      nowhere when `f` does not end in a zero. */
  lemma {:induction false} ZeroTailOfDecimal(head: string, f: string)
    requires forall i :: 0 <= i < |head| ==> head[i] != '.'
    requires forall i :: 0 <= i < |f| ==> JsText.IsDigit(f[i])
    ensures var s := head + "." + f;
      var t := DropTrailingZeros(f);
      && (t == [] && f != [] ==> ZeroTailFrom(s, 0) == Some(|head|))
      && (t == f ==> ZeroTailFrom(s, 0).None?)
      && (t != [] && t != f ==> ZeroTailFrom(s, 0) == Some(|head| + 1 + |t|))
  {
    var s := head + "." + f;
    var t := DropTrailingZeros(f);
    var d := |head|;
    NoEarlyZeroTail(head, f);
    if t == [] && f != [] {
      assert s[d..][1..] == f;
      assert IsZeros(f);
      ZeroTailAt(s, d);
    } else if t == f {
      assert !IsZeroTail(s[|s|..]);
    } else if t != [] {
      assert s[d + 1 + |t|..] == f[|t|..];
      assert IsZeros(f[|t|..]);
      ZeroTailAt(s, d + 1 + |t|);
    }
  }

  lemma SignedDigitsHaveNoDot(negative: bool, whole: string)
    requires JsText.AllDigits(whole)
    ensures var head := (if negative then "-" else "") + whole;
      forall i :: 0 <= i < |head| ==> head[i] != '.'
  {
    var head := (if negative then "-" else "") + whole;
    forall i | 0 <= i < |head|
      ensures head[i] != '.'
    {
      if negative && i == 0 {
        assert head[i] == '-';
      } else {
        assert head[i] == whole[if negative then i - 1 else i];
      }
    }
  }

  lemma StripAt(s: string, k: nat)
    requires ZeroTailFrom(s, 0) == Some(k)
    ensures k <= |s| && StripZeroTail(s) == s[..k]
  {
  }

  lemma PrefixOfAppend(a: string, b: string, k: nat)
    requires k <= |b|
    ensures (a + b)[..|a| + k] == a + b[..k]
  {
  }

  lemma StripNone(s: string)
    requires ZeroTailFrom(s, 0).None?
    ensures StripZeroTail(s) == s
  {
  }

  /** Stripping the zero tail of `head + "." + f`, where `head` holds no dot and `f` is a
      non-empty run of digits, drops the trailing zeros of `f`, and the dot too when no digit of
      `f` is left. */
  lemma StripDecimal(head: string, f: string)
    requires forall i :: 0 <= i < |head| ==> head[i] != '.'
    requires |f| >= 1 && JsText.AllDigits(f)
    ensures var t := DropTrailingZeros(f);
      StripZeroTail(head + "." + f) == if t == [] then head else head + "." + t
  {
    var s := head + "." + f;
    var t := DropTrailingZeros(f);
    ZeroTailOfDecimal(head, f);
    if t == [] {
      StripAt(s, |head|);
      PrefixOfAppend(head, "." + f, 0);
    } else if t == f {
      StripNone(s);
    } else {
      StripAt(s, |head| + 1 + |t|);
      PrefixOfAppend(head + ".", f, |t|);
    }
  }

  /** Stripping the zero tail of a `toFixed` text keeps its sign and whole part; it drops the
      trailing zeros of the fraction, and the dot too when no digit of the fraction is left. */
  lemma StripFixedText(p: JsText.Fixed)
    requires |p.whole| >= 1 && JsText.AllDigits(p.whole)
    requires |p.frac| >= 1 && JsText.AllDigits(p.frac)
    ensures var t := DropTrailingZeros(p.frac);
      StripZeroTail(p.Text()) == (if p.negative then "-" else "") + p.whole + (if t == [] then "" else "." + t)
  {
    var head := (if p.negative then "-" else "") + p.whole;
    assert p.Text() == head + "." + p.frac;
    SignedDigitsHaveNoDot(p.negative, p.whole);
    StripDecimal(head, p.frac);
  }

  /** Formatting keeps the sign and the whole part of `toFixed(8)` as they are; it drops the
      trailing zeros of the fraction, and the dot too when no digit of the fraction is left. */
  lemma FormatAmountKeepsWholePart(amount: real)
    ensures var p := JsText.ToFixedParts(amount, 8);
      var t := DropTrailingZeros(p.frac);
      FormatAmount(amount) == (if p.negative then "-" else "") + p.whole + (if t == [] then "" else "." + t)
  {
    StripFixedText(JsText.ToFixedParts(amount, 8));
  }

  /** The request body `createInvoice` posts. `orderId` stands for the `payload` field, the
      JSON text of `{ orderId }`. */
  datatype InvoiceRequest = InvoiceRequest(asset: string, amount: string, description: string, orderId: string, expiresIn: int)

  /** `Покупка Stars (Заказ #<first 8 characters of the id>)`. */
  function InvoiceDescription(orderId: string): (d: string)
    ensures |orderId| <= 8 ==> d == "Покупка Stars (Заказ #" + orderId + ")"
    ensures |orderId| > 8 ==> d == "Покупка Stars (Заказ #" + orderId[..8] + ")"
  {
    var shown := if |orderId| <= 8 then orderId else orderId[..8];
    "Покупка Stars (Заказ #" + shown + ")"
  }

  /** `createInvoice(amount, orderId, asset = "TON")` up to the request: the body it posts, or
      the error it throws before posting. The token is checked first, then `amount <= 0`, then
      the minimum for the raw asset name; the asset is sent as given, not normalised. */
  function CreateInvoice(amount: real, orderId: string, asset: Option<string>, token: Option<string>): (r: Result<InvoiceRequest>)
    ensures !JsText.IsTruthy(token) ==> r == Failure(TokenMissing)
    ensures JsText.IsTruthy(token) && amount <= 0.0 ==> r == Failure("Amount must be greater than 0")
    ensures r.Success? <==> JsText.IsTruthy(token) && amount > 0.0 && amount >= MinAmountFor(asset.GetOr("TON")).value
    ensures JsText.IsTruthy(token) && 0.0 < amount < MinAmountFor(asset.GetOr("TON")).value ==>
      r == Failure("Minimum amount for " + asset.GetOr("TON") + " is " + MinAmountFor(asset.GetOr("TON")).text)
    ensures r.Success? ==> r.value == InvoiceRequest(asset.GetOr("TON"), FormatAmount(amount), InvoiceDescription(orderId), orderId, 3600)
  {
    var name := asset.GetOr("TON");
    if !JsText.IsTruthy(token) then Failure(TokenMissing)
    else if amount <= 0.0 then Failure("Amount must be greater than 0")
    else
      var min := MinAmountFor(name);
      if amount < min.value then Failure("Minimum amount for " + name + " is " + min.text)
      else Success(InvoiceRequest(name, FormatAmount(amount), InvoiceDescription(orderId), orderId, 3600))
  }

  /** An accepted amount is positive, so its formatted text carries no sign: it is the whole
      part of `toFixed(8)` followed by the fraction without its trailing zeros. */
  lemma {:induction false} InvoiceAmountText(amount: real, orderId: string, asset: Option<string>, token: Option<string>)
    requires CreateInvoice(amount, orderId, asset, token).Success?
    ensures var p := JsText.ToFixedParts(amount, 8);
      var t := DropTrailingZeros(p.frac);
      CreateInvoice(amount, orderId, asset, token).value.amount == p.whole + (if t == [] then "" else "." + t)
  {
    FormatAmountKeepsWholePart(amount);
  }

  /** The two digests `verifyWebhookSignature` takes from the platform: SHA-256 of a text, and
      the hexadecimal HMAC-SHA256 of a text under a key. */
  datatype Digests = Digests(sha256: string -> seq<bv8>, hmacSha256Hex: (seq<bv8>, string) -> string)

  /** The signature the provider sends: HMAC-SHA256 of the body, keyed by SHA-256 of the token. */
  function ExpectedSignature(token: string, body: string, d: Digests): string {
    d.hmacSha256Hex(d.sha256(token), body)
  }

  /** `verifyWebhookSignature`: false without a signature or a token; otherwise whether the
      signature is exactly the expected one. */
  function VerifyWebhookSignature(signature: Option<string>, body: string, token: Option<string>, d: Digests): (ok: bool)
    ensures !JsText.IsTruthy(signature) || !JsText.IsTruthy(token) ==> !ok
    ensures JsText.IsTruthy(signature) && JsText.IsTruthy(token) ==>
      (ok <==> signature.value == ExpectedSignature(token.value, body, d))
  {
    JsText.IsTruthy(signature) && JsText.IsTruthy(token) && signature.value == ExpectedSignature(token.value, body, d)
  }
}
