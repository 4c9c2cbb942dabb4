/** The storefront page's configuration: the price of a star and the stock shown to buyers,
    read from the settings with a default for each, and the fixed order limits. */
module HomePage {
  import opened Wrappers
  import opened JsText
  import Settings
  import Db
  import AdminPage
  import AdminActions

  const DefaultExchangeRate := 1.5
  const DefaultTotalStars := 50000
  const MinStars := 100
  const MaxStars := 5000

  datatype Config = Config(starExchangeRateRub: JsNumber, totalAvailableStars: int, minStars: int, maxStars: int)

  /** `parseFloat(settingsMap.exchangeRate) || 1.5`: the parsed rate, or 1.5 when it is NaN or
      zero; never NaN and never zero. */
  function ExchangeRate(v: Option<string>): (r: JsNumber)
    ensures Truthy(r)
    ensures Truthy(ParseFloat(StringOf(v))) ==> r == ParseFloat(StringOf(v))
    ensures !Truthy(ParseFloat(StringOf(v))) ==> r == Finite(DefaultExchangeRate)
  {
    var parsed := ParseFloat(StringOf(v));
    if Truthy(parsed) then parsed else Finite(DefaultExchangeRate)
  }

  /** `parseInt(settingsMap.totalStars) || 50000`: the parsed stock, or 50000 when it is NaN or
      zero; never zero. */
  function TotalAvailableStars(v: Option<string>): (n: int)
    ensures n != 0
    ensures ParseInt(StringOf(v)).Some? && ParseInt(StringOf(v)).value != 0 ==> n == ParseInt(StringOf(v)).value
    ensures ParseInt(StringOf(v)).None? || ParseInt(StringOf(v)).value == 0 ==> n == DefaultTotalStars
  {
    match ParseInt(StringOf(v))
    case Some(k) => if k != 0 then k else DefaultTotalStars
    case None => DefaultTotalStars
  }

  /** `HomePage`'s `config` over the rows `findMany` returned. */
  method BuildConfig(rows: seq<Settings.SettingRow>) returns (c: Config)
    ensures c.minStars == 100 && c.maxStars == 5000
    ensures c.totalAvailableStars == TotalAvailableStars(Settings.LastValue(rows, Db.StockKey))
    ensures c.starExchangeRateRub == ExchangeRate(Settings.LastValue(rows, "exchangeRate"))
  {
    var settingsMap := Settings.FoldSettings(rows);
    assert Settings.Lookup(settingsMap, "exchangeRate") == Settings.LastValue(rows, "exchangeRate");
    assert Settings.Lookup(settingsMap, Db.StockKey) == Settings.LastValue(rows, Db.StockKey);
    var rate := ParseFloat(StringOf(Settings.Lookup(settingsMap, "exchangeRate")));
    if !Truthy(rate) {
      rate := Finite(DefaultExchangeRate);
    }
    var total := DefaultTotalStars;
    var parsed := ParseInt(StringOf(Settings.Lookup(settingsMap, Db.StockKey)));
    if parsed.Some? && parsed.value != 0 {
      total := parsed.value;
    }
    c := Config(rate, total, MinStars, MaxStars);
  }

  /** "undefined" is not a number for `parseInt` or `parseFloat`. */
  lemma UndefinedIsNaN()
    ensures ParseInt("undefined") == None && ParseFloat("undefined") == NaN
  {
    var u := "undefined";
    assert u[0] == 'u';
    ParseIntOfNonNumeric(u);
    ParseFloatOfNonNumeric(u);
  }

  /** With no `exchangeRate` setting the page prices a star at 1.5 roubles. */
  lemma MissingRateShowsDefault()
    ensures ExchangeRate(None) == Finite(1.5)
  {
    UndefinedIsNaN();
  }

  /** Whenever the order route reads a non-zero stock, the page shows that stock. */
  lemma ShownStockIsOrderStock(settings: map<string, string>, n: int)
    requires Db.ReadStock(settings) == Some(n) && n != 0
    ensures TotalAvailableStars(Settings.Lookup(settings, Db.StockKey)) == n
  {
    assert IntToString(0) == "0";
    ParseIntOfIntToString(0);
    assert Db.StockKey in settings && settings[Db.StockKey] != "";
  }

  /** Whenever the order route reads the stock as 0 (the setting is missing, empty or zero),
      and so refuses every positive order, the page advertises 50000 stars. */
  lemma ZeroStockShownAsDefault(settings: map<string, string>)
    requires Db.ReadStock(settings) == Some(0)
    ensures TotalAvailableStars(Settings.Lookup(settings, Db.StockKey)) == 50000
  {
    if Db.StockKey !in settings {
      UndefinedIsNaN();
    } else if settings[Db.StockKey] == "" {
      assert TrimStart("") == "";
    }
  }

  /** Whenever the order route reads the stock as NaN, and so admits every order, the page
      advertises 50000 stars. */
  lemma NaNStockShownAsDefault(settings: map<string, string>)
    requires Db.ReadStock(settings) == None
    ensures TotalAvailableStars(Settings.Lookup(settings, Db.StockKey)) == 50000
  {
    assert IntToString(0) == "0";
    ParseIntOfIntToString(0);
    var text := settings[Db.StockKey];
    assert text != "";
    assert ParseInt(text) == None;
    assert Settings.Lookup(settings, Db.StockKey) == Some(text);
  }

  /** After the admin saves the settings, the page prices a star at the saved rate text as
      `parseFloat` reads it, or at 1.5 when that is NaN or zero. */
  lemma SavedRateIsShown(st: Db.State, rate: string, stock: string)
    ensures var out := AdminActions.UpdateSettingsAction(st, Some(rate), Some(stock));
      ExchangeRate(Settings.Lookup(out.state.settings, AdminActions.ExchangeRateKey))
        == if Truthy(ParseFloat(rate)) then ParseFloat(rate) else Finite(DefaultExchangeRate)
  {
    var out := AdminActions.UpdateSettingsAction(st, Some(rate), Some(stock));
    assert Settings.Lookup(out.state.settings, AdminActions.ExchangeRateKey) == Some(rate);
  }

  /** After the admin saves the settings, the page shows the saved stock text as `parseInt`
      reads it, or 50000 when that is NaN or zero. */
  lemma SavedStockIsShown(st: Db.State, rate: string, stock: string)
    ensures var out := AdminActions.UpdateSettingsAction(st, Some(rate), Some(stock));
      TotalAvailableStars(Settings.Lookup(out.state.settings, Db.StockKey))
        == if ParseInt(stock).Some? && ParseInt(stock).value != 0 then ParseInt(stock).value else DefaultTotalStars
  {
    var out := AdminActions.UpdateSettingsAction(st, Some(rate), Some(stock));
    assert Settings.Lookup(out.state.settings, Db.StockKey) == Some(stock);
  }

  /** Whenever the order route reads the stock as 0, the two pages disagree exactly when a
      stock text is stored: the admin page shows that text, which reads as 0, while the
      storefront advertises 50000 stars. With no text both show 50000. */
  lemma PagesDisagreeOnZeroStock(settings: map<string, string>)
    requires Db.ReadStock(settings) == Some(0)
    ensures TotalAvailableStars(Settings.Lookup(settings, Db.StockKey)) == 50000
    ensures Db.StockKey in settings && settings[Db.StockKey] != "" ==>
      && AdminPage.OrDefault(Settings.Lookup(settings, Db.StockKey), "50000") == settings[Db.StockKey]
      && ParseInt(settings[Db.StockKey]) == Some(0)
    ensures Db.StockKey !in settings || settings[Db.StockKey] == "" ==>
      AdminPage.OrDefault(Settings.Lookup(settings, Db.StockKey), "50000") == "50000"
  {
    ZeroStockShownAsDefault(settings);
  }
}
