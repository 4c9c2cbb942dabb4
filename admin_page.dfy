/** `getSettings` of the admin page: the two settings the form edits, as stored text, with a
    default for each when it is missing or empty. */
module AdminPage {
  import opened Wrappers
  import Settings

  /** The form's initial values; no other setting reaches the page. */
  datatype AdminSettings = AdminSettings(exchangeRate: string, totalStars: string)

  /** `value || fallback` on a string that may be `undefined`: the empty string is falsy. */
  function OrDefault(v: Option<string>, fallback: string): (r: string)
    ensures v.Some? && v.value != "" ==> r == v.value
    ensures v.None? || v.value == "" ==> r == fallback
  {
    if v.Some? && v.value != "" then v.value else fallback
  }

  /** `getSettings()` over the rows `findMany` returned. */
  method GetSettings(rows: seq<Settings.SettingRow>) returns (s: AdminSettings)
    ensures s.exchangeRate == OrDefault(Settings.LastValue(rows, "exchangeRate"), "1.5")
    ensures s.totalStars == OrDefault(Settings.LastValue(rows, "totalStars"), "50000")
  {
    var settingsMap := Settings.FoldSettings(rows);
    assert Settings.Lookup(settingsMap, "exchangeRate") == Settings.LastValue(rows, "exchangeRate");
    assert Settings.Lookup(settingsMap, "totalStars") == Settings.LastValue(rows, "totalStars");
    var rate := if "exchangeRate" in settingsMap && settingsMap["exchangeRate"] != "" then settingsMap["exchangeRate"] else "1.5";
    var stars := if "totalStars" in settingsMap && settingsMap["totalStars"] != "" then settingsMap["totalStars"] else "50000";
    s := AdminSettings(rate, stars);
  }
}
