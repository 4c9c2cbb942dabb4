/** The settings rows as both pages read them, and the `reduce` that folds them into a
    key -> value dictionary in which a later row overwrites an earlier one with the same key. */
module Settings {
  import opened Wrappers

  /** One row of the settings table. */
  datatype SettingRow = SettingRow(key: string, value: string)

  /** The value of the last row with `key`, if any row has it. */
  function LastValue(rows: seq<SettingRow>, key: string): Option<string> {
    if rows == [] then None
    else if rows[|rows| - 1].key == key then Some(rows[|rows| - 1].value)
    else LastValue(rows[..|rows| - 1], key)
  }

  /** `settingsMap[key]`: the value, or `None` for `undefined`. */
  function Lookup(m: map<string, string>, key: string): (v: Option<string>)
    ensures v.Some? <==> key in m
    ensures v.Some? ==> v.value == m[key]
  {
    if key in m then Some(m[key]) else None
  }

  /** Row `i` holds `key` with `v`, and no later row holds `key`. */
  predicate IsLastRow(rows: seq<SettingRow>, i: int, key: string, v: string) {
    0 <= i < |rows| && rows[i] == SettingRow(key, v) && forall j :: i < j < |rows| ==> rows[j].key != key
  }

  /** `LastValue` is the value of the row with that key after which no row has that key; and
      it is absent exactly when no row has the key. */
  lemma {:induction false} LastValueIsLastRow(rows: seq<SettingRow>, key: string, v: string)
    ensures LastValue(rows, key) == Some(v) <==> exists i :: IsLastRow(rows, i, key, v)
    ensures LastValue(rows, key).None? <==> forall i :: 0 <= i < |rows| ==> rows[i].key != key
  {
    if rows != [] {
      var n := |rows| - 1;
      var init := rows[..n];
      LastValueIsLastRow(init, key, v);
      assert forall i :: 0 <= i < n ==> rows[i] == init[i];
      if rows[n].key == key {
        if rows[n].value == v {
          assert IsLastRow(rows, n, key, v);
        } else {
          forall i | 0 <= i < |rows|
            ensures !IsLastRow(rows, i, key, v)
          {
            if i < n {
              assert rows[n].key == key;
            }
          }
        }
      } else {
        forall i | IsLastRow(rows, i, key, v)
          ensures IsLastRow(init, i, key, v)
        {
          assert i != n;
        }
        forall i | IsLastRow(init, i, key, v)
          ensures IsLastRow(rows, i, key, v)
        {
        }
      }
    }
  }

  /** The `reduce` of the two pages: each row in turn is assigned into the dictionary. */
  method FoldSettings(rows: seq<SettingRow>) returns (m: map<string, string>)
    ensures forall key :: Lookup(m, key) == LastValue(rows, key)
  {
    m := map[];
    var i := 0;
    while i < |rows|
      invariant 0 <= i <= |rows|
      invariant forall key :: Lookup(m, key) == LastValue(rows[..i], key)
    {
      assert rows[..i + 1][..i] == rows[..i];
      m := m[rows[i].key := rows[i].value];
      i := i + 1;
    }
    assert rows[..|rows|] == rows;
  }

  /** Rows with other keys do not change a key's value, wherever they sit. */
  lemma {:induction false} OtherRowsIgnored(rows: seq<SettingRow>, row: SettingRow, k: nat, key: string)
    requires k <= |rows| && row.key != key
    ensures LastValue(rows[..k] + [row] + rows[k..], key) == LastValue(rows, key)
  {
    var with := rows[..k] + [row] + rows[k..];
    if k < |rows| {
      var n := |rows| - 1;
      assert with[|with| - 1] == rows[n];
      assert with[..|with| - 1] == rows[..n][..k] + [row] + rows[..n][k..];
      if rows[n].key != key {
        OtherRowsIgnored(rows[..n], row, k, key);
      }
    } else {
      assert with[..|with| - 1] == rows;
    }
  }
}
