/**
 * The weather values the services hand to the workflow, and the static
 * fallback tables they degrade to (Python dictionaries from location name to
 * `{"temp_c": ..., "condition": ...}`, looked up with `.get(name, table["Default"])`).
 */
module WeatherData {
  import opened Wrappers

  /** One row of a fallback table: `{"temp_c": tempC, "condition": condition}`. */
  datatype Reading = Reading(tempC: int, condition: string)

  /** A fallback table, in declaration order. */
  type Table = seq<(string, Reading)>

  /**
   * A weather dictionary as a service returns it: `temp_c`, `condition`, and
   * `data_source` when the value came from a live source (fallback entries
   * carry none). The `timestamp` key is not modelled.
   */
  datatype Weather = Weather(tempC: real, condition: string, dataSource: Option<string>)

  /** `if not API_KEY`: an unset or empty key counts as missing. */
  predicate KeyConfigured(apiKey: Option<string>) {
    apiKey.Some? && apiKey.value != ""
  }

  predicate HasKey(table: Table, name: string) {
    exists i :: 0 <= i < |table| && table[i].0 == name
  }

  predicate DistinctKeys(table: Table) {
    forall i, j :: 0 <= i < j < |table| ==> table[i].0 != table[j].0
  }

  /** `table.get(name)`. */
  function Get(table: Table, name: string): (r: Option<Reading>)
    ensures r.Some? <==> HasKey(table, name)
    ensures r.Some? ==> (name, r.value) in table
  {
    if table == [] then None
    else if table[0].0 == name then Some(table[0].1)
    else
      var r := Get(table[1..], name);
      assert HasKey(table[1..], name) ==> HasKey(table, name);
      assert HasKey(table, name) ==> HasKey(table[1..], name) by {
        if HasKey(table, name) {
          var i :| 0 <= i < |table| && table[i].0 == name;
          assert table[1..][i - 1].0 == name;
        }
      }
      r
  }

  /** With distinct keys, an entry of the table is what looking up its name gives. */
  lemma {:induction false} GetEntry(table: Table, i: nat)
    requires DistinctKeys(table) && i < |table|
    ensures Get(table, table[i].0) == Some(table[i].1)
  {
    if i > 0 {
      assert DistinctKeys(table[1..]) by {
        forall a, b | 0 <= a < b < |table| - 1 ensures table[1..][a].0 != table[1..][b].0 {
          assert table[1..][a] == table[a + 1] && table[1..][b] == table[b + 1];
        }
      }
      GetEntry(table[1..], i - 1);
      assert table[0].0 != table[i].0;
    }
  }

  /** `table.get(name, table["Default"])`. */
  function GetOrDefault(table: Table, name: string): (r: Reading)
    requires HasKey(table, "Default")
    ensures HasKey(table, name) ==> (name, r) in table
    ensures !HasKey(table, name) ==> ("Default", r) in table
  {
    match Get(table, name)
    case Some(v) => v
    case None => Get(table, "Default").value
  }

  /** A table row as the weather dictionary the services return (no `data_source`). */
  function AsWeather(r: Reading): (w: Weather)
    ensures w.dataSource.None? && w.condition == r.condition && w.tempC == r.tempC as real
  {
    Weather(r.tempC as real, r.condition, None)
  }
}
