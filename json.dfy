/** Parsed JSON values and the rows of chart data. A row is a JavaScript
    object: its own properties in the order `Object.keys` reports them. */
module Json {
  import opened Wrappers
  import opened Sequences

  datatype Json =
    | JNull
    | JBool(b: bool)
    | JNum(n: real)
    | JStr(s: string)
    | JArray(items: seq<Json>)
    | JObject(members: seq<(string, Json)>)

  type Row = seq<(string, Json)>

  /** `Object.keys(row)`. */
  function RowKeys(row: Row): (ks: seq<string>)
    ensures |ks| == |row|
    ensures forall i | 0 <= i < |row| :: ks[i] == row[i].0
  {
    seq(|row|, i requires 0 <= i < |row| => row[i].0)
  }

  /** An object never has two properties of the same name. */
  ghost predicate DistinctKeys(row: Row) {
    Distinct(RowKeys(row))
  }

  /** `row[key]`: the property's value, or `undefined` when there is none. */
  function Lookup(row: Row, key: string): (r: Option<Json>)
    ensures r.Some? <==> key in RowKeys(row)
    ensures r.Some? ==> (key, r.value) in row
  {
    if row == [] then None
    else if row[0].0 == key then Some(row[0].1)
    else
      var r := Lookup(row[1..], key);
      assert RowKeys(row) == [row[0].0] + RowKeys(row[1..]);
      r
  }
}
