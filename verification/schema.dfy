/** The feature schema: the fixed table of feature names, the payload a client posts, the
    required-key check and the projection of a payload into the model's column order. */
module Schema {
  import opened Wrappers
  import opened Values

  /** The six inputs of the anemia classifier. */
  datatype Feature = Number | Sex | Hb | BluePixel | GreenPixel | RedPixel

  /** The name of a feature in request payloads, in the model's feature list and in the
      query output. Every display name is one of the required keys. */
  function DisplayName(f: Feature): (name: string)
    ensures name in Required
  {
    match f
    case Number => "Number"
    case Sex => "Sex"
    case Hb => "Hb"
    case BluePixel => "%Blue pixel"
    case GreenPixel => "%Green pixel"
    case RedPixel => "%Red Pixel"
  }

  /** The name of the feature's column in the `predicoes` table. */
  function StorageName(f: Feature): string
  {
    match f
    case Number => "Number"
    case Sex => "Sex"
    case Hb => "Hb"
    case BluePixel => "blue_pixel"
    case GreenPixel => "green_pixel"
    case RedPixel => "red_pixel"
  }

  /** The key list every posted payload is checked against, in the handler's order. */
  const Required: seq<string> := ["Number", "Sex", "Hb", "%Blue pixel", "%Green pixel", "%Red Pixel"]

  /** A request body that parsed to a JSON object: its keys in arrival order and its
      entries. */
  datatype Payload = Payload(keys: seq<string>, entries: map<string, Json>)

  /** A parsed object's key list names each of its entries exactly once. Only the claims
      about `keys()` need this, so it is stated where they are made. */
  predicate IsDict(d: Payload)
  {
    (forall k :: k in d.entries ==> k in d.keys) &&
    (forall k :: k in d.keys ==> k in d.entries) &&
    (forall i, j :: 0 <= i < j < |d.keys| ==> d.keys[i] != d.keys[j])
  }

  /** Whether every name in `names` is a key of the payload. */
  function ContainsAll(d: Payload, names: seq<string>): (b: bool)
    ensures b <==> forall n :: n in names ==> n in d.entries
  {
    if names == [] then true
    else
      assert forall n :: n in names <==> n == names[0] || n in names[1..];
      names[0] in d.entries && ContainsAll(d, names[1..])
  }

  /** The value a complete payload holds for feature `f`. */
  function Entry(d: Payload, f: Feature): (v: Json)
    requires ContainsAll(d, Required)
    ensures DisplayName(f) in d.entries && v == d.entries[DisplayName(f)]
  {
    assert DisplayName(f) in Required;
    d.entries[DisplayName(f)]
  }

  /** The single row of the data frame the handler builds from a complete payload: the six
      required names, each with the payload's value, whatever else the payload carries. */
  function Frame(d: Payload): (row: map<string, Json>)
    requires ContainsAll(d, Required)
    ensures forall n :: n in row <==> n in Required
    ensures forall f :: DisplayName(f) in row && row[DisplayName(f)] == Entry(d, f)
  {
    map[
      DisplayName(Number) := Entry(d, Number),
      DisplayName(Sex) := Entry(d, Sex),
      DisplayName(Hb) := Entry(d, Hb),
      DisplayName(BluePixel) := Entry(d, BluePixel),
      DisplayName(GreenPixel) := Entry(d, GreenPixel),
      DisplayName(RedPixel) := Entry(d, RedPixel)
    ]
  }

  /** The frame row holds, under each of its names, the payload's value under that name. */
  lemma FrameValues(d: Payload)
    requires ContainsAll(d, Required)
    ensures forall n :: n in Frame(d) ==> Frame(d)[n] == d.entries[n]
  {
    var row := Frame(d);
    forall n | n in row
      ensures row[n] == d.entries[n]
    {
      assert exists f :: DisplayName(f) == n;
    }
  }

  /** The names of `order` that `row` lacks, in the order of `order`. */
  function Absent(row: map<string, Json>, order: seq<string>): (missing: seq<string>)
    ensures forall n :: n in missing <==> n in order && n !in row
  {
    if order == [] then []
    else
      assert forall n :: n in order <==> n == order[0] || n in order[1..];
      (if order[0] in row then [] else [order[0]]) + Absent(row, order[1..])
  }

  /** The values of `row` under the names of `order`, in that order. */
  function Pick(row: map<string, Json>, order: seq<string>): (v: seq<Json>)
    requires forall n :: n in order ==> n in row
    ensures |v| == |order|
    ensures forall i :: 0 <= i < |order| ==> v[i] == row[order[i]]
  {
    if order == [] then []
    else
      var rest := Pick(row, order[1..]);
      assert forall i :: 1 <= i < |order| ==> order[i] == order[1..][i - 1];
      [row[order[0]]] + rest
  }

  /** The names joined as a Python list literal of strings. */
  function ListLiteral(names: seq<string>): string
  {
    "[" + QuotedNames(names) + "]"
  }

  function QuotedNames(names: seq<string>): string
  {
    if names == [] then ""
    else if |names| == 1 then "'" + names[0] + "'"
    else "'" + names[0] + "', " + QuotedNames(names[1..])
  }

  /** Column selection `frame[order]`: the row's values in exactly the order given, or a
      KeyError when `order` asks for a column the row lacks. */
  function Select(row: map<string, Json>, order: seq<string>): (r: Result<seq<Json>, Exc>)
    ensures r.Success? <==> forall n :: n in order ==> n in row
    ensures r.Success? ==> |r.value| == |order|
    ensures r.Success? ==> forall i :: 0 <= i < |order| ==> r.value[i] == row[order[i]]
    ensures r.Failure? ==> r.error.typeName == "KeyError"
  {
    var missing := Absent(row, order);
    if missing == [] then Success(Pick(row, order))
    else
      assert missing[0] in missing;
      Failure(Exc("KeyError", ListLiteral(missing) + " not in index"))
  }
}
