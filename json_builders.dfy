/**
  The two mutable JSON containers of MetricsService: `JsonObject`, whose fields live in an
  insertion-ordered map, and `JsonArray`, whose items live in a list, together with the
  collector that gathers a stream of values into a `JsonArray`.
*/
module JsonBuilders {
  import opened Results
  import opened Json
  import JsonReader

  class JsonObject {
    /** The map's entries in insertion order. */
    var fields: Fields

    ghost predicate Valid()
      reads this
    {
      UniqueKeys(fields)
    }

    constructor()
      ensures Valid() && fields == []
    {
      fields := [];
    }

    /** The JSON value this object stands for. */
    function Value(): JsonValue
      reads this
    {
      JObject(fields)
    }

    /**
      Stores the converted value under `key`: a key already present keeps its position and
      takes the new value, a new key goes last. The object itself is returned for chaining.
      When the conversion throws, nothing is stored.
    */
    method Add(key: string, value: HostValue) returns (r: Result<JsonObject>)
      requires Valid()
      modifies this
      ensures Valid()
      ensures r.Ok? <==> Of(value).Ok?
      ensures r.Ok? <==> NoNullKeys(value)
      ensures r.Ok? ==> r.value == this && fields == Put(old(fields), key, Of(value).value)
      ensures r.Ok? ==> Lookup(fields, key) == Some(Of(value).value)
      ensures r.Ok? && key in Keys(old(fields)) ==> Keys(fields) == Keys(old(fields))
      ensures r.Ok? && key !in Keys(old(fields)) ==> Keys(fields) == Keys(old(fields)) + [key]
      ensures r.Err? ==> fields == old(fields)
    {
      OfSucceeds(value);
      match Of(value)
      case Ok(v) =>
        PutKeys(fields, key, v);
        PutLookup(fields, key, v, key);
        PutUnique(fields, key, v);
        fields := Put(fields, key, v);
        r := Ok(this);
      case Err(e) =>
        r := Err(e);
    }

    /** The text of the object: `{}` when empty; it reads back as the object's value. */
    function ToJson(): (s: string)
      reads this
      ensures JsonReader.Parse(s) == Some(Value())
      ensures fields == [] ==> s == "{}"
      ensures |s| >= 2 && s[0] == '{' && s[|s| - 1] == '}'
    {
      JsonReader.ToJsonReadsBack(Value());
      Json.ToJson(Value())
    }
  }

  class JsonArray {
    var items: seq<JsonValue>

    constructor()
      ensures items == []
    {
      items := [];
    }

    function Value(): JsonValue
      reads this
    {
      JArray(items)
    }

    /** Appends the converted value and returns the array itself; nothing on a throw. */
    method Add(value: HostValue) returns (r: Result<JsonArray>)
      modifies this
      ensures r.Ok? <==> Of(value).Ok?
      ensures r.Ok? <==> NoNullKeys(value)
      ensures r.Ok? ==> r.value == this && items == old(items) + [Of(value).value]
      ensures r.Err? ==> items == old(items)
    {
      OfSucceeds(value);
      match Of(value)
      case Ok(v) =>
        items := items + [v];
        r := Ok(this);
      case Err(e) =>
        r := Err(e);
    }

    /**
      The collector's combiner: the right array's items go after the left's, and the left
      array is the result. Combining an array with itself doubles it.
    */
    method AddAll(right: JsonArray) returns (r: JsonArray)
      modifies this
      ensures r == this && items == old(items) + old(right.items)
    {
      items := items + right.items;
      r := this;
    }

    /** The text of the array: `[]` when empty; it reads back as the array's value. */
    function ToJson(): (s: string)
      reads this
      ensures JsonReader.Parse(s) == Some(Value())
      ensures items == [] ==> s == "[]"
      ensures |s| >= 2 && s[0] == '[' && s[|s| - 1] == ']'
    {
      JsonReader.ToJsonReadsBack(Value());
      Json.ToJson(Value())
    }
  }

  /** The collector's accumulator applied to each value in turn, starting from `acc`. */
  function Accumulate(acc: seq<JsonValue>, values: seq<JsonValue>): seq<JsonValue>
    decreases |values|
  {
    if |values| == 0 then acc
    else
      match AppendItem(acc, HJson(values[0]))
      case Ok(next) => Accumulate(next, values[1..])
      case Err(_) => acc
  }

  /** Accumulating JSON values never throws and keeps each of them, in order. */
  lemma {:induction false} AccumulateKeeps(acc: seq<JsonValue>, values: seq<JsonValue>)
    ensures Accumulate(acc, values) == acc + values
    decreases |values|
  {
    if |values| > 0 {
      OfJson(values[0]);
      AccumulateKeeps(acc + [values[0]], values[1..]);
      assert acc + [values[0]] + values[1..] == acc + values;
    }
  }

  /**
    A stream split in two and collected part by part, then combined, gives the array the
    whole stream collected in one piece gives.
  */
  lemma CollectorSplit(left: seq<JsonValue>, right: seq<JsonValue>)
    ensures Accumulate([], left) + Accumulate([], right) == Accumulate([], left + right)
  {
    AccumulateKeeps([], left);
    AccumulateKeeps([], right);
    AccumulateKeeps([], left + right);
  }

  /** Collects a sequence of values into a new array, one `add` per value. */
  method Collect(values: seq<JsonValue>) returns (arr: JsonArray)
    ensures fresh(arr) && arr.items == values
  {
    arr := new JsonArray();
    var i := 0;
    while i < |values|
      invariant 0 <= i <= |values|
      invariant arr.items == values[..i]
    {
      OfJson(values[i]);
      var r := arr.Add(HJson(values[i]));
      assert values[..i + 1] == values[..i] + [values[i]];
      i := i + 1;
    }
    assert values[..i] == values;
  }
}
