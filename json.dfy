/**
  The write-only JSON value model of MetricsService: the three value variants, the
  conversion `JsonValue.of` from host values, insertion into an object's ordered fields,
  and the `toJson` serialisers.
*/
module Json {
  import opened Results
  import opened Escaping

  /** A `JsonPrimitive`: null, a Boolean, an integral Number, or any other object by its text. */
  datatype Prim = Null | Bool(b: bool) | Int(n: int) | Str(s: string)

  datatype JsonValue =
    | JObject(fields: seq<(string, JsonValue)>)
    | JArray(items: seq<JsonValue>)
    | JPrim(prim: Prim)

  /** The entries of a `LinkedHashMap<String, JsonValue>`, in insertion order. */
  type Fields = seq<(string, JsonValue)>

  /** A map key as `parseMap` sees it: null, or an object whose `toString()` is `text`. */
  datatype Key = NullKey | KeyText(text: string)

  /** The Java objects `JsonValue.of` is given. */
  datatype HostValue =
    | HNull
    | HJson(json: JsonValue)
    | HMap(entries: seq<(Key, HostValue)>)
    | HCollection(elements: seq<HostValue>)
    | HBool(b: bool)
    | HInt(n: int)
    | HText(text: string)  // any other object (a String among them), by its toString()

  /** The exception `k.toString()` throws on a null map key. */
  const NullKeyError := "NullPointerException"

  // ---------------------------------------------------------------------------------------
  // Ordered fields
  // ---------------------------------------------------------------------------------------

  function Keys(fields: Fields): (ks: seq<string>)
    ensures |ks| == |fields|
  {
    if fields == [] then [] else [fields[0].0] + Keys(fields[1..])
  }

  lemma {:induction false} KeysAt(fields: Fields)
    ensures forall i :: 0 <= i < |fields| ==> Keys(fields)[i] == fields[i].0
  {
    if fields != [] {
      KeysAt(fields[1..]);
    }
  }

  predicate UniqueKeys(fields: Fields) {
    forall i, j :: 0 <= i < j < |fields| ==> fields[i].0 != fields[j].0
  }

  /** The value stored under `key`: that of the first entry with that key. */
  function Lookup(fields: Fields, key: string): Option<JsonValue> {
    if fields == [] then None
    else if fields[0].0 == key then Some(fields[0].1)
    else Lookup(fields[1..], key)
  }

  /** The position of the first entry with key `key`. */
  function IndexOf(fields: Fields, key: string): (i: nat)
    requires key in Keys(fields)
    ensures i < |fields| && fields[i].0 == key
    ensures forall j :: 0 <= j < i ==> fields[j].0 != key
  {
    if fields[0].0 == key then 0 else 1 + IndexOf(fields[1..], key)
  }

  /**
    A put into an insertion-ordered map: the entry for a present `key` gets the new value
    where it stands; a new key is appended.
  */
  function Put(fields: Fields, key: string, v: JsonValue): (r: Fields)
    ensures key in Keys(fields) ==> r == fields[IndexOf(fields, key) := (key, v)]
    ensures key !in Keys(fields) ==> r == fields + [(key, v)]
  {
    if fields == [] then [(key, v)]
    else if fields[0].0 == key then [(key, v)] + fields[1..]
    else
      var rest := fields[1..];
      assert key in Keys(fields) <==> key in Keys(rest);
      [fields[0]] + Put(rest, key, v)
  }

  /** The key order after a put: unchanged for a present key, the new key last otherwise. */
  lemma PutKeys(fields: Fields, key: string, v: JsonValue)
    ensures Keys(Put(fields, key, v)) == if key in Keys(fields) then Keys(fields) else Keys(fields) + [key]
  {
    var r := Put(fields, key, v);
    KeysAt(fields);
    KeysAt(r);
    if key in Keys(fields) {
      assert forall i :: 0 <= i < |r| ==> Keys(r)[i] == Keys(fields)[i];
    } else {
      assert forall i :: 0 <= i < |r| ==> Keys(r)[i] == (Keys(fields) + [key])[i];
    }
  }

  /** After a put, `key` gives the new value and every other key what it gave before. */
  lemma {:induction false} PutLookup(fields: Fields, key: string, v: JsonValue, other: string)
    ensures Lookup(Put(fields, key, v), key) == Some(v)
    ensures other != key ==> Lookup(Put(fields, key, v), other) == Lookup(fields, other)
  {
    if fields != [] && fields[0].0 != key {
      PutLookup(fields[1..], key, v, other);
    }
  }

  lemma PutUnique(fields: Fields, key: string, v: JsonValue)
    requires UniqueKeys(fields)
    ensures UniqueKeys(Put(fields, key, v))
  {
    KeysAt(fields);
  }

  /** Putting a key twice is putting it once with the second value: the last write wins. */
  lemma PutTwice(fields: Fields, key: string, v1: JsonValue, v2: JsonValue)
    ensures Put(Put(fields, key, v1), key, v2) == Put(fields, key, v2)
  {
    var r1 := Put(fields, key, v1);
    PutKeys(fields, key, v1);
    assert key in Keys(r1);
    var i1 := IndexOf(r1, key);
    if key in Keys(fields) {
      var i := IndexOf(fields, key);
      assert r1[i].0 == key;
    } else {
      assert r1[|fields|].0 == key;
      KeysAt(fields);
      assert r1[|fields| := (key, v2)] == fields + [(key, v2)];
    }
  }

  // ---------------------------------------------------------------------------------------
  // JsonValue.of, parseMap, parseCollection, and the two add operations they use
  // ---------------------------------------------------------------------------------------

  /** `JsonValue.of(value)`; `Err` where it throws (a null key in some map). */
  function Of(h: HostValue): Result<JsonValue>
    decreases h, 1
  {
    match h
    case HNull => Ok(JPrim(Null))
    case HJson(v) => Ok(v)
    case HMap(_) => ParseMap(h, 0, [])
    case HCollection(_) => ParseCollection(h, 0, [])
    case HBool(b) => Ok(JPrim(Bool(b)))
    case HInt(n) => Ok(JPrim(Int(n)))
    case HText(t) => Ok(JPrim(Str(t)))
  }

  /** `JsonObject.add` on the fields: the converted value is put under `key`. */
  function AddField(fields: Fields, key: string, value: HostValue): Result<Fields>
    decreases value, 2
  {
    match Of(value)
    case Ok(v) => Ok(Put(fields, key, v))
    case Err(e) => Err(e)
  }

  /** `JsonArray.add` on the items: the converted value is appended. */
  function AppendItem(items: seq<JsonValue>, value: HostValue): Result<seq<JsonValue>>
    decreases value, 2
  {
    match Of(value)
    case Ok(v) => Ok(items + [v])
    case Err(e) => Err(e)
  }

  /** `parseMap`: each entry from index `i` on is added to `acc` under its key's text. */
  function ParseMap(h: HostValue, i: nat, acc: Fields): Result<JsonValue>
    requires h.HMap? && i <= |h.entries|
    decreases h, 0, |h.entries| - i
  {
    if i == |h.entries| then Ok(JObject(acc))
    else
      match h.entries[i].0
      case NullKey => Err(NullKeyError)
      case KeyText(k) =>
        match AddField(acc, k, h.entries[i].1)
        case Ok(next) => ParseMap(h, i + 1, next)
        case Err(e) => Err(e)
  }

  /**
    `parseCollection`: each element from index `i` on is converted and appended. The element
    is converted twice, once before it is handed to `add` and once inside it; the second
    conversion returns the JSON value unchanged (OfJson), so one conversion stands for both.
  */
  function ParseCollection(h: HostValue, i: nat, acc: seq<JsonValue>): Result<JsonValue>
    requires h.HCollection? && i <= |h.elements|
    decreases h, 0, |h.elements| - i
  {
    if i == |h.elements| then Ok(JArray(acc))
    else
      match AppendItem(acc, h.elements[i])
      case Ok(next) => ParseCollection(h, i + 1, next)
      case Err(e) => Err(e)
  }

  /** No map anywhere inside `h` has a null key. */
  predicate NoNullKeys(h: HostValue) {
    match h
    case HMap(es) => forall i :: 0 <= i < |es| ==> es[i].0.KeyText? && NoNullKeys(es[i].1)
    case HCollection(xs) => forall i :: 0 <= i < |xs| ==> NoNullKeys(xs[i])
    case _ => true
  }

  /** An existing JSON value is returned unchanged. */
  lemma OfJson(v: JsonValue)
    ensures Of(HJson(v)) == Ok(v)
  {
  }

  /** `of` throws exactly when some map inside its argument has a null key. */
  lemma {:induction false} OfSucceeds(h: HostValue)
    ensures Of(h).Ok? <==> NoNullKeys(h)
    decreases h, 1
  {
    match h
    case HMap(es) => ParseMapSucceeds(h, 0, []);
    case HCollection(xs) => ParseCollectionSucceeds(h, 0, []);
    case _ =>
  }

  lemma {:induction false} ParseMapSucceeds(h: HostValue, i: nat, acc: Fields)
    requires h.HMap? && i <= |h.entries|
    ensures ParseMap(h, i, acc).Ok? <==>
              forall j :: i <= j < |h.entries| ==> h.entries[j].0.KeyText? && NoNullKeys(h.entries[j].1)
    decreases h, 0, |h.entries| - i
  {
    if i < |h.entries| {
      OfSucceeds(h.entries[i].1);
      match h.entries[i].0
      case NullKey =>
      case KeyText(k) =>
        match AddField(acc, k, h.entries[i].1)
        case Ok(next) => ParseMapSucceeds(h, i + 1, next);
        case Err(_) =>
    }
  }

  lemma {:induction false} ParseCollectionSucceeds(h: HostValue, i: nat, acc: seq<JsonValue>)
    requires h.HCollection? && i <= |h.elements|
    ensures ParseCollection(h, i, acc).Ok? <==> forall j :: i <= j < |h.elements| ==> NoNullKeys(h.elements[j])
    decreases h, 0, |h.elements| - i
  {
    if i < |h.elements| {
      OfSucceeds(h.elements[i]);
      match AppendItem(acc, h.elements[i])
      case Ok(next) => ParseCollectionSucceeds(h, i + 1, next);
      case Err(_) =>
    }
  }

  /** A collection becomes an array of the same length, converted element by element. */
  lemma OfCollection(xs: seq<HostValue>)
    requires Of(HCollection(xs)).Ok?
    ensures Of(HCollection(xs)).value.JArray?
    ensures |Of(HCollection(xs)).value.items| == |xs|
    ensures forall i :: 0 <= i < |xs| ==> Of(xs[i]) == Ok(Of(HCollection(xs)).value.items[i])
  {
    ParseCollectionShape(HCollection(xs), 0, []);
  }

  lemma {:induction false} ParseCollectionShape(h: HostValue, i: nat, acc: seq<JsonValue>)
    requires h.HCollection? && i <= |h.elements|
    requires ParseCollection(h, i, acc).Ok?
    ensures ParseCollection(h, i, acc).value.JArray?
    ensures |ParseCollection(h, i, acc).value.items| == |acc| + |h.elements| - i
    ensures ParseCollection(h, i, acc).value.items[..|acc|] == acc
    ensures forall j :: i <= j < |h.elements| ==>
              Of(h.elements[j]) == Ok(ParseCollection(h, i, acc).value.items[|acc| + j - i])
    decreases |h.elements| - i
  {
    if i < |h.elements| {
      var next := AppendItem(acc, h.elements[i]).value;
      ParseCollectionShape(h, i + 1, next);
      var items := ParseCollection(h, i, acc).value.items;
      assert items[..|next|] == next;
      assert items[..|acc|] == next[..|acc|];
    }
  }

  /**
    A map whose keys have pairwise different texts becomes an object with one field per
    entry, in iteration order: the key's text and the converted value.
  */
  lemma OfMap(es: seq<(Key, HostValue)>)
    requires Of(HMap(es)).Ok?
    requires forall i, j :: 0 <= i < j < |es| ==> es[i].0 != es[j].0
    ensures Of(HMap(es)).value.JObject?
    ensures |Of(HMap(es)).value.fields| == |es|
    ensures forall i :: 0 <= i < |es| ==>
              && es[i].0 == KeyText(Of(HMap(es)).value.fields[i].0)
              && Of(es[i].1) == Ok(Of(HMap(es)).value.fields[i].1)
  {
    ParseMapShape(HMap(es), 0, []);
  }

  /** One entry of `parseMap` whose key is new: the field is appended. */
  lemma ParseMapStep(h: HostValue, i: nat, acc: Fields)
    requires h.HMap? && i < |h.entries|
    requires ParseMap(h, i, acc).Ok?
    requires h.entries[i].0.KeyText? ==> h.entries[i].0.text !in Keys(acc)
    ensures h.entries[i].0.KeyText? && Of(h.entries[i].1).Ok?
    ensures ParseMap(h, i, acc) ==
      ParseMap(h, i + 1, acc + [(h.entries[i].0.text, Of(h.entries[i].1).value)])
  {
  }

  /** After entry `i`, the keys collected so far are still absent from the rest. */
  lemma StillFresh(es: seq<(Key, HostValue)>, i: nat, acc: Fields)
    requires i < |es| && es[i].0.KeyText?
    requires forall j, k :: 0 <= j < k < |es| ==> es[j].0 != es[k].0
    requires forall j :: 0 <= j < |acc| ==> acc[j].0 !in TextsFrom(es, i)
    ensures forall j :: 0 <= j < |acc| ==> acc[j].0 !in TextsFrom(es, i + 1)
    ensures es[i].0.text !in TextsFrom(es, i + 1)
  {
    assert TextsFrom(es, i + 1) <= TextsFrom(es, i);
    forall m | i + 1 <= m < |es| ensures es[m].0 != es[i].0 {
      assert es[i].0 != es[m].0;
    }
  }

  lemma {:induction false} ParseMapShape(h: HostValue, i: nat, acc: Fields)
    requires h.HMap? && i <= |h.entries|
    requires ParseMap(h, i, acc).Ok?
    requires forall j, k :: 0 <= j < k < |h.entries| ==> h.entries[j].0 != h.entries[k].0
    requires forall j :: 0 <= j < |acc| ==> acc[j].0 !in TextsFrom(h.entries, i)
    ensures ParseMap(h, i, acc).value.JObject?
    ensures |ParseMap(h, i, acc).value.fields| == |acc| + |h.entries| - i
    ensures ParseMap(h, i, acc).value.fields[..|acc|] == acc
    ensures forall j :: i <= j < |h.entries| ==>
              && h.entries[j].0 == KeyText(ParseMap(h, i, acc).value.fields[|acc| + j - i].0)
              && Of(h.entries[j].1) == Ok(ParseMap(h, i, acc).value.fields[|acc| + j - i].1)
    decreases |h.entries| - i
  {
    if i < |h.entries| {
      KeysAt(acc);
      assert h.entries[i].0.KeyText? ==> h.entries[i].0.text in TextsFrom(h.entries, i);
      ParseMapStep(h, i, acc);
      var next := acc + [(h.entries[i].0.text, Of(h.entries[i].1).value)];
      StillFresh(h.entries, i, acc);
      ParseMapShape(h, i + 1, next);
      var fields := ParseMap(h, i, acc).value.fields;
      assert fields[..|next|] == next;
      assert fields[|acc|] == next[|acc|];
      assert fields[..|acc|] == next[..|acc|];
    }
  }

  /** The texts of the non-null keys of `es` from index `i` on. */
  function TextsFrom(es: seq<(Key, HostValue)>, i: nat): set<string> {
    set j | i <= j < |es| && es[j].0.KeyText? :: es[j].0.text
  }

  // ---------------------------------------------------------------------------------------
  // toJson
  // ---------------------------------------------------------------------------------------

  /** The parts separated by commas. */
  function Join(parts: seq<string>): string {
    if |parts| == 0 then ""
    else if |parts| == 1 then parts[0]
    else parts[0] + "," + Join(parts[1..])
  }

  function DigitChar(d: nat): (c: char)
    requires d < 10
  {
    (48 + d) as char
  }

  /** The decimal text of a natural number, without leading zeros. */
  function NatText(n: nat): string {
    if n < 10 then [DigitChar(n)] else NatText(n / 10) + [DigitChar(n % 10)]
  }

  /** The decimal text of an integer, with a minus sign when it is negative. */
  function IntText(n: int): string {
    if n < 0 then "-" + NatText(-n) else NatText(n)
  }

  /** `JsonPrimitive.toJson`. */
  function PrimJson(p: Prim): string {
    match p
    case Null => "null"
    case Bool(b) => if b then "true" else "false"
    case Int(n) => IntText(n)
    case Str(s) => "\"" + EscapeString(s) + "\""
  }

  /** `toJson` of every variant. */
  function ToJson(v: JsonValue): string
    decreases v, 1
  {
    match v
    case JPrim(p) => PrimJson(p)
    case JArray(_) => "[" + Join(Members(v)) + "]"
    case JObject(_) => "{" + Join(Members(v)) + "}"
  }

  /** The texts `toJson` joins: each item's JSON, or each field's `"key":value`. */
  function Members(v: JsonValue): (parts: seq<string>)
    decreases v, 0
  {
    match v
    case JArray(items) => seq(|items|, i requires 0 <= i < |items| => ToJson(items[i]))
    case JObject(fields) =>
      seq(|fields|, i requires 0 <= i < |fields| => FieldJson(fields[i].0, ToJson(fields[i].1)))
    case JPrim(_) => []
  }

  /** One field of an object's text: the escaped key in quotation marks, a colon, the value's text. */
  function FieldJson(key: string, value: string): string {
    "\"" + EscapeString(key) + "\":" + value
  }

  lemma ItemMember(v: JsonValue, i: nat)
    requires v.JArray? && i < |v.items|
    ensures Members(v)[i] == ToJson(v.items[i])
  {
  }

  lemma FieldMember(v: JsonValue, i: nat)
    requires v.JObject? && i < |v.fields|
    ensures Members(v)[i] == FieldJson(v.fields[i].0, ToJson(v.fields[i].1))
  {
  }

  lemma {:induction false} JoinNoControl(parts: seq<string>)
    requires forall i :: 0 <= i < |parts| ==> NoControl(parts[i])
    ensures NoControl(Join(parts))
  {
    if |parts| > 1 {
      JoinNoControl(parts[1..]);
      var a, b := parts[0] + ",", Join(parts[1..]);
      assert forall i :: |a| <= i < |a + b| ==> (a + b)[i] == b[i - |a|];
    }
  }

  lemma {:induction false} NatTextNoControl(n: nat)
    ensures NoControl(NatText(n))
  {
    if n >= 10 {
      NatTextNoControl(n / 10);
    }
  }

  /** No serialised value holds a raw control character, however its strings were built. */
  lemma {:induction false} ToJsonNoControl(v: JsonValue)
    ensures NoControl(ToJson(v))
    decreases v, 1
  {
    match v
    case JPrim(p) =>
      match p {
        case Int(n) => NatTextNoControl(if n < 0 then -n else n);
        case Str(t) => EscapeNoControl(t);
        case _ =>
      }
    case _ =>
      MembersNoControl(v);
      JoinNoControl(Members(v));
  }

  lemma {:induction false} MembersNoControl(v: JsonValue)
    ensures forall i :: 0 <= i < |Members(v)| ==> NoControl(Members(v)[i])
    decreases v, 0
  {
    match v
    case JArray(items) =>
      forall i | 0 <= i < |items| ensures NoControl(Members(v)[i]) {
        ItemMember(v, i);
        ToJsonNoControl(items[i]);
      }
    case JObject(fields) =>
      forall i | 0 <= i < |fields| ensures NoControl(Members(v)[i]) {
        FieldMember(v, i);
        ToJsonNoControl(fields[i].1);
        EscapeNoControl(fields[i].0);
      }
    case JPrim(_) =>
  }
}
