/**
  A reader for the compact JSON text the serialisers write (RFC 8259 without insignificant
  whitespace and with integral numbers only; a number with a leading zero is refused).
  MetricsService has no parser; this one exists to state that `toJson` writes JSON that
  reads back as the value it was written from.
*/
module JsonReader {
  import opened Results
  import opened Escaping
  import opened Json

  predicate IsDigit(c: char) {
    '0' <= c <= '9'
  }

  /** The number of decimal digits at the start of `s`. */
  function DigitRun(s: string): (n: nat)
    ensures n <= |s|
  {
    if s != [] && IsDigit(s[0]) then 1 + DigitRun(s[1..]) else 0
  }

  /** The value of a string of decimal digits. */
  function DigitsValue(ds: string): nat {
    if ds == [] then 0
    else
      var last := ds[|ds| - 1];
      DigitsValue(ds[..|ds| - 1]) * 10 + (if IsDigit(last) then last as int - 48 else 0)
  }

  /** A run of digits that is a JSON integer: one digit, or several not starting with `0`. */
  predicate IntegerDigits(ds: string) {
    |ds| == 1 || (|ds| > 1 && ds[0] != '0')
  }

  /** An optional minus sign and an integer's digits, as section 6 of RFC 8259 allows them. */
  function ParseNumber(s: string): (r: Option<(int, string)>)
    ensures r.Some? ==> |r.value.1| < |s|
  {
    if s != [] && s[0] == '-' then
      var n := DigitRun(s[1..]);
      var m: int := DigitsValue(s[1..1 + n]);
      if !IntegerDigits(s[1..1 + n]) then None else Some((-m, s[1 + n..]))
    else
      var n := DigitRun(s);
      if !IntegerDigits(s[..n]) then None else Some((DigitsValue(s[..n]), s[n..]))
  }

  /** The character that a backslash followed by `e` stands for. */
  function Unescape(e: char): Option<char> {
    if e == '"' then Some('"')
    else if e == '\\' then Some('\\')
    else if e == '/' then Some('/')
    else if e == 'b' then Some(Backspace)
    else if e == 'f' then Some(FormFeed)
    else if e == 'n' then Some('\n')
    else if e == 'r' then Some('\r')
    else if e == 't' then Some('\t')
    else None
  }

  /** The code unit a `\uXXXX` escape starting at `s[0]` names, if `s` starts with one. */
  function UnicodeEscape(s: string): Option<int> {
    if |s| < 6 || s[0] != '\\' || s[1] != 'u' then None
    else
      var d0, d1, d2, d3 := HexValue(s[2]), HexValue(s[3]), HexValue(s[4]), HexValue(s[5]);
      if d0 < 0 || d1 < 0 || d2 < 0 || d3 < 0 then None
      else Some(((d0 * 16 + d1) * 16 + d2) * 16 + d3)
  }

  /** One character of a string literal's content: an escape or an unescaped character. */
  function ParseChar(s: string): (r: Option<(char, string)>)
    ensures r.Some? ==> |r.value.1| < |s|
  {
    if s == [] || s[0] == '"' || IsControl(s[0]) then None
    else if s[0] != '\\' then Some((s[0], s[1..]))
    else if |s| < 2 then None
    else if s[1] == 'u' then
      match UnicodeEscape(s)
      case None => None
      case Some(code) =>
        if 0 <= code < 0xD800 || 0xE000 <= code < 0x1_0000 then Some((code as char, s[6..])) else None
    else
      match Unescape(s[1])
      case None => None
      case Some(c) => Some((c, s[2..]))
  }

  /** A string literal's content, from after its opening quote up to and past its closing quote. */
  function ParseString(s: string): (r: Option<(string, string)>)
    ensures r.Some? ==> |r.value.1| < |s|
    decreases |s|
  {
    if s == [] then None
    else if s[0] == '"' then Some(([], s[1..]))
    else
      match ParseChar(s)
      case None => None
      case Some((c, more)) =>
        match ParseString(more)
        case None => None
        case Some((t, rest)) => Some(([c] + t, rest))
  }

  /** One JSON value at the start of `s`, and the text after it; dispatches on the first character. */
  function ParseValue(s: string): (r: Option<(JsonValue, string)>)
    ensures r.Some? ==> |r.value.1| < |s|
    decreases |s|, 0
  {
    if s == [] then None
    else if s[0] == 'n' then ParseLiteral(s, "null", JPrim(Null))
    else if s[0] == 't' then ParseLiteral(s, "true", JPrim(Bool(true)))
    else if s[0] == 'f' then ParseLiteral(s, "false", JPrim(Bool(false)))
    else if s[0] == '"' then
      match ParseString(s[1..])
      case None => None
      case Some((t, rest)) => Some((JPrim(Str(t)), rest))
    else if s[0] == '[' then
      if |s| >= 2 && s[1] == ']' then Some((JArray([]), s[2..])) else ParseItems(s[1..], [])
    else if s[0] == '{' then
      if |s| >= 2 && s[1] == '}' then Some((JObject([]), s[2..])) else ParseFields(s[1..], [])
    else
      match ParseNumber(s)
      case None => None
      case Some((n, rest)) => Some((JPrim(Int(n)), rest))
  }

  /** The literal `word` at the start of `s`, read as `v`. */
  function ParseLiteral(s: string, word: string, v: JsonValue): (r: Option<(JsonValue, string)>)
    requires word != []
    ensures r.Some? ==> |r.value.1| < |s|
  {
    if |word| <= |s| && s[..|word|] == word then Some((v, s[|word|..])) else None
  }

  /** The items of a non-empty array after `acc`, up to and past the closing bracket. */
  function ParseItems(s: string, acc: seq<JsonValue>): (r: Option<(JsonValue, string)>)
    ensures r.Some? ==> |r.value.1| < |s|
    decreases |s|, 1
  {
    match ParseValue(s)
    case None => None
    case Some((v, rest)) =>
      if rest != [] && rest[0] == ',' then ParseItems(rest[1..], acc + [v])
      else if rest != [] && rest[0] == ']' then Some((JArray(acc + [v]), rest[1..]))
      else None
  }

  /** The fields of a non-empty object after `acc`, up to and past the closing brace. */
  function ParseFields(s: string, acc: Fields): (r: Option<(JsonValue, string)>)
    ensures r.Some? ==> |r.value.1| < |s|
    decreases |s|, 1
  {
    if s == [] || s[0] != '"' then None
    else
      match ParseString(s[1..])
      case None => None
      case Some((k, afterKey)) =>
        if afterKey == [] || afterKey[0] != ':' then None
        else
          match ParseValue(afterKey[1..])
          case None => None
          case Some((v, rest)) =>
            if rest != [] && rest[0] == ',' then ParseFields(rest[1..], acc + [(k, v)])
            else if rest != [] && rest[0] == '}' then Some((JObject(acc + [(k, v)]), rest[1..]))
            else None
  }

  /** A whole document: one value and nothing after it. */
  function Parse(s: string): Option<JsonValue> {
    match ParseValue(s)
    case Some((v, rest)) => if rest == [] then Some(v) else None
    case None => None
  }

  // ---------------------------------------------------------------------------------------
  // Reading back what the serialisers write
  // ---------------------------------------------------------------------------------------

  /** What may follow a value inside a document: nothing, a comma or a closing bracket. */
  predicate Delimited(rest: string) {
    rest == [] || rest[0] == ',' || rest[0] == ']' || rest[0] == '}'
  }

  predicate AllDigits(s: string) {
    forall i :: 0 <= i < |s| ==> IsDigit(s[i])
  }

  lemma {:induction false} NatTextDigits(n: nat)
    ensures NatText(n) != [] && AllDigits(NatText(n))
    ensures DigitsValue(NatText(n)) == n
  {
    if n >= 10 {
      NatTextDigits(n / 10);
      var t := NatText(n / 10);
      assert (t + [DigitChar(n % 10)])[..|t|] == t;
    }
  }

  /** A natural number's text has no leading zero. */
  lemma {:induction false} NatTextInteger(n: nat)
    ensures IntegerDigits(NatText(n))
    ensures n > 0 ==> NatText(n)[0] != '0'
  {
    if n >= 10 {
      NatTextInteger(n / 10);
    }
  }

  lemma {:induction false} DigitRunOf(ds: string, rest: string)
    requires AllDigits(ds)
    requires rest == [] || !IsDigit(rest[0])
    ensures DigitRun(ds + rest) == |ds|
  {
    if ds == [] {
      assert ds + rest == rest;
    } else {
      assert (ds + rest)[1..] == ds[1..] + rest;
      DigitRunOf(ds[1..], rest);
    }
  }

  lemma NumberRoundTrip(n: int, rest: string)
    requires rest == [] || !IsDigit(rest[0])
    ensures ParseNumber(IntText(n) + rest) == Some((n, rest))
  {
    var m: nat := if n < 0 then -n else n;
    var t := NatText(m);
    NatTextDigits(m);
    NatTextInteger(m);
    DigitRunOf(t, rest);
    if n < 0 {
      var s := "-" + t + rest;
      assert s[1..] == t + rest;
      assert s[1..1 + |t|] == t;
      assert s[1 + |t|..] == rest;
    } else {
      assert (t + rest)[..|t|] == t;
      assert (t + rest)[|t|..] == rest;
    }
  }

  /** A run of several digits that starts with `0` is not a number. */
  lemma LeadingZeroRefused(ds: string, rest: string)
    requires |ds| > 1 && ds[0] == '0' && AllDigits(ds)
    requires rest == [] || !IsDigit(rest[0])
    ensures ParseNumber(ds + rest) == None
  {
    DigitRunOf(ds, rest);
    assert (ds + rest)[..|ds|] == ds;
  }

  lemma CharRoundTrip(c: char, more: string)
    ensures var s := EscapeChar(c) + more; s != [] && s[0] != '"' && ParseChar(s) == Some((c, more))
  {
    var e := EscapeChar(c);
    EscapeCharSpec(c);
    var s := e + more;
    assert s[..|e|] == e;
    if ShortEscape(c).Some? {
      assert s[2..] == more;
    } else if IsControl(c) {
      assert s[6..] == more;
      assert UnicodeEscape(s) == Some(c as int);
      assert (c as int) as char == c;
    } else {
      assert s[1..] == more;
    }
  }

  /** A string's escape followed by a closing quote reads back as that string. */
  lemma {:induction false} StringRoundTrip(t: string, rest: string)
    ensures ParseString(EscapeString(t) + "\"" + rest) == Some((t, rest))
  {
    if t == [] {
      assert EscapeString(t) + "\"" + rest == "\"" + rest;
    } else {
      var more := EscapeString(t[1..]) + "\"" + rest;
      assert EscapeString(t) + "\"" + rest == EscapeChar(t[0]) + more;
      CharRoundTrip(t[0], more);
      StringRoundTrip(t[1..], rest);
      assert [t[0]] + t[1..] == t;
    }
  }

  /** The serialised text of a value is never empty and never starts with a closing bracket. */
  lemma ToJsonStart(v: JsonValue)
    ensures ToJson(v) != [] && ToJson(v)[0] != ']' && ToJson(v)[0] != '}'
  {
    if v.JPrim? && v.prim.Int? {
      var n := v.prim.n;
      NatTextDigits(if n < 0 then -n else n);
    }
  }

  /** Every value reads back from its serialised text, whatever delimiter follows it. */
  lemma {:induction false} ValueRoundTrip(v: JsonValue, rest: string)
    requires Delimited(rest)
    ensures ParseValue(ToJson(v) + rest) == Some((v, rest))
    decreases v, 2
  {
    match v
    case JPrim(p) => PrimRoundTrip(p, rest);
    case JArray(_) => ArrayRoundTrip(v, rest);
    case JObject(_) => ObjectRoundTrip(v, rest);
  }

  lemma LiteralRoundTrip(word: string, v: JsonValue, rest: string)
    requires word != []
    ensures ParseLiteral(word + rest, word, v) == Some((v, rest))
  {
    assert (word + rest)[..|word|] == word;
    assert (word + rest)[|word|..] == rest;
  }

  lemma PrimRoundTrip(p: Prim, rest: string)
    requires Delimited(rest)
    ensures ParseValue(PrimJson(p) + rest) == Some((JPrim(p), rest))
  {
    match p
    case Null => LiteralRoundTrip("null", JPrim(Null), rest);
    case Bool(b) => LiteralRoundTrip(if b then "true" else "false", JPrim(Bool(b)), rest);
    case Int(n) => IntRoundTrip(n, rest);
    case Str(t) => StrRoundTrip(t, rest);
  }

  lemma IntRoundTrip(n: int, rest: string)
    requires Delimited(rest)
    ensures ParseValue(IntText(n) + rest) == Some((JPrim(Int(n)), rest))
  {
    NumberRoundTrip(n, rest);
    IntTextStart(n, rest);
    NumberDispatch(IntText(n) + rest);
  }

  /** A number's text starts with a minus sign or a digit. */
  lemma IntTextStart(n: int, rest: string)
    ensures var s := IntText(n) + rest; s != [] && (s[0] == '-' || IsDigit(s[0]))
  {
    NatTextDigits(if n < 0 then -n else n);
  }

  /** A text starting with a minus sign or a digit is read as a number. */
  lemma NumberDispatch(s: string)
    requires s != [] && (s[0] == '-' || IsDigit(s[0]))
    ensures ParseValue(s) ==
      match ParseNumber(s)
      case None => None
      case Some((n, rest)) => Some((JPrim(Int(n)), rest))
  {
  }

  lemma StrRoundTrip(t: string, rest: string)
    ensures ParseValue(PrimJson(Str(t)) + rest) == Some((JPrim(Str(t)), rest))
  {
    var s := PrimJson(Str(t)) + rest;
    assert s[0] == '"' && s[1..] == EscapeString(t) + "\"" + rest;
    StringRoundTrip(t, rest);
  }

  lemma {:induction false} ArrayRoundTrip(v: JsonValue, rest: string)
    requires v.JArray? && Delimited(rest)
    ensures ParseValue(ToJson(v) + rest) == Some((v, rest))
    decreases v, 1
  {
    if v.items == [] {
      EmptyRoundTrip(v, rest);
    } else {
      ArrayOpen(v, rest);
      ItemsRoundTrip(v, 0, rest);
    }
  }

  lemma {:induction false} ObjectRoundTrip(v: JsonValue, rest: string)
    requires v.JObject? && Delimited(rest)
    ensures ParseValue(ToJson(v) + rest) == Some((v, rest))
    decreases v, 1
  {
    if v.fields == [] {
      EmptyRoundTrip(v, rest);
    } else {
      ObjectOpen(v, rest);
      FieldsRoundTrip(v, 0, rest);
    }
  }

  /** `[]` and `{}` read back as the empty array and the empty object. */
  lemma EmptyRoundTrip(v: JsonValue, rest: string)
    requires v == JArray([]) || v == JObject([])
    ensures ParseValue(ToJson(v) + rest) == Some((v, rest))
  {
    var s := ToJson(v) + rest;
    assert Members(v) == [];
    assert |s| >= 2 && s[2..] == rest;
  }

  /** After an opening bracket that is not closed at once, the items are read. */
  lemma ArrayDispatch(s: string)
    requires |s| >= 2 && s[0] == '[' && s[1] != ']'
    ensures ParseValue(s) == ParseItems(s[1..], [])
  {
  }

  /** After an opening brace that is not closed at once, the fields are read. */
  lemma ObjectDispatch(s: string)
    requires |s| >= 2 && s[0] == '{' && s[1] != '}'
    ensures ParseValue(s) == ParseFields(s[1..], [])
  {
  }

  /** The text between the brackets of a non-empty array or object, and what it starts with. */
  lemma Inner(v: JsonValue, rest: string)
    requires (v.JArray? && v.items != []) || (v.JObject? && v.fields != [])
    ensures var s, inner := ToJson(v) + rest, Join(Members(v));
      && |s| >= 2 && s[1..] == inner + [s[|inner| + 1]] + rest && inner != [] && s[1] == inner[0]
      && inner + [s[|inner| + 1]] + rest == Join(Members(v)[0..]) + [s[|inner| + 1]] + rest
      && (v.JArray? ==> s[0] == '[' && s[|inner| + 1] == ']' && inner[0] == ToJson(v.items[0])[0])
      && (v.JObject? ==> s[0] == '{' && s[|inner| + 1] == '}' && inner[0] == '"')
  {
    var s, inner := ToJson(v) + rest, Join(Members(v));
    var close := if v.JArray? then "]" else "}";
    assert s == ToJson(v)[..1] + (inner + close + rest);
    if v.JArray? {
      ItemMember(v, 0);
      ToJsonStart(v.items[0]);
    } else {
      FieldMember(v, 0);
    }
    JoinStart(Members(v));
    assert Members(v)[0..] == Members(v);
  }

  /** A non-empty array is read item by item from just after its bracket. */
  lemma ArrayOpen(v: JsonValue, rest: string)
    requires v.JArray? && v.items != []
    ensures ParseValue(ToJson(v) + rest) == ParseItems(Join(Members(v)[0..]) + "]" + rest, v.items[..0])
  {
    Inner(v, rest);
    ToJsonStart(v.items[0]);
    ArrayDispatch(ToJson(v) + rest);
    assert v.items[..0] == [];
  }

  /** A non-empty object is read field by field from just after its brace. */
  lemma ObjectOpen(v: JsonValue, rest: string)
    requires v.JObject? && v.fields != []
    ensures ParseValue(ToJson(v) + rest) == ParseFields(Join(Members(v)[0..]) + "}" + rest, v.fields[..0])
  {
    Inner(v, rest);
    ObjectDispatch(ToJson(v) + rest);
    assert v.fields[..0] == [];
  }

  /** A non-empty join starts with its first part. */
  lemma JoinStart(parts: seq<string>)
    requires parts != [] && parts[0] != []
    ensures Join(parts) != [] && Join(parts)[0] == parts[0][0]
  {
  }

  /** A join from index `i` on is that part, then a comma and the join of the rest if there is one. */
  lemma JoinFrom(ps: seq<string>, i: nat)
    requires i < |ps|
    ensures Join(ps[i..]) == if i == |ps| - 1 then ps[i] else ps[i] + "," + Join(ps[i + 1..])
  {
    if i == |ps| - 1 {
      assert ps[i..] == [ps[i]];
    } else {
      assert ps[i..][1..] == ps[i + 1..];
    }
  }

  /** The text of the items from index `i` on: the first of them, then a comma and the others. */
  lemma ItemsTextFrom(v: JsonValue, i: nat, rest: string)
    requires v.JArray? && i < |v.items|
    ensures i == |v.items| - 1 ==>
              Join(Members(v)[i..]) + "]" + rest == ToJson(v.items[i]) + ("]" + rest)
    ensures i < |v.items| - 1 ==>
              Join(Members(v)[i..]) + "]" + rest ==
              ToJson(v.items[i]) + ("," + (Join(Members(v)[i + 1..]) + "]" + rest))
  {
    JoinFrom(Members(v), i);
    ItemMember(v, i);
  }

  /** An item read back, then the delimiter after it. */
  lemma ItemStep(x: JsonValue, after: string, acc: seq<JsonValue>)
    requires after != [] && (after[0] == ',' || after[0] == ']')
    requires ParseValue(ToJson(x) + after) == Some((x, after))
    ensures after[0] == ',' ==> ParseItems(ToJson(x) + after, acc) == ParseItems(after[1..], acc + [x])
    ensures after[0] == ']' ==> ParseItems(ToJson(x) + after, acc) == Some((JArray(acc + [x]), after[1..]))
  {
  }

  /** The comma-joined items from index `i` on, then `]`, read back as the rest of the array. */
  lemma {:induction false} ItemsRoundTrip(v: JsonValue, i: nat, rest: string)
    requires v.JArray? && i < |v.items| && Delimited(rest)
    ensures ParseItems(Join(Members(v)[i..]) + "]" + rest, v.items[..i]) == Some((v, rest))
    decreases v, 0, |v.items| - i
  {
    var x, acc := v.items[i], v.items[..i];
    assert acc + [x] == v.items[..i + 1];
    ItemsTextFrom(v, i, rest);
    if i == |v.items| - 1 {
      ValueRoundTrip(x, "]" + rest);
      ItemStep(x, "]" + rest, acc);
      assert ("]" + rest)[1..] == rest;
      assert v.items[..i + 1] == v.items;
    } else {
      var tail := Join(Members(v)[i + 1..]) + "]" + rest;
      ItemsRoundTrip(v, i + 1, rest);
      ValueRoundTrip(x, "," + tail);
      ItemStep(x, "," + tail, acc);
      assert ("," + tail)[1..] == tail;
    }
  }

  /** The text of a field opens with a quotation mark, and its key reads back up to the colon. */
  lemma FieldKey(k: string, j: string, after: string)
    ensures var s := FieldJson(k, j) + after;
      s != [] && s[0] == '"' && ParseString(s[1..]) == Some((k, ":" + j + after))
  {
    var afterKey := ":" + j + after;
    var s := FieldJson(k, j) + after;
    assert s == "\"" + (EscapeString(k) + "\"" + afterKey);
    StringRoundTrip(k, afterKey);
  }

  /** Reading one field `"k":j`, where `j` reads as `x`, followed by a comma or the closing brace. */
  lemma FieldStep(k: string, x: JsonValue, j: string, after: string, acc: Fields)
    requires after != [] && (after[0] == ',' || after[0] == '}')
    requires ParseValue(j + after) == Some((x, after))
    ensures after[0] == ',' ==> ParseFields(FieldJson(k, j) + after, acc) == ParseFields(after[1..], acc + [(k, x)])
    ensures after[0] == '}' ==> ParseFields(FieldJson(k, j) + after, acc) == Some((JObject(acc + [(k, x)]), after[1..]))
  {
    var afterKey := ":" + j + after;
    FieldKey(k, j, after);
    assert afterKey[0] == ':' && afterKey[1..] == j + after;
  }

  /** A field followed by a comma reads as that field, then whatever the text after the comma reads as. */
  lemma FieldThenMore(k: string, x: JsonValue, tail: string, acc: Fields, result: Option<(JsonValue, string)>)
    requires ParseValue(ToJson(x) + ("," + tail)) == Some((x, "," + tail))
    requires ParseFields(tail, acc + [(k, x)]) == result
    ensures ParseFields(FieldJson(k, ToJson(x)) + "," + tail, acc) == result
  {
    FieldStep(k, x, ToJson(x), "," + tail, acc);
    assert ("," + tail)[1..] == tail;
    assert FieldJson(k, ToJson(x)) + "," + tail == FieldJson(k, ToJson(x)) + ("," + tail);
  }

  /** The text of the fields from index `i` on: the first of them, then a comma and the others. */
  lemma FieldsTextFrom(v: JsonValue, i: nat, rest: string)
    requires v.JObject? && i < |v.fields|
    ensures i == |v.fields| - 1 ==>
              Join(Members(v)[i..]) + "}" + rest == FieldJson(v.fields[i].0, ToJson(v.fields[i].1)) + ("}" + rest)
    ensures i < |v.fields| - 1 ==>
              Join(Members(v)[i..]) + "}" + rest ==
              FieldJson(v.fields[i].0, ToJson(v.fields[i].1)) + "," + (Join(Members(v)[i + 1..]) + "}" + rest)
  {
    JoinFrom(Members(v), i);
    FieldMember(v, i);
  }

  /** The comma-joined fields from index `i` on, then `}`, read back as the rest of the object. */
  lemma {:induction false} FieldsRoundTrip(v: JsonValue, i: nat, rest: string)
    requires v.JObject? && i < |v.fields| && Delimited(rest)
    ensures ParseFields(Join(Members(v)[i..]) + "}" + rest, v.fields[..i]) == Some((v, rest))
    decreases v, 0, |v.fields| - i
  {
    var k, x := v.fields[i].0, v.fields[i].1;
    var acc := v.fields[..i];
    assert acc + [(k, x)] == v.fields[..i + 1];
    FieldsTextFrom(v, i, rest);
    if i == |v.fields| - 1 {
      ValueRoundTrip(x, "}" + rest);
      FieldStep(k, x, ToJson(x), "}" + rest, acc);
      assert ("}" + rest)[1..] == rest;
      assert v.fields[..i + 1] == v.fields;
    } else {
      var tail := Join(Members(v)[i + 1..]) + "}" + rest;
      FieldsRoundTrip(v, i + 1, rest);
      ValueRoundTrip(x, "," + tail);
      FieldThenMore(k, x, tail, acc, Some((v, rest)));
    }
  }

  /** `toJson` writes a document that reads back as exactly the value it was written from. */
  lemma ToJsonReadsBack(v: JsonValue)
    ensures Parse(ToJson(v)) == Some(v)
  {
    ValueRoundTrip(v, []);
    assert ToJson(v) + [] == ToJson(v);
  }

  /** So two different values are never written as the same text. */
  lemma ToJsonInjective(a: JsonValue, b: JsonValue)
    requires ToJson(a) == ToJson(b)
    ensures a == b
  {
    ToJsonReadsBack(a);
    ToJsonReadsBack(b);
  }
}
