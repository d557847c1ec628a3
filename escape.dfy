/**
  String escaping as done by the `escape` helper of MetricsService: the two-character
  escapes of section 7 of RFC 8259 for the quotation mark, the reverse solidus and five
  control characters, a `\u00xx` escape with lower-case hexadecimal digits for every other
  code unit up to 0x1F, and every other character copied unchanged.
*/
module Escaping {
  import opened Results

  const Backspace: char := 8 as char
  const FormFeed: char := 12 as char

  /** The code units 0x00 to 0x1F, which JSON does not allow raw inside a string. */
  predicate IsControl(c: char) {
    c as int <= 0x1F
  }

  predicate NoControl(s: string) {
    forall i :: 0 <= i < |s| ==> !IsControl(s[i])
  }

  predicate IsLowerHex(c: char) {
    '0' <= c <= '9' || 'a' <= c <= 'f'
  }

  /** The value of a hexadecimal digit of either case, and -1 for any other character. */
  function HexValue(c: char): int {
    if '0' <= c <= '9' then c as int - 48
    else if 'a' <= c <= 'f' then c as int - 87
    else if 'A' <= c <= 'F' then c as int - 55
    else -1
  }

  /** The lower-case hexadecimal digit that `%x` prints for `d`. */
  function HexDigit(d: nat): (c: char)
    requires d < 16
    ensures IsLowerHex(c) && HexValue(c) == d
  {
    if d < 10 then (48 + d) as char else (87 + d) as char
  }

  /** The letter after the backslash of the two-character escape of `c`, if `c` has one. */
  function ShortEscape(c: char): Option<char> {
    if c == '"' then Some('"')
    else if c == '\\' then Some('\\')
    else if c == Backspace then Some('b')
    else if c == FormFeed then Some('f')
    else if c == '\n' then Some('n')
    else if c == '\r' then Some('r')
    else if c == '\t' then Some('t')
    else None
  }

  /** What `escape` appends to its buffer for the single code unit `c`. */
  function EscapeChar(c: char): string {
    match ShortEscape(c)
    case Some(e) => ['\\', e]
    case None =>
      if IsControl(c) then "\\u00" + [HexDigit(c as int / 16), HexDigit(c as int % 16)]
      else [c]
  }

  /**
    A character is kept as it is unless it is a quotation mark, a backslash or a control
    character; those with a short escape get a backslash and one letter, the other control
    characters `\u` and four lower-case hexadecimal digits spelling their code.
  */
  lemma EscapeCharSpec(c: char)
    ensures var r := EscapeChar(c);
      && NoControl(r)
      && (r == [c] <==> !IsControl(c) && c != '"' && c != '\\')
      && (r != [c] ==> |r| >= 2 && r[0] == '\\')
      && (|r| == 2 <==> ShortEscape(c).Some?)
      && (|r| == 2 ==> r[1] == ShortEscape(c).value)
      && (|r| == 6 <==> IsControl(c) && ShortEscape(c).None?)
      && (|r| == 6 ==>
            && r[1] == 'u'
            && (forall i :: 2 <= i < 6 ==> IsLowerHex(r[i]))
            && ((HexValue(r[2]) * 16 + HexValue(r[3])) * 16 + HexValue(r[4])) * 16 + HexValue(r[5]) == c as int)
  {
  }

  /** The whole result of `escape(s)`: the escapes of its characters, in order. */
  function EscapeString(s: string): string {
    if s == [] then [] else EscapeChar(s[0]) + EscapeString(s[1..])
  }

  lemma {:induction false} EscapeAppend(a: string, b: string)
    ensures EscapeString(a + b) == EscapeString(a) + EscapeString(b)
  {
    if a == [] {
      assert a + b == b;
    } else {
      assert (a + b)[0] == a[0];
      assert (a + b)[1..] == a[1..] + b;
      EscapeAppend(a[1..], b);
    }
  }

  /** The escaped text never holds a raw control character. */
  lemma {:induction false} EscapeNoControl(s: string)
    ensures NoControl(EscapeString(s))
  {
    if s != [] {
      EscapeNoControl(s[1..]);
      var e, t := EscapeChar(s[0]), EscapeString(s[1..]);
      EscapeCharSpec(s[0]);
      assert forall i :: |e| <= i < |e + t| ==> (e + t)[i] == t[i - |e|];
    }
  }

  /** A string without quotation marks, backslashes and control characters is left as it is. */
  lemma {:induction false} EscapeIdentity(s: string)
    requires forall i :: 0 <= i < |s| ==> !IsControl(s[i]) && s[i] != '"' && s[i] != '\\'
    ensures EscapeString(s) == s
  {
    if s != [] {
      EscapeIdentity(s[1..]);
      assert s == [s[0]] + s[1..];
    }
  }

  /**
    `escape`: walks the code units of `input` and appends each one's escape to a buffer,
    as the StringBuilder collector does.
  */
  method Escape(input: string) returns (out: string)
    ensures out == EscapeString(input)
  {
    out := [];
    var i := 0;
    while i < |input|
      invariant 0 <= i <= |input|
      invariant out == EscapeString(input[..i])
    {
      var c := input[i];
      if c == '"' {
        out := out + "\\\"";
      } else if c == '\\' {
        out := out + "\\\\";
      } else if c == Backspace {
        out := out + "\\b";
      } else if c == FormFeed {
        out := out + "\\f";
      } else if c == '\n' {
        out := out + "\\n";
      } else if c == '\r' {
        out := out + "\\r";
      } else if c == '\t' {
        out := out + "\\t";
      } else if c as int <= 0x1F {
        out := out + "\\u00" + [HexDigit(c as int / 16), HexDigit(c as int % 16)];
      } else {
        out := out + [c];
      }
      assert EscapeString([c]) == EscapeChar(c);
      assert input[..i + 1] == input[..i] + [c];
      EscapeAppend(input[..i], [c]);
      i := i + 1;
    }
    assert input[..|input|] == input;
  }
}
