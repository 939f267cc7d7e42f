/** JSON values, the canonical printer as a function, and a parser for the grammar
    of RFC 8259. A `char` is one Unicode scalar value; sorting keys by scalar
    values is sorting their UTF-8 bytes. */
module Json {
  import opened Prelude
  import opened Digits
  import opened Numbers
  import opened Text

  datatype Value =
    | Null
    | Bool(flag: bool)
    | Number(text: string)
    | Str(content: string)
    | Array(items: seq<Value>)
    | Object(members: map<string, Value>)

  // ------------------------------------------------------------------ printing

  function HexDigit(n: nat): char
    requires n < 16
  {
    if n < 10 then '0' + n as char else 'a' + (n - 10) as char
  }

  function Escape(c: char): string {
    if c == '"' || c == '\\' then ['\\', c]
    else if c == '\U{8}' then "\\b"
    else if c == '\U{c}' then "\\f"
    else if c == '\n' then "\\n"
    else if c == '\r' then "\\r"
    else if c == '\t' then "\\t"
    else if c < ' ' then "\\u00" + [HexDigit(c as nat / 16), HexDigit(c as nat % 16)]
    else [c]
  }

  function Escaped(s: string): string {
    if s == "" then "" else Escape(s[0]) + Escaped(s[1..])
  }

  function PrintString(s: string): string {
    "\"" + Escaped(s) + "\""
  }

  function NumberText(text: string, limits: Limits): string {
    var normalized := Normalize(text, limits);
    if normalized.Some? then normalized.value else ""
  }

  /** The canonical text of a value; `Printable` says when there is one. */
  ghost function Print(v: Value, limits: Limits): string
    decreases v, 1
  {
    match v
    case Null => "null"
    case Bool(flag) => if flag then "true" else "false"
    case Number(text) => NumberText(text, limits)
    case Str(content) => PrintString(content)
    case Array(items) => "[" + PrintItems(v, 0, limits) + "]"
    case Object(members) => "{" + PrintMembers(v, SortedList(members.Keys), 0, limits) + "}"
  }

  /** The items from the i-th on, each but the first after a comma. */
  ghost function PrintItems(v: Value, i: nat, limits: Limits): string
    requires v.Array? && i <= |v.items|
    decreases v, 0, |v.items| - i
  {
    if i == |v.items| then "" else Comma(i) + Print(v.items[i], limits) + PrintItems(v, i + 1, limits)
  }

  ghost function PrintMembers(v: Value, keys: seq<string>, i: nat, limits: Limits): string
    requires v.Object? && i <= |keys| && forall k :: k in keys ==> k in v.members
    decreases v, 0, |keys| - i
  {
    if i == |keys| then ""
    else Comma(i) + PrintString(keys[i]) + ":" + Print(v.members[keys[i]], limits) + PrintMembers(v, keys, i + 1, limits)
  }

  function Comma(i: nat): string {
    if i == 0 then "" else ","
  }

  /** Every number in the value has a canonical spelling within the limits. */
  predicate Printable(v: Value, limits: Limits) {
    match v
    case Number(text) => Normalize(text, limits).Some?
    case Array(items) => forall i :: 0 <= i < |items| ==> Printable(items[i], limits)
    case Object(members) => forall k :: k in members ==> Printable(members[k], limits)
    case _ => true
  }

  /** The same value with every number spelled canonically. */
  function Canonical(v: Value, limits: Limits): Value {
    match v
    case Number(text) => Number(NumberText(text, limits))
    case Array(items) => Array(seq(|items|, i requires 0 <= i < |items| => Canonical(items[i], limits)))
    case Object(members) => Object(map k | k in members :: Canonical(members[k], limits))
    case _ => v
  }

  // ------------------------------------------------------------------- parsing

  predicate IsSpace(c: char) {
    c == ' ' || c == '\t' || c == '\n' || c == '\r'
  }

  function SkipSpace(s: string): (r: string)
    ensures |r| <= |s|
  {
    if s != "" && IsSpace(s[0]) then SkipSpace(s[1..]) else s
  }

  function HexValue(c: char): (r: Option<nat>)
    ensures r.Some? ==> r.value < 16
  {
    if '0' <= c <= '9' then Some((c - '0') as nat)
    else if 'a' <= c <= 'f' then Some((c - 'a') as nat + 10)
    else if 'A' <= c <= 'F' then Some((c - 'A') as nat + 10)
    else None
  }

  /** The code unit of the escape \uXXXX at the start of the text. */
  function UnicodeEscape(s: string): (r: Option<nat>)
    ensures r.Some? ==> |s| >= 6 && r.value < 0x1_0000
  {
    if |s| < 6 || s[0] != '\\' || s[1] != 'u' then None
    else
      var a, b, c, d := HexValue(s[2]), HexValue(s[3]), HexValue(s[4]), HexValue(s[5]);
      if a.None? || b.None? || c.None? || d.None? then None
      else Some(((a.value * 16 + b.value) * 16 + c.value) * 16 + d.value)
  }

  predicate IsHighSurrogate(code: nat) {
    0xD800 <= code < 0xDC00
  }

  predicate IsLowSurrogate(code: nat) {
    0xDC00 <= code < 0xE000
  }

  function Combined(high: nat, low: nat): char
    requires IsHighSurrogate(high) && IsLowSurrogate(low)
  {
    (0x1_0000 + (high - 0xD800) * 0x400 + (low - 0xDC00)) as char
  }

  const REPLACEMENT: char := '\U{FFFD}'

  function Unescaped(c: char): Option<char> {
    match c
    case '"' => Some('"')
    case '\\' => Some('\\')
    case '/' => Some('/')
    case 'b' => Some('\U{8}')
    case 'f' => Some('\U{c}')
    case 'n' => Some('\n')
    case 'r' => Some('\r')
    case 't' => Some('\t')
    case _ => None
  }

  /** The first character of a string body and what it takes up. The lenient
      reader replaces an unpaired surrogate as encoding/json does; the strict
      one refuses it. */
  function ParseChar(s: string, strict: bool): (r: Option<(char, nat)>)
    requires s != ""
    ensures r.Some? ==> 0 < r.value.1 <= |s|
  {
    if s[0] != '\\' then
      if s[0] < ' ' || s[0] == '"' then None else Some((s[0], 1))
    else if |s| >= 2 && s[1] != 'u' then
      var c := Unescaped(s[1]);
      if c.None? then None else Some((c.value, 2))
    else
      var code := UnicodeEscape(s);
      if code.None? then None
      else if IsHighSurrogate(code.value) && UnicodeEscape(s[6..]).Some? && IsLowSurrogate(UnicodeEscape(s[6..]).value) then
        Some((Combined(code.value, UnicodeEscape(s[6..]).value), 12))
      else if IsHighSurrogate(code.value) || IsLowSurrogate(code.value) then
        if strict then None else Some((REPLACEMENT, 6))
      else Some((code.value as char, 6))
  }

  /** A string body up to and including its closing quote. */
  function ParseString(s: string, strict: bool): (r: Option<(string, string)>)
    ensures r.Some? ==> |r.value.1| < |s|
    decreases |s|
  {
    if s == "" then None
    else if s[0] == '"' then Some(("", s[1..]))
    else
      var first := ParseChar(s, strict);
      if first.None? then None
      else
        var rest := ParseString(s[first.value.1..], strict);
        if rest.None? then None else Some(([first.value.0] + rest.value.0, rest.value.1))
  }

  function DigitRun(s: string): (n: nat)
    ensures n <= |s|
  {
    if s != "" && IsDigit(s[0]) then 1 + DigitRun(s[1..]) else 0
  }

  function IntegerLength(s: string): (r: Option<nat>)
    ensures r.Some? ==> 0 < r.value <= |s|
  {
    var n := DigitRun(s);
    if n == 0 then None else Some(if s[0] == '0' then 1 else n)
  }

  function FractionLength(s: string): (r: Option<nat>)
    ensures r.Some? ==> r.value <= |s|
  {
    if s == "" || s[0] != '.' then Some(0)
    else if DigitRun(s[1..]) == 0 then None else Some(1 + DigitRun(s[1..]))
  }

  function ExponentLength(s: string): (r: Option<nat>)
    ensures r.Some? ==> r.value <= |s|
  {
    if s == "" || s[0] !in {'e', 'E'} then Some(0)
    else
      var sign := if |s| > 1 && s[1] in {'+', '-'} then 1 else 0;
      var n := DigitRun(s[1 + sign..]);
      if n == 0 then None else Some(1 + sign + n)
  }

  /** The longest number at the start of the text. */
  function NumberLength(s: string): (r: Option<nat>)
    ensures r.Some? ==> 0 < r.value <= |s|
  {
    var sign := if s != "" && s[0] == '-' then 1 else 0;
    var integer := IntegerLength(s[sign..]);
    if integer.None? then None
    else
      var a := sign + integer.value;
      var fraction := FractionLength(s[a..]);
      if fraction.None? then None
      else
        var b := a + fraction.value;
        var exponent := ExponentLength(s[b..]);
        if exponent.None? then None else Some(b + exponent.value)
  }

  function ParseLiteral(s: string): (r: Option<(Value, string)>)
    ensures r.Some? ==> |r.value.1| < |s|
  {
    if "null" <= s then Some((Null, s[4..]))
    else if "true" <= s then Some((Bool(true), s[4..]))
    else if "false" <= s then Some((Bool(false), s[5..]))
    else
      var n := NumberLength(s);
      if n.None? then None else Some((Number(s[..n.value]), s[n.value..]))
  }

  function ParseValue(s: string, strict: bool): (r: Option<(Value, string)>)
    ensures r.Some? ==> |r.value.1| < |s|
    decreases |s|, 0
  {
    if s == "" then None
    else if s[0] == '"' then
      var text := ParseString(s[1..], strict);
      if text.None? then None else Some((Str(text.value.0), text.value.1))
    else if s[0] == '[' then
      var t := SkipSpace(s[1..]);
      if t != "" && t[0] == ']' then Some((Array([]), t[1..]))
      else
        var items := ParseItems(t, strict);
        if items.None? then None else Some((Array(items.value.0), items.value.1))
    else if s[0] == '{' then
      var t := SkipSpace(s[1..]);
      if t != "" && t[0] == '}' then Some((Object(map[]), t[1..]))
      else
        var members := ParseMembers(t, strict);
        if members.None? then None else Some((Object(members.value.0), members.value.1))
    else ParseLiteral(s)
  }

  /** One or more items up to and including the closing bracket. */
  function ParseItems(s: string, strict: bool): (r: Option<(seq<Value>, string)>)
    ensures r.Some? ==> |r.value.1| < |s|
    decreases |s|, 1
  {
    var first := ParseValue(s, strict);
    if first.None? then None
    else
      var t := SkipSpace(first.value.1);
      if t == "" then None
      else if t[0] == ']' then Some(([first.value.0], t[1..]))
      else if t[0] != ',' then None
      else
        var rest := ParseItems(SkipSpace(t[1..]), strict);
        if rest.None? then None else Some(([first.value.0] + rest.value.0, rest.value.1))
  }

  /** One or more members up to and including the closing brace; no name twice. */
  function ParseMembers(s: string, strict: bool): (r: Option<(map<string, Value>, string)>)
    ensures r.Some? ==> |r.value.1| < |s|
    decreases |s|, 1
  {
    if s == "" || s[0] != '"' then None
    else
      var key := ParseString(s[1..], strict);
      if key.None? then None
      else
        var t := SkipSpace(key.value.1);
        if t == "" || t[0] != ':' then None
        else
          var first := ParseValue(SkipSpace(t[1..]), strict);
          if first.None? then None
          else
            var u := SkipSpace(first.value.1);
            if u == "" then None
            else if u[0] == '}' then Some((map[key.value.0 := first.value.0], u[1..]))
            else if u[0] != ',' then None
            else
              var rest := ParseMembers(SkipSpace(u[1..]), strict);
              if rest.None? || key.value.0 in rest.value.0 then None
              else Some((rest.value.0[key.value.0 := first.value.0], rest.value.1))
  }

  /** Exactly one value with nothing but white space around it. */
  function Parse(s: string, strict: bool): Option<Value> {
    var v := ParseValue(SkipSpace(s), strict);
    if v.None? || SkipSpace(v.value.1) != "" then None else Some(v.value.0)
  }
}
