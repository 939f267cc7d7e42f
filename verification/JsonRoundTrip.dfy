/** Reading canonical text back: the printed text determines the value. */
module JsonRoundTrip {
  import opened Prelude
  import opened Digits
  import opened Numbers
  import opened Text
  import opened Json

  // ------------------------------------------------------------------- strings

  lemma HexRoundTrip(n: nat)
    requires n < 16
    ensures HexValue(HexDigit(n)) == Some(n)
  {
  }

  lemma EscapeReads(c: char, rest: string, strict: bool)
    ensures ParseChar(Escape(c) + rest, strict) == Some((c, |Escape(c)|)) && (Escape(c) + rest)[0] != '"'
  {
    if c < ' ' && c !in {'\U{8}', '\U{c}', '\n', '\r', '\t'} { ControlReads(c, rest, strict); }
  }

  lemma ControlReads(c: char, rest: string, strict: bool)
    requires c < ' ' && c !in {'\U{8}', '\U{c}', '\n', '\r', '\t'}
    ensures ParseChar(Escape(c) + rest, strict) == Some((c, |Escape(c)|)) && (Escape(c) + rest)[0] != '"'
  {
    var n := c as nat;
    HexRoundTrip(n / 16);
    HexRoundTrip(n % 16);
    var s := Escape(c) + rest;
    assert s[0] == '\\' && s[1] == 'u' && s[2] == '0' && s[3] == '0';
    assert s[4] == HexDigit(n / 16) && s[5] == HexDigit(n % 16);
    hide HexDigit;
    assert HexValue('0') == Some(0);
    hide HexValue;
    assert UnicodeEscape(s) == Some(n);
  }

  lemma {:induction false} StringReads(s: string, rest: string, strict: bool)
    ensures ParseString(Escaped(s) + ("\"" + rest), strict) == Some((s, rest))
  {
    var tail := "\"" + rest;
    if s == "" {
      assert "" + tail == tail;
    } else {
      EscapeReads(s[0], Escaped(s[1..]) + tail, strict);
      StringReads(s[1..], rest, strict);
      hide Escape, ParseChar;
      assert Escaped(s) + tail == Escape(s[0]) + (Escaped(s[1..]) + tail);
      CharThenString(s[0], Escape(s[0]), s[1..], Escaped(s[1..]) + tail, rest, strict);
      assert [s[0]] + s[1..] == s;
    }
  }

  lemma CharThenString(c: char, first: string, s: string, more: string, rest: string, strict: bool)
    requires first != "" && first + more != "" && (first + more)[0] != '"'
    requires ParseChar(first + more, strict) == Some((c, |first|))
    requires ParseString(more, strict) == Some((s, rest))
    ensures ParseString(first + more, strict) == Some(([c] + s, rest))
  {
    assert (first + more)[|first|..] == more;
    hide ParseChar;
  }

  // ------------------------------------------------------------------- numbers

  /** What may follow a number without becoming part of it. */
  predicate Delimited(rest: string) {
    rest == "" || (!IsDigit(rest[0]) && rest[0] !in {'.', 'e', 'E'})
  }

  lemma {:induction false} DigitRunStops(s: string, rest: string)
    requires AllDigits(s) && (rest == "" || !IsDigit(rest[0]))
    ensures DigitRun(s + rest) == |s|
  {
    if s == "" {
      assert s + rest == rest;
    } else {
      assert (s + rest)[1..] == s[1..] + rest;
      DigitRunStops(s[1..], rest);
    }
  }

  function Fraction(fraction: string): string {
    if fraction != "" then "." + fraction else ""
  }

  lemma IntegerReads(integer: string, tail: string)
    requires AllDigits(integer) && integer != "" && (|integer| > 1 ==> integer[0] != '0')
    requires tail == "" || !IsDigit(tail[0])
    ensures IntegerLength(integer + tail) == Some(|integer|)
  {
    DigitRunStops(integer, tail);
    assert (integer + tail)[0] == integer[0];
  }

  lemma FractionReads(fraction: string, rest: string)
    requires AllDigits(fraction) && Delimited(rest)
    ensures FractionLength(Fraction(fraction) + rest) == Some(|Fraction(fraction)|)
    ensures ExponentLength(rest) == Some(0)
    ensures Fraction(fraction) + rest == "" || !IsDigit((Fraction(fraction) + rest)[0])
  {
    if fraction != "" {
      assert (Fraction(fraction) + rest)[1..] == fraction + rest;
      DigitRunStops(fraction, rest);
    } else {
      assert Fraction(fraction) + rest == rest;
    }
  }

  lemma NumberParts(s: string, sign: nat, n: nat, f: nat)
    requires sign == (if s != "" && s[0] == '-' then 1 else 0) && sign + n + f <= |s|
    requires IntegerLength(s[sign..]) == Some(n) && FractionLength(s[sign + n..]) == Some(f)
    requires ExponentLength(s[sign + n + f..]) == Some(0)
    ensures NumberLength(s) == Some(sign + n + f)
  {
  }

  lemma Suffixes(sign: string, integer: string, fraction: string, rest: string)
    ensures var s := sign + (integer + fraction) + rest;
            && s[|sign|..] == integer + (fraction + rest)
            && s[|sign| + |integer|..] == fraction + rest
            && s[|sign| + |integer| + |fraction|..] == rest
            && (sign + integer != "" ==> s != "" && s[0] == (if sign != "" then sign[0] else integer[0]))
  {
  }

  lemma JoinedReads(sign: string, integer: string, fraction: string, rest: string)
    requires sign in {"", "-"} && AllDigits(fraction) && Delimited(rest)
    requires AllDigits(integer) && integer != "" && (|integer| > 1 ==> integer[0] != '0')
    ensures NumberLength(sign + (integer + Fraction(fraction)) + rest) == Some(|sign| + |integer| + |Fraction(fraction)|)
  {
    FirstDigit(integer);
    hide *;
    var f := Fraction(fraction);
    var tail := f + rest;
    FractionReads(fraction, rest);
    IntegerReads(integer, tail);
    NumberFrom(sign, integer, f, rest, integer + tail, tail);
  }

  /** The length of a number whose parts are read one after the other. */
  lemma NumberFrom(sign: string, integer: string, f: string, rest: string, unsigned: string, tail: string)
    requires sign in {"", "-"} && integer != "" && integer[0] != '-' && unsigned == integer + tail && tail == f + rest
    requires IntegerLength(unsigned) == Some(|integer|) && FractionLength(tail) == Some(|f|) && ExponentLength(rest) == Some(0)
    ensures NumberLength(sign + (integer + f) + rest) == Some(|sign| + |integer| + |f|)
  {
    hide *;
    SignIs(sign);
    Suffixes(sign, integer, f, rest);
    NumberParts(sign + (integer + f) + rest, |sign|, |integer|, |f|);
  }

  lemma FirstDigit(integer: string)
    requires AllDigits(integer) && integer != ""
    ensures IsDigit(integer[0]) && integer[0] != '-'
  {
  }

  lemma SignIs(sign: string)
    requires sign in {"", "-"}
    ensures sign != "" ==> sign[0] == '-'
  {
  }

  lemma DecimalReads(negative: bool, integer: string, fraction: string, rest: string)
    requires AllDigits(integer) && integer != "" && (|integer| > 1 ==> integer[0] != '0')
    requires AllDigits(fraction) && Delimited(rest)
    ensures var text := Signed(negative, integer + Fraction(fraction));
            NumberLength(text + rest) == Some(|text|)
            && text != "" && (text[0] == '-' || IsDigit(text[0]))
  {
    FirstDigit(integer);
    hide *;
    UnsignedStarts(integer, Fraction(fraction));
    var sign := SignedText(negative, integer + Fraction(fraction));
    PartsRead(Signed(negative, integer + Fraction(fraction)), sign, integer, fraction, rest);
  }

  lemma PartsRead(text: string, sign: string, integer: string, fraction: string, rest: string)
    requires sign in {"", "-"} && AllDigits(fraction) && Delimited(rest)
    requires AllDigits(integer) && integer != "" && (|integer| > 1 ==> integer[0] != '0')
    requires text == sign + (integer + Fraction(fraction))
    ensures NumberLength(text + rest) == Some(|text|)
  {
    hide *;
    JoinedReads(sign, integer, fraction, rest);
  }

  lemma UnsignedStarts(integer: string, fraction: string)
    requires integer != "" && IsDigit(integer[0])
    ensures var unsigned := integer + fraction;
            unsigned != "" && IsDigit(unsigned[0]) && |unsigned| == |integer| + |fraction|
  {
    hide IsDigit;
  }

  lemma SignedText(negative: bool, unsigned: string) returns (sign: string)
    requires unsigned != "" && IsDigit(unsigned[0])
    ensures sign in {"", "-"}
    ensures var text := Signed(negative, unsigned);
            text == sign + unsigned && |text| == |sign| + |unsigned| && (text[0] == '-' || IsDigit(text[0]))
  {
    sign := if negative then "-" else "";
  }

  lemma FirstOf(text: string, rest: string)
    requires text != ""
    ensures (text + rest)[0] == text[0]
  {
  }

  lemma RenderedReads(d: Decimal, rest: string)
    requires IsNormal(d) && Delimited(rest)
    ensures NumberLength(Render(d) + rest) == Some(|Render(d)|)
    ensures Render(d) != "" && (Render(d)[0] == '-' || IsDigit(Render(d)[0]))
  {
    match d {
      case Zero =>
        assert Render(d) == Signed(false, "0" + Fraction(""));
        DecimalReads(false, "0", "", rest);
      case Scaled(negative, digits, scale) =>
        var integer, fraction := IntegerPart(digits, scale), FractionPart(digits, scale);
        RejoinedParts(negative, digits, scale);
        PlaceJoinsParts(digits, scale);
        FractionOnlyWithScale(digits, scale);
        if scale > 0 { FractionWithScale(digits, scale); }
        hide IntegerPart, FractionPart, Place, NumberLength, DecimalOf;
        DecimalReads(negative, integer, fraction, rest);
    }
  }

  lemma FractionWithScale(digits: string, scale: int)
    requires digits != "" && scale > 0
    ensures FractionPart(digits, scale) != ""
  {
  }

  lemma LiteralIsNumber(t: string, rest: string, strict: bool)
    requires t != "" && (t[0] == '-' || IsDigit(t[0])) && NumberLength(t + rest) == Some(|t|)
    ensures ParseValue(t + rest, strict) == Some((Number(t), rest))
  {
    FirstOf(t, rest);
    assert (t + rest)[..|t|] == t && (t + rest)[|t|..] == rest;
    hide NumberLength;
    var s := t + rest;
    NotAWord(s);
  }

  lemma NotAWord(s: string)
    requires s != "" && (s[0] == '-' || IsDigit(s[0]))
    ensures !("null" <= s) && !("true" <= s) && !("false" <= s)
  {
    assert "null"[0] == 'n' && "true"[0] == 't' && "false"[0] == 'f';
  }

  /** Characters that can start a canonical value. */
  predicate Starts(s: string) {
    s != "" && s[0] !in {']', '}', ' ', '\t', '\n', '\r'}
  }

  lemma NumberReads(text: string, limits: Limits, rest: string, strict: bool)
    requires Normalize(text, limits).Some? && Delimited(rest)
    ensures Starts(NumberText(text, limits))
    ensures ParseValue(NumberText(text, limits) + rest, strict) == Some((Number(NumberText(text, limits)), rest))
  {
    NormalizeRenders(text, limits);
    DecimalInDenotes(text);
    var d := DecimalIn(Scan(text).value);
    var t := NumberText(text, limits);
    assert t == Render(d);
    hide *;
    RenderedReads(d, rest);
    LiteralIsNumber(t, rest, strict);
    NumberStarts(t);
  }

  lemma NumberStarts(t: string)
    requires t != "" && (t[0] == '-' || IsDigit(t[0]))
    ensures Starts(t)
  {
  }

  // ----------------------------------------------------------- compound values

  lemma NoSpace(s: string)
    requires s != "" && !IsSpace(s[0])
    ensures SkipSpace(s) == s
  {
  }

  lemma LastItem(first: string, v: Value, rest: string, strict: bool)
    requires ParseValue(first + ("]" + rest), strict) == Some((v, "]" + rest))
    ensures ParseItems(first + ("]" + rest), strict) == Some(([v], rest))
  {
    NoSpace("]" + rest);
    hide ParseValue;
  }

  lemma ItemThenItems(first: string, v: Value, more: string, vs: seq<Value>, rest: string, strict: bool)
    requires ParseValue(first + ("," + more), strict) == Some((v, "," + more))
    requires Starts(more) && ParseItems(more, strict) == Some((vs, rest))
    ensures ParseItems(first + ("," + more), strict) == Some(([v] + vs, rest))
  {
    NoSpace("," + more);
    NoSpace(more);
    assert ("," + more)[1..] == more;
    hide ParseValue;
  }

  lemma EmptyArrayReads(rest: string, strict: bool)
    ensures ParseValue("[]" + rest, strict) == Some((Array([]), rest))
  {
    var s := "[]" + rest;
    assert s[1..] == "]" + rest;
    NoSpace("]" + rest);
  }

  lemma ArrayReads(body: string, items: seq<Value>, rest: string, strict: bool)
    requires Starts(body) && ParseItems(body, strict) == Some((items, rest))
    ensures ParseValue("[" + body, strict) == Some((Array(items), rest))
  {
    assert ("[" + body)[1..] == body;
    NoSpace(body);
    hide ParseItems;
  }

  lemma EmptyObjectReads(rest: string, strict: bool)
    ensures ParseValue("{}" + rest, strict) == Some((Object(map[]), rest))
  {
    var s := "{}" + rest;
    assert s[1..] == "}" + rest;
    NoSpace("}" + rest);
  }

  lemma ObjectReads(body: string, members: map<string, Value>, rest: string, strict: bool)
    requires Starts(body) && ParseMembers(body, strict) == Some((members, rest))
    ensures ParseValue("{" + body, strict) == Some((Object(members), rest))
  {
    assert ("{" + body)[1..] == body;
    NoSpace(body);
    hide ParseMembers;
  }

  function MemberResult(key: string, v: Value, after: string, strict: bool): Option<(map<string, Value>, string)>
    requires after != ""
  {
    if after[0] == '}' then Some((map[key := v], after[1..]))
    else if after[0] != ',' then None
    else
      var more := ParseMembers(SkipSpace(after[1..]), strict);
      if more.None? || key in more.value.0 then None else Some((more.value.0[key := v], more.value.1))
  }

  lemma MemberParts(s: string, key: string, t: string, u: string, v: Value, after: string, strict: bool)
    requires s != "" && s[0] == '"' && ParseString(s[1..], strict) == Some((key, t))
    requires SkipSpace(t) == t && t != "" && t[0] == ':' && SkipSpace(t[1..]) == u
    requires ParseValue(u, strict) == Some((v, after)) && SkipSpace(after) == after && after != ""
    ensures ParseMembers(s, strict) == MemberResult(key, v, after, strict)
  {
    hide ParseValue, ParseString, SkipSpace;
  }

  lemma KeyReads(key: string, after: string, strict: bool)
    ensures var s := PrintString(key) + after;
            s != "" && s[0] == '"' && ParseString(s[1..], strict) == Some((key, after))
  {
    var s := PrintString(key) + after;
    assert s[1..] == Escaped(key) + ("\"" + after);
    StringReads(key, after, strict);
    hide ParseString;
  }

  /** A member up to and including its value. */
  lemma MemberReads(key: string, value: string, v: Value, after: string, strict: bool)
    requires Starts(value) && after != "" && !IsSpace(after[0])
    requires ParseValue(value + after, strict) == Some((v, after))
    ensures ParseMembers(PrintString(key) + (":" + (value + after)), strict) == MemberResult(key, v, after, strict)
  {
    var t := ":" + (value + after);
    KeyReads(key, t, strict);
    NoSpace(t);
    assert t[1..] == value + after && (value + after)[0] == value[0];
    NoSpace(value + after);
    NoSpace(after);
    assert t[0] == ':';
    hide *;
    MemberParts(PrintString(key) + t, key, t, value + after, v, after, strict);
  }

  lemma NullReads(rest: string, strict: bool)
    ensures ParseValue("null" + rest, strict) == Some((Null, rest))
  {
    assert "null" <= "null" + rest && ("null" + rest)[4..] == rest;
  }

  lemma StrReads(content: string, rest: string, strict: bool)
    ensures ParseValue(PrintString(content) + rest, strict) == Some((Str(content), rest))
  {
    KeyReads(content, rest, strict);
    hide ParseString, PrintString;
  }

  lemma ArrayValueReads(v: Value, limits: Limits, rest: string, strict: bool)
    requires v.Array? && v.items != [] && Starts(Remaining(v, 0, limits))
    requires ParseItems(Remaining(v, 0, limits) + ("]" + rest), strict) == Some((Canonical(v, limits).items[0..], rest))
    ensures ParseValue(Print(v, limits) + rest, strict) == Some((Canonical(v, limits), rest))
  {
    FirstItem(v, limits);
    CanonicalArray(v, limits);
    hide *;
    var body, items := Remaining(v, 0, limits), Canonical(v, limits).items;
    BracketsApart("[", body, "]", rest);
    StartsAppended(body, "]" + rest);
    ArrayReads(body + ("]" + rest), items, rest, strict);
  }

  lemma CanonicalArray(v: Value, limits: Limits)
    requires v.Array?
    ensures var c := Canonical(v, limits);
            c.Array? && c == Array(c.items) && c.items[0..] == c.items
  {
  }

  lemma BracketsApart(left: string, body: string, right: string, rest: string)
    ensures left + body + right + rest == left + (body + (right + rest))
  {
  }

  lemma ObjectValueReads(v: Value, keys: seq<string>, limits: Limits, rest: string, strict: bool)
    requires v.Object? && keys != [] && keys == SortedList(v.members.Keys) && forall k :: k in keys <==> k in v.members
    requires Starts(RemainingMembers(v, keys, 0, limits))
    requires ParseMembers(RemainingMembers(v, keys, 0, limits) + ("}" + rest), strict) ==
             Some((CanonicalMembers(v, keys, 0, limits), rest))
    ensures ParseValue(Print(v, limits) + rest, strict) == Some((Canonical(v, limits), rest))
  {
    FirstMember(v, keys, limits);
    var body, members := RemainingMembers(v, keys, 0, limits), CanonicalMembers(v, keys, 0, limits);
    AllCanonicalMembers(v, keys, limits);
    hide *;
    Associate("{", body, "}");
    Associate("{", body + "}", rest);
    Associate(body, "}", rest);
    StartsAppended(body, "}" + rest);
    ObjectReads(body + ("}" + rest), members, rest, strict);
  }

  lemma AllCanonicalMembers(v: Value, keys: seq<string>, limits: Limits)
    requires v.Object? && forall k :: k in keys <==> k in v.members
    ensures Canonical(v, limits) == Object(CanonicalMembers(v, keys, 0, limits))
  {
    hide Print;
    assert keys[0..] == keys;
    assert CanonicalMembers(v, keys, 0, limits) == Canonical(v, limits).members;
  }

  lemma StartsAppended(s: string, t: string)
    requires Starts(s)
    ensures Starts(s + t)
  {
    assert (s + t)[0] == s[0];
  }

  lemma PrintStarts(v: Value, limits: Limits)
    requires Printable(v, limits)
    ensures Starts(Print(v, limits))
  {
    if v.Number? {
      NumberReads(v.text, limits, "", true);
      hide ParseValue;
    } else {
      hide ParseValue, PrintItems, PrintMembers, Escaped;
    }
  }

  lemma EmptyPrints(v: Value, limits: Limits)
    ensures v == Array([]) ==> Print(v, limits) == "[]" && Canonical(v, limits) == v
    ensures v == Object(map[]) ==> Print(v, limits) == "{}" && Canonical(v, limits) == v
  {
    if v == Array([]) { assert Canonical(v, limits).items == []; }
    if v == Object(map[]) {
      assert Canonical(v, limits).members == map[];
      ObjectKeys(v.members, SortedList(v.members.Keys));
    }
  }

  /** Canonical text, whatever may follow it, reads back as the canonical value. */
  lemma {:induction false} ValueReads(v: Value, limits: Limits, rest: string, strict: bool)
    requires Printable(v, limits) && Delimited(rest)
    ensures ParseValue(Print(v, limits) + rest, strict) == Some((Canonical(v, limits), rest))
    decreases v, 1
  {
    hide ParseValue, ParseItems, ParseMembers, PrintItems, PrintMembers, PrintString, NumberText;
    match v {
      case Null => NullReads(rest, strict);
      case Bool(flag) => BoolReads(flag, rest, strict);
      case Number(text) => NumberReads(text, limits, rest, strict);
      case Str(content) => StrReads(content, rest, strict);
      case Array(items) =>
        if items == [] {
          EmptyArrayReads(rest, strict);
          EmptyPrints(v, limits);
        } else {
          ItemsRead(v, 0, limits, rest, strict);
          ArrayValueReads(v, limits, rest, strict);
        }
      case Object(members) =>
        var keys := SortedList(members.Keys);
        ObjectKeys(members, keys);
        if members == map[] {
          EmptyObjectReads(rest, strict);
          EmptyPrints(v, limits);
        } else {
          MembersRead(v, keys, 0, limits, rest, strict);
          ObjectValueReads(v, keys, limits, rest, strict);
        }
    }
  }

  lemma BoolReads(flag: bool, rest: string, strict: bool)
    ensures ParseValue((if flag then "true" else "false") + rest, strict) == Some((Bool(flag), rest))
  {
    var t := if flag then "true" else "false";
    var s := t + rest;
    assert t <= s && s[|t|..] == rest;
    assert s[0] == t[0];
    assert "null"[0] == 'n';
    assert "true"[0] == 't';
  }

  lemma ObjectKeys(members: map<string, Value>, keys: seq<string>)
    requires Elements(keys) == members.Keys
    ensures forall k :: k in keys <==> k in members
    ensures keys == [] <==> members == map[]
  {
    assert forall k :: k in keys <==> k in Elements(keys);
    if keys == [] { assert members.Keys == {}; } else { assert keys[0] in members; }
  }

  /** The text of the items from the i-th on, without a leading comma. */
  ghost function Remaining(v: Value, i: nat, limits: Limits): string
    requires v.Array? && i < |v.items|
  {
    Print(v.items[i], limits) + PrintItems(v, i + 1, limits)
  }

  lemma FirstItem(v: Value, limits: Limits)
    requires v.Array? && v.items != []
    ensures Print(v, limits) == "[" + Remaining(v, 0, limits) + "]"
  {
    assert "" + Print(v.items[0], limits) == Print(v.items[0], limits);
  }

  lemma Associate(a: string, b: string, c: string)
    ensures a + b + c == a + (b + c)
  {
  }

  lemma NextItems(v: Value, i: nat, limits: Limits)
    requires v.Array? && i < |v.items|
    ensures Remaining(v, i, limits) ==
            Print(v.items[i], limits) + (if i + 1 == |v.items| then "" else "," + Remaining(v, i + 1, limits))
  {
    hide Print;
    if i + 1 < |v.items| {
      hide PrintItems;
      LaterItems(v, i + 1, limits);
    }
  }

  lemma LaterItems(v: Value, i: nat, limits: Limits)
    requires v.Array? && 0 < i < |v.items|
    ensures PrintItems(v, i, limits) == "," + Remaining(v, i, limits)
  {
    hide Print;
    Associate(",", Print(v.items[i], limits), PrintItems(v, i + 1, limits));
  }

  lemma CanonicalItem(v: Value, i: nat, limits: Limits)
    requires v.Array? && i < |v.items|
    ensures var c := Canonical(v, limits).items;
            |c| == |v.items| && c[i] == Canonical(v.items[i], limits) && c[i..] == [c[i]] + c[i + 1..]
            && (i + 1 == |c| ==> c[i..] == [c[i]])
    ensures Printable(v, limits) ==> Printable(v.items[i], limits)
  {
  }

  lemma {:induction false} ItemsRead(v: Value, i: nat, limits: Limits, rest: string, strict: bool)
    requires v.Array? && i < |v.items| && Printable(v, limits)
    ensures Starts(Remaining(v, i, limits))
    ensures ParseItems(Remaining(v, i, limits) + ("]" + rest), strict) == Some((Canonical(v, limits).items[i..], rest))
    decreases v, 0, |v.items| - i
  {
    CanonicalItem(v, i, limits);
    DelimitedByBracket(rest);
    hide *;
    var first, c := Print(v.items[i], limits), Canonical(v, limits).items;
    NextItems(v, i, limits);
    PrintStarts(v.items[i], limits);
    if i + 1 == |v.items| {
      ValueReads(v.items[i], limits, "]" + rest, strict);
      LastItem(first, c[i], rest, strict);
      assert first + "" == first;
    } else {
      var later := Remaining(v, i + 1, limits);
      var more := later + ("]" + rest);
      DelimitedByComma(more);
      ItemsRead(v, i + 1, limits, rest, strict);
      ValueReads(v.items[i], limits, "," + more, strict);
      StartsAppended(later, "]" + rest);
      StartsAppended(first, "," + later);
      ItemThenItems(first, c[i], more, c[i + 1..], rest, strict);
      Associate(first, "," + later, "]" + rest);
      Associate(",", later, "]" + rest);
    }
  }

  lemma DelimitedByBracket(rest: string)
    ensures Delimited("]" + rest)
  {
  }

  lemma DelimitedByComma(more: string)
    ensures Delimited("," + more)
  {
  }

  ghost function RemainingMembers(v: Value, keys: seq<string>, i: nat, limits: Limits): string
    requires v.Object? && i < |keys| && forall k :: k in keys ==> k in v.members
  {
    PrintString(keys[i]) + (":" + (Print(v.members[keys[i]], limits) + PrintMembers(v, keys, i + 1, limits)))
  }

  ghost function CanonicalMembers(v: Value, keys: seq<string>, i: nat, limits: Limits): map<string, Value>
    requires v.Object? && i <= |keys| && forall k :: k in keys ==> k in v.members
  {
    map k | k in keys[i..] :: Canonical(v.members[k], limits)
  }

  lemma FirstMember(v: Value, keys: seq<string>, limits: Limits)
    requires v.Object? && keys != [] && keys == SortedList(v.members.Keys) && forall k :: k in keys ==> k in v.members
    ensures Print(v, limits) == "{" + RemainingMembers(v, keys, 0, limits) + "}"
  {
    PrintsMembers(v, limits);
    hide *;
    MembersFrom(v, keys, 0, limits);
  }

  lemma PrintsMembers(v: Value, limits: Limits)
    requires v.Object?
    ensures forall k :: k in SortedList(v.members.Keys) ==> k in v.members
    ensures Print(v, limits) == "{" + PrintMembers(v, SortedList(v.members.Keys), 0, limits) + "}"
  {
    hide PrintMembers;
  }

  lemma MembersFrom(v: Value, keys: seq<string>, i: nat, limits: Limits)
    requires v.Object? && i < |keys| && forall k :: k in keys ==> k in v.members
    ensures PrintMembers(v, keys, i, limits) == (if i == 0 then "" else ",") + RemainingMembers(v, keys, i, limits)
  {
    hide Print, PrintString;
    MemberShape(Comma(i), PrintString(keys[i]), Print(v.members[keys[i]], limits), PrintMembers(v, keys, i + 1, limits));
  }

  lemma MemberShape(comma: string, key: string, value: string, more: string)
    ensures comma + key + ":" + value + more == comma + (key + (":" + (value + more)))
  {
  }

  lemma NextMembers(v: Value, keys: seq<string>, i: nat, limits: Limits)
    requires v.Object? && i < |keys| && forall k :: k in keys ==> k in v.members
    ensures RemainingMembers(v, keys, i, limits) ==
            PrintString(keys[i]) + (":" + (Print(v.members[keys[i]], limits)
              + (if i + 1 == |keys| then "" else "," + RemainingMembers(v, keys, i + 1, limits))))
    ensures Starts(RemainingMembers(v, keys, i, limits))
  {
    hide Print, Escaped;
    if i + 1 < |keys| {
      MembersFrom(v, keys, i + 1, limits);
      hide PrintMembers;
    }
  }

  lemma {:induction false} MembersRead(v: Value, keys: seq<string>, i: nat, limits: Limits, rest: string, strict: bool)
    requires v.Object? && i < |keys| && Sorted(keys) && (forall k :: k in keys ==> k in v.members) && Printable(v, limits)
    ensures Starts(RemainingMembers(v, keys, i, limits))
    ensures ParseMembers(RemainingMembers(v, keys, i, limits) + ("}" + rest), strict) ==
            Some((CanonicalMembers(v, keys, i, limits), rest))
    decreases v, 0, |keys| - i
  {
    var key, value := keys[i], v.members[keys[i]];
    NextMembers(v, keys, i, limits);
    CanonicalStep(v, keys, i, limits);
    assert key in v.members && Printable(value, limits);
    assert Delimited("}" + rest);
    hide Parse, ParseMembers, ParseValue, Canonical, Print, PrintString, PrintMembers, RemainingMembers, Printable, CanonicalMembers, Sorted, Delimited;
    PrintStarts(value, limits);
    if i + 1 == |keys| {
      ValueReads(value, limits, "}" + rest, strict);
      MemberReads(key, Print(value, limits), Canonical(value, limits), "}" + rest, strict);
      hide Starts, SkipSpace, IsSpace;
      MemberText(PrintString(key), Print(value, limits), "", "}" + rest);
      assert "" + ("}" + rest) == "}" + rest;
      assert ("}" + rest)[1..] == rest;
    } else {
      var later := RemainingMembers(v, keys, i + 1, limits);
      var more := later + ("}" + rest);
      DelimitedByComma(more);
      ValueReads(value, limits, "," + more, strict);
      MembersRead(v, keys, i + 1, limits, rest, strict);
      StartsAppended(later, "}" + rest);
      NoSpace(more);
      MemberReads(key, Print(value, limits), Canonical(value, limits), "," + more, strict);
      hide Starts, SkipSpace, IsSpace;
      MemberText(PrintString(key), Print(value, limits), "," + later, "}" + rest);
      Associate(",", later, "}" + rest);
      assert ("," + more)[1..] == more;
    }
  }

  lemma MemberText(key: string, value: string, more: string, rest: string)
    ensures (key + (":" + (value + more))) + rest == key + (":" + (value + (more + rest)))
  {
  }

  lemma CanonicalStep(v: Value, keys: seq<string>, i: nat, limits: Limits)
    requires v.Object? && i < |keys| && Sorted(keys) && (forall k :: k in keys ==> k in v.members)
    ensures i + 1 == |keys| ==>
              CanonicalMembers(v, keys, i, limits) == map[keys[i] := Canonical(v.members[keys[i]], limits)]
    ensures keys[i] !in CanonicalMembers(v, keys, i + 1, limits)
    ensures CanonicalMembers(v, keys, i, limits) ==
            CanonicalMembers(v, keys, i + 1, limits)[keys[i] := Canonical(v.members[keys[i]], limits)]
  {
    hide Canonical;
    LaterKeys(keys, i);
  }

  lemma LaterKeys(keys: seq<string>, i: nat)
    requires Sorted(keys) && i < |keys|
    ensures keys[i] !in keys[i + 1..] && forall k :: k in keys[i..] <==> k == keys[i] || k in keys[i + 1..]
  {
    LessIsIrreflexive(keys[i]);
    assert keys[i..] == [keys[i]] + keys[i + 1..];
  }
}
