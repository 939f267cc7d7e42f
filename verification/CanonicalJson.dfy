/** Canonicalisation as a whole: the printer that writes into a buffer, and what
    canonical bytes say about the value they were made from. */
module CanonicalJson {
  import opened Prelude
  import opened Numbers
  import opened Text
  import opened Json
  import opened JsonRoundTrip
  import opened JsonSurrogates

  // ------------------------------------------------------- the buffered printer

  class Buffer {
    var text: string

    constructor ()
      ensures text == ""
    {
      text := "";
    }

    method Write(s: string)
      modifies this
      ensures text == old(text) + s
    {
      text := text + s;
    }
  }

  method AppendString(output: Buffer, value: string)
    modifies output
    ensures output.text == old(output.text) + PrintString(value)
  {
    output.Write("\"");
    for i := 0 to |value|
      invariant output.text + Escaped(value[i..]) == old(output.text) + "\"" + Escaped(value)
    {
      assert value[i..][1..] == value[i + 1..];
      ghost var before := output.text;
      output.Write(Escape(value[i]));
      Associate(before, Escape(value[i]), Escaped(value[i + 1..]));
    }
    assert output.text + "" == output.text;
    output.Write("\"");
    Associate(old(output.text), "\"", Escaped(value));
    Associate(old(output.text), "\"" + Escaped(value), "\"");
  }

  /** Prints the canonical text of a value after what the buffer holds, or fails
      because a number has no canonical spelling or the buffer exceeds the limit. */
  method AppendValue(output: Buffer, value: Value, limits: Limits) returns (ok: bool)
    modifies output
    ensures ok <==> Printable(value, limits) && |old(output.text)| + |Print(value, limits)| <= limits.maxCanonicalBytes
    ensures ok ==> output.text == old(output.text) + Print(value, limits)
    decreases value, 1
  {
    ghost var before := output.text;
    match value {
      case Null => output.Write("null");
      case Bool(flag) => output.Write(if flag then "true" else "false");
      case Number(text) =>
        var normalized := Normalize(text, limits);
        hide Normalize;
        if normalized.None? { return false; }
        output.Write(normalized.value);
      case Str(content) => AppendString(output, content);
      case Array(items) =>
        PrintsBracketed(before, value, limits);
        output.Write("[");
        hide Print, Printable;
        ok := AppendItems(output, value, limits);
        if !ok { return false; }
        output.Write("]");
      case Object(members) =>
        var keys := SortStrings(members.Keys);
        PrintsBraced(before, value, keys, limits);
        hide Print, Printable;
        output.Write("{");
        ok := AppendMembers(output, value, keys, limits);
        if !ok { return false; }
        output.Write("}");
    }
    hide Printable, PrintItems, PrintMembers;
    ok := |output.text| <= limits.maxCanonicalBytes;
  }

  lemma Bracketed(before: string, left: string, body: string, right: string)
    ensures before + left + body + right == before + (left + body + right)
    ensures |before + (left + body + right)| == |before| + |left| + |body| + |right|
  {
    Associate(before, left, body);
    Associate(before, left + body, right);
  }

  lemma PrintsBracketed(before: string, v: Value, limits: Limits)
    requires v.Array?
    ensures before + "[" + PrintItems(v, 0, limits) + "]" == before + Print(v, limits)
    ensures |before| + |Print(v, limits)| == |before| + 2 + |PrintItems(v, 0, limits)|
  {
    hide PrintItems;
    Bracketed(before, "[", PrintItems(v, 0, limits), "]");
  }

  lemma PrintsBraced(before: string, v: Value, keys: seq<string>, limits: Limits)
    requires v.Object? && Sorted(keys) && Elements(keys) == v.members.Keys
    ensures forall k :: k in keys <==> k in v.members
    ensures before + "{" + PrintMembers(v, keys, 0, limits) + "}" == before + Print(v, limits)
    ensures |before| + |Print(v, limits)| == |before| + 2 + |PrintMembers(v, keys, 0, limits)|
  {
    ObjectKeys(v.members, keys);
    SortedIsUnique(keys, SortedList(v.members.Keys));
    hide PrintMembers;
    Bracketed(before, "{", PrintMembers(v, keys, 0, limits), "}");
  }

  method AppendItems(output: Buffer, value: Value, limits: Limits) returns (ok: bool)
    requires value.Array?
    modifies output
    ensures ok <==> Printable(value, limits) &&
                    (value.items == [] || |old(output.text)| + |PrintItems(value, 0, limits)| <= limits.maxCanonicalBytes)
    ensures ok ==> output.text == old(output.text) + PrintItems(value, 0, limits)
    decreases value, 0
  {
    var n := |value.items|;
    ghost var start := output.text;
    ghost var all := PrintItems(value, 0, limits);
    AllItemsPrintable(value, limits);
    NoItemsLeft(value, limits);
    hide Print, PrintItems, Printable, Comma;
    for index := 0 to n
      invariant forall i :: 0 <= i < index ==> Printable(value.items[i], limits)
      invariant start + all == output.text + PrintItems(value, index, limits)
      invariant index > 0 ==> |output.text| <= limits.maxCanonicalBytes
    {
      ghost var before, first, more := output.text, Print(value.items[index], limits), PrintItems(value, index + 1, limits);
      ItemsFrom(value, index, limits);
      if index != 0 { output.Write(","); }
      CommaIs(before, index);
      Lengths(start, all, before, Comma(index), first, more);
      var done := AppendValue(output, value.items[index], limits);
      if !done { return false; }
    }
    ok := true;
  }

  lemma ItemsFrom(value: Value, index: nat, limits: Limits)
    requires value.Array? && index < |value.items|
    ensures PrintItems(value, index, limits) == Comma(index) + Print(value.items[index], limits) + PrintItems(value, index + 1, limits)
  {
    hide Print;
  }

  lemma NoItemsLeft(value: Value, limits: Limits)
    requires value.Array?
    ensures PrintItems(value, |value.items|, limits) == ""
  {
  }

  lemma AllItemsPrintable(value: Value, limits: Limits)
    requires value.Array?
    ensures Printable(value, limits) <==> forall i :: 0 <= i < |value.items| ==> Printable(value.items[i], limits)
  {
  }

  lemma CommaIs(before: string, index: nat)
    ensures before + Comma(index) == if index == 0 then before else before + ","
  {
  }

  lemma Lengths(start: string, all: string, before: string, comma: string, first: string, more: string)
    requires start + all == before + (comma + first + more)
    ensures |start| + |all| == |before| + |comma| + |first| + |more|
    ensures start + all == before + comma + first + more
  {
    Associate(before, comma + first, more);
    Associate(before, comma, first);
    assert |start + all| == |before + (comma + first + more)|;
  }

  method AppendMembers(output: Buffer, value: Value, keys: seq<string>, limits: Limits) returns (ok: bool)
    requires value.Object? && Elements(keys) == value.members.Keys && forall k :: k in keys ==> k in value.members
    modifies output
    ensures ok <==> Printable(value, limits) &&
                    (keys == [] || |old(output.text)| + |PrintMembers(value, keys, 0, limits)| <= limits.maxCanonicalBytes)
    ensures ok ==> output.text == old(output.text) + PrintMembers(value, keys, 0, limits)
    decreases value, 0
  {
    ghost var start := output.text;
    ghost var all := PrintMembers(value, keys, 0, limits);
    assert PrintMembers(value, keys, |keys|, limits) == "";
    assert PrintableUpTo(value, keys, 0, limits);
    AllPrintable(value, keys, limits);
    hide *;
    for index := 0 to |keys|
      invariant PrintableUpTo(value, keys, index, limits)
      invariant start + all == output.text + PrintMembers(value, keys, index, limits)
      invariant index > 0 ==> |output.text| <= limits.maxCanonicalBytes
    {
      assert keys[index] in keys;
      OneMorePrintable(value, keys, index, limits);
      MemberStep(start, all, output.text, value, keys, index, limits);
      var done := AppendMember(output, keys[index], value.members[keys[index]], index, limits);
      if !done { return false; }
    }
    assert output.text + "" == output.text;
    ok := true;
  }

  ghost predicate PrintableUpTo(v: Value, keys: seq<string>, n: nat, limits: Limits)
    requires v.Object? && n <= |keys| && forall k :: k in keys ==> k in v.members
  {
    forall i :: 0 <= i < n ==> Printable(v.members[keys[i]], limits)
  }

  lemma OneMorePrintable(v: Value, keys: seq<string>, n: nat, limits: Limits)
    requires v.Object? && n < |keys| && (forall k :: k in keys ==> k in v.members) && PrintableUpTo(v, keys, n, limits)
    ensures PrintableUpTo(v, keys, n + 1, limits) <==> Printable(v.members[keys[n]], limits)
    ensures Printable(v, limits) ==> Printable(v.members[keys[n]], limits)
  {
  }

  ghost function PrintMember(key: string, value: Value, index: nat, limits: Limits): string {
    Comma(index) + PrintString(key) + ":" + Print(value, limits)
  }

  method AppendMember(output: Buffer, key: string, value: Value, index: nat, limits: Limits) returns (ok: bool)
    modifies output
    ensures ok <==> Printable(value, limits) &&
                    |old(output.text)| + |PrintMember(key, value, index, limits)| <= limits.maxCanonicalBytes
    ensures ok ==> output.text == old(output.text) + PrintMember(key, value, index, limits)
    decreases value, 2
  {
    ghost var before := output.text;
    WriteMemberName(output, key, index);
    WrittenLead(before, Comma(index), PrintString(key));
    ghost var lead := Comma(index) + PrintString(key) + ":";
    Associate(before, lead, Print(value, limits));
    assert PrintMember(key, value, index, limits) == lead + Print(value, limits);
    hide *;
    ok := AppendValue(output, value, limits);
  }

  method WriteMemberName(output: Buffer, key: string, index: nat)
    modifies output
    ensures output.text == old(output.text) + Comma(index) + PrintString(key) + ":"
  {
    if index != 0 {
      output.Write(",");
    } else {
      assert output.text + "" == output.text;
    }
    AppendString(output, key);
    output.Write(":");
  }

  lemma AllPrintable(v: Value, keys: seq<string>, limits: Limits)
    requires v.Object? && Elements(keys) == v.members.Keys && forall k :: k in keys ==> k in v.members
    ensures PrintableUpTo(v, keys, |keys|, limits) <==> Printable(v, limits)
  {
    if PrintableUpTo(v, keys, |keys|, limits) {
      forall k | k in v.members ensures Printable(v.members[k], limits) {
        assert k in Elements(keys);
        var i :| 0 <= i < |keys| && keys[i] == k;
      }
    }
  }

  lemma MemberStep(start: string, all: string, before: string, v: Value, keys: seq<string>, i: nat, limits: Limits)
    requires v.Object? && i < |keys| && forall k :: k in keys ==> k in v.members
    requires start + all == before + PrintMembers(v, keys, i, limits)
    ensures var member, more := PrintMember(keys[i], v.members[keys[i]], i, limits), PrintMembers(v, keys, i + 1, limits);
            && |start| + |all| == |before| + |member| + |more|
            && start + all == before + member + more
  {
    var member, more := PrintMember(keys[i], v.members[keys[i]], i, limits), PrintMembers(v, keys, i + 1, limits);
    assert PrintMembers(v, keys, i, limits) == member + more;
    hide *;
    Associate(before, member, more);
    assert |start + all| == |before + (member + more)|;
  }

  lemma WrittenLead(before: string, comma: string, key: string)
    ensures before + (comma + key + ":") == before + comma + key + ":"
  {
    Associate(before, comma + key, ":");
    Associate(before, comma, key);
  }

  // ---------------------------------------------------------- whole documents

  /** CanonicalizeWithLimits; its input, depth, node and string limits are left out. */
  method Canonicalize(raw: string, limits: Limits) returns (r: Option<string>)
    ensures r == CanonicalText(raw, limits)
  {
    hide Paired, Print, Printable, Json.Parse;
    var ok := RejectUnpairedSurrogates(raw);
    if !ok { return None; }
    var value := Json.Parse(raw, false);
    if value.None? { return None; }
    var output := new Buffer();
    ok := AppendValue(output, value.value, limits);
    assert "" + Print(value.value, limits) == Print(value.value, limits);
    return if ok then Some(output.text) else None;
  }

  ghost function CanonicalText(raw: string, limits: Limits): Option<string> {
    if !Paired(raw, false) then None
    else
      var v := Parse(raw, false);
      if v.None? || !Printable(v.value, limits) || |Print(v.value, limits)| > limits.maxCanonicalBytes then None
      else Some(Print(v.value, limits))
  }

  /** The same JSON value: numbers by the rational they denote, objects as maps. */
  ghost predicate SameValue(a: Value, b: Value) {
    match a
    case Number(text) =>
      b.Number? && Scan(text).Some? && Scan(b.text).Some? && Numbers.Value(text) == Numbers.Value(b.text)
    case Array(items) =>
      b.Array? && |items| == |b.items| && forall i :: 0 <= i < |items| ==> SameValue(items[i], b.items[i])
    case Object(members) =>
      b.Object? && members.Keys == b.members.Keys && forall k :: k in members && k in b.members ==> SameValue(members[k], b.members[k])
    case _ => a == b
  }

  lemma TextReads(v: Value, limits: Limits, strict: bool)
    requires Printable(v, limits)
    ensures Parse(Print(v, limits), strict) == Some(Canonical(v, limits))
  {
    ValueReads(v, limits, "", strict);
    PrintStarts(v, limits);
    NoSpace(Print(v, limits));
    assert Print(v, limits) + "" == Print(v, limits);
    hide ParseValue, Print, Canonical;
  }

  /** The canonical form is itself canonical. */
  lemma {:induction false} CanonicalIsFixed(v: Value, limits: Limits)
    requires Printable(v, limits)
    ensures Printable(Canonical(v, limits), limits) && Canonical(Canonical(v, limits), limits) == Canonical(v, limits)
  {
    match v {
      case Number(text) => NormalizeIsFixed(text, limits);
      case Array(items) =>
        forall i | 0 <= i < |items|
          ensures Printable(Canonical(items[i], limits), limits)
          ensures Canonical(Canonical(items[i], limits), limits) == Canonical(items[i], limits)
        {
          CanonicalIsFixed(items[i], limits);
        }
        assert Canonical(Canonical(v, limits), limits).items == Canonical(v, limits).items;
      case Object(members) =>
        forall k | k in members
          ensures Printable(Canonical(members[k], limits), limits)
          ensures Canonical(Canonical(members[k], limits), limits) == Canonical(members[k], limits)
        {
          CanonicalIsFixed(members[k], limits);
        }
        assert Canonical(Canonical(v, limits), limits).members == Canonical(v, limits).members;
      case _ =>
    }
  }

  lemma {:induction false} CanonicalPrints(v: Value, limits: Limits)
    requires Printable(v, limits)
    ensures Print(Canonical(v, limits), limits) == Print(v, limits)
    decreases v, 1
  {
    match v {
      case Number(text) => NormalizeIsFixed(text, limits);
      case Array(items) => CanonicalItemsPrint(v, 0, limits);
      case Object(members) =>
        var keys := SortedList(members.Keys);
        assert Canonical(v, limits).members.Keys == members.Keys;
        ObjectKeys(members, keys);
        CanonicalMembersPrint(v, keys, 0, limits);
      case _ =>
    }
  }

  lemma {:induction false} CanonicalItemsPrint(v: Value, i: nat, limits: Limits)
    requires v.Array? && i <= |v.items| && Printable(v, limits)
    ensures |Canonical(v, limits).items| == |v.items|
    ensures PrintItems(Canonical(v, limits), i, limits) == PrintItems(v, i, limits)
    decreases v, 0, |v.items| - i
  {
    if i < |v.items| {
      CanonicalPrints(v.items[i], limits);
      CanonicalItemsPrint(v, i + 1, limits);
      hide Print;
    }
  }

  lemma CanonicalMember(v: Value, key: string, limits: Limits)
    requires v.Object? && Printable(v, limits) && key in v.members
    ensures Printable(v.members[key], limits)
    ensures var c := Canonical(v, limits);
            c.Object? && c.members.Keys == v.members.Keys && c.members[key] == Canonical(v.members[key], limits)
  {
  }

  lemma {:induction false} CanonicalMembersPrint(v: Value, keys: seq<string>, i: nat, limits: Limits)
    requires v.Object? && i <= |keys| && Printable(v, limits) && forall k :: k in keys ==> k in v.members
    ensures PrintMembers(Canonical(v, limits), keys, i, limits) == PrintMembers(v, keys, i, limits)
    decreases v, 0, |keys| - i
  {
    if i < |keys| {
      assert keys[i] in v.members;
      CanonicalMember(v, keys[i], limits);
      hide Print, PrintString, Canonical, Printable;
      CanonicalPrints(v.members[keys[i]], limits);
      CanonicalMembersPrint(v, keys, i + 1, limits);
    }
  }

  /** Values have one canonical form exactly when they are the same value. */
  lemma {:induction false} SameCanonical(a: Value, b: Value, limits: Limits)
    requires Printable(a, limits) && Printable(b, limits)
    ensures SameValue(a, b) <==> Canonical(a, limits) == Canonical(b, limits)
  {
    match a {
      case Number(text) => if b.Number? { SameSpellingIffSameValue(text, b.text, limits); }
      case Array(items) =>
        if b.Array? {
          assert |Canonical(a, limits).items| == |items| && |Canonical(b, limits).items| == |b.items|;
        }
        if b.Array? && |items| == |b.items| {
          forall i | 0 <= i < |items|
            ensures SameValue(items[i], b.items[i]) <==> Canonical(items[i], limits) == Canonical(b.items[i], limits)
          {
            SameCanonical(items[i], b.items[i], limits);
          }
          SameCanonicalItems(items, b.items, limits);
        }
      case Object(members) =>
        if b.Object? && members.Keys == b.members.Keys {
          forall k | k in members
            ensures SameValue(members[k], b.members[k]) <==> Canonical(members[k], limits) == Canonical(b.members[k], limits)
          {
            SameCanonical(members[k], b.members[k], limits);
          }
          SameCanonicalMembers(members, b.members, limits);
        }
        if b.Object? {
          assert Canonical(a, limits).members.Keys == members.Keys && Canonical(b, limits).members.Keys == b.members.Keys;
        }
      case _ =>
    }
  }

  lemma SameCanonicalItems(a: seq<Value>, b: seq<Value>, limits: Limits)
    requires |a| == |b|
    ensures Canonical(Array(a), limits) == Canonical(Array(b), limits) <==>
            forall i :: 0 <= i < |a| ==> Canonical(a[i], limits) == Canonical(b[i], limits)
  {
    var x, y := Canonical(Array(a), limits).items, Canonical(Array(b), limits).items;
    assert |x| == |a| && |y| == |b|;
    assert forall i :: 0 <= i < |a| ==> x[i] == Canonical(a[i], limits) && y[i] == Canonical(b[i], limits);
    if forall i :: 0 <= i < |a| ==> Canonical(a[i], limits) == Canonical(b[i], limits) { assert x == y; }
  }

  lemma SameCanonicalMembers(a: map<string, Value>, b: map<string, Value>, limits: Limits)
    requires a.Keys == b.Keys
    ensures Canonical(Object(a), limits) == Canonical(Object(b), limits) <==>
            forall k :: k in a ==> Canonical(a[k], limits) == Canonical(b[k], limits)
  {
    var x, y := Canonical(Object(a), limits).members, Canonical(Object(b), limits).members;
    assert x.Keys == a.Keys && y.Keys == b.Keys;
    assert forall k :: k in a ==> x[k] == Canonical(a[k], limits) && y[k] == Canonical(b[k], limits);
    if forall k :: k in a ==> Canonical(a[k], limits) == Canonical(b[k], limits) { assert x == y; }
  }

  /** Canonical bytes determine the value, and the value determines the bytes. */
  lemma SameTextIffSameValue(a: Value, b: Value, limits: Limits)
    requires Printable(a, limits) && Printable(b, limits)
    ensures Print(a, limits) == Print(b, limits) <==> SameValue(a, b)
  {
    hide Print, Printable, Canonical, SameValue, Json.Parse;
    SameCanonical(a, b, limits);
    TextReads(a, limits, true);
    TextReads(b, limits, true);
    CanonicalPrints(a, limits);
    CanonicalPrints(b, limits);
  }

  /** Canonicalising canonical text changes nothing. */
  lemma CanonicalizeIsIdempotent(raw: string, limits: Limits)
    requires CanonicalText(raw, limits).Some?
    ensures CanonicalText(CanonicalText(raw, limits).value, limits) == CanonicalText(raw, limits)
  {
    var v := Parse(raw, false).value;
    var text := Print(v, limits);
    hide Print, Printable, Canonical, Paired, Json.Parse, ParseValue;
    TextReads(v, limits, false);
    CanonicalIsFixed(v, limits);
    CanonicalPrints(v, limits);
    CanonicalTextIsPaired(v, limits);
  }

  lemma CanonicalTextIsPaired(v: Value, limits: Limits)
    requires Printable(v, limits)
    ensures Paired(Print(v, limits), false)
  {
    ValueReads(v, limits, "", true);
    ValueReads(v, limits, "", false);
    assert Print(v, limits) + "" == Print(v, limits);
    hide Print, Canonical, ParseValue;
    ValuePaired(Print(v, limits));
  }

  /** No accepted document is read with a character replaced: the strict reader
      of RFC 8259 text agrees with the lenient one on it. */
  lemma AcceptedTextIsReadStrictly(raw: string, limits: Limits)
    requires CanonicalText(raw, limits).Some?
    ensures Parse(raw, true) == Parse(raw, false)
  {
    var s := SkipSpace(raw);
    SpacePaired(raw);
    ValuePaired(s);
    hide ParseValue, Print, Printable, Paired;
  }

  /** Two accepted documents get the same canonical bytes exactly when they say the same value. */
  lemma SameBytesIffSameDocument(a: string, b: string, limits: Limits)
    requires CanonicalText(a, limits).Some? && CanonicalText(b, limits).Some?
    ensures Parse(a, true).Some? && Parse(b, true).Some?
    ensures CanonicalText(a, limits) == CanonicalText(b, limits) <==>
            SameValue(Parse(a, true).value, Parse(b, true).value)
  {
    AcceptedTextIsReadStrictly(a, limits);
    AcceptedTextIsReadStrictly(b, limits);
    hide Print, Printable, Paired, Json.Parse, SameValue;
    SameTextIffSameValue(Parse(a, false).value, Parse(b, false).value, limits);
  }
}
