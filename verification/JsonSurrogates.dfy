/** rejectUnpairedSurrogates, and why it is there: text it accepts is read without
    any character being replaced. */
module JsonSurrogates {
  import opened Prelude
  import opened Digits
  import opened Json

  /** What the scan accepts from here on, inside or outside a string. */
  function Paired(s: string, inside: bool): bool {
    if s == "" then true
    else if s[0] == '"' then Paired(s[1..], !inside)
    else if s[0] != '\\' || !inside || |s| == 1 then Paired(s[1..], inside)
    else if s[1] != 'u' then Paired(s[2..], inside)
    else
      var code := UnicodeEscape(s);
      if code.None? then Paired(s[1..], inside)
      else if IsLowSurrogate(code.value) then false
      else if IsHighSurrogate(code.value) then
        var low := UnicodeEscape(s[6..]);
        low.Some? && IsLowSurrogate(low.value) && Paired(s[12..], inside)
      else Paired(s[6..], inside)
  }

  method RejectUnpairedSurrogates(raw: string) returns (ok: bool)
    ensures ok <==> Paired(raw, false)
  {
    var insideString := false;
    var index := 0;
    assert raw[0..] == raw;
    while index < |raw|
      invariant 0 <= index <= |raw|
      invariant Paired(raw, false) == Paired(raw[index..], insideString)
    {
      ghost var rest := raw[index..];
      assert rest[0] == raw[index] && rest[1..] == raw[index + 1..];
      if raw[index] == '"' {
        insideString := !insideString;
      } else if raw[index] == '\\' && insideString && index + 1 < |raw| {
        assert rest[1] == raw[index + 1] && rest[2..] == raw[index + 2..];
        if raw[index + 1] != 'u' {
          index := index + 1;
        } else {
          var code := UnicodeEscape(raw[index..]);
          if code.Some? {
            assert rest[6..] == raw[index + 6..];
            if IsLowSurrogate(code.value) { return false; }
            if IsHighSurrogate(code.value) {
              var low := UnicodeEscape(raw[index + 6..]);
              if low.None? || !IsLowSurrogate(low.value) { return false; }
              assert rest[12..] == raw[index + 12..];
              index := index + 11;
            } else {
              index := index + 5;
            }
          }
        }
      }
      index := index + 1;
    }
    return true;
  }

  // ------------------------------------------- the scan follows the parser

  lemma CharPaired(s: string)
    requires s != "" && s[0] != '"'
    ensures var lenient, strict := ParseChar(s, false), ParseChar(s, true);
            && (strict.Some? ==> strict == lenient)
            && (lenient.Some? ==> (Paired(s, true) <==> strict.Some? && Paired(s[lenient.value.1..], true)))
  {
    if s[0] == '\\' && |s| >= 2 && s[1] == 'u' {
      hide UnicodeEscape;
      if UnicodeEscape(s).Some? && UnicodeEscape(s[6..]).Some? { assert s[6..][6..] == s[12..]; }
    }
  }

  lemma {:induction false} StringPaired(s: string)
    ensures var lenient, strict := ParseString(s, false), ParseString(s, true);
            && (strict.Some? ==> strict == lenient)
            && (lenient.Some? ==> (Paired(s, true) <==> strict.Some? && Paired(lenient.value.1, false)))
    decreases |s|
  {
    if s != "" && s[0] != '"' {
      CharPaired(s);
      var first := ParseChar(s, false);
      if first.Some? { StringPaired(s[first.value.1..]); }
      hide ParseChar, Paired;
    }
  }

  lemma {:induction false} SpacePaired(s: string)
    ensures Paired(SkipSpace(s), false) == Paired(s, false)
  {
    if s != "" && IsSpace(s[0]) { SpacePaired(s[1..]); }
  }

  predicate QuoteFree(s: string) {
    forall i :: 0 <= i < |s| ==> s[i] != '"'
  }

  lemma {:induction false} QuoteFreePaired(s: string, rest: string)
    requires QuoteFree(s)
    ensures Paired(s + rest, false) == Paired(rest, false)
  {
    if s == "" {
      assert s + rest == rest;
    } else {
      assert (s + rest)[1..] == s[1..] + rest;
      QuoteFreePaired(s[1..], rest);
    }
  }

  lemma {:induction false} DigitRunIsDigits(s: string)
    ensures AllDigits(s[..DigitRun(s)])
  {
    if s != "" && IsDigit(s[0]) {
      DigitRunIsDigits(s[1..]);
      assert s[..DigitRun(s)] == [s[0]] + s[1..][..DigitRun(s[1..])];
    }
  }

  lemma RunQuoteFree(s: string)
    ensures QuoteFree(s[..DigitRun(s)])
  {
    DigitRunIsDigits(s);
  }

  lemma JoinQuoteFree(s: string, m: nat, n: nat)
    requires m + n <= |s| && QuoteFree(s[..m]) && QuoteFree(s[m..][..n])
    ensures QuoteFree(s[..m + n])
  {
    assert s[..m + n] == s[..m] + s[m..][..n];
  }

  lemma IntegerQuoteFree(s: string)
    requires IntegerLength(s).Some?
    ensures QuoteFree(s[..IntegerLength(s).value])
  {
    RunQuoteFree(s);
    var n := IntegerLength(s).value;
    assert s[..n] == s[..DigitRun(s)][..n];
  }

  lemma FractionQuoteFree(s: string)
    requires FractionLength(s).Some?
    ensures QuoteFree(s[..FractionLength(s).value])
  {
    if s != "" && s[0] == '.' {
      RunQuoteFree(s[1..]);
      JoinQuoteFree(s, 1, DigitRun(s[1..]));
    }
  }

  lemma ExponentQuoteFree(s: string)
    requires ExponentLength(s).Some?
    ensures QuoteFree(s[..ExponentLength(s).value])
  {
    if s != "" && s[0] in {'e', 'E'} {
      var sign := if |s| > 1 && s[1] in {'+', '-'} then 1 else 0;
      RunQuoteFree(s[1 + sign..]);
      JoinQuoteFree(s, 1 + sign, DigitRun(s[1 + sign..]));
    }
  }

  lemma NumberSplits(s: string) returns (sign: nat, n: nat, f: nat, e: nat)
    requires NumberLength(s).Some?
    ensures sign == (if s != "" && s[0] == '-' then 1 else 0) && sign + n + f + e <= |s|
    ensures IntegerLength(s[sign..]) == Some(n) && FractionLength(s[sign + n..]) == Some(f)
    ensures ExponentLength(s[sign + n + f..]) == Some(e) && NumberLength(s) == Some(sign + n + f + e)
  {
    hide IntegerLength, FractionLength, ExponentLength;
    sign := if s != "" && s[0] == '-' then 1 else 0;
    n := IntegerLength(s[sign..]).value;
    f := FractionLength(s[sign + n..]).value;
    e := ExponentLength(s[sign + n + f..]).value;
  }

  lemma SignQuoteFree(s: string, sign: nat)
    requires sign == (if s != "" && s[0] == '-' then 1 else 0)
    ensures sign <= |s| && QuoteFree(s[..sign])
  {
  }

  lemma NumberQuoteFree(s: string)
    requires NumberLength(s).Some?
    ensures QuoteFree(s[..NumberLength(s).value])
  {
    var sign, n, f, e := NumberSplits(s);
    hide *;
    SignQuoteFree(s, sign);
    IntegerQuoteFree(s[sign..]);
    JoinQuoteFree(s, sign, n);
    FractionQuoteFree(s[sign + n..]);
    JoinQuoteFree(s, sign + n, f);
    ExponentQuoteFree(s[sign + n + f..]);
    JoinQuoteFree(s, sign + n + f, e);
  }

  lemma LiteralPaired(s: string)
    requires ParseLiteral(s).Some?
    ensures Paired(s, false) == Paired(ParseLiteral(s).value.1, false)
  {
    var rest := ParseLiteral(s).value.1;
    var n := |s| - |rest|;
    if !("null" <= s) && !("true" <= s) && !("false" <= s) {
      NumberQuoteFree(s);
    } else {
      hide NumberLength;
      assert s[..n] == (if "null" <= s then "null" else if "true" <= s then "true" else "false");
    }
    hide NumberLength, Paired;
    assert s[..n] + rest == s;
    QuoteFreePaired(s[..n], rest);
  }

  /** Reading a value leniently, the scan accepts exactly what the strict reader does. */
  lemma {:induction false} ValuePaired(s: string)
    ensures var lenient, strict := ParseValue(s, false), ParseValue(s, true);
            && (strict.Some? ==> strict == lenient)
            && (lenient.Some? ==> (Paired(s, false) <==> strict.Some? && Paired(lenient.value.1, false)))
    decreases |s|, 0
  {
    if s == "" {
    } else if s[0] == '"' {
      StringPaired(s[1..]);
      hide ParseString;
    } else if s[0] == '[' {
      SpacePaired(s[1..]);
      var t := SkipSpace(s[1..]);
      ItemsPaired(t);
      hide ParseItems, SkipSpace;
    } else if s[0] == '{' {
      SpacePaired(s[1..]);
      var t := SkipSpace(s[1..]);
      MembersPaired(t);
      hide ParseMembers, SkipSpace;
    } else {
      if ParseLiteral(s).Some? { LiteralPaired(s); }
      hide ParseLiteral, Paired;
    }
  }

  lemma {:induction false} ItemsPaired(s: string)
    ensures var lenient, strict := ParseItems(s, false), ParseItems(s, true);
            && (strict.Some? ==> strict == lenient)
            && (lenient.Some? ==> (Paired(s, false) <==> strict.Some? && Paired(lenient.value.1, false)))
    decreases |s|, 1
  {
    ValuePaired(s);
    var first := ParseValue(s, false);
    if first.Some? {
      var r := first.value.1;
      SpacePaired(r);
      var t := SkipSpace(r);
      if t != "" && t[0] == ',' {
        SpacePaired(t[1..]);
        ItemsPaired(SkipSpace(t[1..]));
      }
      hide ParseValue, SkipSpace;
    }
  }

  lemma {:induction false} MembersPaired(s: string)
    ensures var lenient, strict := ParseMembers(s, false), ParseMembers(s, true);
            && (strict.Some? ==> strict == lenient)
            && (lenient.Some? ==> (Paired(s, false) <==> strict.Some? && Paired(lenient.value.1, false)))
    decreases |s|, 1
  {
    if s != "" && s[0] == '"' {
      StringPaired(s[1..]);
      var key := ParseString(s[1..], false);
      if key.Some? {
        SpacePaired(key.value.1);
        var t := SkipSpace(key.value.1);
        if t != "" && t[0] == ':' {
          SpacePaired(t[1..]);
          var u := SkipSpace(t[1..]);
          ValuePaired(u);
          var first := ParseValue(u, false);
          if first.Some? {
            SpacePaired(first.value.1);
            var w := SkipSpace(first.value.1);
            if w != "" && w[0] == ',' {
              SpacePaired(w[1..]);
              MembersPaired(SkipSpace(w[1..]));
            }
          }
        }
      }
      hide ParseString, ParseValue, SkipSpace;
    }
  }
}
