/**
 * `JSON.stringify` of a flat object whose members are strings or integers:
 * members in insertion order, strings quoted and escaped as RFC 8259
 * section 7 allows and ECMAScript's QuoteJSONString does it, integers in
 * decimal. A decoder for the same shape is its partner: decoding what
 * `Stringify` writes gives back the members.
 */
module Json {
  import opened Types
  import Js

  datatype Value = Str(s: string) | Num(n: int)

  datatype Member = Member(key: string, value: Value)

  /** The value of the first member named `key`, if any. */
  function Lookup(ms: seq<Member>, key: string): (r: Option<Value>)
    ensures r.Some? <==> exists i :: 0 <= i < |ms| && ms[i].key == key
  {
    if ms == [] then None
    else if ms[0].key == key then Some(ms[0].value)
    else
      var r := Lookup(ms[1..], key);
      assert forall i :: 1 <= i < |ms| ==> ms[i] == ms[1..][i - 1];
      r
  }

  /** A key found at index `i` and at no earlier index yields the value there. */
  lemma {:induction false} LookupFirst(ms: seq<Member>, key: string, i: nat)
    requires i < |ms| && ms[i].key == key
    requires forall j :: 0 <= j < i ==> ms[j].key != key
    ensures Lookup(ms, key) == Some(ms[i].value)
  {
    if i > 0 {
      LookupFirst(ms[1..], key, i - 1);
    }
  }

  function Keys(ms: seq<Member>): (ks: seq<string>)
    ensures |ks| == |ms| && forall i :: 0 <= i < |ms| ==> ks[i] == ms[i].key
  {
    seq(|ms|, i requires 0 <= i < |ms| => ms[i].key)
  }

  function HexDigit(d: nat): (c: char)
    requires d < 16
  {
    if d < 10 then ('0' as int + d) as char else ('a' as int + d - 10) as char
  }

  function HexValue(c: char): (r: Option<nat>)
    ensures r.Some? ==> r.value < 16
  {
    if '0' <= c <= '9' then Some(c as int - '0' as int)
    else if 'a' <= c <= 'f' then Some(c as int - 'a' as int + 10)
    else if 'A' <= c <= 'F' then Some(c as int - 'A' as int + 10)
    else None
  }

  /** The value of four hexadecimal digits. */
  function Hex4(s: string): (r: Option<nat>)
    requires |s| == 4
    ensures r.Some? ==> r.value < 0x1_0000
  {
    match (HexValue(s[0]), HexValue(s[1]), HexValue(s[2]), HexValue(s[3]))
    case (Some(a), Some(b), Some(c), Some(d)) => Some(((a * 16 + b) * 16 + c) * 16 + d)
    case _ => None
  }

  /**
   * How one character is written inside a JSON string: quote and backslash
   * escaped, the control characters backspace, tab, line feed, form feed and
   * carriage return by their short escapes, the other control characters as
   * `\u00xx` in lower-case hex, everything else as itself.
   */
  function EscapeChar(c: char): (r: string)
    ensures |r| >= 1 && (|r| == 1 <==> r[0] != '\\')
    ensures r == [c] <==> c != '"' && c != '\\' && c >= ' '
    ensures c == '"' ==> r == ['\\', '"']
    ensures c == '\\' ==> r == ['\\', '\\']
    ensures c == 8 as char ==> r == ['\\', 'b']
    ensures c == '\t' ==> r == ['\\', 't']
    ensures c == '\n' ==> r == ['\\', 'n']
    ensures c == 12 as char ==> r == ['\\', 'f']
    ensures c == '\r' ==> r == ['\\', 'r']
    ensures c < ' ' && c != 8 as char && c != '\t' && c != '\n' && c != 12 as char && c != '\r' ==>
      |r| == 6 && r[..4] == ['\\', 'u', '0', '0'] && Hex4(r[2..]) == Some(c as int)
  {
    if c == '"' then ['\\', '"']
    else if c == '\\' then ['\\', '\\']
    else if c == 8 as char then ['\\', 'b']
    else if c == '\t' then ['\\', 't']
    else if c == '\n' then ['\\', 'n']
    else if c == 12 as char then ['\\', 'f']
    else if c == '\r' then ['\\', 'r']
    else if c < ' ' then
      HexDigitValue(c as int / 16);
      HexDigitValue(c as int % 16);
      ['\\', 'u', '0', '0', HexDigit(c as int / 16), HexDigit(c as int % 16)]
    else [c]
  }

  function Escape(s: string): string
  {
    if s == [] then [] else EscapeChar(s[0]) + Escape(s[1..])
  }

  function Quote(s: string): string { ['"'] + Escape(s) + ['"'] }

  function ValueText(v: Value): string
  {
    match v
    case Str(s) => Quote(s)
    case Num(n) => Js.DecimalText(n)
  }

  function MemberText(m: Member): string { Quote(m.key) + [':'] + ValueText(m.value) }

  /** The members written one after another, separated by commas. */
  function MembersText(ms: seq<Member>): string
  {
    if ms == [] then []
    else if |ms| == 1 then MemberText(ms[0])
    else MemberText(ms[0]) + [','] + MembersText(ms[1..])
  }

  /** `JSON.stringify` of an object holding the members `ms` in this order. */
  function Stringify(ms: seq<Member>): (r: string)
    ensures |r| >= 2 && r[0] == '{' && r[|r| - 1] == '}'
    ensures r == ['{', '}'] <==> ms == []
  {
    ['{'] + MembersText(ms) + ['}']
  }

  /**
   * Decodes the escape sequence that `s` starts with (the text after a
   * backslash): the character, and how much of `s` the escape used.
   * A `\u` escape naming a surrogate code unit is refused.
   */
  function Unescape(s: string): (r: Option<(char, nat)>)
    ensures r.Some? ==> 1 <= r.value.1 <= |s|
  {
    if s == [] then None
    else if s[0] == '"' then Some(('"', 1))
    else if s[0] == '\\' then Some(('\\', 1))
    else if s[0] == '/' then Some(('/', 1))
    else if s[0] == 'b' then Some((8 as char, 1))
    else if s[0] == 'f' then Some((12 as char, 1))
    else if s[0] == 'n' then Some(('\n', 1))
    else if s[0] == 'r' then Some(('\r', 1))
    else if s[0] == 't' then Some(('\t', 1))
    else if s[0] == 'u' && |s| >= 5 then
      match Hex4(s[1..5])
      case Some(v) => if v < 0xD800 || 0xE000 <= v then Some((v as char, 5)) else None
      case None => None
    else None
  }

  /**
   * Decodes the body of a JSON string, `s` being the text after the opening
   * quote: the characters up to the closing quote and the text after it.
   */
  function ParseStringBody(s: string): (r: Option<(string, string)>)
    ensures r.Some? ==> |r.value.1| < |s|
    decreases |s|
  {
    if s == [] then None
    else if s[0] == '"' then Some(([], s[1..]))
    else if s[0] == '\\' then
      match Unescape(s[1..])
      case None => None
      case Some((c, n)) =>
        match ParseStringBody(s[1 + n..])
        case None => None
        case Some((body, rest)) => Some(([c] + body, rest))
    else if s[0] < ' ' then None
    else
      match ParseStringBody(s[1..])
      case None => None
      case Some((body, rest)) => Some(([s[0]] + body, rest))
  }

  /** Decodes an integer: an optional minus sign and a run of digits. */
  function ParseNumber(s: string): (r: Option<(int, string)>)
    ensures r.Some? ==> |r.value.1| < |s|
  {
    if s != [] && s[0] == '-' then
      var k := Js.DigitRun(s[1..]);
      if k == 0 then None else Some((-(Js.DigitsValue(s[1..][..k]) as int), s[1..][k..]))
    else
      var k := Js.DigitRun(s);
      if k == 0 then None else Some((Js.DigitsValue(s[..k]), s[k..]))
  }

  function ParseValue(s: string): (r: Option<(Value, string)>)
    ensures r.Some? ==> |r.value.1| < |s|
  {
    if s != [] && s[0] == '"' then
      match ParseStringBody(s[1..])
      case None => None
      case Some((body, rest)) => Some((Str(body), rest))
    else
      match ParseNumber(s)
      case None => None
      case Some((n, rest)) => Some((Num(n), rest))
  }

  function ParseMember(s: string): (r: Option<(Member, string)>)
    ensures r.Some? ==> |r.value.1| < |s|
  {
    if s == [] || s[0] != '"' then None
    else
      match ParseStringBody(s[1..])
      case None => None
      case Some((key, r1)) =>
        if r1 == [] || r1[0] != ':' then None
        else
          match ParseValue(r1[1..])
          case None => None
          case Some((v, r2)) => Some((Member(key, v), r2))
  }

  /** Decodes one or more members separated by commas and the closing brace after them. */
  function ParseMembers(s: string): (r: Option<(seq<Member>, string)>)
    ensures r.Some? ==> |r.value.1| < |s|
    decreases |s|
  {
    match ParseMember(s)
    case None => None
    case Some((m, r)) =>
      if r != [] && r[0] == ',' then
        match ParseMembers(r[1..])
        case None => None
        case Some((ms, rest)) => Some(([m] + ms, rest))
      else if r != [] && r[0] == '}' then Some(([m], r[1..]))
      else None
  }

  /** Decodes a whole JSON object of string and integer members. */
  function Parse(s: string): Option<seq<Member>>
  {
    if s == ['{', '}'] then Some([])
    else if s != [] && s[0] == '{' then
      match ParseMembers(s[1..])
      case Some((ms, rest)) => if rest == [] then Some(ms) else None
      case None => None
    else None
  }

  lemma HexDigitValue(d: nat)
    requires d < 16
    ensures HexValue(HexDigit(d)) == Some(d)
  {
  }

  /** A control character written as `\u00xx` decodes back to itself. */
  lemma ParseHexEscape(c: char, t: string)
    requires c < ' ' && |EscapeChar(c)| == 6
    ensures Unescape(EscapeChar(c)[1..] + t) == Some((c, 5))
  {
    var hi, lo := c as int / 16, c as int % 16;
    HexDigitValue(hi);
    HexDigitValue(lo);
    var v := EscapeChar(c)[1..] + t;
    assert EscapeChar(c) == ['\\', 'u', '0', '0', HexDigit(hi), HexDigit(lo)];
    assert v[0] == 'u' && |v| >= 5;
    assert v[1..5] == ['0', '0', HexDigit(hi), HexDigit(lo)];
    assert Hex4(v[1..5]) == Some(c as int);
  }

  /** Decoding the escape of one character gives that character back, then goes on decoding. */
  lemma ParseEscapedChar(c: char, t: string)
    ensures ParseStringBody(EscapeChar(c) + t) ==
      match ParseStringBody(t)
      case None => None
      case Some((body, rest)) => Some(([c] + body, rest))
  {
    var e := EscapeChar(c);
    var u := e + t;
    if |e| == 1 {
      assert u[0] == c && u[1..] == t;
    } else {
      assert u[0] == '\\' && u[1..] == e[1..] + t;
      if |e| == 6 {
        ParseHexEscape(c, t);
        assert u[1 + 5..] == t;
      } else {
        assert |e| == 2;
        assert Unescape(u[1..]) == Some((c, 1));
        assert u[1 + 1..] == t;
      }
    }
  }

  lemma RegroupQuoted(head: string, body: string, rest: string)
    ensures head + body + ['"'] + rest == head + (body + ['"'] + rest)
  {
  }

  /** Decoding an escaped string followed by its closing quote gives the string back. */
  lemma {:induction false} ParseEscaped(s: string, rest: string)
    ensures ParseStringBody(Escape(s) + ['"'] + rest) == Some((s, rest))
  {
    if s == [] {
      assert Escape(s) + ['"'] + rest == ['"'] + rest;
    } else {
      var t := Escape(s[1..]) + ['"'] + rest;
      assert Escape(s) == EscapeChar(s[0]) + Escape(s[1..]);
      RegroupQuoted(EscapeChar(s[0]), Escape(s[1..]), rest);
      ParseEscaped(s[1..], rest);
      ParseEscapedChar(s[0], t);
      assert [s[0]] + s[1..] == s;
    }
  }

  /** The digits of a natural number followed by a non-digit decode to that number. */
  lemma ParseDigitsText(k: nat, t: string)
    requires t == [] || !Js.IsDigit(t[0])
    ensures var ds := Js.DecimalDigits(k);
      Js.DigitRun(ds + t) == |ds| && (ds + t)[..|ds|] == ds && (ds + t)[|ds|..] == t
      && Js.DigitsValue(ds) == k
  {
    var ds := Js.DecimalDigits(k);
    Js.DigitRunAppend(ds, t);
    Js.DigitsValueOfDecimal(k);
    assert (ds + t)[..|ds|] == ds;
  }

  /** The digits of `k` followed by a separator decode to `k`. */
  lemma ParseUnsignedText(k: nat, t: string)
    requires t != [] && (t[0] == ',' || t[0] == '}')
    ensures ParseNumber(Js.DecimalDigits(k) + t) == Some((k, t))
  {
    var ds := Js.DecimalDigits(k);
    ParseDigitsText(k, t);
    var s := ds + t;
    assert s[0] == ds[0] && Js.IsDigit(ds[0]);
  }

  /** A minus sign and the digits of `k` followed by a separator decode to `-k`. */
  lemma ParseNegativeText(k: nat, t: string)
    requires t != [] && (t[0] == ',' || t[0] == '}')
    ensures ParseNumber(['-'] + Js.DecimalDigits(k) + t) == Some((-(k as int), t))
  {
    var ds := Js.DecimalDigits(k);
    ParseDigitsText(k, t);
    var s := ['-'] + ds + t;
    assert s[0] == '-' && s[1..] == ds + t;
  }

  lemma ParseNumberText(n: int, t: string)
    requires t != [] && (t[0] == ',' || t[0] == '}')
    ensures ParseNumber(Js.DecimalText(n) + t) == Some((n, t))
  {
    if n < 0 {
      assert Js.DecimalText(n) == ['-'] + Js.DecimalDigits(-n);
      ParseNegativeText(-n, t);
    } else {
      assert Js.DecimalText(n) == Js.DecimalDigits(n);
      ParseUnsignedText(n, t);
    }
  }

  lemma ParseQuotedText(s: string, t: string)
    ensures ParseValue(Quote(s) + t) == Some((Str(s), t))
  {
    var u := Quote(s) + t;
    assert u[0] == '"' && u[1..] == Escape(s) + ['"'] + t;
    ParseEscaped(s, t);
  }

  /** Decoding the text of a value that a comma or a closing brace follows gives the value back. */
  lemma ParseValueText(v: Value, t: string)
    requires t != [] && (t[0] == ',' || t[0] == '}')
    ensures ParseValue(ValueText(v) + t) == Some((v, t))
  {
    match v
    case Str(s) =>
      ParseQuotedText(s, t);
    case Num(n) =>
      ParseNumberText(n, t);
      var u := ValueText(v) + t;
      assert u != [] && u[0] != '"';
  }

  /** After a key and its colon, decoding a member is decoding the value. */
  lemma ParseMemberAfterKey(key: string, vt: string)
    ensures var r := ParseValue(vt);
      ParseMember(['"'] + (Escape(key) + ['"'] + ([':'] + vt))) ==
        if r.None? then None else Some((Member(key, r.value.0), r.value.1))
  {
    var rest := [':'] + vt;
    var s := ['"'] + (Escape(key) + ['"'] + rest);
    assert s[1..] == Escape(key) + ['"'] + rest;
    ParseEscaped(key, rest);
    assert rest[1..] == vt;
  }

  lemma ParseMemberText(m: Member, t: string)
    requires t != [] && (t[0] == ',' || t[0] == '}')
    ensures ParseMember(MemberText(m) + t) == Some((m, t))
  {
    assert MemberText(m) + t == ['"'] + (Escape(m.key) + ['"'] + ([':'] + (ValueText(m.value) + t)));
    ParseMemberAfterKey(m.key, ValueText(m.value) + t);
    ParseValueText(m.value, t);
  }

  /** A member followed by a comma: decoding goes on with the text after the comma. */
  lemma ParseMembersComma(m: Member, t: string)
    ensures ParseMembers(MemberText(m) + [','] + t) ==
      match ParseMembers(t)
      case None => None
      case Some((ms, rest)) => Some(([m] + ms, rest))
  {
    assert MemberText(m) + [','] + t == MemberText(m) + ([','] + t);
    ParseMemberText(m, [','] + t);
    assert ([','] + t)[1..] == t;
  }

  /** A member followed by the closing brace ends the list. */
  lemma ParseMembersLast(m: Member, rest: string)
    ensures ParseMembers(MemberText(m) + ['}'] + rest) == Some(([m], rest))
  {
    assert MemberText(m) + ['}'] + rest == MemberText(m) + (['}'] + rest);
    ParseMemberText(m, ['}'] + rest);
    assert (['}'] + rest)[1..] == rest;
  }

  /** The text of two or more members is the first one's, a comma, and the rest's. */
  lemma MembersTextSplit(ms: seq<Member>, rest: string)
    requires |ms| > 1
    ensures MembersText(ms) + ['}'] + rest == MemberText(ms[0]) + [','] + (MembersText(ms[1..]) + ['}'] + rest)
  {
    assert MembersText(ms) == MemberText(ms[0]) + [','] + MembersText(ms[1..]);
    Regroup(MemberText(ms[0]), MembersText(ms[1..]), rest);
  }

  lemma Regroup(head: string, body: string, rest: string)
    ensures head + [','] + body + ['}'] + rest == head + [','] + (body + ['}'] + rest)
  {
  }

  /** A single member's text followed by the closing brace decodes to that member. */
  lemma ParseOneMember(ms: seq<Member>, rest: string)
    requires |ms| == 1
    ensures ParseMembers(MembersText(ms) + ['}'] + rest) == Some((ms, rest))
  {
    assert MembersText(ms) == MemberText(ms[0]);
    ParseMembersLast(ms[0], rest);
    assert ms == [ms[0]];
  }

  /** When the text of the later members decodes to them, the whole list's text decodes to the list. */
  lemma ParseMoreMembers(ms: seq<Member>, rest: string)
    requires |ms| > 1
    requires ParseMembers(MembersText(ms[1..]) + ['}'] + rest) == Some((ms[1..], rest))
    ensures ParseMembers(MembersText(ms) + ['}'] + rest) == Some((ms, rest))
  {
    var tail := MembersText(ms[1..]) + ['}'] + rest;
    MembersTextSplit(ms, rest);
    ParseMembersComma(ms[0], tail);
    assert [ms[0]] + ms[1..] == ms;
  }

  /** Decoding the members' text followed by the closing brace gives the members back. */
  lemma {:induction false} ParseMembersText(ms: seq<Member>, rest: string)
    requires ms != []
    ensures ParseMembers(MembersText(ms) + ['}'] + rest) == Some((ms, rest))
    decreases |ms|
  {
    if |ms| == 1 {
      ParseOneMember(ms, rest);
    } else {
      ParseMembersText(ms[1..], rest);
      ParseMoreMembers(ms, rest);
    }
  }

  /** Round trip: decoding what `Stringify` writes gives back the members, in order. */
  lemma ParseStringify(ms: seq<Member>)
    ensures Parse(Stringify(ms)) == Some(ms)
  {
    if ms == [] {
      assert Stringify(ms) == ['{', '}'];
    } else {
      var body := MembersText(ms);
      var s := Stringify(ms);
      assert body != [] by {
        assert body[..|MemberText(ms[0])|] == MemberText(ms[0]);
      }
      assert s == ['{'] + (body + ['}'] + []);
      assert s != ['{', '}'] && s[0] == '{';
      assert s[1..] == body + ['}'] + [];
      ParseMembersText(ms, []);
    }
  }

  /** `Stringify` is deterministic and loses nothing: equal texts come from equal member lists. */
  lemma StringifyInjective(ms1: seq<Member>, ms2: seq<Member>)
    requires Stringify(ms1) == Stringify(ms2)
    ensures ms1 == ms2
  {
    ParseStringify(ms1);
    ParseStringify(ms2);
  }
}
