/** JSON values as `JSON.stringify` writes them and `JSON.parse` reads them back.
    The survey API stores a survey's questions (an array of question objects) as
    the text `JSON.stringify` produces and parses that text on every read. */
module Json {
  import opened Options
  import opened Text

  /** A JSON value. Numbers are integers; an object keeps its members in
      enumeration order. */
  datatype Json =
    | JNull
    | JBool(b: bool)
    | JNum(n: int)
    | JStr(s: string)
    | JArr(items: seq<Json>)
    | JObj(members: seq<Member>)

  datatype Member = Member(key: string, value: Json)

  /** JavaScript truthiness of a value taken from a parsed request body. */
  predicate Truthy(v: Json) {
    match v
    case JNull => false
    case JBool(b) => b
    case JNum(n) => n != 0
    case JStr(s) => s != ""
    case _ => true
  }

  // ---------------------------------------------------------------- writing

  /** The value of `key` in an object's members; as with `JSON.parse`, the
      last of several members with the same key is the one that counts. */
  function Lookup(members: seq<Member>, key: string): (r: Option<Json>)
    ensures r.Some? ==> exists i :: 0 <= i < |members| && members[i].key == key && members[i].value == r.value
                                    && forall j :: i < j < |members| ==> members[j].key != key
    ensures r.None? <==> forall i :: 0 <= i < |members| ==> members[i].key != key
  {
    if |members| == 0 then None
    else if members[|members| - 1].key == key then Some(members[|members| - 1].value)
    else
      var r := Lookup(members[..|members| - 1], key);
      assert forall i :: 0 <= i < |members| - 1 ==> members[i] == members[..|members| - 1][i];
      r
  }

  /** Destructuring `key` out of a parsed request body: `None` when the body is
      `null` (destructuring throws), `Some(JNull)` standing for `undefined`
      when the body has no such member. */
  function Property(body: Json, key: string): (r: Option<Json>)
    ensures r.None? <==> body.JNull?
    ensures body.JObj? && Lookup(body.members, key).Some? ==> r == Lookup(body.members, key)
    ensures r.Some? && !(body.JObj? && Lookup(body.members, key).Some?) ==> r == Some(JNull)
  {
    match body
    case JNull => None
    case JObj(members) => Some(Lookup(members, key).GetOr(JNull))
    case _ => Some(JNull)
  }

  function HexDigit(d: nat): char
    requires d < 16
  {
    if d < 10 then DigitChar(d) else ('a' as int + d - 10) as char
  }

  /** How `JSON.stringify` writes one character inside a string literal: the
      quote and the backslash are escaped, the five control characters with a
      short escape use it, the other control characters become `\u00XX` with
      lower-case hexadecimal digits, and every other character is kept. */
  function EscapeChar(c: char): string {
    if c == '"' then ['\\', '"']
    else if c == '\\' then ['\\', '\\']
    else if c == '\U{0008}' then ['\\', 'b']
    else if c == '\U{000C}' then ['\\', 'f']
    else if c == '\n' then ['\\', 'n']
    else if c == '\r' then ['\\', 'r']
    else if c == '\t' then ['\\', 't']
    else if c as int < 0x20 then ['\\', 'u', '0', '0', HexDigit(c as int / 16), HexDigit(c as int % 16)]
    else [c]
  }

  function Escape(s: string): string {
    if s == [] then [] else EscapeChar(s[0]) + Escape(s[1..])
  }

  function Quote(s: string): string {
    ['"'] + Escape(s) + ['"']
  }

  /** `JSON.stringify(v)`: the compact text, without any whitespace. */
  function Stringify(v: Json): string
    decreases v, 1
  {
    match v
    case JNull => "null"
    case JBool(b) => if b then "true" else "false"
    case JNum(n) => IntToString(n)
    case JStr(s) => Quote(s)
    case JArr(items) => "[" + StringifyItems(items) + "]"
    case JObj(members) => "{" + StringifyMembers(members) + "}"
  }

  /** The array elements, separated by commas. */
  function StringifyItems(items: seq<Json>): string
    decreases items, 0
  {
    if items == [] then ""
    else if |items| == 1 then Stringify(items[0])
    else Stringify(items[0]) + "," + StringifyItems(items[1..])
  }

  /** The object members as `"key":value`, separated by commas. */
  function StringifyMembers(members: seq<Member>): string
    decreases members, 0
  {
    if members == [] then ""
    else
      var m := members[0];
      var first := Quote(m.key) + ":" + Stringify(m.value);
      if |members| == 1 then first else first + "," + StringifyMembers(members[1..])
  }

  // ---------------------------------------------------------------- reading

  datatype Parse<T> = Parsed(value: T, rest: string) | Fail

  predicate IsJsonSpace(c: char) {
    c == ' ' || c == '\t' || c == '\n' || c == '\r'
  }

  function SkipSpace(s: string): (r: string)
    ensures |r| <= |s|
    ensures r == [] || !IsJsonSpace(r[0])
  {
    if s != [] && IsJsonSpace(s[0]) then SkipSpace(s[1..]) else s
  }

  function HexValue(c: char): Option<nat> {
    if '0' <= c <= '9' then Some(c as int - '0' as int)
    else if 'a' <= c <= 'f' then Some(c as int - 'a' as int + 10)
    else if 'A' <= c <= 'F' then Some(c as int - 'A' as int + 10)
    else None
  }

  /** The character a `\uXXXX` escape denotes; an escape that names half of a
      surrogate pair is not read. */
  function UnicodeEscape(h: string): Option<char>
    requires |h| == 4
  {
    match (HexValue(h[0]), HexValue(h[1]), HexValue(h[2]), HexValue(h[3]))
    case (Some(a), Some(b), Some(c), Some(d)) =>
      var code := ((a * 16 + b) * 16 + c) * 16 + d;
      if 0xD800 <= code < 0xE000 then None else Some(code as char)
    case _ => None
  }

  /** The character an escape sequence at the start of `s` denotes, and its length. */
  function Unescape(s: string): (r: Option<(char, nat)>)
    requires |s| >= 2 && s[0] == '\\'
    ensures r.Some? ==> 2 <= r.value.1 <= |s|
  {
    match s[1]
    case '"' => Some(('"', 2))
    case '\\' => Some(('\\', 2))
    case '/' => Some(('/', 2))
    case 'b' => Some(('\U{0008}', 2))
    case 'f' => Some(('\U{000C}', 2))
    case 'n' => Some(('\n', 2))
    case 'r' => Some(('\r', 2))
    case 't' => Some(('\t', 2))
    case 'u' =>
      if |s| < 6 then None
      else (match UnicodeEscape(s[2..6]) case Some(c) => Some((c, 6)) case None => None)
    case _ => None
  }

  /** The body of a string literal, read up to and including its closing quote. */
  function ParseString(s: string): (r: Parse<string>)
    ensures r.Parsed? ==> |r.rest| < |s|
    decreases |s|
  {
    if s == [] then Fail
    else if s[0] == '"' then Parsed([], s[1..])
    else if s[0] == '\\' then
      if |s| < 2 then Fail
      else match Unescape(s)
        case None => Fail
        case Some((c, n)) =>
          match ParseString(s[n..])
          case Parsed(t, rest) => Parsed([c] + t, rest)
          case Fail => Fail
    else if s[0] as int < 0x20 then Fail
    else
      match ParseString(s[1..])
      case Parsed(t, rest) => Parsed([s[0]] + t, rest)
      case Fail => Fail
  }

  /** An optional minus sign and at least one digit, with no leading zero
      before further digits (`JSON.parse` refuses `01` and `-007`). */
  function ParseNumber(s: string): (r: Parse<Json>)
    ensures r.Parsed? ==> |r.rest| < |s|
  {
    var neg := s != [] && s[0] == '-';
    var u := if neg then s[1..] else s;
    var k := LeadingDigits(u);
    if k == 0 || (k > 1 && u[0] == '0') then Fail
    else
      var m: int := DigitsValue(u[..k]);
      Parsed(JNum(if neg then -m else m), u[k..])
  }

  function ParseLiteral(s: string, word: string, v: Json): (r: Parse<Json>)
    requires |word| > 0
    ensures r.Parsed? ==> |r.rest| < |s|
  {
    if HasPrefix(s, word) then Parsed(v, s[|word|..]) else Fail
  }

  /** One value, after optional whitespace. */
  function ParseValue(s: string): (r: Parse<Json>)
    ensures r.Parsed? ==> |r.rest| < |s|
    decreases |s|, 0
  {
    var t := SkipSpace(s);
    if t == [] then Fail
    else if t[0] == 'n' then ParseLiteral(t, "null", JNull)
    else if t[0] == 't' then ParseLiteral(t, "true", JBool(true))
    else if t[0] == 'f' then ParseLiteral(t, "false", JBool(false))
    else if t[0] == '-' || IsDigit(t[0]) then ParseNumber(t)
    else if t[0] == '"' then
      (match ParseString(t[1..]) case Parsed(str, rest) => Parsed(JStr(str), rest) case Fail => Fail)
    else if t[0] == '[' then
      (match ParseArray(t[1..]) case Parsed(xs, rest) => Parsed(JArr(xs), rest) case Fail => Fail)
    else if t[0] == '{' then
      (match ParseObject(t[1..]) case Parsed(ms, rest) => Parsed(JObj(ms), rest) case Fail => Fail)
    else Fail
  }

  /** The elements of an array and its closing bracket, after the opening one. */
  function ParseArray(s: string): (r: Parse<seq<Json>>)
    ensures r.Parsed? ==> |r.rest| < |s|
    decreases |s|, 2
  {
    var t := SkipSpace(s);
    if t != [] && t[0] == ']' then Parsed([], t[1..]) else ParseItems(t)
  }

  /** One or more elements separated by commas, and the closing bracket. */
  function ParseItems(s: string): (r: Parse<seq<Json>>)
    ensures r.Parsed? ==> |r.rest| < |s|
    decreases |s|, 1
  {
    match ParseValue(s)
    case Fail => Fail
    case Parsed(v, rest) =>
      var t := SkipSpace(rest);
      if t != [] && t[0] == ']' then Parsed([v], t[1..])
      else if t != [] && t[0] == ',' then
        (match ParseItems(t[1..]) case Parsed(vs, rest') => Parsed([v] + vs, rest') case Fail => Fail)
      else Fail
  }

  /** The members of an object and its closing brace, after the opening one. */
  function ParseObject(s: string): (r: Parse<seq<Member>>)
    ensures r.Parsed? ==> |r.rest| < |s|
    decreases |s|, 2
  {
    var t := SkipSpace(s);
    if t != [] && t[0] == '}' then Parsed([], t[1..]) else ParseMembers(t)
  }

  /** One or more `"key": value` members separated by commas, and the closing brace. */
  function ParseMembers(s: string): (r: Parse<seq<Member>>)
    ensures r.Parsed? ==> |r.rest| < |s|
    decreases |s|, 1
  {
    var t := SkipSpace(s);
    if t == [] || t[0] != '"' then Fail
    else match ParseString(t[1..])
      case Fail => Fail
      case Parsed(key, afterKey) =>
        var u := SkipSpace(afterKey);
        if u == [] || u[0] != ':' then Fail
        else match ParseValue(u[1..])
          case Fail => Fail
          case Parsed(v, rest) =>
            var w := SkipSpace(rest);
            if w != [] && w[0] == '}' then Parsed([Member(key, v)], w[1..])
            else if w != [] && w[0] == ',' then
              (match ParseMembers(w[1..])
               case Parsed(ms, rest') => Parsed([Member(key, v)] + ms, rest')
               case Fail => Fail)
            else Fail
  }

  /** `JSON.parse(s)`: one value, with nothing but whitespace after it; `None`
      where `JSON.parse` throws. */
  function ParseJson(s: string): Option<Json> {
    match ParseValue(s)
    case Parsed(v, rest) => if SkipSpace(rest) == [] then Some(v) else None
    case Fail => None
  }

  // ------------------------------------------------------------ round trip

  /** What may follow a value without being read as part of it: a number is
      read greedily, so no digit may follow. */
  predicate Delimits(rest: string) {
    rest == [] || !IsDigit(rest[0])
  }

  /** Characters a written value can start with. */
  predicate StartsValue(c: char) {
    c == 'n' || c == 't' || c == 'f' || c == '-' || IsDigit(c) || c == '"' || c == '[' || c == '{'
  }

  lemma StringifyStart(v: Json)
    ensures |Stringify(v)| > 0 && StartsValue(Stringify(v)[0])
  {
    match v
    case JNum(n) =>
      if n < 0 { assert Stringify(v)[0] == '-'; }
      else { assert Stringify(v)[0] == NatToString(n)[0]; }
    case _ =>
  }

  lemma HexRoundTrip(d: nat)
    requires d < 16
    ensures HexValue(HexDigit(d)) == Some(d)
  {
  }

  /** Reading one escaped character back. */
  lemma {:induction false} ParseEscapedChar(c: char, tail: string)
    ensures ParseString(EscapeChar(c) + tail) ==
              match ParseString(tail)
              case Parsed(t, rest) => Parsed([c] + t, rest)
              case Fail => Fail
  {
    var e := EscapeChar(c);
    var s := e + tail;
    if |e| == 1 {
      assert s[1..] == tail;
    } else if |e| == 2 {
      assert s[2..] == tail;
    } else {
      var code := c as int;
      HexRoundTrip(code / 16);
      HexRoundTrip(code % 16);
      assert s[2..6] == e[2..6];
      assert UnicodeEscape(s[2..6]) == Some(c);
      assert s[6..] == tail;
    }
  }

  /** Reading an escaped string body back, up to its closing quote. */
  lemma {:induction false} ParseEscaped(x: string, rest: string)
    ensures ParseString(Escape(x) + ['"'] + rest) == Parsed(x, rest)
  {
    if x == [] {
      assert Escape(x) + ['"'] + rest == ['"'] + rest;
    } else {
      var tail := Escape(x[1..]) + ['"'] + rest;
      assert Escape(x) + ['"'] + rest == EscapeChar(x[0]) + tail;
      ParseEscapedChar(x[0], tail);
      ParseEscaped(x[1..], rest);
      assert [x[0]] + x[1..] == x;
    }
  }

  /** Reading a written value back: `JSON.parse(JSON.stringify(v))` gives `v`,
      whatever delimiter follows. */
  lemma {:induction false} ParseStringified(v: Json, rest: string)
    requires Delimits(rest)
    ensures ParseValue(Stringify(v) + rest) == Parsed(v, rest)
    decreases v, 3
  {
    StringifyStart(v);
    assert SkipSpace(Stringify(v) + rest) == Stringify(v) + rest;
    match v
    case JNull => ParseLiteralBack("null", JNull, rest);
    case JBool(b) =>
      if b { ParseLiteralBack("true", v, rest); } else { ParseLiteralBack("false", v, rest); }
    case JNum(n) =>
      assert (Stringify(v) + rest)[0] == Stringify(v)[0];
      ParseNumberBack(n, rest);
    case JStr(x) => ParseQuotedBack(x, rest);
    case JArr(items) => ParseArrayValueBack(items, rest);
    case JObj(members) => ParseObjectValueBack(members, rest);
  }

  lemma ParseQuotedBack(x: string, rest: string)
    ensures ParseValue(Quote(x) + rest) == Parsed(JStr(x), rest)
  {
    var s := Quote(x) + rest;
    assert s[0] == '"' && SkipSpace(s) == s;
    assert s[1..] == Escape(x) + ['"'] + rest;
    ParseEscaped(x, rest);
  }

  lemma {:induction false} ParseArrayValueBack(items: seq<Json>, rest: string)
    ensures ParseValue("[" + StringifyItems(items) + "]" + rest) == Parsed(JArr(items), rest)
    decreases items, 3
  {
    var s := "[" + StringifyItems(items) + "]" + rest;
    assert s[0] == '[' && SkipSpace(s) == s;
    assert s[1..] == StringifyItems(items) + "]" + rest;
    ParseArrayBack(items, rest);
  }

  lemma {:induction false} ParseObjectValueBack(members: seq<Member>, rest: string)
    ensures ParseValue("{" + StringifyMembers(members) + "}" + rest) == Parsed(JObj(members), rest)
    decreases members, 3
  {
    var s := "{" + StringifyMembers(members) + "}" + rest;
    assert s[0] == '{' && SkipSpace(s) == s;
    assert s[1..] == StringifyMembers(members) + "}" + rest;
    ParseObjectBack(members, rest);
  }

  lemma ParseLiteralBack(word: string, v: Json, rest: string)
    requires |word| > 0
    ensures ParseLiteral(word + rest, word, v) == Parsed(v, rest)
  {
    assert (word + rest)[..|word|] == word;
    assert (word + rest)[|word|..] == rest;
  }

  /** Reading the digits of `m` back, with the text after them. */
  lemma ParseDigitsBack(m: nat, rest: string)
    requires Delimits(rest)
    ensures var ds, u := NatToString(m), NatToString(m) + rest;
      LeadingDigits(u) == |ds| && u[..|ds|] == ds && u[|ds|..] == rest && DigitsValue(ds) == m
  {
    var ds := NatToString(m);
    LeadingDigitsOfDigits(ds, rest);
    DigitsValueOfNatToString(m);
    assert (ds + rest)[..|ds|] == ds;
    assert (ds + rest)[|ds|..] == rest;
  }

  lemma ParseNumberBack(n: int, rest: string)
    requires Delimits(rest)
    ensures ParseNumber(IntToString(n) + rest) == Parsed(JNum(n), rest)
  {
    if n < 0 {
      var m: nat := -n;
      var ds := NatToString(m);
      assert IntToString(n) == "-" + ds;
      ParseDigitsBack(m, rest);
      assert IntToString(n) + rest == "-" + (ds + rest);
      ParseSignedDigits(IntToString(n) + rest, true, ds, rest, m);
    } else {
      var ds := NatToString(n);
      assert IntToString(n) == ds;
      ParseDigitsBack(n, rest);
      assert IntToString(n) + rest == ds + rest;
      ParseSignedDigits(IntToString(n) + rest, false, ds, rest, n);
    }
  }

  lemma ParseSignedDigits(s: string, neg: bool, ds: string, rest: string, m: nat)
    requires |ds| > 0 && AllDigits(ds) && (|ds| == 1 || ds[0] != '0')
    requires s == (if neg then "-" else "") + (ds + rest)
    requires LeadingDigits(ds + rest) == |ds| && (ds + rest)[..|ds|] == ds
    requires (ds + rest)[|ds|..] == rest && DigitsValue(ds) == m
    ensures ParseNumber(s) == Parsed(JNum(if neg then -(m as int) else m), rest)
  {
    if neg {
      assert s[1..] == ds + rest;
    } else {
      assert s == ds + rest;
      assert s[0] != '-';
    }
  }

  lemma {:induction false} ParseArrayBack(items: seq<Json>, rest: string)
    ensures ParseArray(StringifyItems(items) + "]" + rest) == Parsed(items, rest)
    decreases items, 2
  {
    if items == [] {
      assert StringifyItems(items) + "]" + rest == "]" + rest;
    } else {
      var s := StringifyItems(items) + "]" + rest;
      StringifyStart(items[0]);
      assert s[0] == Stringify(items[0])[0];
      ParseItemsBack(items, rest);
    }
  }

  lemma {:induction false} ParseItemsBack(items: seq<Json>, rest: string)
    requires items != []
    ensures ParseItems(StringifyItems(items) + "]" + rest) == Parsed(items, rest)
    decreases items, 1
  {
    var x := items[0];
    var after := if |items| == 1 then "]" + rest else "," + (StringifyItems(items[1..]) + "]" + rest);
    ItemsUnfold(items, rest);
    ParseStringified(x, after);
    ItemsStep(StringifyItems(items) + "]" + rest, x, after);
    if |items| > 1 {
      ParseItemsBack(items[1..], rest);
      assert [x] + items[1..] == items;
    } else {
      assert [x] == items;
    }
  }

  lemma ItemsUnfold(items: seq<Json>, rest: string)
    requires items != []
    ensures var after := if |items| == 1 then "]" + rest else "," + (StringifyItems(items[1..]) + "]" + rest);
      && StringifyItems(items) + "]" + rest == Stringify(items[0]) + after
      && after[1..] == (if |items| == 1 then rest else StringifyItems(items[1..]) + "]" + rest)
  {
    var x := Stringify(items[0]);
    if |items| == 1 {
      assert StringifyItems(items) == x;
      ShapeOne(x, ']', rest);
    } else {
      var more := StringifyItems(items[1..]);
      assert StringifyItems(items) == x + "," + more;
      ShapeTwo(x, ',', more, ']', rest);
    }
  }

  /** Text regrouped around its last delimiter. */
  lemma ShapeOne(x: string, d: char, rest: string)
    ensures x + [d] + rest == x + ([d] + rest)
    ensures ([d] + rest)[1..] == rest
  {
  }

  /** Text regrouped around its two last delimiters. */
  lemma ShapeTwo(x: string, d: char, more: string, e: char, rest: string)
    ensures x + [d] + more + [e] + rest == x + ([d] + (more + [e] + rest))
    ensures ([d] + (more + [e] + rest))[1..] == more + [e] + rest
  {
  }

  /** How the element list continues after one element has been read. */
  lemma ItemsStep(s: string, x: Json, after: string)
    requires ParseValue(s) == Parsed(x, after)
    requires after != [] && (after[0] == ']' || after[0] == ',')
    ensures ParseItems(s) ==
      if after[0] == ']' then Parsed([x], after[1..])
      else match ParseItems(after[1..])
        case Parsed(xs, rest') => Parsed([x] + xs, rest')
        case Fail => Fail
  {
    assert SkipSpace(after) == after;
  }

  lemma {:induction false} ParseObjectBack(members: seq<Member>, rest: string)
    ensures ParseObject(StringifyMembers(members) + "}" + rest) == Parsed(members, rest)
    decreases members, 2
  {
    if members == [] {
      assert StringifyMembers(members) + "}" + rest == "}" + rest;
    } else {
      var s := StringifyMembers(members) + "}" + rest;
      assert s[0] == '"';
      ParseMembersBack(members, rest);
    }
  }

  lemma {:induction false} ParseMembersBack(members: seq<Member>, rest: string)
    requires members != []
    ensures ParseMembers(StringifyMembers(members) + "}" + rest) == Parsed(members, rest)
    decreases members, 1
  {
    var m := members[0];
    var after := if |members| == 1 then "}" + rest else "," + (StringifyMembers(members[1..]) + "}" + rest);
    MembersUnfold(members, rest);
    ParseOneMember(m, after);
    if |members| > 1 {
      ParseMembersBack(members[1..], rest);
      assert [m] + members[1..] == members;
    } else {
      assert [m] == members;
    }
  }

  lemma MembersUnfold(members: seq<Member>, rest: string)
    requires members != []
    ensures var m := members[0];
      var after := if |members| == 1 then "}" + rest else "," + (StringifyMembers(members[1..]) + "}" + rest);
      && StringifyMembers(members) + "}" + rest == Quote(m.key) + ":" + Stringify(m.value) + after
      && after[1..] == (if |members| == 1 then rest else StringifyMembers(members[1..]) + "}" + rest)
  {
    var m := members[0];
    var x := Quote(m.key) + ":" + Stringify(m.value);
    if |members| == 1 {
      assert StringifyMembers(members) == x;
      ShapeOne(x, '}', rest);
    } else {
      var more := StringifyMembers(members[1..]);
      assert StringifyMembers(members) == x + "," + more;
      ShapeTwo(x, ',', more, '}', rest);
    }
  }

  /** Reading one written member back, up to the delimiter after it. */
  lemma {:induction false} ParseOneMember(m: Member, after: string)
    requires after != [] && (after[0] == '}' || after[0] == ',')
    ensures ParseMembers(Quote(m.key) + ":" + Stringify(m.value) + after) ==
      if after[0] == '}' then Parsed([m], after[1..])
      else match ParseMembers(after[1..])
        case Parsed(ms, rest') => Parsed([m] + ms, rest')
        case Fail => Fail
    decreases m, 0
  {
    var s := Quote(m.key) + ":" + Stringify(m.value) + after;
    var afterKey := ":" + Stringify(m.value) + after;
    MemberUnfold(m, after);
    ParseEscaped(m.key, afterKey);
    ParseStringified(m.value, after);
    MemberStep(s, m.key, afterKey, m.value, after);
  }

  lemma MemberUnfold(m: Member, after: string)
    ensures var s, afterKey := Quote(m.key) + ":" + Stringify(m.value) + after, ":" + Stringify(m.value) + after;
      && s != [] && s[0] == '"' && s[1..] == Escape(m.key) + ['"'] + afterKey
      && afterKey[0] == ':' && afterKey[1..] == Stringify(m.value) + after
  {
  }

  /** How the member list continues after one member has been read. */
  lemma MemberStep(s: string, key: string, afterKey: string, v: Json, after: string)
    requires s != [] && s[0] == '"' && ParseString(s[1..]) == Parsed(key, afterKey)
    requires afterKey != [] && afterKey[0] == ':' && ParseValue(afterKey[1..]) == Parsed(v, after)
    requires after != [] && (after[0] == '}' || after[0] == ',')
    ensures ParseMembers(s) ==
      if after[0] == '}' then Parsed([Member(key, v)], after[1..])
      else match ParseMembers(after[1..])
        case Parsed(ms, rest') => Parsed([Member(key, v)] + ms, rest')
        case Fail => Fail
  {
    assert SkipSpace(s) == s;
    assert SkipSpace(afterKey) == afterKey;
    assert SkipSpace(after) == after;
  }

  /** `JSON.parse(JSON.stringify(v))` gives back `v`. */
  lemma ParseJsonStringify(v: Json)
    ensures ParseJson(Stringify(v)) == Some(v)
  {
    ParseStringified(v, []);
    assert Stringify(v) + [] == Stringify(v);
  }
}
