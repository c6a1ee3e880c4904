/**
 * JSON values with `JSON.stringify` (Print) and `JSON.parse` (Parse).
 *
 * The printer writes the compact form, escaping quotes, backslashes and the
 * characters below U+0020 as `JSON.stringify` does; the parser reads that form
 * (no insignificant white space, integer numbers, every escape of a string
 * literal), so every printed value parses back to itself (ParseRoundTrip).
 * Object members are kept in text order, duplicates included; readers build
 * the object with `Objects.Assign`, which lets a later duplicate win as
 * `JSON.parse` does.
 */
module JsonFormat {
  import opened Wrappers
  import opened Objects
  import Numbers

  datatype Json =
    | JNull
    | JBool(b: bool)
    | JNum(n: int)
    | JStr(s: string)
    | JArr(elems: seq<Json>)
    | JObj(members: seq<Prop<Json>>)

  /** JavaScript truthiness of a parsed value. */
  predicate Truthy(j: Json) {
    match j
    case JNull => false
    case JBool(b) => b
    case JNum(n) => n != 0
    case JStr(s) => s != ""
    case _ => true
  }

  /** The lower-case hexadecimal digit of `d`. */
  function HexDigit(d: nat): char
    requires d < 16
  {
    if d < 10 then ('0' as int + d) as char else ('a' as int + d - 10) as char
  }

  /**
   * How `JSON.stringify` writes one character inside a string literal: `"` and
   * `\` after a backslash; backspace, tab, line feed, form feed and carriage
   * return as `\b \t \n \f \r`; any other character below U+0020 as `\u00`
   * and two lower-case hex digits; everything else as itself.
   */
  function EscapeChar(c: char): string {
    if c == '"' || c == '\\' then ['\\', c]
    else if c as int == 0x08 then "\\b"
    else if c == '\t' then "\\t"
    else if c == '\n' then "\\n"
    else if c as int == 0x0C then "\\f"
    else if c == '\r' then "\\r"
    else if c as int < 0x20 then "\\u00" + [HexDigit(c as int / 16), HexDigit(c as int % 16)]
    else [c]
  }

  function Escape(s: string): string {
    if s == [] then [] else EscapeChar(s[0]) + Escape(s[1..])
  }

  function Quote(s: string): string {
    "\"" + Escape(s) + "\""
  }

  function Print(j: Json): string
    decreases j
  {
    match j
    case JNull => "null"
    case JBool(b) => if b then "true" else "false"
    case JNum(n) => Numbers.IntToString(n)
    case JStr(s) => Quote(s)
    case JArr(es) => "[" + PrintElems(es) + "]"
    case JObj(ms) => "{" + PrintMembers(ms) + "}"
  }

  function PrintElems(es: seq<Json>): string
    decreases es
  {
    if es == [] then ""
    else Print(es[0]) + (if |es| == 1 then "" else "," + PrintElems(es[1..]))
  }

  function PrintMember(p: Prop<Json>): string
    decreases p
  {
    Quote(p.key) + ":" + Print(p.value)
  }

  function PrintMembers(ms: seq<Prop<Json>>): string
    decreases ms
  {
    if ms == [] then ""
    else PrintMember(ms[0]) + (if |ms| == 1 then "" else "," + PrintMembers(ms[1..]))
  }

  /** The character a backslash followed by `c` stands for, when that is one of the short escapes. */
  function ShortEscape(c: char): Option<char> {
    if c == '"' || c == '\\' || c == '/' then Some(c)
    else if c == 'b' then Some(0x08 as char)
    else if c == 't' then Some('\t')
    else if c == 'n' then Some('\n')
    else if c == 'f' then Some(0x0C as char)
    else if c == 'r' then Some('\r')
    else None
  }

  /** The value of a hexadecimal digit of either case. */
  function HexValue(c: char): Option<nat> {
    if '0' <= c <= '9' then Some(c as int - '0' as int)
    else if 'a' <= c <= 'f' then Some(c as int - 'a' as int + 10)
    else if 'A' <= c <= 'F' then Some(c as int - 'A' as int + 10)
    else None
  }

  /** The UTF-16 code unit four hexadecimal digits spell. */
  function Hex4(h: string): (r: Option<nat>)
    requires |h| == 4
    ensures r.Some? ==> r.value < 0x1_0000
  {
    if HexValue(h[0]).Some? && HexValue(h[1]).Some? && HexValue(h[2]).Some? && HexValue(h[3]).Some? then
      var a, b, c, d := HexValue(h[0]).value, HexValue(h[1]).value, HexValue(h[2]).value, HexValue(h[3]).value;
      assert a < 16 && b < 16 && c < 16 && d < 16;
      Some(((a * 16 + b) * 16 + c) * 16 + d)
    else None
  }

  predicate IsHighSurrogate(u: nat) {
    0xD800 <= u < 0xDC00
  }

  predicate IsLowSurrogate(u: nat) {
    0xDC00 <= u < 0xE000
  }

  /**
   * A `\u` escape at the start of `s`: a code unit outside the surrogates is
   * that character; a high surrogate followed by a `\u` low surrogate is the
   * character the pair encodes; a surrogate on its own reads as nothing.
   */
  function UnicodeEscape(s: string): (r: Option<(char, nat)>)
    requires |s| >= 6 && s[0] == '\\' && s[1] == 'u'
    ensures r.Some? ==> 6 <= r.value.1 <= |s|
  {
    match Hex4(s[2..6])
    case None => None
    case Some(u) =>
      if IsHighSurrogate(u) then
        if |s| >= 12 && s[6] == '\\' && s[7] == 'u' && Hex4(s[8..12]).Some? && IsLowSurrogate(Hex4(s[8..12]).value) then
          var l := Hex4(s[8..12]).value;
          Some(((0x1_0000 + (u - 0xD800) * 0x400 + (l - 0xDC00)) as char, 12))
        else None
      else if IsLowSurrogate(u) then None
      else Some((u as char, 6))
  }

  /**
   * The character at the start of a string literal's text (not its closing
   * quote) and the length of the text that spells it; a bad escape and a raw
   * character below U+0020 are syntax errors.
   */
  function ParseCharStep(s: string): (r: Option<(char, nat)>)
    requires s != [] && s[0] != '"'
    ensures r.Some? ==> 1 <= r.value.1 <= |s|
  {
    if s[0] == '\\' then
      if |s| >= 2 && ShortEscape(s[1]).Some? then Some((ShortEscape(s[1]).value, 2))
      else if |s| >= 6 && s[1] == 'u' then UnicodeEscape(s)
      else None
    else if s[0] as int < 0x20 then None
    else Some((s[0], 1))
  }

  /** The characters of a string literal after its opening quote, up to and including the closing one. */
  function ParseChars(s: string): (r: Option<(string, string)>)
    ensures r.Some? ==> |r.value.1| < |s|
    decreases |s|
  {
    if s == [] then None
    else if s[0] == '"' then Some(([], s[1..]))
    else
      match ParseCharStep(s)
      case None => None
      case Some((c, n)) =>
        match ParseChars(s[n..])
        case None => None
        case Some((t, rest)) => Some(([c] + t, rest))
  }

  function Keyword(s: string, word: string, v: Json): (r: Option<(Json, string)>)
    requires |word| > 0
    ensures r.Some? ==> |r.value.1| < |s|
  {
    if |word| <= |s| && s[..|word|] == word then Some((v, s[|word|..])) else None
  }

  /** One value at the start of `s`, and the text after it. */
  function ParseValue(s: string): (r: Option<(Json, string)>)
    ensures r.Some? ==> |r.value.1| < |s|
    decreases |s|, 3
  {
    if s == [] then None
    else if s[0] == '[' then ParseArray(s)
    else if s[0] == '{' then ParseObject(s)
    else ParseScalar(s)
  }

  /** `null`, `true`, `false`, a string or a number at the start of `s`. */
  function ParseScalar(s: string): (r: Option<(Json, string)>)
    requires s != []
    ensures r.Some? ==> |r.value.1| < |s|
  {
    if s[0] == 'n' then Keyword(s, "null", JNull)
    else if s[0] == 't' then Keyword(s, "true", JBool(true))
    else if s[0] == 'f' then Keyword(s, "false", JBool(false))
    else if s[0] == '"' then
      match ParseChars(s[1..])
      case None => None
      case Some((str, rest)) => Some((JStr(str), rest))
    else if s[0] == '-' || Numbers.IsDigit(s[0]) then
      match Numbers.ParseJsonInt(s)
      case None => None
      case Some((n, rest)) => Some((JNum(n), rest))
    else None
  }

  /** An array starting at the '[' that begins `s`. */
  function ParseArray(s: string): (r: Option<(Json, string)>)
    requires s != []
    ensures r.Some? ==> |r.value.1| < |s|
    decreases |s|, 2
  {
    if |s| >= 2 && s[1] == ']' then Some((JArr([]), s[2..]))
    else
      match ParseElems(s[1..])
      case None => None
      case Some((es, rest)) => Some((JArr(es), rest))
  }

  /** An object starting at the '{' that begins `s`. */
  function ParseObject(s: string): (r: Option<(Json, string)>)
    requires s != []
    ensures r.Some? ==> |r.value.1| < |s|
    decreases |s|, 2
  {
    if |s| >= 2 && s[1] == '}' then Some((JObj([]), s[2..]))
    else
      match ParseMembers(s[1..])
      case None => None
      case Some((ms, rest)) => Some((JObj(ms), rest))
  }

  /** The elements of a non-empty array after its '[', up to and including the closing ']'. */
  function ParseElems(s: string): (r: Option<(seq<Json>, string)>)
    ensures r.Some? ==> |r.value.1| < |s|
    decreases |s|, 4
  {
    match ParseValue(s)
    case None => None
    case Some((v, rest)) =>
      if rest != [] && rest[0] == ']' then Some(([v], rest[1..]))
      else if rest != [] && rest[0] == ',' then
        match ParseElems(rest[1..])
        case None => None
        case Some((vs, rest')) => Some(([v] + vs, rest'))
      else None
  }

  /** One `"key":value` member at the start of `s`, and the text after it. */
  function ParseMember(s: string): (r: Option<(Prop<Json>, string)>)
    ensures r.Some? ==> |r.value.1| < |s|
    decreases |s|, 4
  {
    if s == [] || s[0] != '"' then None
    else
      match ParseChars(s[1..])
      case None => None
      case Some((key, r1)) =>
        if r1 == [] || r1[0] != ':' then None
        else
          match ParseValue(r1[1..])
          case None => None
          case Some((v, r2)) => Some((Prop(key, v), r2))
  }

  /** The members of a non-empty object after its '{', up to and including the closing '}'. */
  function ParseMembers(s: string): (r: Option<(seq<Prop<Json>>, string)>)
    ensures r.Some? ==> |r.value.1| < |s|
    decreases |s|, 5
  {
    match ParseMember(s)
    case None => None
    case Some((p, rest)) =>
      if rest != [] && rest[0] == '}' then Some(([p], rest[1..]))
      else if rest != [] && rest[0] == ',' then
        match ParseMembers(rest[1..])
        case None => None
        case Some((ps, rest')) => Some(([p] + ps, rest'))
      else None
  }

  /** `JSON.parse(s)`: one value and nothing after it; `None` is the `SyntaxError`. */
  function Parse(s: string): Option<Json> {
    match ParseValue(s)
    case None => None
    case Some((j, rest)) => if rest == [] then Some(j) else None
  }

  /** Text that cannot continue a number printed just before it. */
  predicate Delimited(rest: string) {
    rest == [] || !Numbers.IsDigit(rest[0])
  }

  lemma {:induction false} ParseCharsRoundTrip(x: string, rest: string)
    ensures ParseChars(Escape(x) + "\"" + rest) == Some((x, rest))
  {
    if x == [] {
      assert Escape(x) + "\"" + rest == "\"" + rest;
      ParseCharsClose(rest);
    } else {
      var e0 := EscapeChar(x[0]);
      var tail := Escape(x[1..]) + "\"" + rest;
      ParseCharsRoundTrip(x[1..], rest);
      assert Escape(x) == e0 + Escape(x[1..]);
      Enclose(e0, Escape(x[1..]), "\"", rest);
      EscapeCharStep(x[0], tail);
      ParseCharsNext(e0, x[0], tail, x[1..], rest);
      assert [x[0]] + x[1..] == x;
    }
  }

  /** The closing quote ends the literal. */
  lemma ParseCharsClose(rest: string)
    ensures ParseChars("\"" + rest) == Some(([], rest))
  {
    assert ("\"" + rest)[1..] == rest;
  }

  /** One character's text, then the rest of the literal. */
  lemma ParseCharsNext(e: string, c: char, tail: string, t: string, rest: string)
    requires e != [] && e[0] != '"'
    requires ParseCharStep(e + tail) == Some((c, |e|))
    requires ParseChars(tail) == Some((t, rest))
    ensures ParseChars(e + tail) == Some(([c] + t, rest))
  {
    var s := e + tail;
    assert s[0] == e[0] && s[|e|..] == tail;
  }

  /** A hex digit reads back as its value. */
  lemma HexDigitValue(d: nat)
    requires d < 16
    ensures HexValue(HexDigit(d)) == Some(d)
  {
  }

  /** What `EscapeChar` writes reads back as the one character it was written for. */
  lemma EscapeCharStep(c: char, tail: string)
    ensures EscapeChar(c) != [] && EscapeChar(c)[0] != '"'
    ensures ParseCharStep(EscapeChar(c) + tail) == Some((c, |EscapeChar(c)|))
  {
    var e := EscapeChar(c);
    var s := e + tail;
    assert s[0] == e[0];
    if c as int < 0x20 && c as int != 0x08 && c != '\t' && c != '\n' && c as int != 0x0C && c != '\r' {
      var hi, lo := c as int / 16, c as int % 16;
      HexDigitValue(0);
      HexDigitValue(hi);
      HexDigitValue(lo);
      assert s[..6] == e;
      assert s[2..6] == ['0', '0', HexDigit(hi), HexDigit(lo)];
      assert Hex4(s[2..6]) == Some(c as int);
    } else if |e| == 2 {
      assert s[1] == e[1];
    }
  }

  /** `JSON.parse` refuses a raw character below U+0020 inside a string literal. */
  lemma RawControlRejected(c: char, rest: string)
    requires c as int < 0x20
    ensures ParseChars([c] + rest) == None
  {
    assert ([c] + rest)[0] == c;
  }

  /** `JSON.stringify` never leaves a raw control character inside a string literal. */
  lemma {:induction false} EscapeNoControl(x: string)
    ensures forall i :: 0 <= i < |Escape(x)| ==> Escape(x)[i] as int >= 0x20
  {
    if x != [] {
      EscapeNoControl(x[1..]);
      var e0 := EscapeChar(x[0]);
      assert Escape(x) == e0 + Escape(x[1..]);
      forall i | 0 <= i < |e0| ensures e0[i] as int >= 0x20 {
        if x[0] as int < 0x20 && x[0] as int != 0x08 && x[0] != '\t' && x[0] != '\n' && x[0] as int != 0x0C && x[0] != '\r' {
          assert e0 == "\\u00" + [HexDigit(x[0] as int / 16), HexDigit(x[0] as int % 16)];
        }
      }
    }
  }

  lemma PrintStart(j: Json)
    ensures Print(j) != [] && Print(j)[0] != ']' && Print(j)[0] != '}'
  {
    match j
    case JNum(n) =>
      var d := Numbers.NatToString(if n < 0 then -n else n);
      assert Numbers.IsDigit(d[0]);
    case _ =>
  }

  lemma KeywordPrint(j: Json, rest: string)
    requires j.JNull? || j.JBool?
    ensures ParseValue(Print(j) + rest) == Some((j, rest))
  {
    var s := Print(j) + rest;
    var w := Print(j);
    assert s[..|w|] == w && s[|w|..] == rest;
  }

  lemma NumPrint(n: int, rest: string)
    requires Delimited(rest)
    ensures ParseValue(Print(JNum(n)) + rest) == Some((JNum(n), rest))
  {
    Numbers.JsonIntRoundTrip(n, rest);
    PrintStart(JNum(n));
    var s := Print(JNum(n)) + rest;
    assert s[0] == Print(JNum(n))[0];
  }

  lemma StrPrint(str: string, rest: string)
    ensures ParseValue(Print(JStr(str)) + rest) == Some((JStr(str), rest))
  {
    var body := Escape(str) + "\"" + rest;
    ParseCharsRoundTrip(str, rest);
    StrText(str, rest);
    ParseStringText(body, str, rest);
  }

  lemma StrText(str: string, rest: string)
    ensures Print(JStr(str)) + rest == "\"" + (Escape(str) + "\"" + rest)
  {
    assert Print(JStr(str)) == "\"" + Escape(str) + "\"";
  }

  /** A '"' followed by the text of a literal that parses. */
  lemma ParseStringText(body: string, x: string, rest: string)
    requires ParseChars(body) == Some((x, rest))
    ensures ParseValue("\"" + body) == Some((JStr(x), rest))
  {
    var s := "\"" + body;
    assert s[0] == '"' && s[1..] == body;
  }

  lemma ArrPrint(es: seq<Json>, rest: string)
    requires es != [] ==> ParseElems(PrintElems(es) + "]" + rest) == Some((es, rest))
    ensures ParseValue(Print(JArr(es)) + rest) == Some((JArr(es), rest))
  {
    if es == [] {
      assert Print(JArr(es)) == "[]";
      ParseEmptyArray(rest);
    } else {
      PrintStart(es[0]);
      var p := PrintElems(es);
      assert p[0] == Print(es[0])[0];
      Enclose("[", p, "]", rest);
      ParseArrayText(p + "]" + rest, es, rest);
    }
  }

  lemma Enclose(open: string, p: string, close: string, rest: string)
    ensures open + p + close + rest == open + (p + close + rest)
    ensures p != [] ==> (p + close + rest)[0] == p[0]
  {
  }

  lemma ParseEmptyArray(rest: string)
    ensures ParseValue("[]" + rest) == Some((JArr([]), rest))
  {
    var s := "[]" + rest;
    assert s[0] == '[' && s[1] == ']' && s[2..] == rest;
  }

  /** '[' followed by elements that parse. */
  lemma ParseArrayText(inner: string, es: seq<Json>, rest: string)
    requires inner != [] && inner[0] != ']'
    requires ParseElems(inner) == Some((es, rest))
    ensures ParseValue("[" + inner) == Some((JArr(es), rest))
  {
    var s := "[" + inner;
    assert s[0] == '[' && s[1] == inner[0] && s[1..] == inner;
  }

  lemma ObjPrint(ms: seq<Prop<Json>>, rest: string)
    requires ms != [] ==> ParseMembers(PrintMembers(ms) + "}" + rest) == Some((ms, rest))
    ensures ParseValue(Print(JObj(ms)) + rest) == Some((JObj(ms), rest))
  {
    if ms == [] {
      assert Print(JObj(ms)) == "{}";
      ParseEmptyObject(rest);
    } else {
      var p := PrintMembers(ms);
      assert p[0] == '"';
      Enclose("{", p, "}", rest);
      ParseObjectText(p + "}" + rest, ms, rest);
    }
  }

  lemma ParseEmptyObject(rest: string)
    ensures ParseValue("{}" + rest) == Some((JObj([]), rest))
  {
    var s := "{}" + rest;
    assert s[0] == '{' && s[1] == '}' && s[2..] == rest;
  }

  /** '{' followed by members that parse. */
  lemma ParseObjectText(inner: string, ms: seq<Prop<Json>>, rest: string)
    requires inner != [] && inner[0] != '}'
    requires ParseMembers(inner) == Some((ms, rest))
    ensures ParseValue("{" + inner) == Some((JObj(ms), rest))
  {
    var s := "{" + inner;
    assert s[0] == '{' && s[1] == inner[0] && s[1..] == inner;
  }

  lemma {:induction false} ParseValuePrint(j: Json, rest: string)
    requires Delimited(rest)
    ensures ParseValue(Print(j) + rest) == Some((j, rest))
    decreases j
  {
    match j
    case JNull => KeywordPrint(j, rest);
    case JBool(_) => KeywordPrint(j, rest);
    case JNum(n) => NumPrint(n, rest);
    case JStr(str) => StrPrint(str, rest);
    case JArr(es) =>
      if es != [] {
        ParseElemsPrint(es, rest);
      }
      ArrPrint(es, rest);
    case JObj(ms) =>
      if ms != [] {
        ParseMembersPrint(ms, rest);
      }
      ObjPrint(ms, rest);
  }

  lemma {:induction false} ParseElemsPrint(es: seq<Json>, rest: string)
    requires es != []
    ensures ParseElems(PrintElems(es) + "]" + rest) == Some((es, rest))
    decreases es
  {
    if |es| == 1 {
      ParseLastElemPrint(es, rest);
    } else {
      var more := PrintElems(es[1..]) + "]" + rest;
      assert ("," + more)[0] == ',';
      ParseValuePrint(es[0], "," + more);
      ParseElemsPrint(es[1..], rest);
      ParseElemsCons(es, more, rest);
    }
  }

  /** The elements after the first parse, and so does the first: so do all of them. */
  lemma ParseElemsCons(es: seq<Json>, more: string, rest: string)
    requires |es| > 1 && more == PrintElems(es[1..]) + "]" + rest
    requires ParseValue(Print(es[0]) + ("," + more)) == Some((es[0], "," + more))
    requires ParseElems(more) == Some((es[1..], rest))
    ensures ParseElems(PrintElems(es) + "]" + rest) == Some((es, rest))
  {
    ElemsTextNext(es, rest);
    ParseElemsNext(es[0], PrintElems(es) + "]" + rest, more, es[1..], rest);
    assert [es[0]] + es[1..] == es;
  }

  lemma {:induction false} ParseLastElemPrint(es: seq<Json>, rest: string)
    requires |es| == 1
    ensures ParseElems(PrintElems(es) + "]" + rest) == Some((es, rest))
    decreases es, 0
  {
    ElemsTextLast(es, rest);
    ParseValuePrint(es[0], "]" + rest);
    ParseElemsLast(es[0], PrintElems(es) + "]" + rest, rest);
    assert [es[0]] == es;
  }

  lemma ElemsTextLast(es: seq<Json>, rest: string)
    requires |es| == 1
    ensures PrintElems(es) + "]" + rest == Print(es[0]) + ("]" + rest)
  {
    assert PrintElems(es) == Print(es[0]);
  }

  lemma ElemsTextNext(es: seq<Json>, rest: string)
    requires |es| > 1
    ensures PrintElems(es) + "]" + rest == Print(es[0]) + ("," + (PrintElems(es[1..]) + "]" + rest))
  {
    var a, b := Print(es[0]), PrintElems(es[1..]);
    assert PrintElems(es) == a + ("," + b);
    Regroup(a, ",", b, "]", rest);
  }

  lemma Regroup(a: string, sep: string, b: string, close: string, rest: string)
    ensures a + (sep + b) + close + rest == a + (sep + (b + close + rest))
  {
  }

  /** A value followed by the closing ']' ends the elements. */
  lemma ParseElemsLast(v: Json, s: string, rest: string)
    requires ParseValue(s) == Some((v, "]" + rest))
    ensures ParseElems(s) == Some(([v], rest))
  {
    assert ("]" + rest)[0] == ']' && ("]" + rest)[1..] == rest;
  }

  /** A value followed by ',' and more elements. */
  lemma ParseElemsNext(v: Json, s: string, more: string, vs: seq<Json>, rest: string)
    requires ParseValue(s) == Some((v, "," + more))
    requires ParseElems(more) == Some((vs, rest))
    ensures ParseElems(s) == Some(([v] + vs, rest))
  {
    assert ("," + more)[0] == ',' && ("," + more)[1..] == more;
  }

  lemma ParseMemberPrint(p: Prop<Json>, tail: string)
    requires ParseValue(Print(p.value) + tail) == Some((p.value, tail))
    ensures ParseMember(PrintMember(p) + tail) == Some((p, tail))
  {
    var after := Print(p.value) + tail;
    MemberText(p.key, Print(p.value), tail);
    ParseMemberText(p.key, p.value, after, tail);
  }

  /** How a printed member followed by more text is laid out. */
  lemma MemberText(key: string, value: string, tail: string)
    ensures Quote(key) + ":" + value + tail == "\"" + (Escape(key) + "\"" + (":" + (value + tail)))
  {
  }

  /** A quoted key, ':' and a value that parses, read as one member. */
  lemma ParseMemberText(key: string, v: Json, after: string, tail: string)
    requires ParseValue(after) == Some((v, tail))
    ensures ParseMember("\"" + (Escape(key) + "\"" + (":" + after))) == Some((Prop(key, v), tail))
  {
    var r1 := ":" + after;
    var s := "\"" + (Escape(key) + "\"" + r1);
    assert s[0] == '"';
    assert s[1..] == Escape(key) + "\"" + r1;
    ParseCharsRoundTrip(key, r1);
    assert r1[0] == ':' && r1[1..] == after;
  }

  lemma {:induction false} ParseMembersPrint(ms: seq<Prop<Json>>, rest: string)
    requires ms != []
    ensures ParseMembers(PrintMembers(ms) + "}" + rest) == Some((ms, rest))
    decreases ms
  {
    if |ms| == 1 {
      ParseLastMemberPrint(ms, rest);
    } else {
      var more := PrintMembers(ms[1..]) + "}" + rest;
      assert ("," + more)[0] == ',';
      ParseValuePrint(ms[0].value, "," + more);
      ParseMembersPrint(ms[1..], rest);
      ParseMembersCons(ms, more, rest);
    }
  }

  /** The members after the first parse, and so does the first: so do all of them. */
  lemma ParseMembersCons(ms: seq<Prop<Json>>, more: string, rest: string)
    requires |ms| > 1 && more == PrintMembers(ms[1..]) + "}" + rest
    requires ParseValue(Print(ms[0].value) + ("," + more)) == Some((ms[0].value, "," + more))
    requires ParseMembers(more) == Some((ms[1..], rest))
    ensures ParseMembers(PrintMembers(ms) + "}" + rest) == Some((ms, rest))
  {
    MembersTextNext(ms, rest);
    ParseMemberPrint(ms[0], "," + more);
    ParseMembersNext(ms[0], PrintMembers(ms) + "}" + rest, more, ms[1..], rest);
    assert [ms[0]] + ms[1..] == ms;
  }

  lemma {:induction false} ParseLastMemberPrint(ms: seq<Prop<Json>>, rest: string)
    requires |ms| == 1
    ensures ParseMembers(PrintMembers(ms) + "}" + rest) == Some((ms, rest))
    decreases ms, 0
  {
    MembersTextLast(ms, rest);
    ParseValuePrint(ms[0].value, "}" + rest);
    ParseMemberPrint(ms[0], "}" + rest);
    ParseMembersLast(ms[0], PrintMembers(ms) + "}" + rest, rest);
    assert [ms[0]] == ms;
  }

  lemma MembersTextLast(ms: seq<Prop<Json>>, rest: string)
    requires |ms| == 1
    ensures PrintMembers(ms) + "}" + rest == PrintMember(ms[0]) + ("}" + rest)
  {
    assert PrintMembers(ms) == PrintMember(ms[0]);
  }

  lemma MembersTextNext(ms: seq<Prop<Json>>, rest: string)
    requires |ms| > 1
    ensures PrintMembers(ms) + "}" + rest == PrintMember(ms[0]) + ("," + (PrintMembers(ms[1..]) + "}" + rest))
  {
    var a, b := PrintMember(ms[0]), PrintMembers(ms[1..]);
    assert PrintMembers(ms) == a + ("," + b);
    Regroup(a, ",", b, "}", rest);
  }

  /** A member followed by the closing '}' ends the members. */
  lemma ParseMembersLast(p: Prop<Json>, s: string, rest: string)
    requires ParseMember(s) == Some((p, "}" + rest))
    ensures ParseMembers(s) == Some(([p], rest))
  {
    assert ("}" + rest)[0] == '}' && ("}" + rest)[1..] == rest;
  }

  /** A member followed by ',' and more members. */
  lemma ParseMembersNext(p: Prop<Json>, s: string, more: string, ps: seq<Prop<Json>>, rest: string)
    requires ParseMember(s) == Some((p, "," + more))
    requires ParseMembers(more) == Some((ps, rest))
    ensures ParseMembers(s) == Some(([p] + ps, rest))
  {
    assert ("," + more)[0] == ',' && ("," + more)[1..] == more;
  }

  /** Whatever is printed parses back to the same value. */
  lemma ParseRoundTrip(j: Json)
    ensures Parse(Print(j)) == Some(j)
  {
    ParseValuePrint(j, []);
    assert Print(j) + [] == Print(j);
  }
}
