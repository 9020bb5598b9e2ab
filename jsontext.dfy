/** How Go's `encoding/json` writes a string value and an object whose
    values are all strings, as `json.Marshal` does for the canonical CEP
    record; and a reader for exactly that layout, which serves as the
    encoder's inverse. */
module JsonText {
  import opened Wrappers

  const HexDigits := "0123456789abcdef"

  /** The characters the encoder copies unchanged: printable ASCII and
      DEL, except `"`, `\` and the HTML-sensitive `<`, `>` and `&`. */
  predicate Plain(ch: char) {
    ' ' <= ch && ch as int <= 0x7F && ch != '"' && ch != '\\' && ch != '<' && ch != '>' && ch != '&'
  }

  /** The encoding of one character inside a JSON string: plain characters
      and non-ASCII characters other than the two separators are copied;
      quote, backslash, newline, carriage return and tab get their short
      escapes; other control characters, the HTML-sensitive `<`, `>`, `&`
      and U+2028/U+2029 get a `\uXXXX` escape. No control character is
      ever written raw. */
  function EscapeChar(ch: char): (r: string)
    ensures r != []
    ensures forall i :: 0 <= i < |r| ==> ' ' <= r[i]
    ensures Plain(ch) ==> r == [ch]
    ensures ch as int > 0x7F && ch as int != 0x2028 && ch as int != 0x2029 ==> r == [ch]
    ensures ch == '"' ==> r == "\\\""
    ensures ch == '\\' ==> r == "\\\\"
    ensures ch == '\n' ==> r == "\\n"
    ensures ch == '\r' ==> r == "\\r"
    ensures ch == '\t' ==> r == "\\t"
    ensures ch < ' ' && ch != '\n' && ch != '\r' && ch != '\t' ==> |r| == 6 && r[..4] == "\\u00"
    ensures ch == '<' ==> r == "\\u003c"
    ensures ch == '>' ==> r == "\\u003e"
    ensures ch == '&' ==> r == "\\u0026"
    ensures ch as int == 0x2028 ==> r == "\\u2028"
    ensures ch as int == 0x2029 ==> r == "\\u2029"
  {
    if Plain(ch) then [ch]
    else if ch == '"' || ch == '\\' then ['\\', ch]
    else if ch == '\n' then "\\n"
    else if ch == '\r' then "\\r"
    else if ch == '\t' then "\\t"
    else if ch < ' ' || ch == '<' || ch == '>' || ch == '&' then
      "\\u00" + [HexDigits[ch as int / 16], HexDigits[ch as int % 16]]
    else if ch as int == 0x2028 || ch as int == 0x2029 then
      "\\u202" + [HexDigits[ch as int % 16]]
    else [ch]
  }

  /** The encoding of the contents of a JSON string: never shorter than
      the text, empty only for the empty text, and free of raw control
      characters. */
  function Escape(s: string): (r: string)
    ensures |r| >= |s|
    ensures r == [] <==> s == []
    ensures forall i :: 0 <= i < |r| ==> ' ' <= r[i]
  {
    if s == [] then [] else EscapeChar(s[0]) + Escape(s[1..])
  }

  /** A JSON string literal, which reads back as the text it encodes. */
  function Quote(s: string): (r: string)
    ensures |r| >= |s| + 2 && r[0] == '"'
    ensures ReadString(r[1..]) == Some((s, ""))
  {
    ReadQuotedRoundTrip(s, "");
    assert ("\"" + Escape(s) + "\"")[1..] == Escape(s) + "\"" + "";
    "\"" + Escape(s) + "\""
  }

  /** Every character of `s` is plain. */
  predicate AllPlain(s: string) {
    s == [] || (Plain(s[0]) && AllPlain(s[1..]))
  }

  /** A string made only of plain characters is written as it is. */
  lemma {:induction false} EscapePlain(s: string)
    requires AllPlain(s)
    ensures Escape(s) == s
  {
    if s != [] {
      EscapePlain(s[1..]);
      assert [s[0]] + s[1..] == s;
    }
  }

  // ---------------------------------------------------------------------
  // Reading back
  // ---------------------------------------------------------------------

  function HexValue(ch: char): (r: Option<nat>)
    ensures r.Some? ==> r.value < 16
  {
    if '0' <= ch <= '9' then Some(ch as nat - '0' as nat)
    else if 'a' <= ch <= 'f' then Some(ch as nat - 'a' as nat + 10)
    else if 'A' <= ch <= 'F' then Some(ch as nat - 'A' as nat + 10)
    else None
  }

  lemma HexDigitsRead(k: nat)
    requires k < 16
    ensures HexValue(HexDigits[k]) == Some(k)
  {
  }

  /** The escape sequence that follows a backslash at the start of `t`:
      the character it stands for and how many characters of `t` it
      uses. Surrogate halves are not read. */
  function ReadEscape(t: string): (r: Option<(char, nat)>)
    ensures r.Some? ==> 1 <= r.value.1 <= |t|
  {
    if |t| == 0 then None
    else if t[0] == '"' || t[0] == '\\' || t[0] == '/' then Some((t[0], 1))
    else if t[0] == 'b' then Some((8 as char, 1))
    else if t[0] == 'f' then Some((12 as char, 1))
    else if t[0] == 'n' then Some(('\n', 1))
    else if t[0] == 'r' then Some(('\r', 1))
    else if t[0] == 't' then Some(('\t', 1))
    else if t[0] == 'u' && |t| >= 5 then
      match (HexValue(t[1]), HexValue(t[2]), HexValue(t[3]), HexValue(t[4]))
      case (Some(a), Some(b), Some(c), Some(d)) =>
        var v := a * 4096 + b * 256 + c * 16 + d;
        if v < 0xD800 || 0xE000 <= v then Some((v as char, 5)) else None
      case _ => None
    else None
  }

  /** Prefixes a read character to what the rest of a string reads as. */
  function Cons(ch: char, r: Option<(string, string)>): Option<(string, string)> {
    match r
    case None => None
    case Some((s, rest)) => Some(([ch] + s, rest))
  }

  /** Reads the contents of a JSON string whose opening quote has already
      been read, up to and including the closing quote: the decoded text
      and what follows the closing quote. */
  function ReadString(t: string): Option<(string, string)>
    decreases |t|
  {
    if |t| == 0 then None
    else if t[0] == '"' then Some(([], t[1..]))
    else if t[0] == '\\' then
      match ReadEscape(t[1..])
      case None => None
      case Some((ch, n)) => Cons(ch, ReadString(t[1 + n..]))
    else if t[0] < ' ' then None
    else Cons(t[0], ReadString(t[1..]))
  }

  /** A character other than a quote, a backslash or a control character
      is read as itself. */
  lemma ReadRawChar(ch: char, t: string)
    requires ch >= ' ' && ch != '"' && ch != '\\'
    ensures ReadString([ch] + t) == Cons(ch, ReadString(t))
  {
    assert ([ch] + t)[1..] == t;
  }

  /** A backslash and a two-character escape. */
  lemma ReadShortEscape(ch: char, t: string)
    requires ch == '"' || ch == '\\' || ch == '\n' || ch == '\r' || ch == '\t'
    ensures ReadString(EscapeChar(ch) + t) == Cons(ch, ReadString(t))
  {
    var u := EscapeChar(ch) + t;
    assert |EscapeChar(ch)| == 2;
    assert u[0] == '\\';
    assert ReadEscape(u[1..]) == Some((ch, 1));
    assert u[1 + 1..] == t;
  }

  /** A backslash, `u` and four hex digits. */
  lemma ReadUnicodeEscape(ch: char, e: string, t: string)
    requires |e| == 6 && e[0] == '\\' && e[1] == 'u'
    requires HexValue(e[2]).Some? && HexValue(e[3]).Some? && HexValue(e[4]).Some? && HexValue(e[5]).Some?
    requires ch as int ==
      HexValue(e[2]).value * 4096 + HexValue(e[3]).value * 256 + HexValue(e[4]).value * 16 + HexValue(e[5]).value
    ensures ReadString(e + t) == Cons(ch, ReadString(t))
  {
    var u := e + t;
    assert u[0] == '\\';
    assert u[1..][1..5] == e[2..6];
    assert ReadEscape(u[1..]) == Some((ch, 5));
    assert u[1 + 5..] == t;
  }

  /** A control character, `<`, `>` or `&`, written as `\u00XX`. */
  lemma ReadByteEscape(ch: char, t: string)
    requires !Plain(ch) && ch != '"' && ch != '\\' && ch != '\n' && ch != '\r' && ch != '\t'
    requires ch < ' ' || ch == '<' || ch == '>' || ch == '&'
    ensures ReadString(EscapeChar(ch) + t) == Cons(ch, ReadString(t))
  {
    HexDigitsRead(ch as int / 16);
    HexDigitsRead(ch as int % 16);
    HexDigitsRead(0);
    ReadUnicodeEscape(ch, EscapeChar(ch), t);
  }

  /** U+2028 and U+2029, written as `\u2028` and `\u2029`. */
  lemma ReadSeparatorEscape(ch: char, t: string)
    requires ch as int == 0x2028 || ch as int == 0x2029
    ensures ReadString(EscapeChar(ch) + t) == Cons(ch, ReadString(t))
  {
    HexDigitsRead(2);
    HexDigitsRead(0);
    HexDigitsRead(ch as int % 16);
    ReadUnicodeEscape(ch, EscapeChar(ch), t);
  }

  /** Reading one encoded character yields that character. */
  lemma ReadEscapedChar(ch: char, t: string)
    ensures ReadString(EscapeChar(ch) + t) == Cons(ch, ReadString(t))
  {
    if Plain(ch) {
      ReadRawChar(ch, t);
    } else if ch == '"' || ch == '\\' || ch == '\n' || ch == '\r' || ch == '\t' {
      ReadShortEscape(ch, t);
    } else if ch < ' ' || ch == '<' || ch == '>' || ch == '&' {
      ReadByteEscape(ch, t);
    } else if ch as int == 0x2028 || ch as int == 0x2029 {
      ReadSeparatorEscape(ch, t);
    } else {
      assert EscapeChar(ch) == [ch];
      ReadRawChar(ch, t);
    }
  }

  /** Reading an encoded string followed by a closing quote gives back the
      string and what follows the quote. */
  lemma {:induction false} ReadQuotedRoundTrip(s: string, rest: string)
    ensures ReadString(Escape(s) + "\"" + rest) == Some((s, rest))
  {
    if s == [] {
      assert Escape(s) + "\"" + rest == "\"" + rest;
    } else {
      var tail := Escape(s[1..]) + "\"" + rest;
      assert Escape(s) + "\"" + rest == EscapeChar(s[0]) + tail;
      ReadEscapedChar(s[0], tail);
      ReadQuotedRoundTrip(s[1..], rest);
      assert [s[0]] + s[1..] == s;
    }
  }

  // ---------------------------------------------------------------------
  // Objects whose values are strings
  // ---------------------------------------------------------------------

  /** `"key":"value"`: it opens with a quote and holds at least the key,
      the value, the two pairs of quotes and the colon. */
  function Member(key: string, value: string): (r: string)
    ensures |r| >= |key| + |value| + 5 && r[0] == '"'
  {
    Quote(key) + ":" + Quote(value)
  }

  /** The members of an object, in the order given, separated by commas. */
  function Members(keys: seq<string>, values: seq<string>): (r: string)
    requires |keys| == |values|
    ensures r == [] <==> |keys| == 0
    ensures |keys| > 0 ==> r[0] == '"'
  {
    if |keys| == 0 then ""
    else if |keys| == 1 then Member(keys[0], values[0])
    else Member(keys[0], values[0]) + "," + Members(keys[1..], values[1..])
  }

  /** The object `{"k0":"v0",...}`, with no white space, as `json.Marshal`
      writes a record of string fields. */
  function Object(keys: seq<string>, values: seq<string>): (r: string)
    requires |keys| == |values|
    ensures |r| >= 2 && r[0] == '{' && r[|r| - 1] == '}'
    ensures |keys| == 0 <==> r == "{}"
  {
    "{" + Members(keys, values) + "}"
  }

  /** Reads `"key":"value"` for the expected key: a string equal to the
      key, a colon, and a string, which is the value. */
  function ReadMember(t: string, key: string): Option<(string, string)> {
    if |t| == 0 || t[0] != '"' then None
    else
      match ReadString(t[1..])
      case None => None
      case Some((k, after)) =>
        if k == key && |after| >= 2 && after[0] == ':' && after[1] == '"' then ReadString(after[2..])
        else None
  }

  /** Reads the members for the expected keys, in order. */
  function ReadMembers(t: string, keys: seq<string>): (r: Option<(seq<string>, string)>)
    ensures r.Some? ==> |r.value.0| == |keys|
    decreases |keys|
  {
    if |keys| == 0 then Some(([], t))
    else
      match ReadMember(t, keys[0])
      case None => None
      case Some((v, rest)) =>
        if |keys| == 1 then Some(([v], rest))
        else if |rest| > 0 && rest[0] == ',' then
          match ReadMembers(rest[1..], keys[1..])
          case None => None
          case Some((vs, rest')) => Some(([v] + vs, rest'))
        else None
  }

  /** Reads an object with the expected keys in the expected order and
      nothing after its closing brace: the values, in key order. */
  function ReadObject(t: string, keys: seq<string>): (r: Option<seq<string>>)
    ensures r.Some? ==> |r.value| == |keys|
  {
    if |t| > 0 && t[0] == '{' then
      match ReadMembers(t[1..], keys)
      case Some((vs, rest)) => if rest == "}" then Some(vs) else None
      case None => None
    else None
  }

  lemma ReadMemberRoundTrip(key: string, value: string, rest: string)
    ensures ReadMember(Member(key, value) + rest, key) == Some((value, rest))
  {
    var after := ":\"" + (Escape(value) + "\"" + rest);
    MemberText(key, value, rest, after);
    ReadQuotedRoundTrip(key, after);
    assert after[2..] == Escape(value) + "\"" + rest;
    ReadQuotedRoundTrip(value, rest);
  }

  /** A member followed by more text, as a quote, the escaped key, a quote
      and what comes after the key. */
  lemma MemberText(key: string, value: string, rest: string, after: string)
    requires after == ":\"" + (Escape(value) + "\"" + rest)
    ensures Member(key, value) + rest == "\"" + (Escape(key) + "\"" + after)
  {
    MemberLayout(Escape(key), Escape(value), rest);
  }

  /** The layout of a member, for any escaped key and value. */
  lemma MemberLayout(k: string, v: string, rest: string)
    ensures ("\"" + k + "\"") + ":" + ("\"" + v + "\"") + rest == "\"" + (k + "\"" + (":\"" + (v + "\"" + rest)))
  {
  }

  /** The text of two or more members is the first member, a comma, and
      the text of the others. */
  lemma MembersSplit(keys: seq<string>, values: seq<string>, rest: string)
    requires |keys| == |values| >= 2
    ensures Members(keys, values) + rest
         == Member(keys[0], values[0]) + ("," + (Members(keys[1..], values[1..]) + rest))
  {
    var a, m := Member(keys[0], values[0]), Members(keys[1..], values[1..]);
    assert Members(keys, values) == a + "," + m;
    Regroup(a, ",", m, rest);
  }

  /** `(a + b + c) + d` regrouped to the right. */
  lemma Regroup(a: string, b: string, c: string, d: string)
    ensures a + b + c + d == a + (b + (c + d))
  {
  }

  /** One step of `ReadMembers` past a member and its comma. */
  lemma ReadMembersStep(t: string, keys: seq<string>, v: string, tail: string, vs: seq<string>, rest: string)
    requires |keys| >= 2
    requires ReadMember(t, keys[0]) == Some((v, "," + tail))
    requires ReadMembers(tail, keys[1..]) == Some((vs, rest))
    ensures ReadMembers(t, keys) == Some(([v] + vs, rest))
  {
    assert ("," + tail)[1..] == tail;
  }

  /** The members after the first are read back, so all are. */
  lemma ReadMembersCons(keys: seq<string>, values: seq<string>, rest: string)
    requires |keys| == |values| >= 2
    requires ReadMembers(Members(keys[1..], values[1..]) + rest, keys[1..]) == Some((values[1..], rest))
    ensures ReadMembers(Members(keys, values) + rest, keys) == Some((values, rest))
  {
    MembersSplit(keys, values, rest);
    ReadFirstThenRest(keys, values, Members(keys[1..], values[1..]) + rest, rest);
  }

  /** A written first member, a comma, and text holding the other members
      read back as all the values. */
  lemma ReadFirstThenRest(keys: seq<string>, values: seq<string>, tail: string, rest: string)
    requires |keys| == |values| >= 2
    requires ReadMembers(tail, keys[1..]) == Some((values[1..], rest))
    ensures ReadMembers(Member(keys[0], values[0]) + ("," + tail), keys) == Some((values, rest))
  {
    ReadMemberRoundTrip(keys[0], values[0], "," + tail);
    ReadMembersStep(Member(keys[0], values[0]) + ("," + tail), keys, values[0], tail, values[1..], rest);
    assert [values[0]] + values[1..] == values;
  }

  lemma {:induction false} ReadMembersRoundTrip(keys: seq<string>, values: seq<string>, rest: string)
    requires |keys| == |values|
    ensures ReadMembers(Members(keys, values) + rest, keys) == Some((values, rest))
  {
    if |keys| == 0 {
      assert Members(keys, values) + rest == rest;
    } else if |keys| == 1 {
      ReadMemberRoundTrip(keys[0], values[0], rest);
      assert [values[0]] == values;
    } else {
      ReadMembersRoundTrip(keys[1..], values[1..], rest);
      ReadMembersCons(keys, values, rest);
    }
  }

  /** Reading back what `Object` writes gives the values back. */
  lemma ObjectRoundTrip(keys: seq<string>, values: seq<string>)
    requires |keys| == |values|
    ensures ReadObject(Object(keys, values), keys) == Some(values)
  {
    var m := Members(keys, values);
    var t := Object(keys, values);
    assert t == "{" + (m + "}");
    assert t[1..] == m + "}";
    ReadMembersRoundTrip(keys, values, "}");
  }
}
