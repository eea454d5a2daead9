/**
 * JSON objects of string values: `json.Marshal` of a `map[string]string` (compact, with the
 * escapes Go writes) and `json.Unmarshal` of such an object back into a map.
 */
module JsonObject {
  import opened Wrappers
  import Hex

  type Object = map<string, string>

  /** The characters Go writes as `\u00XX`-style escapes besides the control characters. */
  predicate HtmlOrSeparator(c: char) {
    c == '<' || c == '>' || c == '&' || c == '\U{2028}' || c == '\U{2029}'
  }

  /** How one character of a string is written between the quotes. */
  function EscapeChar(c: char): (s: string)
    ensures |s| > 0 && s[0] != '"'
  {
    if c == '"' then "\\\""
    else if c == '\\' then "\\\\"
    else if c == '\n' then "\\n"
    else if c == '\r' then "\\r"
    else if c == '\t' then "\\t"
    else if c as int < 0x20 || HtmlOrSeparator(c) then "\\u" + Hex.Fixed(c as int, 4, false)
    else [c]
  }

  /** Every character of `s` as it is written between the quotes. */
  function Escape(s: string): string {
    if s == [] then [] else EscapeChar(s[0]) + Escape(s[1..])
  }

  /** A string as a JSON string literal. */
  function Quote(s: string): string {
    "\"" + Escape(s) + "\""
  }

  /** One `"key":"value"` member. */
  function Member(k: string, v: string): string {
    Quote(k) + ":" + Quote(v)
  }

  /** The members of `m`, keys in the order `ks`, separated by commas. */
  function Members(m: Object, ks: seq<string>): string
    requires forall k :: k in ks ==> k in m
  {
    if ks == [] then ""
    else if |ks| == 1 then Member(ks[0], m[ks[0]])
    else Member(ks[0], m[ks[0]]) + "," + Members(m, ks[1..])
  }

  /** `json.Marshal` of the map, its keys written in the order `ks` (Go writes them sorted; the text decodes to the same map whatever the order). */
  function Encode(m: Object, ks: seq<string>): string
    requires forall k :: k in ks ==> k in m
  {
    "{" + Members(m, ks) + "}"
  }

  /**
   * The character an escape stands for and how many characters after the backslash it takes
   * (`s` starts just after the backslash). A `\u` escape naming a surrogate is refused.
   */
  function Unescape(s: string): (r: Option<(char, nat)>)
    ensures r.Some? ==> 1 <= r.value.1 <= |s|
  {
    if s == [] then None
    else if s[0] == '"' then Some(('"', 1))
    else if s[0] == '\\' then Some(('\\', 1))
    else if s[0] == '/' then Some(('/', 1))
    else if s[0] == 'b' then Some(('\U{8}', 1))
    else if s[0] == 'f' then Some(('\U{C}', 1))
    else if s[0] == 'n' then Some(('\n', 1))
    else if s[0] == 'r' then Some(('\r', 1))
    else if s[0] == 't' then Some(('\t', 1))
    else if s[0] == 'u' && |s| >= 5 && forall i :: 1 <= i < 5 ==> Hex.IsDigit(s[i]) then
      var n := Hex.ValueOf(s[1..5]);
      assert Hex.Pow16(2) == 0x100 && Hex.Pow16(4) == 0x10000;
      if n < 0xD800 || 0xE000 <= n then Some((n as char, 5)) else None
    else None
  }

  /** `c` in front of parsed string contents; a failure stays a failure. */
  function PrependChar(c: char, r: Option<(string, string)>): Option<(string, string)> {
    match r
    case None => None
    case Some((t, rest)) => Some(([c] + t, rest))
  }

  /** The contents of a string literal up to its closing quote, and the text after that quote. */
  function ParseChars(s: string): (r: Option<(string, string)>)
    ensures r.Some? ==> |r.value.1| < |s|
    decreases |s|
  {
    if s == [] then None
    else if s[0] == '"' then Some(([], s[1..]))
    else if s[0] == '\\' then
      match Unescape(s[1..])
      case None => None
      case Some((c, n)) => PrependChar(c, ParseChars(s[1 + n..]))
    else if s[0] as int < 0x20 then None
    else PrependChar(s[0], ParseChars(s[1..]))
  }

  /** A string literal at the start of `s`, and the text after it. */
  function ParseString(s: string): (r: Option<(string, string)>)
    ensures r.Some? ==> |r.value.1| < |s|
  {
    if |s| > 0 && s[0] == '"' then ParseChars(s[1..]) else None
  }

  /** `"key":"value"` members up to the closing brace, which must end the text; a repeated key keeps its last value. */
  function ParseMembers(s: string, acc: Object): Option<Object>
    decreases |s|
  {
    match ParseString(s)
    case None => None
    case Some((k, afterKey)) =>
      if |afterKey| > 0 && afterKey[0] == ':' then
        match ParseString(afterKey[1..])
        case None => None
        case Some((v, afterValue)) =>
          if afterValue == "}" then Some(acc[k := v])
          else if |afterValue| > 0 && afterValue[0] == ',' then ParseMembers(afterValue[1..], acc[k := v])
          else None
      else None
  }

  /** `json.Unmarshal` into a `map[string]string`, for compact text (no whitespace between tokens). */
  function Decode(s: string): Option<Object> {
    if s == "{}" then Some(map[])
    else if |s| > 0 && s[0] == '{' then ParseMembers(s[1..], map[])
    else None
  }

  /** One escaped character, followed by more text, reads back as that character. */
  lemma ParseCharsEscapeChar(c: char, rest: string)
    ensures ParseChars(EscapeChar(c) + rest) == PrependChar(c, ParseChars(rest))
  {
    var e := EscapeChar(c);
    var s := e + rest;
    if e == [c] {
      assert s[1..] == rest;
    } else if |e| == 2 {
      assert s[1..] == [e[1]] + rest;
      assert s[2..] == rest;
    } else {
      var h := Hex.Fixed(c as int, 4, false);
      assert s[1..] == "u" + h + rest;
      assert s[1..][1..5] == h;
      Hex.ValueOfFixed(c as int, 4, false);
      assert s[6..] == rest;
    }
  }

  /** A string's escaped form, closed by a quote, reads back as that string. */
  lemma {:induction false} ParseCharsEscape(t: string, rest: string)
    ensures ParseChars(Escape(t) + "\"" + rest) == Some((t, rest))
  {
    if t == [] {
      assert Escape(t) + "\"" + rest == "\"" + rest;
      assert ("\"" + rest)[1..] == rest;
    } else {
      ParseCharsEscape(t[1..], rest);
      assert Escape(t) + "\"" + rest == EscapeChar(t[0]) + (Escape(t[1..]) + "\"" + rest);
      ParseCharsEscapeChar(t[0], Escape(t[1..]) + "\"" + rest);
      assert [t[0]] + t[1..] == t;
    }
  }

  /** A quoted string reads back as that string, leaving the text after it. */
  lemma ParseStringQuote(t: string, rest: string)
    ensures ParseString(Quote(t) + rest) == Some((t, rest))
  {
    assert (Quote(t) + rest)[1..] == Escape(t) + "\"" + rest;
    ParseCharsEscape(t, rest);
  }

  /** An encoded member reads back as its key, then its value. */
  lemma ParseMember(k: string, v: string, rest: string)
    ensures ParseString(Member(k, v) + rest) == Some((k, ":" + Quote(v) + rest))
    ensures ParseString(Quote(v) + rest) == Some((v, rest))
  {
    assert Member(k, v) + rest == Quote(k) + (":" + Quote(v) + rest);
    ParseStringQuote(k, ":" + Quote(v) + rest);
    ParseStringQuote(v, rest);
  }

  /** The entries of `m` whose keys appear in `ks`. */
  function Among(m: Object, ks: seq<string>): Object
    requires forall k :: k in ks ==> k in m
  {
    map k | k in ks :: m[k]
  }

  /** One member read, then either the closing brace or a comma and more members. */
  lemma ParseMembersFirst(k: string, v: string, rest: string, acc: Object)
    ensures ParseMembers(Member(k, v) + rest, acc) ==
      if rest == "}" then Some(acc[k := v])
      else if |rest| > 0 && rest[0] == ',' then ParseMembers(rest[1..], acc[k := v])
      else None
  {
    ParseMember(k, v, rest);
    var afterKey := ":" + Quote(v) + rest;
    assert afterKey[0] == ':' && afterKey[1..] == Quote(v) + rest;
  }

  /** The members text splits into the first member and, after a comma, the members of the remaining keys. */
  lemma MembersFirst(m: Object, ks: seq<string>)
    requires ks != []
    requires forall k :: k in ks ==> k in m
    ensures |ks| == 1 ==> Members(m, ks) + "}" == Member(ks[0], m[ks[0]]) + "}"
    ensures |ks| > 1 ==> Members(m, ks) + "}" == Member(ks[0], m[ks[0]]) + ("," + (Members(m, ks[1..]) + "}"))
  {
  }

  /** The members of `ks` are those of its tail with the first key's member added. */
  lemma AmongFirst(m: Object, ks: seq<string>)
    requires ks != []
    requires forall k :: k in ks ==> k in m
    ensures Among(m, ks) == Among(m, ks[1..])[ks[0] := m[ks[0]]]
  {
    assert forall j :: j in ks <==> j == ks[0] || j in ks[1..];
  }

  /** Encoded members, closed by a brace, read back into `acc` as exactly the entries of their keys. */
  lemma {:induction false} ParseMembersEncoded(m: Object, ks: seq<string>, acc: Object)
    requires ks != []
    requires forall k :: k in ks ==> k in m
    ensures ParseMembers(Members(m, ks) + "}", acc) == Some(acc + Among(m, ks))
    decreases |ks|
  {
    var k := ks[0];
    var v := m[k];
    MembersFirst(m, ks);
    AmongFirst(m, ks);
    if |ks| == 1 {
      ParseMembersFirst(k, v, "}", acc);
      assert Among(m, ks[1..]) == map[];
      assert Among(m, ks) == map[k := v];
      assert acc[k := v] == acc + map[k := v];
    } else {
      var tail := Members(m, ks[1..]) + "}";
      ParseMembersFirst(k, v, "," + tail, acc);
      assert ("," + tail)[1..] == tail;
      ParseMembersEncoded(m, ks[1..], acc[k := v]);
      UpdateUnionAgreeing(acc, Among(m, ks[1..]), k, v);
    }
  }

  /** Updating before a union or after it agrees when the right-hand map already maps the key to the same value, or not at all. */
  lemma UpdateUnionAgreeing(a: Object, b: Object, k: string, v: string)
    requires k in b ==> b[k] == v
    ensures a[k := v] + b == a + b[k := v]
  {
  }

  /** Decoding the encoding of a map gives the map back, whatever order its keys were written in. */
  lemma DecodeEncode(m: Object, ks: seq<string>)
    requires forall k :: k in ks <==> k in m
    ensures Decode(Encode(m, ks)) == Some(m)
  {
    var s := Encode(m, ks);
    if ks == [] {
      assert m == map[];
    } else {
      ParseMembersEncoded(m, ks, map[]);
      assert s[1..] == Members(m, ks) + "}";
      assert Members(m, ks)[0] == '"';
      assert s != "{}";
      assert map[] + Among(m, ks) == m;
    }
  }
}
