/**
 * Query strings: `url.Values.Encode` (percent-encoding as `url.QueryEscape` does it) and
 * `URL.Query()` (which reads a raw query back, dropping pairs it cannot decode).
 */
module UrlQuery {
  import opened Wrappers
  import Hex
  import KeyOrder
  import opened Strings

  /** `url.Values`: each key maps to its values, in order. */
  type Values = map<string, seq<string>>

  /** The characters `url.QueryEscape` leaves as they are. */
  predicate Unreserved(c: char) {
    'A' <= c <= 'Z' || 'a' <= c <= 'z' || '0' <= c <= '9' || c == '-' || c == '_' || c == '.' || c == '~'
  }

  /** The characters that delimit pairs, keys and values in a raw query (`;` is refused as a separator). */
  predicate Structural(c: char) {
    c == '&' || c == '=' || c == ';'
  }

  /** One character escaped: unreserved ones kept, space as `+`, other ASCII as `%XX` in upper-case hex. */
  function EscapeChar(c: char): (s: string)
    ensures |s| > 0
    ensures forall d :: d in s ==> !Structural(d)
  {
    if Unreserved(c) || c as int >= 128 then [c]
    else if c == ' ' then "+"
    else "%" + Hex.Fixed(c as int, 2, true)
  }

  /** `url.QueryEscape`. */
  function Escape(s: string): (e: string)
    ensures forall d :: d in e ==> !Structural(d)
  {
    if s == [] then [] else EscapeChar(s[0]) + Escape(s[1..])
  }

  /** `c` in front of a decoded string; a failure stays a failure. */
  function Prepend(c: char, r: Option<string>): Option<string> {
    match r
    case None => None
    case Some(t) => Some([c] + t)
  }

  /** `url.QueryUnescape`: `+` is a space, `%XX` the character with that code; a malformed `%` fails. */
  function Unescape(s: string): Option<string> {
    if s == [] then Some([])
    else if s[0] == '%' then
      if |s| >= 3 && Hex.IsDigit(s[1]) && Hex.IsDigit(s[2]) then
        Prepend(Hex.ValueOf(s[1..3]) as char, Unescape(s[3..]))
      else None
    else Prepend(if s[0] == '+' then ' ' else s[0], Unescape(s[1..]))
  }

  /** One escaped character, followed by more text, unescapes back to that character. */
  lemma UnescapeEscapeChar(c: char, rest: string)
    ensures Unescape(EscapeChar(c) + rest) == Prepend(c, Unescape(rest))
  {
    var s := EscapeChar(c) + rest;
    if Unreserved(c) || c as int >= 128 || c == ' ' {
      assert s[1..] == rest;
    } else {
      assert s[1..3] == Hex.Fixed(c as int, 2, true);
      assert s[3..] == rest;
      Hex.ValueOfFixed(c as int, 2, true);
    }
  }

  /** Unescaping undoes escaping, for every string. */
  lemma {:induction false} UnescapeEscape(s: string)
    ensures Unescape(Escape(s)) == Some(s)
  {
    if s != [] {
      UnescapeEscape(s[1..]);
      UnescapeEscapeChar(s[0], Escape(s[1..]));
      assert [s[0]] + s[1..] == s;
    }
  }

  /** One `key=value` pair as the encoder writes it. */
  function Pair(k: string, v: string): string {
    Escape(k) + "=" + Escape(v)
  }

  /** A key with each of its values, in order. */
  function KeyPairs(k: string, vs: seq<string>): seq<(string, string)> {
    if vs == [] then [] else [(k, vs[0])] + KeyPairs(k, vs[1..])
  }

  /** The (key, value) pairs of `m`, key by key in the order `ks`. */
  function Pairs(m: Values, ks: seq<string>): seq<(string, string)>
    requires forall k :: k in ks ==> k in m
  {
    if ks == [] then [] else KeyPairs(ks[0], m[ks[0]]) + Pairs(m, ks[1..])
  }

  /** The pairs written one after another, separated by `&`. */
  function JoinPairs(ps: seq<(string, string)>): string {
    if ps == [] then ""
    else if |ps| == 1 then Pair(ps[0].0, ps[0].1)
    else Pair(ps[0].0, ps[0].1) + "&" + JoinPairs(ps[1..])
  }

  /** `url.Values.Encode`, with the keys taken in the order `ks`; keys without values write nothing. */
  function Encode(m: Values, ks: seq<string>): string
    requires forall k :: k in ks ==> k in m
  {
    JoinPairs(Pairs(m, ks))
  }

  /** Appends `v` to the values of `k`. */
  function AddValue(m: Values, k: string, v: string): Values {
    m[k := (if k in m then m[k] else []) + [v]]
  }

  /** One `&`-separated segment read into `m`: empty segments and segments with `;` are skipped, and so are undecodable ones. */
  function AddSegment(m: Values, segment: string): Values {
    if segment == [] || ';' in segment then m
    else
      var (k, v) := Cut(segment, '=');
      match (Unescape(k), Unescape(v))
      case (Some(key), Some(value)) => AddValue(m, key, value)
      case _ => m
  }

  /** The `&`-separated segments of `raw`, read into `m` from left to right. */
  function DecodeInto(raw: string, m: Values): Values
    decreases |raw|
  {
    if raw == [] then m
    else
      var (segment, rest) := Cut(raw, '&');
      DecodeInto(rest, AddSegment(m, segment))
  }

  /** `URL.Query()`: the values a raw query string holds. */
  function Decode(raw: string): Values {
    DecodeInto(raw, map[])
  }

  /** The keys of `m` that have at least one value: the part of `m` a query string can carry. */
  function Present(m: Values): Values {
    map k | k in m && |m[k]| > 0 :: m[k]
  }

  /** Pairs added one by one. */
  function AddAll(m: Values, ps: seq<(string, string)>): Values
    decreases |ps|
  {
    if ps == [] then m else AddAll(AddValue(m, ps[0].0, ps[0].1), ps[1..])
  }

  /** The segment an encoded pair makes adds exactly that pair. */
  lemma AddSegmentPair(m: Values, k: string, v: string)
    ensures AddSegment(m, Pair(k, v)) == AddValue(m, k, v)
  {
    var ek, ev := Escape(k), Escape(v);
    assert Pair(k, v) == ek + ['='] + ev;
    CutAt(ek, '=', ev);
    UnescapeEscape(k);
    UnescapeEscape(v);
    assert ';' !in Pair(k, v);
  }

  /** Decoding joined pairs adds the pairs one by one. */
  lemma {:induction false} DecodeJoinPairs(ps: seq<(string, string)>, m: Values)
    ensures DecodeInto(JoinPairs(ps), m) == AddAll(m, ps)
  {
    if ps != [] {
      var first := Pair(ps[0].0, ps[0].1);
      AddSegmentPair(m, ps[0].0, ps[0].1);
      if |ps| == 1 {
        CutAt(first, '&', []);
        assert AddAll(m, ps) == AddAll(AddValue(m, ps[0].0, ps[0].1), []);
      } else {
        CutAt(first, '&', JoinPairs(ps[1..]));
        DecodeJoinPairs(ps[1..], AddValue(m, ps[0].0, ps[0].1));
      }
    }
  }

  /** Adding two runs of pairs is adding the first, then the second. */
  lemma {:induction false} AddAllAppend(m: Values, ps: seq<(string, string)>, qs: seq<(string, string)>)
    ensures AddAll(m, ps + qs) == AddAll(AddAll(m, ps), qs)
    decreases |ps|
  {
    if ps == [] {
      assert ps + qs == qs;
    } else {
      assert (ps + qs)[1..] == ps[1..] + qs;
      AddAllAppend(AddValue(m, ps[0].0, ps[0].1), ps[1..], qs);
    }
  }

  /** Adding one key's pairs appends its values to that key and changes nothing else. */
  lemma {:induction false} AddAllKeyPairs(m: Values, k: string, vs: seq<string>)
    ensures AddAll(m, KeyPairs(k, vs)) == if vs == [] then m else m[k := (if k in m then m[k] else []) + vs]
    decreases |vs|
  {
    if vs != [] {
      var m' := AddValue(m, k, vs[0]);
      assert AddAll(m, KeyPairs(k, vs)) == AddAll(m', KeyPairs(k, vs[1..]));
      AddAllKeyPairs(m', k, vs[1..]);
      var before := if k in m then m[k] else [];
      assert (before + [vs[0]]) + vs[1..] == before + vs;
      if vs[1..] == [] {
        assert vs == [vs[0]];
      }
    }
  }

  /** The keys among `ks` that have values. */
  function PresentAmong(m: Values, ks: seq<string>): Values {
    map k | k in ks && k in m && |m[k]| > 0 :: m[k]
  }

  /** The present keys among `ks` are those of its tail, with the first key added when it has values. */
  lemma PresentAmongFirst(m: Values, ks: seq<string>)
    requires ks != [] && ks[0] !in ks[1..]
    requires forall k :: k in ks ==> k in m
    ensures PresentAmong(m, ks) ==
      if |m[ks[0]]| > 0 then PresentAmong(m, ks[1..])[ks[0] := m[ks[0]]] else PresentAmong(m, ks[1..])
  {
    assert forall j :: j in ks <==> j == ks[0] || j in ks[1..];
  }

  /** Adding the pairs of distinct fresh keys adds exactly those keys that have values. */
  lemma {:induction false} AddAllPairs(m: Values, ks: seq<string>, acc: Values)
    requires KeyOrder.Distinct(ks)
    requires forall k :: k in ks ==> k in m && k !in acc
    ensures AddAll(acc, Pairs(m, ks)) == acc + PresentAmong(m, ks)
  {
    if ks == [] {
      assert PresentAmong(m, ks) == map[];
    } else {
      var k, rest := ks[0], ks[1..];
      assert k !in rest by {
        forall i | 0 <= i < |rest| ensures rest[i] != k {
          assert rest[i] == ks[i + 1];
        }
      }
      assert KeyOrder.Distinct(rest) by {
        forall i, j | 0 <= i < j < |rest| ensures rest[i] != rest[j] {
          assert rest[i] == ks[i + 1] && rest[j] == ks[j + 1];
        }
      }
      assert Pairs(m, ks) == KeyPairs(k, m[k]) + Pairs(m, rest);
      AddAllAppend(acc, KeyPairs(k, m[k]), Pairs(m, rest));
      AddAllKeyPairs(acc, k, m[k]);
      var acc' := AddAll(acc, KeyPairs(k, m[k]));
      assert acc'.Keys <= acc.Keys + {k};
      AddAllPairs(m, rest, acc');
      PresentAmongFirst(m, ks);
      var tail := PresentAmong(m, rest);
      assert k !in tail;
      assert AddAll(acc, Pairs(m, ks)) == AddAll(acc', Pairs(m, rest));
      assert [] + m[k] == m[k];
      assert acc' == if |m[k]| > 0 then acc[k := m[k]] else acc;
      if |m[k]| > 0 {
        UpdateUnionFresh(acc, tail, k, m[k]);
      }
    }
  }

  /** Updating before a union or after it agrees when the right-hand map does not have the key. */
  lemma UpdateUnionFresh(a: Values, b: Values, k: string, v: seq<string>)
    requires k !in b
    ensures a[k := v] + b == a + b[k := v]
  {
  }

  /**
   * Decoding an encoded query gives back every key that has values, with its values in order,
   * whatever order the keys were written in.
   */
  lemma DecodeEncode(m: Values, ks: seq<string>)
    requires KeyOrder.Distinct(ks)
    requires forall k :: k in ks <==> k in m
    ensures Decode(Encode(m, ks)) == Present(m)
  {
    DecodeJoinPairs(Pairs(m, ks), map[]);
    AddAllPairs(m, ks, map[]);
    assert map[] + PresentAmong(m, ks) == Present(m);
  }
}
