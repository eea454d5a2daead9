/** Splitting text at a separator character, as Go's `strings.Cut` does. */
module Strings {

  /** The text before the first `sep` and the text after it; without `sep`, all of `s` and nothing. */
  function Cut(s: string, sep: char): (r: (string, string))
    ensures s != [] ==> |r.1| < |s|
  {
    if s == [] then ([], [])
    else if s[0] == sep then ([], s[1..])
    else var r := Cut(s[1..], sep); ([s[0]] + r.0, r.1)
  }

  /** Cutting at the first separator finds exactly the text around it. */
  lemma {:induction false} CutAt(a: string, sep: char, b: string)
    requires sep !in a
    ensures Cut(a + [sep] + b, sep) == (a, b)
    ensures Cut(a, sep) == (a, [])
  {
    if a != [] {
      CutAt(a[1..], sep, b);
      var s := a + [sep] + b;
      assert s[0] == a[0] && s[1..] == a[1..] + [sep] + b;
      assert [a[0]] + a[1..] == a;
    } else {
      assert a + [sep] + b == [sep] + b;
    }
  }
}
