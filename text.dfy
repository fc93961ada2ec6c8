/** The one piece of string handling the collector does itself. */
module Text {

  /** The text of `s` before the first `sep`, or all of `s` when `sep` does not
      occur: element 0 of Go's `strings.Split(s, sep)`. */
  function Before(s: string, sep: char): (r: string)
    ensures r <= s
    ensures sep !in r
    ensures |r| < |s| ==> s[|r|] == sep
  {
    if s == [] || s[0] == sep then [] else [s[0]] + Before(s[1..], sep)
  }

  /** The three properties of `Before` determine it: any prefix free of `sep`
      that ends at the end of `s` or just before a `sep` is `Before(s, sep)`. */
  lemma BeforeUnique(s: string, sep: char, p: string)
    requires p <= s && sep !in p
    requires |p| < |s| ==> s[|p|] == sep
    ensures Before(s, sep) == p
  {
  }

  /** Text without a separator is kept whole. */
  lemma BeforeWithoutSeparator(s: string, sep: char)
    requires sep !in s
    ensures Before(s, sep) == s
  {
    BeforeUnique(s, sep, s);
  }

  /** Everything from the first separator on is dropped. */
  lemma BeforeFirstSeparator(a: string, sep: char, b: string)
    requires sep !in a
    ensures Before(a + [sep] + b, sep) == a
  {
    var s := a + [sep] + b;
    assert s[|a|] == sep;
    assert a <= s;
    BeforeUnique(s, sep, a);
  }
}
