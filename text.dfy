/** String helpers shared by the registry and the face column labels. */
module Text {

  /**
   * Python's `s.split(sep)[-1]`: the text after the last `sep`, or all of
   * `s` when it has none.
   */
  function SplitLast(s: string, sep: char): string
  {
    if s == [] || s[|s| - 1] == sep then []
    else SplitLast(s[..|s| - 1], sep) + [s[|s| - 1]]
  }

  /**
   * The last piece is the suffix of `s` after its last separator: it holds
   * no separator, and it is either all of `s` or preceded by a separator.
   */
  lemma {:induction false} SplitLastIsSuffix(s: string, sep: char)
    ensures sep !in SplitLast(s, sep)
    ensures |SplitLast(s, sep)| <= |s|
    ensures s[|s| - |SplitLast(s, sep)|..] == SplitLast(s, sep)
    ensures |SplitLast(s, sep)| < |s| ==> s[|s| - |SplitLast(s, sep)| - 1] == sep
    ensures sep !in s ==> SplitLast(s, sep) == s
    decreases |s|
  {
    if s != [] && s[|s| - 1] != sep {
      var init := s[..|s| - 1];
      SplitLastIsSuffix(init, sep);
      assert s == init + [s[|s| - 1]];
    }
  }

  /** Joining `x` and a separator-free `d` with `sep` and splitting again gives back `d`. */
  lemma {:induction false} SplitLastOfJoin(x: string, sep: char, d: string)
    requires sep !in d
    ensures SplitLast(x + [sep] + d, sep) == d
    decreases |d|
  {
    var s := x + [sep] + d;
    if d != [] {
      var init := d[..|d| - 1];
      assert s[..|s| - 1] == x + [sep] + init;
      SplitLastOfJoin(x, sep, init);
      assert d == init + [d[|d| - 1]];
    }
  }
}
