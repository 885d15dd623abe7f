/** Splitting a request URL on a separator, as the interceptor does to find
    the last path segment (src/api/Interceptors.ts:13-14). */
module Urls {

  /** `s.split(sep)`: the pieces between separators, in order; never empty
      (the empty string splits into one empty piece). Built from the right, so
      that the last piece is the one the interceptor reads. */
  function Split(s: string, sep: char): (parts: seq<string>)
    ensures |parts| >= 1
    ensures forall i :: 0 <= i < |parts| ==> sep !in parts[i]
    decreases |s|
  {
    if |s| == 0 then [""]
    else
      var init := Split(s[..|s| - 1], sep);
      var c := s[|s| - 1];
      if c == sep then init + [""]
      else init[..|init| - 1] + [init[|init| - 1] + [c]]
  }

  /** Joining the pieces back restores the URL: `Split` loses nothing. */
  lemma {:induction false} JoinSplit(s: string, sep: char)
    ensures Join(Split(s, sep), sep) == s
    decreases |s|
  {
    if |s| > 0 {
      var u := s[..|s| - 1];
      var c := s[|s| - 1];
      assert s == u + [c];
      var init := Split(u, sep);
      JoinSplit(u, sep);
      var parts := Split(s, sep);
      if c == sep {
        assert parts == init + [""];
        assert parts[..|parts| - 1] == init;
      } else {
        var k := |init| - 1;
        assert parts == init[..k] + [init[k] + [c]];
        if k > 0 {
          assert parts[..k] == init[..k];
          assert Join(init, sep) == Join(init[..k], sep) + [sep] + init[k];
        }
      }
    }
  }

  /** `parts.join(sep)`: the inverse of `Split`. */
  function Join(parts: seq<string>, sep: char): string
    requires |parts| >= 1
    decreases |parts|
  {
    if |parts| == 1 then parts[0]
    else Join(parts[..|parts| - 1], sep) + [sep] + parts[|parts| - 1]
  }

  /** The last piece of a split is the longest separator-free suffix: it ends
      the string, and unless it is the whole string a separator precedes it. */
  lemma {:induction false} SplitLast(s: string, sep: char)
    ensures var last := Split(s, sep)[|Split(s, sep)| - 1];
      EndsWith(s, last) && (|last| < |s| ==> s[|s| - |last| - 1] == sep)
    decreases |s|
  {
    if |s| > 0 {
      var u := s[..|s| - 1];
      var c := s[|s| - 1];
      assert s == u + [c];
      SplitLast(u, sep);
      var init := Split(u, sep);
      var prev := init[|init| - 1];
      var last := Split(s, sep)[|Split(s, sep)| - 1];
      if c != sep {
        assert last == prev + [c];
        assert s[|s| - |last|..] == u[|u| - |prev|..] + [c];
      }
    }
  }

  /** The piece after the last '/' of a URL (the whole URL when it has none). */
  function LastSegment(url: string): (last: string)
    ensures '/' !in last
    ensures EndsWith(url, last)
  {
    SplitLast(url, '/');
    var parts := Split(url, '/');
    parts[|parts| - 1]
  }

  predicate EndsWith(s: string, suffix: string)
  {
    |suffix| <= |s| && s[|s| - |suffix|..] == suffix
  }

  lemma LastOfSuffix(s: string, w: string)
    ensures EndsWith(s, w) && |w| > 0 ==> s[|s| - 1] == w[|w| - 1]
  {
    if EndsWith(s, w) && |w| > 0 {
      assert s[|s| - |w|..][|w| - 1] == s[|s| - 1];
    }
  }

  /** Peeling the last character off a string and a suffix. */
  lemma EndsWithSnoc(u: string, c: char, w: string, d: char)
    ensures EndsWith(u + [c], w + [d]) <==> c == d && EndsWith(u, w)
  {
    var s, v := u + [c], w + [d];
    if EndsWith(s, v) {
      assert s[|s| - |v|..] == s[|s| - |v|..|s| - 1] + [c];
      assert v[..|w|] == w;
      assert u[|u| - |w|..] == s[|s| - |v|..|s| - 1];
    }
    if c == d && EndsWith(u, w) {
      assert s[|s| - |v|..] == u[|u| - |w|..] + [c];
    }
  }

  /** The last segment of `url` is a slash-free `t` exactly when `url` is `t`
      itself or ends in "/" followed by `t`. */
  lemma {:induction false} LastSegmentIs(url: string, t: string)
    requires '/' !in t
    ensures LastSegment(url) == t <==> url == t || EndsWith(url, "/" + t)
    decreases |url|
  {
    if |url| == 0 {
      assert LastSegment(url) == "";
    } else {
      var u := url[..|url| - 1];
      var c := url[|url| - 1];
      assert url == u + [c];
      var init := Split(u, '/');
      if c == '/' {
        assert LastSegment(url) == "";
        if t == "" {
          assert EndsWith(url, "/" + t);
        } else {
          // `t` ends in a character other than '/', `url` in '/'.
          assert t[|t| - 1] != '/';
          assert ("/" + t)[|t|] == t[|t| - 1];
          LastOfSuffix(url, "/" + t);
        }
      } else {
        assert LastSegment(url) == LastSegment(u) + [c];
        if t == "" {
          assert "/" + t == "/";
          LastOfSuffix(url, "/");
        } else {
          var t' := t[..|t| - 1];
          assert t == t' + [t[|t| - 1]];
          assert '/' !in t' by {
            forall i | 0 <= i < |t'| ensures t'[i] != '/' { assert t'[i] == t[i]; }
          }
          LastSegmentIs(u, t');
          // Peel the last character off both sides of each equation.
          assert LastSegment(url) == t <==> c == t[|t| - 1] && LastSegment(u) == t';
          assert url == t <==> c == t[|t| - 1] && u == t';
          assert "/" + t == ("/" + t') + [t[|t| - 1]];
          EndsWithSnoc(u, c, "/" + t', t[|t| - 1]);
        }
      }
    }
  }
}
