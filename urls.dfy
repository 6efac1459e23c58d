/**
 * The URL finder `re.findall(r'(https?://\S+)', message_text)`: a left-to-right
 * scan that, at each position, tries "https://" before "http://", lets `\S+`
 * take the longest run of non-whitespace characters (at least one), and
 * resumes after the match; where nothing matches it moves on by one character.
 */
module Urls {
  import opened Strings

  /** Python's `str.isspace`, which is what `\s` means in a `str` pattern. */
  predicate IsSpace(c: char) {
    || c == '\t' || c == '\n' || c == '\U{0B}' || c == '\U{0C}' || c == '\r'
    || ('\U{1C}' <= c <= '\U{1F}') || c == ' ' || c == '\U{85}' || c == '\U{A0}'
    || c == '\U{1680}' || ('\U{2000}' <= c <= '\U{200A}') || c == '\U{2028}' || c == '\U{2029}'
    || c == '\U{202F}' || c == '\U{205F}' || c == '\U{3000}'
  }

  predicate NoSpace(s: string) {
    forall i :: 0 <= i < |s| ==> !IsSpace(s[i])
  }

  /** What one match of the pattern can be: a scheme and at least one more character, no whitespace. */
  predicate IsUrlToken(u: string) {
    && ((StartsWith(u, "https://") && |u| > 8) || (StartsWith(u, "http://") && |u| > 7))
    && NoSpace(u)
  }

  /** How far `\S` repeats from the start of `s`. */
  function NonSpaceRun(s: string): (n: nat)
    ensures n <= |s| && NoSpace(s[..n])
    ensures n < |s| ==> IsSpace(s[n])
    decreases |s|
  {
    if s == [] || IsSpace(s[0]) then 0
    else
      var n := 1 + NonSpaceRun(s[1..]);
      assert s[..n] == [s[0]] + s[1..][..n - 1];
      n
  }

  /** The scheme `p` is at the front of `s`, followed by a character `\S` accepts. */
  predicate SchemeNext(s: string, p: string) {
    StartsWith(s, p) && |s| > |p| && !IsSpace(s[|p|])
  }

  /**
   * The length of the match starting at the front of `s`, 0 when there is none:
   * a match is a URL token that ends at whitespace or at the end of the text,
   * and there is one exactly when a scheme is followed by a non-space character.
   */
  function UrlAt(s: string): (r: nat)
    ensures r <= |s|
    ensures r > 0 ==> IsUrlToken(s[..r]) && (r == |s| || IsSpace(s[r]))
    ensures r > 0 <==> SchemeNext(s, "https://") || SchemeNext(s, "http://")
  {
    if SchemeNext(s, "https://") then
      SchemeRunToken(s, "https://");
      8 + NonSpaceRun(s[8..])
    else if SchemeNext(s, "http://") then
      SchemeRunToken(s, "http://");
      7 + NonSpaceRun(s[7..])
    else 0
  }

  lemma SplitPrefix(s: string, k: nat, n: nat)
    requires k <= n <= |s|
    ensures s[..n] == s[..k] + s[k..][..n - k] && s[..n][..k] == s[..k]
  {
  }

  lemma NoSpaceConcat(x: string, y: string)
    requires NoSpace(x) && NoSpace(y)
    ensures NoSpace(x + y)
  {
    forall i | 0 <= i < |x + y|
      ensures !IsSpace((x + y)[i])
    {
      if i < |x| {
        assert (x + y)[i] == x[i];
      } else {
        assert (x + y)[i] == y[i - |x|];
      }
    }
  }

  /** A match of the scheme `p` (of length `k`) followed by a run of non-whitespace characters. */
  lemma SchemeRunToken(s: string, p: string)
    requires p == "https://" || p == "http://"
    requires StartsWith(s, p) && |s| > |p| && !IsSpace(s[|p|])
    ensures var r := |p| + NonSpaceRun(s[|p|..]);
      r <= |s| && IsUrlToken(s[..r]) && (r == |s| || IsSpace(s[r]))
  {
    var k := |p|;
    var run := NonSpaceRun(s[k..]);
    var r := k + run;
    SplitPrefix(s, k, r);
    assert s[..k] == p;
    assert NoSpace(p);
    NoSpaceConcat(s[..k], s[k..][..run]);
    assert StartsWith(s[..r], p);
    if r < |s| {
      assert s[r] == s[k..][run];
    }
  }

  /** Every match of the pattern in `message`, in order. */
  function FindUrls(message: string): seq<string>
    decreases |message|
  {
    if message == [] then []
    else
      var n := UrlAt(message);
      if n > 0 then [message[..n]] + FindUrls(message[n..])
      else FindUrls(message[1..])
  }

  /** Every match has a scheme, at least one character after it, and no whitespace. */
  lemma {:induction false} FoundAreTokens(message: string)
    ensures forall i :: 0 <= i < |FindUrls(message)| ==> IsUrlToken(FindUrls(message)[i])
    decreases |message|
  {
    if message != [] {
      var n := UrlAt(message);
      if n > 0 {
        FoundAreTokens(message[n..]);
      } else {
        FoundAreTokens(message[1..]);
      }
    }
  }

  lemma RunOfToken(s: string)
    requires NoSpace(s)
    ensures NonSpaceRun(s) == |s|
  {
  }

  /** A message that is exactly one URL yields that URL. */
  lemma FindSingle(u: string)
    requires IsUrlToken(u)
    ensures FindUrls(u) == [u]
  {
    if StartsWith(u, "https://") && |u| > 8 {
      RunOfToken(u[8..]);
    } else {
      RunOfToken(u[7..]);
    }
    assert u[..|u|] == u;
    assert u[|u|..] == [];
  }

  lemma {:induction false} RunBeforeSpace(x: string, t: string)
    requires t != [] && IsSpace(t[0])
    ensures NonSpaceRun(x + t) == NonSpaceRun(x)
    decreases |x|
  {
    if x == [] {
      assert x + t == t;
    } else {
      assert (x + t)[0] == x[0];
      assert (x + t)[1..] == x[1..] + t;
      if !IsSpace(x[0]) {
        RunBeforeSpace(x[1..], t);
      }
    }
  }

  /** A scheme followed by a non-space character cannot straddle a whitespace character. */
  lemma SchemeBeforeSpace(a: string, t: string, p: string)
    requires t != [] && IsSpace(t[0]) && NoSpace(p)
    ensures (StartsWith(a + t, p) && |a + t| > |p| && !IsSpace((a + t)[|p|]))
        <==> (StartsWith(a, p) && |a| > |p| && !IsSpace(a[|p|]))
    ensures StartsWith(a, p) && |a| > |p| ==> (a + t)[|p|..] == a[|p|..] + t
  {
    var s := a + t;
    assert s[|a|] == t[0];
    if StartsWith(s, p) && |s| > |p| && !IsSpace(s[|p|]) {
      assert s[..|p|] == a[..|p|];
    }
    if StartsWith(a, p) && |a| > |p| {
      assert s[..|p|] == a[..|p|];
      assert s[|p|] == a[|p|];
    }
  }

  lemma UrlAtBeforeSpace(a: string, t: string)
    requires t != [] && IsSpace(t[0])
    ensures UrlAt(a + t) == UrlAt(a)
  {
    SchemeBeforeSpace(a, t, "https://");
    SchemeBeforeSpace(a, t, "http://");
    if StartsWith(a, "https://") && |a| > 8 {
      RunBeforeSpace(a[8..], t);
    }
    if StartsWith(a, "http://") && |a| > 7 {
      RunBeforeSpace(a[7..], t);
    }
  }

  lemma FindAtMatch(s: string)
    requires s != [] && UrlAt(s) > 0
    ensures FindUrls(s) == [s[..UrlAt(s)]] + FindUrls(s[UrlAt(s)..])
  {
  }

  lemma FindAtMiss(s: string)
    requires s != [] && UrlAt(s) == 0
    ensures FindUrls(s) == FindUrls(s[1..])
  {
  }

  /** Scanning past a match in front of whitespace. */
  lemma MatchStep(a: string, t: string)
    requires t != [] && IsSpace(t[0]) && a != [] && UrlAt(a) > 0
    ensures FindUrls(a + t) == [a[..UrlAt(a)]] + FindUrls(a[UrlAt(a)..] + t)
  {
    var s := a + t;
    UrlAtBeforeSpace(a, t);
    var n := UrlAt(a);
    FindAtMatch(s);
    assert s[..n] == a[..n];
    assert s[n..] == a[n..] + t;
  }

  /** Scanning past a position where nothing matches, in front of whitespace. */
  lemma MissStep(a: string, t: string)
    requires t != [] && IsSpace(t[0]) && a != [] && UrlAt(a) == 0
    ensures FindUrls(a + t) == FindUrls(a[1..] + t)
  {
    var s := a + t;
    UrlAtBeforeSpace(a, t);
    assert s[1..] == a[1..] + t;
    FindAtMiss(s);
  }

  lemma MatchBeforeSpace(a: string, t: string)
    requires t != [] && IsSpace(t[0]) && a != [] && UrlAt(a) > 0
    requires FindUrls(a[UrlAt(a)..] + t) == FindUrls(a[UrlAt(a)..]) + FindUrls(t[1..])
    ensures FindUrls(a + t) == FindUrls(a) + FindUrls(t[1..])
  {
    MatchStep(a, t);
    FindAtMatch(a);
  }

  lemma MissBeforeSpace(a: string, t: string)
    requires t != [] && IsSpace(t[0]) && a != [] && UrlAt(a) == 0
    requires FindUrls(a[1..] + t) == FindUrls(a[1..]) + FindUrls(t[1..])
    ensures FindUrls(a + t) == FindUrls(a) + FindUrls(t[1..])
  {
    MissStep(a, t);
    FindAtMiss(a);
  }

  lemma NotPrefix(t: string, p: string)
    requires |p| > 0 && |t| > 0 && t[0] != p[0]
    ensures !StartsWith(t, p)
  {
    if |p| <= |t| {
      assert t[..|p|][0] == t[0];
    }
  }

  /** Nothing matches at a whitespace character. */
  lemma NoUrlAtSpace(t: string)
    requires t != [] && IsSpace(t[0])
    ensures UrlAt(t) == 0
  {
    assert !IsSpace('h');
    NotPrefix(t, "https://");
    NotPrefix(t, "http://");
  }

  lemma SpaceFirst(t: string)
    requires t != [] && IsSpace(t[0])
    ensures FindUrls(t) == FindUrls([]) + FindUrls(t[1..])
  {
    NoUrlAtSpace(t);
    FindAtMiss(t);
    assert [] + FindUrls(t[1..]) == FindUrls(t[1..]);
  }

  lemma {:induction false} FindBeforeSpace(a: string, t: string)
    requires t != [] && IsSpace(t[0])
    ensures FindUrls(a + t) == FindUrls(a) + FindUrls(t[1..])
    decreases |a|
  {
    if a == [] {
      SpaceFirst(t);
      assert a + t == t;
    } else if UrlAt(a) > 0 {
      FindBeforeSpace(a[UrlAt(a)..], t);
      MatchBeforeSpace(a, t);
    } else {
      FindBeforeSpace(a[1..], t);
      MissBeforeSpace(a, t);
    }
  }

  /** Text on either side of a whitespace character is scanned independently. */
  lemma FindSeparated(a: string, c: char, b: string)
    requires IsSpace(c)
    ensures FindUrls(a + [c] + b) == FindUrls(a) + FindUrls(b)
  {
    assert a + [c] + b == a + ([c] + b);
    assert ([c] + b)[1..] == b;
    FindBeforeSpace(a, [c] + b);
  }

  /** No position of `s` starts with "http". */
  predicate NoScheme(s: string) {
    forall i :: 0 <= i < |s| ==> !StartsWith(s[i..], "http")
  }

  lemma SchemeStartsHttp(s: string)
    ensures StartsWith(s, "https://") ==> StartsWith(s, "http")
    ensures StartsWith(s, "http://") ==> StartsWith(s, "http")
  {
    if StartsWith(s, "https://") {
      assert s[..4] == s[..8][..4];
    }
    if StartsWith(s, "http://") {
      assert s[..4] == s[..7][..4];
    }
  }

  /** Text in which "http" never occurs holds no URL. */
  lemma {:induction false} PlainText(s: string)
    requires NoScheme(s)
    ensures FindUrls(s) == []
    decreases |s|
  {
    if s != [] {
      assert s[0..] == s;
      SchemeStartsHttp(s);
      FindAtMiss(s);
      forall i | 0 <= i < |s[1..]|
        ensures !StartsWith(s[1..][i..], "http")
      {
        assert s[1..][i..] == s[i + 1..];
      }
      PlainText(s[1..]);
    }
  }

  /** Words without a URL, whitespace, then one URL: that URL is the only one found. */
  lemma WordsThenUrl(words: string, c: char, u: string)
    requires NoScheme(words) && IsSpace(c) && IsUrlToken(u)
    ensures FindUrls(words + [c] + u) == [u]
  {
    FindSeparated(words, c, u);
    PlainText(words);
    FindSingle(u);
  }
}
