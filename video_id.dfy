/**
 * `extract_youtube_video_id` and `YOUTUBE_REGEX`. `re.match` anchors the
 * pattern at the start of the URL (not at its end) and explores alternatives
 * in a fixed priority order, greedy quantifiers trying their longest match
 * first; the functions below follow that order, one per part of the pattern:
 *
 *   (https?://)? (www\.)? (youtube|youtu|youtube-nocookie) \.(com|be)/
 *   (watch\?v=|embed/|v/|.+\?v=)? ([^&=%\?]{11})
 *
 * The result of a match is capture group 6, the video id.
 */
module VideoId {
  import opened Wrappers
  import opened Strings

  /** A character of the id group `[^&=%\?]`. */
  predicate IdChar(c: char) {
    c != '&' && c != '=' && c != '%' && c != '?'
  }

  predicate IsVideoId(id: string) {
    |id| == 11 && forall i :: 0 <= i < |id| ==> IdChar(id[i])
  }

  /** The first alternative that matches. */
  function Or(first: Option<string>, second: Option<string>): Option<string> {
    if first.Some? then first else second
  }

  /** `([^&=%\?]{11})` at the start of `s`. */
  function IdAt(s: string): (r: Option<string>)
    ensures r.Some? ==> IsVideoId(r.value) && StartsWith(s, r.value)
  {
    if |s| >= 11 && IsVideoId(s[..11]) then Some(s[..11]) else None
  }

  /** How far `.` (any character but a newline) can repeat from the start of `s`. */
  function LineRun(s: string): (n: nat)
    ensures n <= |s|
    ensures forall i :: 0 <= i < n ==> s[i] != '\n'
    ensures n < |s| ==> s[n] == '\n'
    decreases |s|
  {
    if s == [] || s[0] == '\n' then 0 else 1 + LineRun(s[1..])
  }

  /** `.+\?v=` followed by the id, the greedy `.+` backing off from `k` characters down to one. */
  function AnyThenQuery(s: string, k: nat): Option<string>
    requires k <= |s|
    decreases k
  {
    if k == 0 then None
    else Or(if StartsWith(s[k..], "?v=") then IdAt(s[k + 3..]) else None, AnyThenQuery(s, k - 1))
  }

  /** `(watch\?v=|embed/|v/|.+\?v=)?([^&=%\?]{11})`: the group's alternatives, then no group. */
  function MatchPath(s: string): Option<string> {
    Or(if StartsWith(s, "watch?v=") then IdAt(s[8..]) else None,
    Or(if StartsWith(s, "embed/") then IdAt(s[6..]) else None,
    Or(if StartsWith(s, "v/") then IdAt(s[2..]) else None,
    Or(AnyThenQuery(s, LineRun(s)),
       IdAt(s)))))
  }

  /** `\.(com|be)/` and what follows. */
  function MatchDomain(s: string): Option<string> {
    Or(if StartsWith(s, ".com/") then MatchPath(s[5..]) else None,
       if StartsWith(s, ".be/") then MatchPath(s[4..]) else None)
  }

  /** `(youtube|youtu|youtube-nocookie)` and what follows. */
  function MatchHost(s: string): Option<string> {
    Or(if StartsWith(s, "youtube") then MatchDomain(s[7..]) else None,
    Or(if StartsWith(s, "youtu") then MatchDomain(s[5..]) else None,
       if StartsWith(s, "youtube-nocookie") then MatchDomain(s[16..]) else None))
  }

  /** `(www\.)?` and what follows. */
  function MatchWww(s: string): Option<string> {
    Or(if StartsWith(s, "www.") then MatchHost(s[4..]) else None, MatchHost(s))
  }

  /** `re.match(YOUTUBE_REGEX, url)`: `None` when there is no match, else group 6. */
  function MatchYouTube(url: string): Option<string> {
    Or(if StartsWith(url, "https://") then MatchWww(url[8..]) else None,
    Or(if StartsWith(url, "http://") then MatchWww(url[7..]) else None,
       MatchWww(url)))
  }

  datatype InvalidUrl = InvalidUrl

  /** `extract_youtube_video_id`: group 6 of the match, or `ValueError` when nothing matches. */
  function ExtractVideoId(url: string): (r: Result<string, InvalidUrl>)
    ensures r.Ok? ==> IsVideoId(r.value)
    ensures r.Err? <==> MatchYouTube(url).None?
    ensures r.Ok? ==> r.value == MatchYouTube(url).value
  {
    match MatchYouTube(url)
    case None => Err(InvalidUrl)
    case Some(id) => IdOfMatch(url); Ok(id)
  }

  lemma IdOfMatch(url: string)
    requires MatchYouTube(url).Some?
    ensures IsVideoId(MatchYouTube(url).value)
  {
    var sh := MatchSound(url);
  }

  /** The watch URL every later step uses instead of the URL the user sent. */
  function CanonicalUrl(id: string): string {
    "https://www.youtube.com/watch?v=" + id
  }

  // ---------------------------------------------------------------------
  // A reference reading of the pattern: the URL starts with one choice of
  // each part followed by an id.

  datatype Shape = Shape(scheme: string, www: string, host: string, tld: string, path: string)

  /** `.+\?v=`: at least one character, none a newline, then "?v=". */
  predicate QueryPath(p: string) {
    |p| >= 4 && p[|p| - 3..] == "?v=" && forall i :: 0 <= i < |p| - 3 ==> p[i] != '\n'
  }

  predicate ValidShape(sh: Shape) {
    && (sh.scheme == "" || sh.scheme == "http://" || sh.scheme == "https://")
    && (sh.www == "" || sh.www == "www.")
    && (sh.host == "youtube" || sh.host == "youtu" || sh.host == "youtube-nocookie")
    && (sh.tld == "com" || sh.tld == "be")
    && (sh.path == "" || sh.path == "watch?v=" || sh.path == "embed/" || sh.path == "v/"
        || QueryPath(sh.path))
  }

  function TldPart(tld: string): string {
    "." + tld + "/"
  }

  function Pattern(sh: Shape, id: string): string {
    sh.scheme + (sh.www + (sh.host + (TldPart(sh.tld) + (sh.path + id))))
  }

  /** `url` starts with the parts of `sh` followed by the id `id`. */
  predicate MatchesAs(url: string, sh: Shape, id: string) {
    ValidShape(sh) && IsVideoId(id) && StartsWith(url, Pattern(sh, id))
  }

  lemma StartsWithConcat(s: string, a: string, b: string)
    ensures StartsWith(s, a + b) <==> StartsWith(s, a) && StartsWith(s[|a|..], b)
  {
    if |a| + |b| <= |s| {
      assert s[..|a| + |b|][..|a|] == s[..|a|];
      assert s[..|a| + |b|][|a|..] == s[|a|..][..|b|];
      if StartsWith(s, a) && StartsWith(s[|a|..], b) {
        assert s[..|a| + |b|] == s[..|a|] + s[|a|..][..|b|];
      }
    }
  }

  lemma IdAtOf(s: string, id: string)
    requires IsVideoId(id) && StartsWith(s, id)
    ensures IdAt(s) == Some(id)
  {
  }

  // ---------------------------------------------------------------------
  // Soundness: whatever the matcher returns, the URL has that shape.

  lemma {:induction false} AnySound(s: string, k: nat) returns (path: string)
    requires k <= LineRun(s) && AnyThenQuery(s, k).Some?
    ensures QueryPath(path) && StartsWith(s, path + AnyThenQuery(s, k).value)
    decreases k
  {
    if StartsWith(s[k..], "?v=") && IdAt(s[k + 3..]).Some? {
      var id := IdAt(s[k + 3..]).value;
      path := s[..k + 3];
      assert path[k..] == s[k..][..3];
      assert s[|path|..] == s[k + 3..];
      StartsWithConcat(s, path, id);
    } else {
      path := AnySound(s, k - 1);
    }
  }

  lemma PathSound(s: string) returns (path: string)
    requires MatchPath(s).Some?
    ensures var id := MatchPath(s).value;
      && (path == "" || path == "watch?v=" || path == "embed/" || path == "v/" || QueryPath(path))
      && IsVideoId(id) && StartsWith(s, path + id)
  {
    var id := MatchPath(s).value;
    if StartsWith(s, "watch?v=") && IdAt(s[8..]).Some? {
      path := "watch?v=";
      StartsWithConcat(s, path, id);
    } else if StartsWith(s, "embed/") && IdAt(s[6..]).Some? {
      path := "embed/";
      StartsWithConcat(s, path, id);
    } else if StartsWith(s, "v/") && IdAt(s[2..]).Some? {
      path := "v/";
      StartsWithConcat(s, path, id);
    } else if AnyThenQuery(s, LineRun(s)).Some? {
      path := AnySound(s, LineRun(s));
      IdAtAfterQuery(s, LineRun(s));
    } else {
      path := "";
      assert path + id == id;
    }
  }

  lemma {:induction false} IdAtAfterQuery(s: string, k: nat)
    requires k <= |s| && AnyThenQuery(s, k).Some?
    ensures IsVideoId(AnyThenQuery(s, k).value)
    decreases k
  {
    if !(StartsWith(s[k..], "?v=") && IdAt(s[k + 3..]).Some?) {
      IdAtAfterQuery(s, k - 1);
    }
  }

  lemma DomainSound(s: string) returns (tld: string, path: string)
    requires MatchDomain(s).Some?
    ensures var id := MatchDomain(s).value;
      && (tld == "com" || tld == "be")
      && (path == "" || path == "watch?v=" || path == "embed/" || path == "v/" || QueryPath(path))
      && IsVideoId(id) && StartsWith(s, TldPart(tld) + (path + id))
  {
    var id := MatchDomain(s).value;
    if StartsWith(s, ".com/") && MatchPath(s[5..]).Some? {
      tld := "com";
      path := PathSound(s[5..]);
      assert TldPart(tld) == ".com/";
      StartsWithConcat(s, ".com/", path + id);
    } else {
      tld := "be";
      path := PathSound(s[4..]);
      assert TldPart(tld) == ".be/";
      StartsWithConcat(s, ".be/", path + id);
    }
  }

  lemma HostSound(s: string) returns (host: string, tld: string, path: string)
    requires MatchHost(s).Some?
    ensures var id := MatchHost(s).value;
      && (host == "youtube" || host == "youtu" || host == "youtube-nocookie")
      && (tld == "com" || tld == "be")
      && (path == "" || path == "watch?v=" || path == "embed/" || path == "v/" || QueryPath(path))
      && IsVideoId(id) && StartsWith(s, host + (TldPart(tld) + (path + id)))
  {
    var id := MatchHost(s).value;
    if StartsWith(s, "youtube") && MatchDomain(s[7..]).Some? {
      host := "youtube";
      tld, path := DomainSound(s[7..]);
    } else if StartsWith(s, "youtu") && MatchDomain(s[5..]).Some? {
      host := "youtu";
      tld, path := DomainSound(s[5..]);
    } else {
      host := "youtube-nocookie";
      tld, path := DomainSound(s[16..]);
    }
    StartsWithConcat(s, host, TldPart(tld) + (path + id));
  }

  lemma WwwSound(s: string) returns (www: string, host: string, tld: string, path: string)
    requires MatchWww(s).Some?
    ensures var id := MatchWww(s).value;
      && (www == "" || www == "www.")
      && (host == "youtube" || host == "youtu" || host == "youtube-nocookie")
      && (tld == "com" || tld == "be")
      && (path == "" || path == "watch?v=" || path == "embed/" || path == "v/" || QueryPath(path))
      && IsVideoId(id) && StartsWith(s, www + (host + (TldPart(tld) + (path + id))))
  {
    var id := MatchWww(s).value;
    if StartsWith(s, "www.") && MatchHost(s[4..]).Some? {
      www := "www.";
      host, tld, path := HostSound(s[4..]);
      StartsWithConcat(s, www, host + (TldPart(tld) + (path + id)));
    } else {
      www := "";
      host, tld, path := HostSound(s);
      assert www + (host + (TldPart(tld) + (path + id))) == host + (TldPart(tld) + (path + id));
    }
  }

  /** Every id the matcher returns comes from a URL of the pattern's shape. */
  lemma MatchSound(url: string) returns (sh: Shape)
    requires MatchYouTube(url).Some?
    ensures MatchesAs(url, sh, MatchYouTube(url).value)
  {
    var id := MatchYouTube(url).value;
    var scheme, www, host, tld, path;
    if StartsWith(url, "https://") && MatchWww(url[8..]).Some? {
      scheme := "https://";
      www, host, tld, path := WwwSound(url[8..]);
      StartsWithConcat(url, scheme, www + (host + (TldPart(tld) + (path + id))));
    } else if StartsWith(url, "http://") && MatchWww(url[7..]).Some? {
      scheme := "http://";
      www, host, tld, path := WwwSound(url[7..]);
      StartsWithConcat(url, scheme, www + (host + (TldPart(tld) + (path + id))));
    } else {
      scheme := "";
      www, host, tld, path := WwwSound(url);
      assert scheme + (www + (host + (TldPart(tld) + (path + id))))
        == www + (host + (TldPart(tld) + (path + id)));
    }
    sh := Shape(scheme, www, host, tld, path);
  }

  // ---------------------------------------------------------------------
  // Completeness: every URL of the pattern's shape is matched.

  lemma {:induction false} AnyComplete(s: string, k: nat, j: nat)
    requires 1 <= j <= k <= |s|
    requires StartsWith(s[j..], "?v=") && IdAt(s[j + 3..]).Some?
    ensures AnyThenQuery(s, k).Some?
    decreases k
  {
    if k > j {
      AnyComplete(s, k - 1, j);
    }
  }

  lemma PathComplete(s: string, path: string, id: string)
    requires path == "" || path == "watch?v=" || path == "embed/" || path == "v/" || QueryPath(path)
    requires IsVideoId(id) && StartsWith(s, path + id)
    ensures MatchPath(s).Some?
  {
    StartsWithConcat(s, path, id);
    IdAtOf(s[|path|..], id);
    if QueryPath(path) && path != "watch?v=" {
      var j := |path| - 3;
      assert s[..|path|] == path;
      assert s[j..][..3] == path[j..];
      assert s[j + 3..] == s[|path|..];
      AnyComplete(s, LineRun(s), j);
    }
  }

  lemma DomainComplete(s: string, tld: string, path: string, id: string)
    requires tld == "com" || tld == "be"
    requires path == "" || path == "watch?v=" || path == "embed/" || path == "v/" || QueryPath(path)
    requires IsVideoId(id) && StartsWith(s, TldPart(tld) + (path + id))
    ensures MatchDomain(s).Some?
  {
    StartsWithConcat(s, TldPart(tld), path + id);
    PathComplete(s[|TldPart(tld)|..], path, id);
    if tld == "com" {
      assert TldPart(tld) == ".com/";
    } else {
      assert TldPart(tld) == ".be/";
    }
  }

  lemma HostComplete(s: string, host: string)
    requires host == "youtube" || host == "youtu" || host == "youtube-nocookie"
    requires StartsWith(s, host) && MatchDomain(s[|host|..]).Some?
    ensures MatchHost(s).Some?
  {
    if host == "youtube-nocookie" {
      NoDomainAt(s, 7);
      NoDomainAt(s, 5);
    }
  }

  /** Inside "youtube-nocookie", neither ".com/" nor ".be/" starts at offset 5 or 7. */
  lemma NoDomainAt(s: string, k: nat)
    requires StartsWith(s, "youtube-nocookie") && (k == 5 || k == 7)
    ensures !StartsWith(s[k..], ".com/") && !StartsWith(s[k..], ".be/")
  {
    assert s[k] == "youtube-nocookie"[k];
  }

  lemma WwwComplete(s: string, www: string)
    requires www == "" || www == "www."
    requires StartsWith(s, www) && MatchHost(s[|www|..]).Some?
    ensures MatchWww(s).Some?
  {
    assert s[0..] == s;
  }

  /** Every URL that has the pattern's shape is matched. */
  lemma MatchComplete(url: string, sh: Shape, id: string)
    requires MatchesAs(url, sh, id)
    ensures MatchYouTube(url).Some?
  {
    var rest3 := TldPart(sh.tld) + (sh.path + id);
    var rest2 := sh.host + rest3;
    var rest1 := sh.www + rest2;
    StartsWithConcat(url, sh.scheme, rest1);
    var t1 := url[|sh.scheme|..];
    StartsWithConcat(t1, sh.www, rest2);
    var t2 := t1[|sh.www|..];
    StartsWithConcat(t2, sh.host, rest3);
    var t3 := t2[|sh.host|..];
    DomainComplete(t3, sh.tld, sh.path, id);
    HostComplete(t2, sh.host);
    WwwComplete(t1, sh.www);
    SchemeComplete(url, sh.scheme);
  }

  lemma SchemeComplete(url: string, scheme: string)
    requires scheme == "" || scheme == "http://" || scheme == "https://"
    requires StartsWith(url, scheme) && MatchWww(url[|scheme|..]).Some?
    ensures MatchYouTube(url).Some?
  {
    assert url[0..] == url;
  }

  lemma After(p: string, t: string)
    ensures StartsWith(p + t, p) && (p + t)[|p|..] == t
  {
    assert (p + t)[..|p|] == p;
  }

  lemma PathOfWatch(id: string)
    requires IsVideoId(id)
    ensures MatchPath("watch?v=" + id) == Some(id)
  {
    After("watch?v=", id);
    assert id[..11] == id;
  }

  lemma DomainOfCom(t: string)
    requires MatchPath(t).Some?
    ensures MatchDomain(".com/" + t) == MatchPath(t)
  {
    After(".com/", t);
  }

  lemma HostOfYoutube(t: string)
    requires MatchDomain(t).Some?
    ensures MatchHost("youtube" + t) == MatchDomain(t)
  {
    After("youtube", t);
  }

  lemma WwwOfWww(t: string)
    requires MatchHost(t).Some?
    ensures MatchWww("www." + t) == MatchHost(t)
  {
    After("www.", t);
  }

  lemma SchemeOfHttps(t: string)
    requires MatchWww(t).Some?
    ensures MatchYouTube("https://" + t) == MatchWww(t)
  {
    After("https://", t);
  }

  /** The canonical watch URL gives back the id it was built from. */
  lemma CanonicalRoundTrip(id: string)
    requires IsVideoId(id)
    ensures MatchYouTube(CanonicalUrl(id)) == Some(id)
  {
    var s5 := "watch?v=" + id;
    var s4 := ".com/" + s5;
    var s3 := "youtube" + s4;
    var s2 := "www." + s3;
    assert CanonicalUrl(id) == "https://" + s2;
    PathOfWatch(id);
    DomainOfCom(s5);
    HostOfYoutube(s4);
    WwwOfWww(s3);
    SchemeOfHttps(s2);
  }

  lemma NotQueryAt(s: string, k: nat)
    requires k <= |s| && forall i :: 0 <= i < |s| ==> s[i] != '?'
    ensures !StartsWith(s[k..], "?v=")
  {
    if |s[k..]| >= 3 {
      assert s[k..][..3][0] == s[k];
    }
  }

  /** Without a '?' the `.+\?v=` alternative never matches. */
  lemma {:induction false} NoQuery(s: string, k: nat)
    requires k <= |s| && forall i :: 0 <= i < |s| ==> s[i] != '?'
    ensures AnyThenQuery(s, k) == None
    decreases k
  {
    if k > 0 {
      NotQueryAt(s, k);
      NoQuery(s, k - 1);
    }
  }

  /** A bare id is matched by the final alternative: no path group. */
  lemma PathOfId(id: string)
    requires IsVideoId(id)
    ensures MatchPath(id) == Some(id)
  {
    assert id[..8][5] == id[5];
    NoQuery(id, LineRun(id));
    assert id[..11] == id;
  }

  lemma DomainOfBe(t: string)
    requires MatchPath(t).Some?
    ensures MatchDomain(".be/" + t) == MatchPath(t)
  {
    After(".be/", t);
    assert (".be/" + t)[..5][1] == 'b';
  }

  lemma HostOfYoutu(t: string)
    requires MatchDomain(t).Some? && |t| > 0 && t[0] == '.'
    ensures MatchHost("youtu" + t) == MatchDomain(t)
  {
    After("youtu", t);
    assert ("youtu" + t)[5] == t[0];
    if |"youtu" + t| >= 7 {
      assert ("youtu" + t)[..7][5] == '.';
    }
  }

  lemma NoWww(t: string)
    requires |t| > 0 && t[0] == 'y'
    ensures !StartsWith(t, "www.")
  {
    if |t| >= 4 {
      assert t[..4][0] == 'y';
    }
  }

  lemma WwwOfNone(t: string)
    requires |t| > 0 && t[0] == 'y'
    ensures MatchWww(t) == MatchHost(t)
  {
    NoWww(t);
  }

  /** The short link `https://youtu.be/<id>` gives back its id. */
  lemma ShortLinkRoundTrip(id: string)
    requires IsVideoId(id)
    ensures MatchYouTube("https://youtu.be/" + id) == Some(id)
  {
    var s3 := ".be/" + id;
    var s2 := "youtu" + s3;
    assert "https://youtu.be/" + id == "https://" + s2;
    PathOfId(id);
    DomainOfBe(id);
    HostOfYoutu(s3);
    WwwOfNone(s2);
    SchemeOfHttps(s2);
  }

  /** A path that starts like no group alternative and has no '?' is matched as a bare id: its first eleven characters. */
  lemma PathOfBare(s: string)
    requires |s| >= 11 && IsVideoId(s[..11]) && forall i :: 0 <= i < |s| ==> s[i] != '?'
    requires s[0] != 'w' && s[0] != 'e' && s[0] != 'v'
    ensures MatchPath(s) == Some(s[..11])
  {
    assert s[..8][0] == s[0] && s[..6][0] == s[0] && s[..2][0] == s[0];
    NoQuery(s, LineRun(s));
  }

  /**
   * A `/shorts/` link is taken by the last alternative: the "id" is the first
   * eleven characters after the domain, "shorts/" and four more.
   */
  lemma ShortsLink(t: string)
    requires |t| >= 4 && forall i :: 0 <= i < |t| ==> IdChar(t[i])
    ensures MatchYouTube("https://www.youtube.com/shorts/" + t) == Some("shorts/" + t[..4])
  {
    var s5 := "shorts/" + t;
    assert s5[..11] == "shorts/" + t[..4];
    assert forall i :: 0 <= i < |s5| ==> s5[i] != '?' by {
      forall i | 0 <= i < |s5| ensures s5[i] != '?' {
        if i >= 7 { assert s5[i] == t[i - 7]; }
      }
    }
    assert IsVideoId(s5[..11]) by {
      forall i | 0 <= i < 11 ensures IdChar(s5[..11][i]) {
        if i >= 7 { assert s5[..11][i] == t[i - 7]; }
      }
    }
    PathOfBare(s5);
    var s4 := ".com/" + s5;
    var s3 := "youtube" + s4;
    var s2 := "www." + s3;
    assert "https://www.youtube.com/shorts/" + t == "https://" + s2;
    DomainOfCom(s5);
    HostOfYoutube(s4);
    WwwOfWww(s3);
    SchemeOfHttps(s2);
  }
}
