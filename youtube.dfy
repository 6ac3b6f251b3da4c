/** The YouTube helper of the bot: the link filter `YoutubeObj.is_url` and the
    bot's own logic around the downloader in `YoutubeObj.Download`.

    `is_url` matches the anchored pattern
        ^(https?://)?(www\.)?((youtube\.com/)|(youtu\.be/))[\w\-\?=&#./]+$
    with no flags. It is modelled twice: `IsUrl` is a recogniser that strips the
    optional parts one after the other, and `Pattern` says, part by part, what
    the pattern describes. `IsUrlIffPattern` proves that they agree. */
module YouTube {

  import opened Wrappers

  // ---------------------------------------------------------------------------
  // Characters and prefixes

  /** `\w`, restricted to ASCII: letters, digits and the underscore. */
  predicate IsWordChar(c: char) {
    ('a' <= c <= 'z') || ('A' <= c <= 'Z') || ('0' <= c <= '9') || c == '_'
  }

  /** The character class `[\w\-\?=&#./]` that may follow the host. */
  predicate IsPathChar(c: char) {
    IsWordChar(c) || c == '-' || c == '?' || c == '=' || c == '&' || c == '#' || c == '.' || c == '/'
  }

  /** `[\w\-\?=&#./]+`: a non-empty run of path characters. */
  predicate IsPathRun(s: string) {
    |s| > 0 && forall i :: 0 <= i < |s| ==> IsPathChar(s[i])
  }

  predicate StartsWith(s: string, p: string) {
    |p| <= |s| && s[..|p|] == p
  }

  const Http: string := "http://"
  const Https: string := "https://"
  const Www: string := "www."
  const YoutubeCom: string := "youtube.com/"
  const YoutuBe: string := "youtu.be/"

  // ---------------------------------------------------------------------------
  // The recogniser

  /** `(https?://)?`: drops a leading scheme, if there is one. */
  function AfterScheme(t: string): string {
    if StartsWith(t, Https) then t[|Https|..]
    else if StartsWith(t, Http) then t[|Http|..]
    else t
  }

  /** `(www\.)?`: drops a leading `www.`, if there is one. */
  function AfterWww(t: string): string {
    if StartsWith(t, Www) then t[|Www|..] else t
  }

  /** `((youtube\.com/)|(youtu\.be/))`: drops the host, or fails. */
  function AfterHost(t: string): Option<string> {
    if StartsWith(t, YoutubeCom) then Some(t[|YoutubeCom|..])
    else if StartsWith(t, YoutuBe) then Some(t[|YoutuBe|..])
    else None
  }

  /** The pattern matches all of `t`, with `$` read as "end of text". */
  predicate MatchesWhole(t: string) {
    var rest := AfterHost(AfterWww(AfterScheme(t)));
    rest.Some? && IsPathRun(rest.value)
  }

  /** `re.match` with the anchored pattern: `$` also matches just before one
      final newline, so the text may end in a single `\n`. */
  predicate IsUrl(t: string) {
    MatchesWhole(t) || (|t| > 0 && t[|t| - 1] == '\n' && MatchesWhole(t[..|t| - 1]))
  }

  // ---------------------------------------------------------------------------
  // The pattern, part by part

  /** `(https?://)?`: choice 0 is no scheme, 1 is `http://`, 2 is `https://`. */
  function Scheme(i: int): string {
    if i == 1 then Http else if i == 2 then Https else ""
  }

  /** `(www\.)?`: choice 0 is nothing, 1 is `www.`. */
  function WwwOption(j: int): string {
    if j == 1 then Www else ""
  }

  /** `((youtube\.com/)|(youtu\.be/))`: choice 0 or 1. */
  function Host(k: int): string {
    if k == 1 then YoutuBe else YoutubeCom
  }

  predicate IsPrefixChoice(i: int, j: int, k: int) {
    0 <= i < 3 && 0 <= j < 2 && 0 <= k < 2
  }

  /** One of the twelve texts that may come before the path: an optional
      scheme, an optional `www.` and one of the two hosts. */
  function Prefix(i: int, j: int, k: int): string
    requires IsPrefixChoice(i, j, k)
  {
    Scheme(i) + WwwOption(j) + Host(k)
  }

  /** `t` is the prefix `p` followed by a non-empty run of path characters. */
  ghost predicate MatchesAfter(t: string, p: string) {
    StartsWith(t, p) && IsPathRun(t[|p|..])
  }

  ghost predicate PatternWhole(t: string) {
    exists i, j, k | IsPrefixChoice(i, j, k) :: MatchesAfter(t, Prefix(i, j, k))
  }

  /** What the regular expression accepts under `re.match`. */
  ghost predicate Pattern(t: string) {
    PatternWhole(t) || (|t| > 0 && t[|t| - 1] == '\n' && PatternWhole(t[..|t| - 1]))
  }

  // ---------------------------------------------------------------------------
  // The recogniser agrees with the pattern

  lemma SchemeSkipped(i: int, u: string)
    requires 0 <= i < 3
    requires |u| > 0 && (u[0] == 'w' || u[0] == 'y')
    ensures AfterScheme(Scheme(i) + u) == u
  {
    var t := Scheme(i) + u;
    if i == 0 {
      assert t == u;
      assert !StartsWith(t, Https) by { assert t[0] != Https[0]; }
      assert !StartsWith(t, Http) by { assert t[0] != Http[0]; }
    } else if i == 1 {
      assert !StartsWith(t, Https) by { assert t[4] == ':' != Https[4]; }
      assert StartsWith(t, Http) by { assert t[..|Http|] == Http; }
      assert t[|Http|..] == u;
    } else {
      assert StartsWith(t, Https) by { assert t[..|Https|] == Https; }
      assert t[|Https|..] == u;
    }
  }

  lemma WwwSkipped(j: int, u: string)
    requires 0 <= j < 2
    requires |u| > 0 && u[0] == 'y'
    ensures AfterWww(WwwOption(j) + u) == u
  {
    var t := WwwOption(j) + u;
    if j == 0 {
      assert t == u;
      assert !StartsWith(t, Www) by { assert t[0] != Www[0]; }
    } else {
      assert StartsWith(t, Www) by { assert t[..|Www|] == Www; }
      assert t[|Www|..] == u;
    }
  }

  lemma HostSkipped(k: int, u: string)
    requires 0 <= k < 2
    ensures AfterHost(Host(k) + u) == Some(u)
  {
    var t := Host(k) + u;
    if k == 0 {
      assert StartsWith(t, YoutubeCom) by { assert t[..|YoutubeCom|] == YoutubeCom; }
      assert t[|YoutubeCom|..] == u;
    } else {
      assert !StartsWith(t, YoutubeCom) by { assert t[5] == '.' != YoutubeCom[5]; }
      assert StartsWith(t, YoutuBe) by { assert t[..|YoutuBe|] == YoutuBe; }
      assert t[|YoutuBe|..] == u;
    }
  }

  /** The optional scheme and `www.` are dropped in front of a host. */
  lemma {:induction false} SchemeAndWwwSkipped(i: int, j: int, u: string)
    requires 0 <= i < 3 && 0 <= j < 2
    requires |u| > 0 && u[0] == 'y'
    ensures AfterWww(AfterScheme(Scheme(i) + WwwOption(j) + u)) == u
  {
    var w := WwwOption(j) + u;
    assert w[0] == 'w' || w[0] == 'y' by { if j == 1 { assert w[0] == Www[0]; } }
    assert Scheme(i) + WwwOption(j) + u == Scheme(i) + w;
    SchemeSkipped(i, w);
    WwwSkipped(j, u);
  }

  /** The recogniser walks over any of the twelve prefixes and leaves exactly
      what follows it. */
  lemma {:induction false} RecogniserSkipsPrefix(i: int, j: int, k: int, rest: string)
    requires IsPrefixChoice(i, j, k)
    ensures AfterHost(AfterWww(AfterScheme(Prefix(i, j, k) + rest))) == Some(rest)
  {
    var h := Host(k) + rest;
    assert h[0] == 'y' by { assert h[0] == Host(k)[0]; }
    assert Prefix(i, j, k) + rest == Scheme(i) + WwwOption(j) + h;
    SchemeAndWwwSkipped(i, j, h);
    HostSkipped(k, rest);
  }

  lemma StartsWithJoin(t: string, p: string, q: string)
    requires StartsWith(t, p) && StartsWith(t[|p|..], q)
    ensures StartsWith(t, p + q) && t[|p + q|..] == t[|p|..][|q|..]
  {
    assert t[..|p + q|] == t[..|p|] + t[|p|..][..|q|];
  }

  /** Which scheme the recogniser dropped. */
  lemma SchemeChoice(t: string) returns (i: int)
    ensures 0 <= i < 3 && StartsWith(t, Scheme(i)) && AfterScheme(t) == t[|Scheme(i)|..]
  {
    i := if StartsWith(t, Https) then 2 else if StartsWith(t, Http) then 1 else 0;
  }

  /** Whether the recogniser dropped a `www.`. */
  lemma WwwChoice(t: string) returns (j: int)
    ensures 0 <= j < 2 && StartsWith(t, WwwOption(j)) && AfterWww(t) == t[|WwwOption(j)|..]
  {
    j := if StartsWith(t, Www) then 1 else 0;
  }

  /** Which host the recogniser dropped. */
  lemma HostChoice(t: string) returns (k: int)
    requires AfterHost(t).Some?
    ensures 0 <= k < 2 && StartsWith(t, Host(k)) && AfterHost(t) == Some(t[|Host(k)|..])
  {
    k := if StartsWith(t, YoutubeCom) then 0 else 1;
  }

  lemma {:induction false} MatchesWholeImpliesPattern(t: string)
    requires MatchesWhole(t)
    ensures PatternWhole(t)
  {
    var i := SchemeChoice(t);
    var a := t[|Scheme(i)|..];
    var j := WwwChoice(a);
    var b := a[|WwwOption(j)|..];
    var k := HostChoice(b);
    StartsWithJoin(t, Scheme(i), WwwOption(j));
    StartsWithJoin(t, Scheme(i) + WwwOption(j), Host(k));
    assert MatchesAfter(t, Prefix(i, j, k));
  }

  lemma {:induction false} PatternImpliesMatchesWhole(t: string)
    requires PatternWhole(t)
    ensures MatchesWhole(t)
  {
    var i, j, k :| IsPrefixChoice(i, j, k) && MatchesAfter(t, Prefix(i, j, k));
    var p := Prefix(i, j, k);
    assert t == p + t[|p|..];
    RecogniserSkipsPrefix(i, j, k, t[|p|..]);
  }

  lemma {:induction false} MatchesWholeIffPatternWhole(t: string)
    ensures MatchesWhole(t) <==> PatternWhole(t)
  {
    if MatchesWhole(t) {
      MatchesWholeImpliesPattern(t);
    }
    if PatternWhole(t) {
      PatternImpliesMatchesWhole(t);
    }
  }

  /** `is_url` holds exactly when the text is an optional `http://` or
      `https://`, an optional `www.`, `youtube.com/` or `youtu.be/`, and a
      non-empty run of `\w - ? = & # . /`, optionally followed by one newline. */
  lemma {:induction false} IsUrlIffPattern(t: string)
    ensures IsUrl(t) <==> Pattern(t)
  {
    MatchesWholeIffPatternWhole(t);
    if |t| > 0 {
      MatchesWholeIffPatternWhole(t[..|t| - 1]);
    }
  }

  // ---------------------------------------------------------------------------
  // Consequences

  /** A bare host with nothing after the slash is rejected. */
  lemma {:induction false} EmptyPathRejected(i: int, j: int, k: int)
    requires IsPrefixChoice(i, j, k)
    ensures !IsUrl(Prefix(i, j, k))
  {
    var p := Prefix(i, j, k);
    RecogniserSkipsPrefix(i, j, k, "");
    assert p + "" == p;
    assert p[|p| - 1] == '/' by { assert p[|p| - 1] == Host(k)[|Host(k)| - 1]; }
  }

  /** A bare host followed by the one newline `$` admits is rejected too. */
  lemma {:induction false} NewlineOnlyPathRejected(i: int, j: int, k: int)
    requires IsPrefixChoice(i, j, k)
    ensures !IsUrl(Prefix(i, j, k) + "\n")
  {
    var p := Prefix(i, j, k);
    RecogniserSkipsPrefix(i, j, k, "\n");
    assert !IsPathRun("\n") by { assert !IsPathChar("\n"[0]); }
    assert (p + "\n")[..|p + "\n"| - 1] == p;
    EmptyPathRejected(i, j, k);
  }

  /** A host without its slash (`youtu.be`, `https://www.youtube.com`) is
      rejected. */
  lemma {:induction false} SlashlessHostRejected(i: int, j: int, k: int)
    requires IsPrefixChoice(i, j, k)
    ensures !IsUrl(Scheme(i) + WwwOption(j) + Host(k)[..|Host(k)| - 1])
  {
    var host := Host(k)[..|Host(k)| - 1];
    var q := Scheme(i) + WwwOption(j) + host;
    assert host[0] == 'y';
    SchemeAndWwwSkipped(i, j, host);
    assert AfterHost(host) == None by {
      if k == 0 {
        assert !StartsWith(host, YoutuBe) by { assert host[5] == 'b' != YoutuBe[5]; }
      }
    }
    assert q[|q| - 1] != '\n' by { assert q[|q| - 1] == host[|host| - 1]; }
  }

  /** Every character of each of the twelve prefixes is a path character or
      the `:` of a scheme. */
  lemma {:induction false} PrefixChars(i: int, j: int, k: int, m: int)
    requires IsPrefixChoice(i, j, k)
    requires 0 <= m < |Prefix(i, j, k)|
    ensures IsPathChar(Prefix(i, j, k)[m]) || Prefix(i, j, k)[m] == ':'
  {
    var s, w, h := Scheme(i), WwwOption(j), Host(k);
    if m < |s| {
      assert Prefix(i, j, k)[m] == s[m];
    } else if m < |s| + |w| {
      assert Prefix(i, j, k)[m] == w[m - |s|];
    } else {
      assert Prefix(i, j, k)[m] == h[m - |s| - |w|];
    }
  }

  /** Every character of a wholly matched text is a path character or the `:`
      of a scheme. */
  lemma {:induction false} AcceptedChars(t: string, m: int)
    requires 0 <= m < |t|
    ensures MatchesWhole(t) ==> IsPathChar(t[m]) || t[m] == ':'
  {
    if MatchesWhole(t) {
      MatchesWholeImpliesPattern(t);
      var i, j, k :| IsPrefixChoice(i, j, k) && MatchesAfter(t, Prefix(i, j, k));
      var p := Prefix(i, j, k);
      if m < |p| {
        assert t[m] == p[m];
        PrefixChars(i, j, k, m);
      } else {
        assert t[m] == t[|p|..][m - |p|];
      }
    }
  }

  /** A character outside `\w - ? = & # . /` (and not the `:` of the scheme)
      makes the text a non-link, unless it is the single final newline. */
  lemma {:induction false} ForbiddenCharRejected(t: string, m: int)
    requires 0 <= m < |t|
    requires !IsPathChar(t[m]) && t[m] != ':'
    requires !(m == |t| - 1 && t[m] == '\n')
    ensures !IsUrl(t)
  {
    AcceptedChars(t, m);
    if m < |t| - 1 {
      AcceptedChars(t[..|t| - 1], m);
    }
  }

  /** Every link starts with one of the twelve prefixes, so other hosts,
      subdomains such as `m.` or `music.`, and other schemes are rejected. */
  lemma {:induction false} UrlStartsWithPrefix(t: string)
    ensures IsUrl(t) ==> exists i, j, k | IsPrefixChoice(i, j, k) :: StartsWith(t, Prefix(i, j, k))
  {
    IsUrlIffPattern(t);
    if PatternWhole(t) {
      var i, j, k :| IsPrefixChoice(i, j, k) && MatchesAfter(t, Prefix(i, j, k));
    } else if |t| > 0 && PatternWhole(t[..|t| - 1]) {
      var i, j, k :| IsPrefixChoice(i, j, k) && MatchesAfter(t[..|t| - 1], Prefix(i, j, k));
      var p := Prefix(i, j, k);
      assert t[..|p|] == t[..|t| - 1][..|p|];
      assert StartsWith(t, p);
    }
  }

  lemma NotPathRunAt(s: string, m: int)
    requires 0 <= m < |s| && !IsPathChar(s[m])
    ensures !IsPathRun(s)
  {
  }

  /** A forbidden character after the host stops the whole text matching. */
  lemma {:induction false} ForbiddenCharStopsWholeMatch(i: int, j: int, k: int, rest: string, m: int)
    requires IsPrefixChoice(i, j, k)
    requires 0 <= m < |rest| && !IsPathChar(rest[m])
    ensures !MatchesWhole(Prefix(i, j, k) + rest)
  {
    RecogniserSkipsPrefix(i, j, k, rest);
    NotPathRunAt(rest, m);
  }

  /** With a forbidden character that is not the final newline, dropping a
      final newline still leaves a text that does not match. */
  lemma {:induction false} ForbiddenCharStopsNewlineMatch(i: int, j: int, k: int, rest: string, m: int)
    requires IsPrefixChoice(i, j, k)
    requires 0 <= m < |rest| && !IsPathChar(rest[m])
    requires !(m == |rest| - 1 && rest[m] == '\n')
    ensures var t := Prefix(i, j, k) + rest;
      !(t[|t| - 1] == '\n' && MatchesWhole(t[..|t| - 1]))
  {
    var t := Prefix(i, j, k) + rest;
    assert t[|t| - 1] == rest[|rest| - 1];
    if rest[|rest| - 1] == '\n' {
      var shorter := rest[..|rest| - 1];
      assert m < |shorter| && shorter[m] == rest[m];
      ForbiddenCharStopsWholeMatch(i, j, k, shorter, m);
      assert t[..|t| - 1] == Prefix(i, j, k) + shorter;
    }
  }

  /** A character outside `\w - ? = & # . /` after the host, `:` included,
      makes the text a non-link, unless it is the single final newline. */
  lemma {:induction false} ForbiddenCharAfterHostRejected(i: int, j: int, k: int, rest: string, m: int)
    requires IsPrefixChoice(i, j, k)
    requires 0 <= m < |rest| && !IsPathChar(rest[m])
    requires !(m == |rest| - 1 && rest[m] == '\n')
    ensures !IsUrl(Prefix(i, j, k) + rest)
  {
    ForbiddenCharStopsWholeMatch(i, j, k, rest, m);
    ForbiddenCharStopsNewlineMatch(i, j, k, rest, m);
  }

  lemma PrefixFirstChar(i: int, j: int, k: int)
    requires IsPrefixChoice(i, j, k)
    ensures Prefix(i, j, k)[0] == 'h' || Prefix(i, j, k)[0] == 'w' || Prefix(i, j, k)[0] == 'y'
  {
    if i == 0 && j == 0 {
      assert Prefix(i, j, k) == Host(k);
    } else if i == 0 {
      assert Prefix(i, j, k)[0] == Www[0];
    } else {
      assert Prefix(i, j, k)[0] == Scheme(i)[0];
    }
  }

  /** The match is anchored at the start and is case-sensitive: a link starts
      with `h`, `w` or `y`. In particular it never starts with `/`, so it is
      never a bot command, and the `/start` handler and the link handler never
      compete for a message. */
  lemma {:induction false} UrlFirstChar(t: string)
    ensures IsUrl(t) ==> |t| > 0 && (t[0] == 'h' || t[0] == 'w' || t[0] == 'y')
  {
    UrlStartsWithPrefix(t);
    if IsUrl(t) {
      var i, j, k :| IsPrefixChoice(i, j, k) && StartsWith(t, Prefix(i, j, k));
      assert t[0] == Prefix(i, j, k)[0];
      PrefixFirstChar(i, j, k);
    }
  }

  /** Any of the twelve prefixes followed by a path run is a link. */
  lemma {:induction false} PrefixAndPathAccepted(i: int, j: int, k: int, rest: string)
    requires IsPrefixChoice(i, j, k) && IsPathRun(rest)
    ensures IsUrl(Prefix(i, j, k) + rest)
  {
    RecogniserSkipsPrefix(i, j, k, rest);
  }

  /** `$` admits one final newline after an accepted link. */
  lemma {:induction false} PrefixPathNewlineAccepted(i: int, j: int, k: int, rest: string)
    requires IsPrefixChoice(i, j, k) && IsPathRun(rest)
    ensures IsUrl(Prefix(i, j, k) + rest + "\n")
  {
    var t := Prefix(i, j, k) + rest + "\n";
    assert t[|t| - 1] == '\n';
    assert t[..|t| - 1] == Prefix(i, j, k) + rest;
    RecogniserSkipsPrefix(i, j, k, rest);
  }

  /** Worked example: a full link with scheme, `www.` and a query. */
  lemma {:induction false} AcceptsFullLink()
    ensures IsUrl(Https + Www + YoutubeCom + "w?v=a_1")
  {
    assert IsPathRun("w?v=a_1");
    PrefixAndPathAccepted(2, 1, 0, "w?v=a_1");
    assert Prefix(2, 1, 0) == Https + Www + YoutubeCom;
  }

  /** Worked example: a short link with neither scheme nor `www.`. */
  lemma {:induction false} AcceptsShortLink()
    ensures IsUrl(YoutuBe + "x-#")
  {
    assert IsPathRun("x-#");
    PrefixAndPathAccepted(0, 0, 1, "x-#");
    assert Prefix(0, 0, 1) == YoutuBe;
  }

  /** Worked example: a short link followed by one newline. */
  lemma {:induction false} AcceptsOneTrailingNewline()
    ensures IsUrl(YoutuBe + "x\n")
  {
    assert IsPathRun("x");
    PrefixPathNewlineAccepted(0, 0, 1, "x");
    assert Prefix(0, 0, 1) == YoutuBe;
    assert YoutuBe + "x" + "\n" == YoutuBe + "x\n";
  }

  /** Worked example: nothing after the slash. */
  lemma {:induction false} RejectsEmptyPath()
    ensures !IsUrl(Https + YoutubeCom)
  {
    EmptyPathRejected(2, 0, 0);
    assert Prefix(2, 0, 0) == Https + YoutubeCom;
  }

  /** Worked example: no slash after the host. */
  lemma {:induction false} RejectsSlashlessHost()
    ensures !IsUrl("youtu.be")
  {
    SlashlessHostRejected(0, 0, 1);
    assert Scheme(0) + WwwOption(0) + Host(1)[..|Host(1)| - 1] == "youtu.be";
  }

  /** Worked examples: upper case, subdomains, another scheme and text before
      the link. */
  lemma {:induction false} RejectsOtherStarts()
    ensures !IsUrl("HTTPS://YOUTUBE.COM/x")
    ensures !IsUrl("m.youtube.com/x")
    ensures !IsUrl("music.youtube.com/x")
    ensures !IsUrl("ftp://youtube.com/x")
    ensures !IsUrl(" youtu.be/x")
  {
    UrlFirstChar("HTTPS://YOUTUBE.COM/x");
    UrlFirstChar("m.youtube.com/x");
    UrlFirstChar("music.youtube.com/x");
    UrlFirstChar("ftp://youtube.com/x");
    UrlFirstChar(" youtu.be/x");
  }

  /** Worked examples: a second newline and a space after the host. */
  lemma {:induction false} RejectsNewlineAndSpace()
    ensures !IsUrl(YoutuBe + "x\n\n")
    ensures !IsUrl(YoutuBe + "a b")
  {
    assert YoutuBe == Prefix(0, 0, 1);
    ForbiddenCharAfterHostRejected(0, 0, 1, "x\n\n", 1);
    ForbiddenCharAfterHostRejected(0, 0, 1, "a b", 1);
  }

  /** Worked examples: `%`, `+` and `:` after the host. */
  lemma {:induction false} RejectsPercentPlusColon()
    ensures !IsUrl(YoutuBe + "a%2")
    ensures !IsUrl(YoutuBe + "a+b")
    ensures !IsUrl(YoutuBe + "a:b")
  {
    assert YoutuBe == Prefix(0, 0, 1);
    ForbiddenCharAfterHostRejected(0, 0, 1, "a%2", 1);
    ForbiddenCharAfterHostRejected(0, 0, 1, "a+b", 1);
    ForbiddenCharAfterHostRejected(0, 0, 1, "a:b", 1);
  }

  // ---------------------------------------------------------------------------
  // Download

  /** A value from the downloader's info dictionary; `Other` is any other
      Python value, kept as the text `str()` gives for it. */
  datatype Value = Null | Str(s: string) | Other(text: string)

  type Info = map<string, Value>

  /** `info.get(key)`: `None` when the key is missing. */
  function Get(info: Info, key: string): Value {
    if key in info then info[key] else Null
  }

  /** The foreign downloader, `yt_dlp.YoutubeDL`, reduced to the two calls the
      bot makes. `extractInfo(link, template)` downloads the link using the
      output template and returns the info dictionary; `prepareFilename`
      gives the file name for that template and info. `None` means the call
      raised. */
  datatype YtDlp = YtDlp(
    extractInfo: (string, string) -> Option<Info>,
    prepareFilename: (string, Info) -> Option<string>)

  const TitleExtTemplate: string := "%(title)s.%(ext)s"

  const RecordKeys: set<string> := {"title", "duration", "uploader", "filename", "webpage_url"}

  /** The `outtmpl` option: files go into `savePath` when it is truthy, into
      the working directory when it is `None` or empty. */
  function OutputTemplate(savePath: Option<string>): (r: string)
    ensures |r| >= |TitleExtTemplate| && r[|r| - |TitleExtTemplate|..] == TitleExtTemplate
    ensures r == TitleExtTemplate <==> (savePath == None || savePath == Some(""))
    ensures r != TitleExtTemplate ==> r == savePath.value + "/" + TitleExtTemplate
  {
    if savePath.Some? && savePath.value != "" then savePath.value + "/" + TitleExtTemplate
    else TitleExtTemplate
  }

  /** `None` and the empty directory give the same template. */
  lemma NoneAndEmptySavePathAgree()
    ensures OutputTemplate(None) == OutputTemplate(Some(""))
  {
  }

  datatype YoutubeObj = YoutubeObj(link: string) {

    /** Downloads the link and returns the record the bot uses, or `None` when
        anything raised. The record has exactly five keys; four are copied
        from the info dictionary (a missing one reads as `None`) and
        `filename` is the name the downloader prepared. */
    function Download(savePath: Option<string>, ydl: YtDlp): (r: Option<Info>)
      ensures var template := OutputTemplate(savePath);
        var info := ydl.extractInfo(link, template);
        && (r.Some? <==> info.Some? && ydl.prepareFilename(template, info.value).Some?)
        && (r.Some? ==>
              && r.value.Keys == RecordKeys
              && r.value["title"] == Get(info.value, "title")
              && r.value["duration"] == Get(info.value, "duration")
              && r.value["uploader"] == Get(info.value, "uploader")
              && r.value["webpage_url"] == Get(info.value, "webpage_url")
              && r.value["filename"] == Str(ydl.prepareFilename(template, info.value).value))
    {
      var template := OutputTemplate(savePath);
      match ydl.extractInfo(link, template)
      case None => None
      case Some(info) =>
        match ydl.prepareFilename(template, info)
        case None => None
        case Some(filename) =>
          Some(map[
            "title" := Get(info, "title"),
            "duration" := Get(info, "duration"),
            "uploader" := Get(info, "uploader"),
            "filename" := Str(filename),
            "webpage_url" := Get(info, "webpage_url")])
    }
  }
}
