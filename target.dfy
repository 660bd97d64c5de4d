/**
 * Everything `request` decides before the first byte is sent: the normalised path and URL,
 * the proxy mapping, the content-type hint taken from the file extension and the navigation
 * headers laid over the headers the header builder produced.
 */
module RequestTarget {
  import opened Wrappers
  import opened PyText

  const DownloadApi: string := "https://assets.grok.com"

  /** The path with a leading '/' added when it has none. */
  function NormalizePath(filePath: string): (path: string)
    ensures StartsWith(path, "/")
    ensures path == filePath || path == "/" + filePath
    ensures StartsWith(filePath, "/") ==> path == filePath
  {
    if StartsWith(filePath, "/") then filePath else "/" + filePath
  }

  /** Normalising a normalised path changes nothing. */
  lemma NormalizePathIdempotent(filePath: string)
    ensures NormalizePath(NormalizePath(filePath)) == NormalizePath(filePath)
  {
  }

  /** A path without a leading '/' is downloaded exactly as the same path with one added. */
  lemma NormalizePathAddsSlash(filePath: string)
    requires !StartsWith(filePath, "/")
    ensures NormalizePath(filePath) == NormalizePath("/" + filePath)
  {
  }

  /** The URL fetched: the asset host, then the normalised path. */
  function TargetUrl(filePath: string): (url: string)
    ensures StartsWith(url, DownloadApi + "/")
    ensures url[|DownloadApi|..] == NormalizePath(filePath)
  {
    DownloadApi + NormalizePath(filePath)
  }

  /** `get_config(key) or ""` for a configuration string that may be absent. */
  function OrEmpty(v: Option<string>): string {
    if v.Some? then v.value else ""
  }

  /** A configured proxy that is falsy once stripped. */
  predicate Blank(v: Option<string>) {
    Strip(OrEmpty(v)) == ""
  }

  /** Blank means absent, empty or made of whitespace only. */
  lemma BlankIffAllSpace(v: Option<string>)
    ensures Blank(v) <==> AllSpace(OrEmpty(v))
  {
    StripEmptyIff(OrEmpty(v));
  }

  /** `asset_proxy or base_proxy`, both stripped: the asset proxy wins unless it is blank. */
  function ProxyUrl(baseProxyUrl: Option<string>, assetProxyUrl: Option<string>): (url: string)
    ensures !Blank(assetProxyUrl) ==> url == Strip(OrEmpty(assetProxyUrl))
    ensures Blank(assetProxyUrl) ==> url == Strip(OrEmpty(baseProxyUrl))
    ensures url == "" <==> Blank(baseProxyUrl) && Blank(assetProxyUrl)
    ensures url == [] || (!IsSpace(url[0]) && !IsSpace(url[|url| - 1]))
  {
    var base := Strip(OrEmpty(baseProxyUrl));
    var asset := Strip(OrEmpty(assetProxyUrl));
    if asset != "" then asset else base
  }

  /** The `proxies` mapping: None when both proxies are blank, else both schemes to the chosen URL. */
  function Proxies(baseProxyUrl: Option<string>, assetProxyUrl: Option<string>): (proxies: Option<map<string, string>>)
    ensures proxies.None? <==> Blank(baseProxyUrl) && Blank(assetProxyUrl)
    ensures proxies.Some? ==> proxies.value.Keys == {"http", "https"}
    ensures proxies.Some? ==> var url := ProxyUrl(baseProxyUrl, assetProxyUrl);
      url != "" && proxies.value["http"] == url && proxies.value["https"] == url
  {
    var url := ProxyUrl(baseProxyUrl, assetProxyUrl);
    if url != "" then Some(map["http" := url, "https" := url]) else None
  }

  /** Index of the first '?' or '#' at or after `i` (where query and fragment begin), or `|s|`. */
  function QueryStart(s: string, i: nat): (n: nat)
    requires i <= |s|
    ensures i <= n <= |s|
    ensures forall k :: i <= k < n ==> s[k] != '?' && s[k] != '#'
    ensures n < |s| ==> s[n] == '?' || s[n] == '#'
    decreases |s| - i
  {
    if i == |s| || s[i] == '?' || s[i] == '#' then i else QueryStart(s, i + 1)
  }

  /** `s.find(ch, i)`, with `|s|` for no match: the index of the first `ch` at or after `i`. */
  function FindFrom(s: string, ch: char, i: nat): (n: nat)
    requires i <= |s|
    ensures i <= n <= |s|
    ensures forall k :: i <= k < n ==> s[k] != ch
    ensures n < |s| ==> s[n] == ch
    decreases |s| - i
  {
    if i == |s| || s[i] == ch then i else FindFrom(s, ch, i + 1)
  }

  /**
   * The `path` component `urllib.parse.urlsplit` gives for a string without a scheme: what precedes
   * the query and the fragment, less a "//host" network location when the string starts with "//".
   */
  function SplitPath(u: string): (path: string)
    ensures forall k :: 0 <= k < |path| ==> path[k] != '?' && path[k] != '#'
  {
    var beforeQuery := u[..QueryStart(u, 0)];
    if |beforeQuery| >= 2 && beforeQuery[..2] == "//" then
      var host := beforeQuery[2..];
      host[FindFrom(host, '/', 0)..]
    else
      beforeQuery
  }

  /**
   * `urlparse`'s `_splitparams`, which applies because an empty scheme uses parameters: the path
   * is cut at the first ';' in its last segment (after its last '/'); a ';' in an earlier segment stays.
   */
  function StripParams(p: string): (r: string)
    ensures AfterLastSlash(p, |p|) <= |r| <= |p| && r == p[..|r|]
    ensures forall k :: AfterLastSlash(p, |p|) <= k < |r| ==> r[k] != ';'
    ensures |r| < |p| ==> p[|r|] == ';'
  {
    p[..FindFrom(p, ';', AfterLastSlash(p, |p|))]
  }

  /** The `path` component of `urllib.parse.urlparse(u)` for a string without a scheme. */
  function UrlPath(u: string): (path: string)
    ensures forall k :: 0 <= k < |path| ==> path[k] != '?' && path[k] != '#'
    ensures forall k :: AfterLastSlash(path, |path|) <= k < |path| ==> path[k] != ';'
  {
    var p := SplitPath(u);
    var r := StripParams(p);
    AfterLastSlashIs(r, |r|, AfterLastSlash(p, |p|));
    r
  }

  /** Index just past the last '/' before index `j` (0 when there is none). */
  function AfterLastSlash(s: string, j: nat): (n: nat)
    requires j <= |s|
    ensures n <= j
    ensures n > 0 ==> s[n - 1] == '/'
    ensures forall k :: n <= k < j ==> s[k] != '/'
  {
    if j == 0 then 0 else if s[j - 1] == '/' then j else AfterLastSlash(s, j - 1)
  }

  /** The components pathlib drops from a path: the empty one (from "//" or a trailing '/') and ".". */
  predicate Skipped(component: string) {
    |component| == 0 || (|component| == 1 && component[0] == '.')
  }

  /**
   * `PurePosixPath(p[..j]).name`: the last component of the first `j` characters of `p`,
   * skipping the empty and "." components.
   */
  function NameBefore(p: string, j: nat): (name: string)
    requires j <= |p|
    ensures forall k :: 0 <= k < |name| ==> name[k] != '/'
    ensures name != "."
  {
    var n := AfterLastSlash(p, j);
    var last := p[n..j];
    if !Skipped(last) then last
    else if n == 0 then ""
    else NameBefore(p, n - 1)
  }

  /** `PurePosixPath(p).name`. */
  function PathName(p: string): (name: string)
    ensures forall k :: 0 <= k < |name| ==> name[k] != '/'
    ensures name != "."
  {
    NameBefore(p, |p|)
  }

  /** `s[..j].rfind(".")`: the index of the last '.' before index `j`, or -1. */
  function RFindDot(s: string, j: nat): (i: int)
    requires j <= |s|
    ensures -1 <= i < j
    ensures i >= 0 ==> s[i] == '.'
    ensures forall k :: i < k < j ==> s[k] != '.'
  {
    if j == 0 then -1 else if s[j - 1] == '.' then j - 1 else RFindDot(s, j - 1)
  }

  /**
   * `PurePath.suffix` of a file name: from its last '.' on, unless that dot begins the name
   * (a hidden file) or ends it.
   */
  function Suffix(name: string): (suffix: string)
    ensures suffix == "" || (|suffix| >= 2 && suffix[0] == '.' && |suffix| < |name| && suffix == name[|name| - |suffix|..])
    ensures forall k :: 0 < k < |suffix| ==> suffix[k] != '.'
  {
    var i := RFindDot(name, |name|);
    if 0 < i < |name| - 1 then name[i..] else ""
  }

  const ContentTypes: map<string, string> := map[
    ".jpg" := "image/jpeg",
    ".jpeg" := "image/jpeg",
    ".png" := "image/png",
    ".webp" := "image/webp",
    ".mp4" := "video/mp4",
    ".webm" := "video/webm"
  ]

  /** The file extension `request` looks up: the suffix of the URL path's last component, lower-cased. */
  function Extension(filePath: string): (ext: string)
    ensures ext == "" || (|ext| >= 2 && ext[0] == '.')
  {
    Lower(Suffix(PathName(UrlPath(filePath))))
  }

  /** `_CONTENT_TYPES.get(extension)`. */
  function ContentTypeHint(filePath: string): (hint: Option<string>)
    ensures hint.Some? <==> Extension(filePath) in ContentTypes
    ensures hint.Some? ==> hint.value == ContentTypes[Extension(filePath)]
  {
    var ext := Extension(filePath);
    if ext in ContentTypes then Some(ContentTypes[ext]) else None
  }

  /** The extension, and so the hint, ignores the case of the path: ".JPG" is looked up as ".jpg". */
  lemma ContentTypeHintIgnoresCase(filePath: string)
    ensures ContentTypeHint(Lower(filePath)) == ContentTypeHint(filePath)
  {
    var name := PathName(UrlPath(filePath));
    UrlPathLower(filePath);
    PathNameLower(UrlPath(filePath));
    SuffixLower(name);
    LowerIdempotent(Suffix(name));
  }

  /** `QueryStart` is the only index where the query may begin: nothing before it is '?' or '#'. */
  lemma QueryStartIs(s: string, n: nat)
    requires n <= |s|
    requires forall k :: 0 <= k < n ==> s[k] != '?' && s[k] != '#'
    requires n < |s| ==> s[n] == '?' || s[n] == '#'
    ensures QueryStart(s, 0) == n
  {
    var m := QueryStart(s, 0);
    assert m < |s| ==> s[m] == '?' || s[m] == '#';
    assert n < |s| ==> s[n] == '?' || s[n] == '#';
  }

  /** `AfterLastSlash` is the only index just past a '/' (or 0) with no '/' after it. */
  lemma AfterLastSlashIs(s: string, j: nat, n: nat)
    requires n <= j <= |s|
    requires n > 0 ==> s[n - 1] == '/'
    requires forall k :: n <= k < j ==> s[k] != '/'
    ensures AfterLastSlash(s, j) == n
  {
    var m := AfterLastSlash(s, j);
    assert m > 0 ==> s[m - 1] == '/';
    assert n > 0 ==> s[n - 1] == '/';
  }

  /** `FindFrom` is the only index with no `ch` before it (from `i`) and `ch` or the end at it. */
  lemma FindFromIs(s: string, ch: char, i: nat, n: nat)
    requires i <= n <= |s|
    requires forall k :: i <= k < n ==> s[k] != ch
    requires n < |s| ==> s[n] == ch
    ensures FindFrom(s, ch, i) == n
  {
    var m := FindFrom(s, ch, i);
    assert m < |s| ==> s[m] == ch;
    assert n < |s| ==> s[n] == ch;
  }

  /** `RFindDot` is the only dot position (or -1) with no dot after it. */
  lemma RFindDotIs(s: string, j: nat, i: int)
    requires -1 <= i < j <= |s|
    requires i >= 0 ==> s[i] == '.'
    requires forall k :: i < k < j ==> s[k] != '.'
    ensures RFindDot(s, j) == i
  {
    var m := RFindDot(s, j);
    assert m >= 0 ==> s[m] == '.';
    assert i >= 0 ==> s[i] == '.';
  }

  /** No '?' and no '#' in `s`. */
  predicate NoQuery(s: string) {
    forall k :: 0 <= k < |s| ==> s[k] != '?' && s[k] != '#'
  }

  /** No ';' in `s`. */
  predicate NoParams(s: string) {
    forall k :: 0 <= k < |s| ==> s[k] != ';'
  }

  /** A string with no query, no fragment and no network location is its own `urlsplit` path. */
  lemma SplitPathNoQuery(u: string)
    requires NoQuery(u) && !StartsWith(u, "//")
    ensures SplitPath(u) == u
  {
    QueryStartIs(u, |u|);
    assert u[..|u|] == u;
  }

  /** A string with no query, no fragment, no parameters and no network location is its own path. */
  lemma UrlPathNoQuery(u: string)
    requires NoQuery(u) && NoParams(u) && !StartsWith(u, "//")
    ensures UrlPath(u) == u
  {
    SplitPathNoQuery(u);
    FindFromIs(u, ';', AfterLastSlash(u, |u|), |u|);
    assert u[..|u|] == u;
  }

  /** Whatever follows the first '?' or '#' does not reach the path. */
  lemma UrlPathDropsQuery(u: string, sep: char, rest: string)
    requires NoQuery(u) && (sep == '?' || sep == '#')
    ensures UrlPath(u + [sep] + rest) == UrlPath(u)
  {
    var w := u + [sep] + rest;
    assert forall k :: 0 <= k < |u| ==> w[k] == u[k];
    QueryStartIs(w, |u|);
    QueryStartIs(u, |u|);
    assert w[..|u|] == u == u[..|u|];
  }

  /**
   * Parameters after a ';' in the last segment do not reach the path: "/a/b.jpg;v=1" has the
   * path "/a/b.jpg", and "/a;b.jpg" the path "/a".
   */
  lemma UrlPathDropsParams(u: string, params: string)
    requires NoQuery(u) && NoParams(u) && !StartsWith(u, "//")
    requires forall k :: 0 <= k < |params| ==> params[k] != '/' && params[k] != '?' && params[k] != '#'
    ensures UrlPath(u + [';'] + params) == u
  {
    var w := u + [';'] + params;
    assert forall k :: 0 <= k < |u| ==> w[k] == u[k];
    assert w[|u|] == ';';
    assert forall k :: |u| < k < |w| ==> w[k] == params[k - |u| - 1];
    SplitPathNoQuery(w);
    var a := AfterLastSlash(u, |u|);
    AfterLastSlashIs(w, |w|, a);
    FindFromIs(w, ';', a, |u|);
    assert w[..|u|] == u;
  }

  /** The content-type hint ignores parameters after a ';' in the last segment. */
  lemma ContentTypeHintIgnoresParams(filePath: string, params: string)
    requires NoQuery(filePath) && NoParams(filePath) && !StartsWith(filePath, "//")
    requires forall k :: 0 <= k < |params| ==> params[k] != '/' && params[k] != '?' && params[k] != '#'
    ensures ContentTypeHint(filePath + [';'] + params) == ContentTypeHint(filePath)
  {
    UrlPathDropsParams(filePath, params);
    UrlPathNoQuery(filePath);
  }

  /** The content-type hint ignores the query and the fragment. */
  lemma ContentTypeHintIgnoresQuery(filePath: string, sep: char, rest: string)
    requires NoQuery(filePath) && (sep == '?' || sep == '#')
    ensures ContentTypeHint(filePath + [sep] + rest) == ContentTypeHint(filePath)
  {
    UrlPathDropsQuery(filePath, sep, rest);
  }

  /** The name of a path is its last component, whatever directories precede it. */
  lemma PathNameLastComponent(dir: string, name: string)
    requires dir == "" || dir[|dir| - 1] == '/'
    requires forall k :: 0 <= k < |name| ==> name[k] != '/'
    requires !Skipped(name)
    ensures PathName(dir + name) == name
  {
    var p := dir + name;
    assert forall k :: |dir| <= k < |p| ==> p[k] == name[k - |dir|];
    AfterLastSlashIs(p, |p|, |dir|);
    assert p[|dir|..|p|] == name;
  }

  /** For a plain path, the extension looked up is the lower-cased suffix of the last component. */
  lemma ExtensionIsNameSuffix(dir: string, name: string)
    requires dir == "" || dir[|dir| - 1] == '/'
    requires forall k :: 0 <= k < |name| ==> name[k] != '/'
    requires !Skipped(name)
    requires NoQuery(dir + name) && NoParams(dir + name) && !StartsWith(dir + name, "//")
    ensures Extension(dir + name) == Lower(Suffix(name))
  {
    UrlPathNoQuery(dir + name);
    PathNameLastComponent(dir, name);
  }

  /** The suffix of a stem followed by ".xyz" (no further dot) is ".xyz". */
  lemma SuffixOfStemExt(stem: string, ext: string)
    requires stem != ""
    requires |ext| >= 2 && ext[0] == '.' && forall k :: 0 < k < |ext| ==> ext[k] != '.'
    ensures Suffix(stem + ext) == ext
  {
    var name := stem + ext;
    assert forall k :: |stem| <= k < |name| ==> name[k] == ext[k - |stem|];
    RFindDotIs(name, |name|, |stem|);
    assert name[|stem|..] == ext;
  }

  /** A name whose only dot is its first character, such as ".png", has no suffix. */
  lemma SuffixOfHiddenName(rest: string)
    requires forall k :: 0 <= k < |rest| ==> rest[k] != '.'
    ensures Suffix("." + rest) == ""
  {
    var name := "." + rest;
    assert forall k :: 0 < k < |name| ==> name[k] == rest[k - 1];
    RFindDotIs(name, |name|, 0);
  }

  /**
   * A file name made of a stem and an extension ".xyz" (no further dot) is hinted by the
   * extension, lower-cased: "/images/Photo.JPG" as ".jpg", "/clip.v2.webm" as ".webm".
   */
  lemma ContentTypeHintOfFileName(dir: string, stem: string, ext: string)
    requires dir == "" || dir[|dir| - 1] == '/'
    requires stem != "" && forall k :: 0 <= k < |stem| ==> stem[k] != '/'
    requires |ext| >= 2 && ext[0] == '.' && forall k :: 0 < k < |ext| ==> ext[k] != '.' && ext[k] != '/'
    requires NoQuery(dir + stem + ext) && NoParams(dir + stem + ext) && !StartsWith(dir + stem + ext, "//")
    ensures ContentTypeHint(dir + stem + ext) ==
      if Lower(ext) in ContentTypes then Some(ContentTypes[Lower(ext)]) else None
  {
    var name := stem + ext;
    assert dir + stem + ext == dir + name;
    assert forall k :: 0 <= k < |name| ==> name[k] == (if k < |stem| then stem[k] else ext[k - |stem|]);
    ExtensionIsNameSuffix(dir, name);
    SuffixOfStemExt(stem, ext);
  }

  /** A hidden file such as "/.png", whose only dot begins its name, has no suffix and so no hint. */
  lemma ContentTypeHintHiddenFile(dir: string, rest: string)
    requires dir == "" || dir[|dir| - 1] == '/'
    requires rest != "" && forall k :: 0 <= k < |rest| ==> rest[k] != '.' && rest[k] != '/'
    requires NoQuery(dir + "." + rest) && NoParams(dir + "." + rest) && !StartsWith(dir + "." + rest, "//")
    ensures ContentTypeHint(dir + "." + rest) == None
  {
    var name := "." + rest;
    assert dir + "." + rest == dir + name;
    assert forall k :: 0 < k < |name| ==> name[k] == rest[k - 1];
    ExtensionIsNameSuffix(dir, name);
    SuffixOfHiddenName(rest);
    assert Lower("") == "";
  }

  /** Lowering never makes or removes one of the separators '/', '.', '?', '#' and ';'. */
  lemma LowerKeepsSeparators(s: string)
    ensures |Lower(s)| == |s|
    ensures forall k :: 0 <= k < |s| ==> (Lower(s)[k] == '/' <==> s[k] == '/')
    ensures forall k :: 0 <= k < |s| ==> (Lower(s)[k] == '.' <==> s[k] == '.')
    ensures forall k :: 0 <= k < |s| ==> (Lower(s)[k] == '?' <==> s[k] == '?')
    ensures forall k :: 0 <= k < |s| ==> (Lower(s)[k] == '#' <==> s[k] == '#')
    ensures forall k :: 0 <= k < |s| ==> (Lower(s)[k] == ';' <==> s[k] == ';')
  {
  }

  lemma {:induction false} QueryStartLower(s: string, i: nat)
    requires i <= |s|
    ensures QueryStart(Lower(s), i) == QueryStart(s, i)
    decreases |s| - i
  {
    LowerKeepsSeparators(s);
    if i < |s| {
      QueryStartLower(s, i + 1);
    }
  }

  lemma {:induction false} FindFromLower(s: string, ch: char, i: nat)
    requires ch == '/' || ch == ';'
    requires i <= |s|
    ensures FindFrom(Lower(s), ch, i) == FindFrom(s, ch, i)
    decreases |s| - i
  {
    LowerKeepsSeparators(s);
    if i < |s| {
      FindFromLower(s, ch, i + 1);
    }
  }

  lemma {:induction false} AfterLastSlashLower(s: string, j: nat)
    requires j <= |s|
    ensures AfterLastSlash(Lower(s), j) == AfterLastSlash(s, j)
  {
    LowerKeepsSeparators(s);
    if j > 0 {
      AfterLastSlashLower(s, j - 1);
    }
  }

  lemma {:induction false} RFindDotLower(s: string, j: nat)
    requires j <= |s|
    ensures RFindDot(Lower(s), j) == RFindDot(s, j)
  {
    LowerKeepsSeparators(s);
    if j > 0 {
      RFindDotLower(s, j - 1);
    }
  }

  /** A string lowers to one made of '/' and '.' only when it is that string already. */
  lemma LowerPunctuation(s: string, t: string)
    requires forall k :: 0 <= k < |t| ==> t[k] == '/' || t[k] == '.'
    ensures Lower(s) == t <==> s == t
  {
    if s == t {
      assert forall k :: 0 <= k < |s| ==> LowerChar(s[k]) == t[k];
    }
    if Lower(s) == t {
      assert forall k :: 0 <= k < |s| ==> LowerChar(s[k]) == s[k];
    }
  }

  lemma UrlPathLower(u: string)
    ensures UrlPath(Lower(u)) == Lower(UrlPath(u))
  {
    SplitPathLower(u);
    StripParamsLower(SplitPath(u));
  }

  lemma StripParamsLower(p: string)
    ensures StripParams(Lower(p)) == Lower(StripParams(p))
  {
    var a := AfterLastSlash(p, |p|);
    AfterLastSlashLower(p, |p|);
    FindFromLower(p, ';', a);
    LowerSlice(p, 0, FindFrom(p, ';', a));
  }

  lemma SplitPathLower(u: string)
    ensures SplitPath(Lower(u)) == Lower(SplitPath(u))
  {
    var n := QueryStart(u, 0);
    QueryStartLower(u, 0);
    var b := u[..n];
    var bL := Lower(u)[..n];
    LowerSlice(u, 0, n);
    assert bL == Lower(b);
    if |b| >= 2 {
      LowerSlice(b, 0, 2);
      LowerPunctuation(b[..2], "//");
      assert bL[..2] == "//" <==> b[..2] == "//";
      if b[..2] == "//" {
        var host := b[2..];
        LowerSlice(b, 2, |b|);
        assert bL[2..] == Lower(host);
        var f := FindFrom(host, '/', 0);
        FindFromLower(host, '/', 0);
        LowerSlice(host, f, |host|);
        assert SplitPath(Lower(u)) == Lower(host)[f..];
        assert SplitPath(u) == host[f..];
      } else {
        assert SplitPath(Lower(u)) == bL;
        assert SplitPath(u) == b;
      }
    } else {
      assert SplitPath(Lower(u)) == bL;
      assert SplitPath(u) == b;
    }
  }

  /** Lowering keeps the last component where it was, lowers it, and keeps whether pathlib drops it. */
  lemma LastComponentLower(p: string, j: nat)
    requires j <= |p|
    ensures var n := AfterLastSlash(p, j);
      && AfterLastSlash(Lower(p), j) == n
      && Lower(p)[n..j] == Lower(p[n..j])
      && (Skipped(Lower(p)[n..j]) <==> Skipped(p[n..j]))
  {
    var n := AfterLastSlash(p, j);
    AfterLastSlashLower(p, j);
    LowerSlice(p, n, j);
    assert n < j ==> Lower(p)[n] == LowerChar(p[n]);
  }

  lemma {:induction false} NameBeforeLower(p: string, j: nat)
    requires j <= |p|
    ensures NameBefore(Lower(p), j) == Lower(NameBefore(p, j))
  {
    LastComponentLower(p, j);
    var n := AfterLastSlash(p, j);
    if Skipped(p[n..j]) && n == 0 {
      assert Lower("") == "";
    } else if Skipped(p[n..j]) {
      NameBeforeLower(p, n - 1);
    }
  }

  lemma PathNameLower(p: string)
    ensures PathName(Lower(p)) == Lower(PathName(p))
  {
    NameBeforeLower(p, |p|);
  }

  lemma SuffixLower(name: string)
    ensures Suffix(Lower(name)) == Lower(Suffix(name))
  {
    RFindDotLower(name, |name|);
    var i := RFindDot(name, |name|);
    if 0 < i < |name| - 1 {
      LowerSlice(name, i, |name|);
      assert Suffix(Lower(name)) == Lower(name)[i..];
    } else {
      assert Suffix(Lower(name)) == "";
      assert Lower("") == "";
    }
  }

  /** The header values `request` forces, whatever the header builder produced for those names. */
  const NavigationHeaders: map<string, string> := map[
    "Cache-Control" := "no-cache",
    "Pragma" := "no-cache",
    "Priority" := "u=0, i",
    "Sec-Fetch-Mode" := "navigate",
    "Sec-Fetch-User" := "?1",
    "Upgrade-Insecure-Requests" := "1"
  ]

  /** `headers` is `built` with the six navigation headers set and every other entry kept. */
  predicate NavigationAligned(built: map<string, string>, headers: map<string, string>) {
    && headers.Keys == built.Keys + NavigationHeaders.Keys
    && (forall key :: key in NavigationHeaders ==> headers[key] == NavigationHeaders[key])
    && (forall key :: key in built && key !in NavigationHeaders ==> headers[key] == built[key])
  }

  /** The headers after the override: the navigation headers win over the builder's. */
  function Aligned(built: map<string, string>): (headers: map<string, string>)
    ensures NavigationAligned(built, headers)
  {
    built + NavigationHeaders
  }

  /** The six assignments into the header dictionary the builder returned. */
  method AlignNavigationHeaders(built: map<string, string>) returns (headers: map<string, string>)
    ensures NavigationAligned(built, headers)
    ensures headers == Aligned(built)
  {
    headers := built;
    headers := headers["Cache-Control" := "no-cache"];
    headers := headers["Pragma" := "no-cache"];
    headers := headers["Priority" := "u=0, i"];
    headers := headers["Sec-Fetch-Mode" := "navigate"];
    headers := headers["Sec-Fetch-User" := "?1"];
    headers := headers["Upgrade-Insecure-Requests" := "1"];
  }
}
