/**
 * The part of the `url` crate the adapters use: parsing a base API URL and
 * joining an absolute path onto it, after the WHATWG URL standard.
 */
module Urls {
  import opened Wrappers
  import opened Wire

  /** A parsed URL, kept as its scheme and everything after the first `:`. */
  datatype Url = Url(scheme: string, rest: string) {
    function Serialization(): string {
      scheme + ":" + rest
    }
  }

  predicate IsAsciiAlpha(c: char) {
    'a' <= c <= 'z' || 'A' <= c <= 'Z'
  }

  predicate IsSchemeChar(c: char) {
    IsAsciiAlpha(c) || '0' <= c <= '9' || c == '+' || c == '-' || c == '.'
  }

  predicate IsScheme(s: string) {
    |s| > 0 && IsAsciiAlpha(s[0]) && forall k :: 0 <= k < |s| ==> IsSchemeChar(s[k])
  }

  function FirstColon(s: string): (r: Option<nat>)
    ensures r.None? <==> ':' !in s
    ensures r.Some? ==> r.value < |s| && s[r.value] == ':' && ':' !in s[..r.value]
  {
    if s == [] then None
    else if s[0] == ':' then Some(0)
    else match FirstColon(s[1..])
      case None => None
      case Some(i) =>
        assert s[1..][..i] == s[1..i + 1];
        Some(i + 1)
  }

  const RelativeWithoutBase := "relative URL without a base"
  const CannotBeABase := "relative URL with a cannot-be-a-base base"
  const EmptyHost := "empty host"

  /** The schemes the URL standard treats as special, apart from `file`: they always have a host. */
  predicate IsSpecial(scheme: string) {
    scheme in {"http", "https", "ws", "wss", "ftp"}
  }

  /** Drops the slashes and backslashes a special URL may carry before its host. */
  function SkipSlashes(t: string): (r: string)
    ensures |r| <= |t| && r == t[|t| - |r|..]
    ensures r == [] || (r[0] != '/' && r[0] != '\\')
  {
    if t != [] && (t[0] == '/' || t[0] == '\\') then SkipSlashes(t[1..]) else t
  }

  /**
   * What follows the `:` of a special URL, normalised: `//`, the host, and a
   * path that starts with `/` (an empty path becomes `/`). An empty host is
   * an error.
   */
  function SpecialRest(t: string): (r: Result<string, string>)
    ensures r.Success? <==> HostPart(SkipSlashes(t)) != []
    ensures r.Failure? ==> r.error == EmptyHost
    ensures r.Success? ==>
      var h := HostPart(SkipSlashes(t));
      |r.value| > 2 + |h| && r.value[..2 + |h|] == "//" + h && r.value[2 + |h|] == '/'
  {
    var u := SkipSlashes(t);
    var h := HostPart(u);
    var tail := u[|h|..];
    if h == [] then Failure(EmptyHost)
    else if tail != [] && tail[0] == '/' then Success("//" + h + tail)
    else Success("//" + h + "/" + tail)
  }

  /**
   * `Url::parse`, reduced to the scheme rule and, for special schemes, the
   * host rule: the text before the first `:` must be a scheme (stored in
   * lower case); a special URL needs a nonempty host and is normalised to
   * `//host/path`; any other URL keeps its text after the `:` as it is.
   */
  function ParseUrl(s: string): (r: Result<Url, string>)
    ensures r.Success? ==> IsScheme(r.value.scheme) && Lower(r.value.scheme) == r.value.scheme
    ensures r.Failure? ==> r.error == RelativeWithoutBase || r.error == EmptyHost
    ensures r == Failure(RelativeWithoutBase) <==> FirstColon(s).None? || !IsScheme(s[..FirstColon(s).value])
    ensures FirstColon(s).Some? && IsScheme(s[..FirstColon(s).value]) ==>
      var i := FirstColon(s).value;
      var scheme := Lower(s[..i]);
      if IsSpecial(scheme) then
        (r.Success? <==> HostPart(SkipSlashes(s[i + 1..])) != []) &&
        (r.Failure? ==> r.error == EmptyHost) &&
        (r.Success? ==> r.value == Url(scheme, SpecialRest(s[i + 1..]).value))
      else
        r == Success(Url(scheme, s[i + 1..]))
  {
    match FirstColon(s)
    case None => Failure(RelativeWithoutBase)
    case Some(i) =>
      if !IsScheme(s[..i]) then Failure(RelativeWithoutBase)
      else
        var scheme := Lower(s[..i]);
        LowerScheme(s[..i]);
        if IsSpecial(scheme) then
          var rest :- SpecialRest(s[i + 1..]);
          Success(Url(scheme, rest))
        else Success(Url(scheme, s[i + 1..]))
  }

  /** Lower-casing keeps a scheme a scheme, and lower-cases it for good. */
  lemma LowerScheme(s: string)
    requires IsScheme(s)
    ensures IsScheme(Lower(s)) && Lower(Lower(s)) == Lower(s)
  {
    LowerIdempotent(s);
  }

  /** The host part of a hierarchical URL's rest: everything before the first `/`, `?` or `#`. */
  function HostPart(s: string): (r: string)
    ensures |r| <= |s| && r == s[..|r|]
    ensures forall k :: 0 <= k < |r| ==> r[k] != '/' && r[k] != '?' && r[k] != '#'
  {
    if s == [] || s[0] == '/' || s[0] == '?' || s[0] == '#' then []
    else [s[0]] + HostPart(s[1..])
  }

  /** The authority (`//host`) a hierarchical URL keeps when joined with an absolute path. */
  function Authority(rest: string): (a: string)
    ensures |a| <= |rest| && a == rest[..|a|]
  {
    if |rest| >= 2 && rest[..2] == "//" then
      var h := HostPart(rest[2..]);
      assert rest[..2 + |h|] == rest[..2] + rest[2..][..|h|];
      "//" + h
    else []
  }

  /**
   * `Url::join` with an absolute path: the path replaces the base URL's path,
   * query and fragment; a base whose rest does not start with `/` cannot be a base.
   */
  function Join(base: Url, path: string): (r: Result<Url, string>)
    requires |path| > 0 && path[0] == '/'
    ensures r.Success? <==> |base.rest| > 0 && base.rest[0] == '/'
    ensures r.Success? ==> r.value.scheme == base.scheme && r.value.rest == Authority(base.rest) + path
    ensures r.Failure? ==> r.error == CannotBeABase
  {
    if |base.rest| > 0 && base.rest[0] == '/' then Success(Url(base.scheme, Authority(base.rest) + path))
    else Failure(CannotBeABase)
  }

  /** A text without `/`, `?` or `#` is all host. */
  lemma {:induction false} HostPartWhole(h: string)
    requires forall k :: 0 <= k < |h| ==> h[k] != '/' && h[k] != '?' && h[k] != '#'
    ensures HostPart(h) == h
  {
    if h != [] {
      HostPartWhole(h[1..]);
    }
  }

  /** A host followed by an absolute path reads back as that host. */
  lemma {:induction false} HostPartBeforePath(h: string, path: string)
    requires forall k :: 0 <= k < |h| ==> h[k] != '/' && h[k] != '?' && h[k] != '#'
    requires |path| > 0 && path[0] == '/'
    ensures HostPart(h + path) == h
  {
    if h != [] {
      assert (h + path)[1..] == h[1..] + path;
      HostPartBeforePath(h[1..], path);
    }
  }

  /** A normalised special rest, `//host/...`, joins with an absolute path by keeping `//host`. */
  lemma NormalisedRestJoins(scheme: string, rest: string, h: string, path: string)
    requires forall k :: 0 <= k < |h| ==> h[k] != '/' && h[k] != '?' && h[k] != '#'
    requires |rest| > 2 + |h| && rest[..2 + |h|] == "//" + h && rest[2 + |h|] == '/'
    requires |path| > 0 && path[0] == '/'
    ensures Join(Url(scheme, rest), path) == Success(Url(scheme, "//" + h + path))
  {
    var p := rest[2 + |h|..];
    assert rest == "//" + h + p;
    assert rest[2..] == h + p;
    HostPartBeforePath(h, p);
  }

  /** The rest of a parsed special URL is a normalised `//host/...` with a nonempty host. */
  lemma SpecialParseShape(s: string) returns (h: string)
    requires ParseUrl(s).Success? && IsSpecial(ParseUrl(s).value.scheme)
    ensures h != [] && forall k :: 0 <= k < |h| ==> h[k] != '/' && h[k] != '?' && h[k] != '#'
    ensures var rest := ParseUrl(s).value.rest;
      |rest| > 2 + |h| && rest[..2 + |h|] == "//" + h && rest[2 + |h|] == '/'
  {
    var i := FirstColon(s).value;
    var t := s[i + 1..];
    h := HostPart(SkipSlashes(t));
    assert ParseUrl(s).value.rest == SpecialRest(t).value;
  }

  /**
   * A special URL always joins with an absolute path: the result keeps the
   * scheme and `//host` and takes the path.
   */
  lemma SpecialBaseJoins(u: Url, path: string) returns (h: string)
    requires exists s :: ParseUrl(s) == Success(u)
    requires IsSpecial(u.scheme)
    requires |path| > 0 && path[0] == '/'
    ensures h != [] && |u.rest| > 2 + |h| && u.rest[..2 + |h|] == "//" + h
    ensures Join(u, path) == Success(Url(u.scheme, "//" + h + path))
  {
    var s :| ParseUrl(s) == Success(u);
    h := SpecialParseShape(s);
    NormalisedRestJoins(u.scheme, u.rest, h, path);
  }

  /** `ParseUrl` on a special scheme, once the first colon is known. */
  lemma ParseSpecialAt(s: string, i: nat, scheme: string)
    requires FirstColon(s) == Some(i) && IsScheme(s[..i])
    requires Lower(s[..i]) == scheme && IsSpecial(scheme)
    ensures ParseUrl(s) == match SpecialRest(s[i + 1..])
      case Failure(e) => Failure(e)
      case Success(rest) => Success(Url(scheme, rest))
  {
  }

  /** After a scheme, the first colon is the one that ends it. */
  lemma {:induction false} ColonAfterScheme(scheme: string, t: string)
    requires forall k :: 0 <= k < |scheme| ==> IsSchemeChar(scheme[k])
    ensures FirstColon(scheme + ":" + t) == Some(|scheme|)
  {
    if scheme != [] {
      assert (scheme + ":" + t)[1..] == scheme[1..] + ":" + t;
      ColonAfterScheme(scheme[1..], t);
    }
  }

  /** `ParseUrl` on a special scheme followed by `:` and `t`. */
  lemma ParseSpecial(scheme: string, t: string)
    requires IsScheme(scheme) && IsSpecial(Lower(scheme))
    ensures ParseUrl(scheme + ":" + t) == match SpecialRest(t)
      case Failure(e) => Failure(e)
      case Success(rest) => Success(Url(Lower(scheme), rest))
  {
    var s := scheme + ":" + t;
    ColonAfterScheme(scheme, t);
    assert s[..|scheme|] == scheme;
    assert s[|scheme| + 1..] == t;
    ParseSpecialAt(s, |scheme|, Lower(scheme));
  }

  /** A special URL with nothing but slashes after the scheme has no host, and is an error. */
  lemma EmptyHostRejected(scheme: string, slashes: string)
    requires IsScheme(scheme) && IsSpecial(Lower(scheme))
    requires forall k :: 0 <= k < |slashes| ==> slashes[k] == '/' || slashes[k] == '\\'
    ensures ParseUrl(scheme + ":" + slashes) == Failure(EmptyHost)
  {
    SkipAllSlashes(slashes);
    ParseSpecial(scheme, slashes);
  }

  lemma {:induction false} SkipAllSlashes(slashes: string)
    requires forall k :: 0 <= k < |slashes| ==> slashes[k] == '/' || slashes[k] == '\\'
    ensures SkipSlashes(slashes) == []
  {
    if slashes != [] {
      SkipAllSlashes(slashes[1..]);
    }
  }

  /**
   * A special URL whose host is not preceded by `//` (`http:host:1`) is
   * normalised to `//host/`, so it can be joined.
   */
  lemma MissingSlashesNormalised(scheme: string, host: string)
    requires IsScheme(scheme) && IsSpecial(Lower(scheme))
    requires host != [] && host[0] != '\\'
    requires forall k :: 0 <= k < |host| ==> host[k] != '/' && host[k] != '?' && host[k] != '#'
    ensures ParseUrl(scheme + ":" + host) == Success(Url(Lower(scheme), "//" + host + "/"))
  {
    assert SkipSlashes(host) == host;
    HostPartWhole(host);
    assert host[|host|..] == [];
    assert "//" + host + "/" + [] == "//" + host + "/";
    ParseSpecial(scheme, host);
  }
}
