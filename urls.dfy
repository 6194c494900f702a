/** The parsed URL records that `new URL(...)` yields, as far as the page
    loader looks at them. Parsing and resolution themselves follow the WHATWG
    URL Standard (section 4.4, "URL parsing") and are not modelled: they enter
    the model as the function values `Parser` and `Resolver`. */
module Urls {
  import opened Outcomes

  /** A URL record, in the components the JavaScript URL API exposes, with
      one difference: `search` is '?' followed by the query and `hash` is '#'
      followed by the fragment whenever the query or fragment is present,
      even when it is empty (the JavaScript getters give "" for an empty
      one); each is "" only when absent. `protocol` keeps its trailing ':'.
      `hasHost` says that the host is present (it may be empty, as in
      `file:///x`); it is false for URLs without an authority, such as
      `data:` or `mailto:` URLs. */
  datatype Url = Url(
    protocol: string,
    username: string,
    password: string,
    hasHost: bool,
    hostname: string,
    port: string,
    pathname: string,
    search: string,
    hash: string)

  /** The record convention above for the query and fragment. */
  predicate MarkedParts(u: Url) {
    && (u.search == "" || u.search[0] == '?')
    && (u.hash == "" || u.hash[0] == '#')
  }

  /** The error `new URL(...)` throws ("Invalid URL"). */
  datatype UrlError = InvalidUrl

  /** `new URL(s)`: None when `s` is not a valid absolute URL. */
  type Parser = string -> Option<Url>

  /** `new URL(ref, base)`: None when the reference cannot be resolved. The
      reference is None when the attribute is absent. */
  type Resolver = (Option<string>, string) -> Option<Url>

  function Credentials(u: Url): string {
    if u.username == "" && u.password == "" then ""
    else u.username + (if u.password == "" then "" else ":" + u.password) + "@"
  }

  /** A path that would read as an authority if written right after the
      scheme: it starts with an empty segment followed by more segments. */
  predicate StartsWithEmptySegment(pathname: string) {
    |pathname| > 1 && pathname[..2] == "//"
  }

  /** The `href` of a URL record: the URL serializer of the WHATWG URL
      Standard (section 4.5). Without a host, a path that starts with an
      empty segment is written after "/." so that it is not read back as an
      authority. */
  function Href(u: Url): (s: string)
    ensures |s| >= |u.protocol| + |u.pathname + u.search + u.hash|
    ensures s[..|u.protocol|] == u.protocol
    ensures s[|s| - |u.pathname + u.search + u.hash|..] == u.pathname + u.search + u.hash
  {
    var authority := if u.hasHost
      then "//" + Credentials(u) + u.hostname + (if u.port == "" then "" else ":" + u.port)
      else "";
    var guard := if !u.hasHost && StartsWithEmptySegment(u.pathname) then "/." else "";
    u.protocol + authority + guard + (u.pathname + u.search + u.hash)
  }

  /** After the scheme, the serialization starts with "//" exactly when the
      URL has a host, so that re-parsing an `href` (as the image naming does)
      does not invent a host. */
  lemma HrefMarksAuthority(u: Url)
    requires MarkedParts(u)
    ensures var rest := Href(u)[|u.protocol|..];
      u.hasHost <==> |rest| >= 2 && rest[..2] == "//"
  {
    var rest := Href(u)[|u.protocol|..];
    var tail := u.pathname + u.search + u.hash;
    if !u.hasHost {
      if StartsWithEmptySegment(u.pathname) {
        assert rest == "/." + tail;
        assert rest[1] == '.';
      } else {
        assert rest == tail;
        if |rest| >= 2 {
          if |u.pathname| >= 2 {
            assert rest[..2] == u.pathname[..2];
          } else if |u.pathname| == 1 {
            if u.search != "" {
              assert rest[1] == u.search[0];
            } else {
              assert rest[1] == u.hash[0];
            }
          } else if u.search != "" {
            assert rest[0] == u.search[0];
          } else {
            assert rest[0] == u.hash[0];
          }
        }
      }
    } else {
      assert rest[..2] == "//";
    }
  }

  /** The `href` of a URL with a host and no credentials or port. */
  lemma HrefWithPlainHost(u: Url)
    requires u.hasHost && u.username == "" && u.password == "" && u.port == ""
    ensures Href(u) == u.protocol + "//" + u.hostname + (u.pathname + u.search + u.hash)
  {
    assert Credentials(u) == "";
    assert "//" + "" + u.hostname + "" == "//" + u.hostname;
  }

  /** The example of a host-less URL whose path starts with an empty
      segment: `web+demo:/.//x/a.png`, whose `pathname` is "//x/a.png". */
  lemma HostlessEmptySegmentHref()
    ensures Href(Url("web+demo:", "", "", false, "", "", "//x/a.png", "", "")) == "web+demo:/.//x/a.png"
  {
    var u := Url("web+demo:", "", "", false, "", "", "//x/a.png", "", "");
    assert StartsWithEmptySegment(u.pathname);
    assert Href(u) == "web+demo:" + "" + "/." + ("//x/a.png" + "" + "");
  }

  /** An `http:` URL with the given host and path and nothing else. */
  function HttpUrl(hostname: string, pathname: string): Url {
    Url("http:", "", "", true, hostname, "", pathname, "", "")
  }
}
