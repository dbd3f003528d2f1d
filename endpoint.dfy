/**
 * The endpoint-string grammar the resolver applies to the upstream, frontend and
 * backend flags. A string containing "://" is handed to a URL parser; any other
 * string is split on ':' and must give exactly two pieces, host and port.
 */
module EndpointParsing {
  import opened Wrappers
  import opened Strings
  import opened AppConfig
  import opened Errors

  /** What `url.Parse` yields that the resolver uses: the scheme, `Hostname()` and `Port()`. */
  datatype Url = Url(scheme: string, hostname: string, port: string)

  /**
   * The library functions the resolver calls but whose code is not modelled:
   * `url.Parse` (None when it returns an error) and `cast.ToInt64`.
   */
  datatype Libraries = Libraries(parseUrl: string -> Option<Url>, toInt64: string -> Int64)

  const SchemeSeparator := "://"

  /** The host:port form sets the protocol to "http" only for the upstream flag. */
  function DefaultProtocol(field: Field): string
  {
    if field == Upstream then "http" else ""
  }

  /** Reads one endpoint flag; errors name the flag and the grammar that failed. */
  function ParseEndpoint(field: Field, s: string, libs: Libraries): (r: Result<Endpoint, Error>)
    // URL form: the parser decides; the endpoint copies scheme, hostname and port.
    ensures Contains(s, SchemeSeparator) ==> (r.Success? <==> libs.parseUrl(s).Some?)
    ensures Contains(s, SchemeSeparator) && r.Success? ==>
      var u := libs.parseUrl(s).value;
      r.value == Endpoint(u.scheme, u.hostname, libs.toInt64(u.port))
    // host:port form: accepted exactly when the string holds one ':'.
    ensures !Contains(s, SchemeSeparator) ==> (r.Success? <==> multiset(s)[':'] == 1)
    ensures !Contains(s, SchemeSeparator) && r.Success? ==>
      var h := r.value.host;
      && r.value.protocol == DefaultProtocol(field)
      && ':' !in h
      && |h| < |s| && s[..|h|] == h && s[|h|] == ':'
      && r.value.port == libs.toInt64(s[|h| + 1..])
    ensures r.Failure? ==>
      r.error == EndpointFormat(field, if Contains(s, SchemeSeparator) then UrlForm else HostPortForm)
  {
    if Contains(s, SchemeSeparator) then
      match libs.parseUrl(s)
      case None => Failure(EndpointFormat(field, UrlForm))
      case Some(u) => Success(Endpoint(u.scheme, u.hostname, libs.toInt64(u.port)))
    else
      var parts := Split(s, ':');
      SplitCount(s, ':');
      if |parts| != 2 then Failure(EndpointFormat(field, HostPortForm))
      else
        SplitPiecesFree(s, ':');
        JoinSplit(s, ':');
        assert s == parts[0] + [':'] + parts[1];
        assert s[..|parts[0]|] == parts[0];
        assert s[|parts[0]| + 1..] == parts[1];
        Success(Endpoint(DefaultProtocol(field), parts[0], libs.toInt64(parts[1])))
  }

  /**
   * A string whose only ':' sits between a host and a port reaches the URL parser
   * exactly when the port text starts with "//".
   */
  lemma {:induction false} SchemeSeparatorIff(h: string, p: string)
    requires ':' !in h && ':' !in p
    ensures Contains(h + ":" + p, SchemeSeparator) <==> |p| >= 2 && p[..2] == "//"
    decreases |h|
  {
    var s := h + ":" + p;
    if |h| == 0 {
      assert s == ":" + p;
      if |s| >= 3 {
        assert s[..3] == ":" + p[..2];
      }
      if |s| >= 1 {
        assert s[1..] == p;
      }
      ColonFreeHasNoSeparator(p);
    } else {
      SchemeSeparatorIff(h[1..], p);
      assert s[1..] == h[1..] + ":" + p;
      assert s[0] == h[0] != ':';
    }
  }

  /** A string without ':' never contains "://". */
  lemma {:induction false} ColonFreeHasNoSeparator(p: string)
    requires ':' !in p
    ensures !Contains(p, SchemeSeparator)
    decreases |p|
  {
    if |p| >= 3 {
      assert p[0] in p;
      ColonFreeHasNoSeparator(p[1..]);
    }
  }

  /**
   * The host:port grammar: a colon-free host and port joined by ':' (and not read as a URL)
   * give exactly that host and the converted port, with the field's default protocol.
   * Neither part is required to be non-empty.
   */
  lemma HostPortAccepted(field: Field, h: string, p: string, libs: Libraries)
    requires ':' !in h && ':' !in p
    requires !(|p| >= 2 && p[..2] == "//")
    ensures ParseEndpoint(field, h + ":" + p, libs)
         == Success(Endpoint(DefaultProtocol(field), h, libs.toInt64(p)))
  {
    SchemeSeparatorIff(h, p);
    assert Join([h, p], ':') == h + [':'] + p;
    SplitJoin([h, p], ':');
  }

  /** The bare string ":" passes the host:port grammar with an empty host. */
  lemma ColonOnlyAccepted(field: Field, libs: Libraries)
    ensures ParseEndpoint(field, ":", libs)
         == Success(Endpoint(DefaultProtocol(field), "", libs.toInt64("")))
  {
    HostPortAccepted(field, "", "", libs);
  }
}
