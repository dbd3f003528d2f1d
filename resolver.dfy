/**
 * The body of the command: it loads or defaults the base configuration, then overlays
 * the flag values on it in a fixed order, returning at the first failed check.
 */
module Resolver {
  import opened Wrappers
  import opened AppConfig
  import opened Errors
  import opened EndpointParsing

  /** The eleven flag values, each already merged with its environment variable. */
  datatype Flags = Flags(
    port: Int64,
    configFile: string,
    sessionKey: string,
    sessionMaxAge: Int64,
    clientID: string,
    clientSecret: string,
    redirectURI: string,
    frontend: string,
    backend: string,
    upstream: string,
    debug: bool)

  /** A client id was given without its secret or redirect URI. */
  predicate IncompleteClient(flags: Flags)
  {
    flags.clientID != "" && (flags.clientSecret == "" || flags.redirectURI == "")
  }

  /** The base upstream has both a host and a port, so no endpoint flag is read. */
  predicate KeepsBaseUpstream(base: Config)
  {
    base.upstream.host != "" && base.upstream.port != 0
  }

  /** The endpoint stage passes: the base upstream is kept, or the flag(s) it falls back on parse. */
  predicate EndpointsResolve(base: Config, flags: Flags, libs: Libraries)
  {
    || KeepsBaseUpstream(base)
    || (flags.upstream != "" && ParseEndpoint(Upstream, flags.upstream, libs).Success?)
    || (&& flags.upstream == "" && flags.frontend != "" && flags.backend != ""
        && ParseEndpoint(Frontend, flags.frontend, libs).Success?
        && ParseEndpoint(Backend, flags.backend, libs).Success?)
  }

  /**
   * The unconditional overlays and the zero-sentinel precedence: auth and services are
   * forced, port and session lifetime come from the flags only when the base leaves
   * them 0, and a non-empty session-key flag replaces the base secret.
   */
  method ApplyOverlays(base: Config, flags: Flags) returns (cfg: Config)
    ensures cfg.auth == DoreamonAuth && cfg.services == DoreamonServices
    ensures cfg.port == (if base.port != 0 then base.port else flags.port)
    ensures cfg.sessionMaxAge == (if base.sessionMaxAge != 0 then base.sessionMaxAge else flags.sessionMaxAge)
    ensures cfg.secretKey == (if flags.sessionKey != "" then flags.sessionKey else base.secretKey)
    ensures cfg.oauth2 == base.oauth2
    ensures cfg.upstream == base.upstream && cfg.frontend == base.frontend && cfg.backend == base.backend
  {
    cfg := base;
    cfg := cfg.(auth := cfg.auth.(mode := "oauth2"));
    cfg := cfg.(auth := cfg.auth.(provider := "doreamon"));
    cfg := cfg.(services := cfg.services.(app := ServiceRef("service", "https://api.zcorky.com/oauth/app")));
    cfg := cfg.(services := cfg.services.(user := ServiceRef("service", "https://api.zcorky.com/user")));
    cfg := cfg.(services := cfg.services.(menus := ServiceRef("service", "https://api.zcorky.com/menus")));
    cfg := cfg.(services := cfg.services.(users := ServiceRef("service", "https://api.zcorky.com/users")));
    cfg := cfg.(services := cfg.services.(openID := ServiceRef("service", "https://api.zcorky.com/oauth/app/user/open_id")));
    if cfg.port == 0 {
      cfg := cfg.(port := flags.port);
    }
    if flags.sessionKey != "" {
      cfg := cfg.(secretKey := flags.sessionKey);
    }
    if cfg.sessionMaxAge == 0 {
      cfg := cfg.(sessionMaxAge := flags.sessionMaxAge);
    }
  }

  /**
   * The client-id flag, when given, needs its secret and redirect URI, and then
   * replaces the whole client list by the one doreamon client.
   */
  method ApplyClient(cfg: Config, flags: Flags) returns (r: Result<Config, Error>)
    ensures r.Failure? <==> IncompleteClient(flags)
    ensures r.Failure? ==> r.error == ClientFieldsRequired
    ensures r.Success? && flags.clientID != "" ==>
      r.value == cfg.(oauth2 := [DoreamonClient(flags.clientID, flags.clientSecret, flags.redirectURI)])
    ensures r.Success? && flags.clientID == "" ==> r.value == cfg
  {
    var next := cfg;
    if flags.clientID != "" {
      if flags.clientSecret == "" || flags.redirectURI == "" {
        return Failure(ClientFieldsRequired);
      }
      next := next.(oauth2 := [OAuth2Client("doreamon", flags.clientID, flags.clientSecret, flags.redirectURI)]);
    }
    return Success(next);
  }

  /**
   * Topology selection: keep a usable base upstream, else read the upstream flag,
   * else read both the frontend and the backend flags. Only the three endpoints change.
   */
  method ResolveEndpoints(cfg: Config, flags: Flags, libs: Libraries) returns (r: Result<Config, Error>)
    ensures r.Success? <==> EndpointsResolve(cfg, flags, libs)
    ensures r.Success? ==>
      r.value == cfg.(upstream := r.value.upstream, frontend := r.value.frontend, backend := r.value.backend)
    ensures KeepsBaseUpstream(cfg) ==> r == Success(cfg)
    ensures !KeepsBaseUpstream(cfg) && flags.upstream != "" ==>
      match ParseEndpoint(Upstream, flags.upstream, libs)
      case Failure(e) => r == Failure(e)
      case Success(u) => r == Success(cfg.(upstream := u))
    ensures !KeepsBaseUpstream(cfg) && flags.upstream == "" ==>
      if flags.frontend == "" || flags.backend == "" then r == Failure(FrontendBackendRequired)
      else match (ParseEndpoint(Frontend, flags.frontend, libs), ParseEndpoint(Backend, flags.backend, libs))
        case (Failure(e), _) => r == Failure(e)
        case (Success(_), Failure(e)) => r == Failure(e)
        case (Success(fe), Success(be)) => r == Success(cfg.(frontend := fe, backend := be))
  {
    var next := cfg;
    if next.upstream.host != "" && next.upstream.port != 0 {
      // the base upstream is used as it is
    } else if flags.upstream != "" {
      var upstream := ParseEndpoint(Upstream, flags.upstream, libs);
      if upstream.Failure? {
        return Failure(upstream.error);
      }
      next := next.(upstream := upstream.value);
    } else {
      if flags.frontend == "" || flags.backend == "" {
        return Failure(FrontendBackendRequired);
      }
      var frontend := ParseEndpoint(Frontend, flags.frontend, libs);
      if frontend.Failure? {
        return Failure(frontend.error);
      }
      next := next.(frontend := frontend.value);
      var backend := ParseEndpoint(Backend, flags.backend, libs);
      if backend.Failure? {
        return Failure(backend.error);
      }
      next := next.(backend := backend.value);
    }
    return Success(next);
  }

  /**
   * What resolving `base` against the flags yields: exactly when it succeeds, which
   * error it returns otherwise (in the order the checks run), and every field of the
   * resolved configuration. `generated` is the random fallback secret.
   */
  predicate Resolved(base: Config, flags: Flags, libs: Libraries, generated: string,
                     r: Result<Config, Error>)
  {
    // when it succeeds, and what it then yields
    && (r.Success? <==>
         && !IncompleteClient(flags)
         && EndpointsResolve(base, flags, libs)
         && (flags.clientID != "" || base.oauth2 != []))
    && (r.Success? ==> Startable(r.value))
    && (r.Success? ==>
         && r.value.auth == DoreamonAuth
         && r.value.services == DoreamonServices
         && r.value.port == (if base.port != 0 then base.port else flags.port)
         && r.value.sessionMaxAge == (if base.sessionMaxAge != 0 then base.sessionMaxAge else flags.sessionMaxAge)
         && r.value.secretKey == (if flags.sessionKey != "" then flags.sessionKey
                                  else if base.secretKey != "" then base.secretKey
                                  else generated)
         && r.value.oauth2 == (if flags.clientID != ""
                               then [DoreamonClient(flags.clientID, flags.clientSecret, flags.redirectURI)]
                               else base.oauth2))
    // which error, in the order the checks run, and which endpoints
    && (IncompleteClient(flags) ==> r == Failure(ClientFieldsRequired))
    && (r.Success? && KeepsBaseUpstream(base) ==>
         r.value.upstream == base.upstream && r.value.frontend == base.frontend && r.value.backend == base.backend)
    && (!IncompleteClient(flags) && !KeepsBaseUpstream(base) && flags.upstream != "" ==>
         match ParseEndpoint(Upstream, flags.upstream, libs)
         case Failure(e) => r == Failure(e)
         case Success(u) => r.Success? ==>
           r.value.upstream == u && r.value.frontend == base.frontend && r.value.backend == base.backend)
    && (!IncompleteClient(flags) && !KeepsBaseUpstream(base) && flags.upstream == "" ==>
         if flags.frontend == "" || flags.backend == "" then r == Failure(FrontendBackendRequired)
         else match (ParseEndpoint(Frontend, flags.frontend, libs), ParseEndpoint(Backend, flags.backend, libs))
           case (Failure(e), _) => r == Failure(e)
           case (Success(_), Failure(e)) => r == Failure(e)
           case (Success(fe), Success(be)) => r.Success? ==>
             r.value.upstream == base.upstream && r.value.frontend == fe && r.value.backend == be)
    && ((&& !IncompleteClient(flags) && EndpointsResolve(base, flags, libs)
         && flags.clientID == "" && base.oauth2 == []) ==> r == Failure(NoClientConfigured))
  }

  /**
   * Resolves `base` against the flags. `generated` stands for the value of
   * `random.String(10)`, used only when no secret key is set.
   */
  method Resolve(base: Config, flags: Flags, libs: Libraries, generated: string)
    returns (r: Result<Config, Error>)
    requires |generated| == 10
    ensures Resolved(base, flags, libs, generated, r)
  {
    var cfg := ApplyOverlays(base, flags);
    var withClient := ApplyClient(cfg, flags);
    if withClient.Failure? {
      return Failure(withClient.error);
    }
    var withEndpoints := ResolveEndpoints(withClient.value, flags, libs);
    if withEndpoints.Failure? {
      return Failure(withEndpoints.error);
    }
    cfg := withEndpoints.value;
    if cfg.secretKey == "" {
      cfg := cfg.(secretKey := generated);
    }
    if |cfg.oauth2| == 0 {
      return Failure(NoClientConfigured);
    }
    return Success(cfg);
  }

  /**
   * The whole command up to the hand-off: `loaded` is what `config.Load` returns for the
   * config flag (consulted only when that flag is set); with no file the base is the
   * zero configuration.
   */
  method Command(flags: Flags, loaded: Result<Config, string>, libs: Libraries, generated: string)
    returns (r: Result<Config, Error>)
    requires |generated| == 10
    ensures flags.configFile != "" && loaded.Failure? ==>
      r == Failure(LoadFailed(flags.configFile, loaded.error))
    ensures r.Success? ==> Startable(r.value)
    // a loaded file, or the zero configuration without one, is resolved against the flags
    ensures flags.configFile != "" && loaded.Success? ==>
      Resolved(loaded.value, flags, libs, generated, r)
    ensures flags.configFile == "" ==> Resolved(EmptyConfig, flags, libs, generated, r)
    // with no file the flags are the only source of a client, a port and a secret
    ensures flags.configFile == "" && flags.clientID == "" ==> r.Failure?
    ensures flags.configFile == "" && r.Success? ==>
      && r.value.port == flags.port
      && r.value.sessionMaxAge == flags.sessionMaxAge
      && r.value.secretKey == (if flags.sessionKey != "" then flags.sessionKey else generated)
      && r.value.oauth2 == [DoreamonClient(flags.clientID, flags.clientSecret, flags.redirectURI)]
  {
    var base: Config;
    if flags.configFile != "" {
      if loaded.Failure? {
        return Failure(LoadFailed(flags.configFile, loaded.error));
      }
      base := loaded.value;
    } else {
      base := EmptyConfig;
    }
    r := Resolve(base, flags, libs, generated);
  }

  /**
   * Resolving the same base and flags twice gives the same outcome; the random
   * fallback can only change the secret key.
   */
  method ResolveTwice(base: Config, flags: Flags, libs: Libraries, generated1: string, generated2: string)
    returns (r1: Result<Config, Error>, r2: Result<Config, Error>)
    requires |generated1| == 10 && |generated2| == 10
    ensures r1.Failure? ==> r2 == r1
    ensures r1.Success? ==> r2.Success? && r2.value == r1.value.(secretKey := r2.value.secretKey)
    ensures generated1 == generated2 ==> r2 == r1
  {
    r1 := Resolve(base, flags, libs, generated1);
    r2 := Resolve(base, flags, libs, generated2);
  }

  /**
   * Resolving an already resolved configuration again with the same flags changes
   * nothing. `again` is the second resolution, or the first failure.
   */
  method ResolveStable(base: Config, flags: Flags, libs: Libraries, generated: string)
    returns (first: Result<Config, Error>, again: Result<Config, Error>)
    requires |generated| == 10
    ensures first.Success? ==> again == first
    ensures first.Failure? ==> again == first
  {
    first := Resolve(base, flags, libs, generated);
    if first.Failure? {
      return first, first;
    }
    again := Resolve(first.value, flags, libs, generated);
  }
}
