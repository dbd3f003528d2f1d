/**
 * The part of the `config.Config` record the resolver reads or writes: listen port,
 * session secret and lifetime, the auth mode and provider, the five identity-service
 * descriptors, the OAuth2 client list and the three proxied endpoints.
 */
module AppConfig {

  /** Go's `int64`; the resolver only copies such values, it never does arithmetic on them. */
  type Int64 = x: int | -0x8000_0000_0000_0000 <= x < 0x8000_0000_0000_0000

  datatype Auth = Auth(mode: string, provider: string)

  /** `{mode, service}`: how one identity-provider endpoint is reached. */
  datatype ServiceRef = ServiceRef(mode: string, service: string)

  datatype Services = Services(app: ServiceRef, user: ServiceRef, menus: ServiceRef,
                               users: ServiceRef, openID: ServiceRef)

  datatype OAuth2Client = OAuth2Client(name: string, clientID: string,
                                       clientSecret: string, redirectURI: string)

  /** `ConfigPartService`: a proxied endpoint `{protocol, host, port}`. */
  datatype Endpoint = Endpoint(protocol: string, host: string, port: Int64)

  datatype Config = Config(
    port: Int64,
    secretKey: string,
    sessionMaxAge: Int64,
    auth: Auth,
    services: Services,
    oauth2: seq<OAuth2Client>,
    upstream: Endpoint,
    frontend: Endpoint,
    backend: Endpoint)

  const NoEndpoint := Endpoint("", "", 0)
  const NoServiceRef := ServiceRef("", "")

  /** `&config.Config{}`: the configuration used when no file is given. */
  const EmptyConfig := Config(0, "", 0, Auth("", ""),
    Services(NoServiceRef, NoServiceRef, NoServiceRef, NoServiceRef, NoServiceRef),
    [], NoEndpoint, NoEndpoint, NoEndpoint)

  /** The fixed auth settings: mode "oauth2" with the "doreamon" provider. */
  const DoreamonAuth := Auth("oauth2", "doreamon")

  /** The fixed identity-service table of the doreamon provider. */
  const DoreamonServices := Services(
    ServiceRef("service", "https://api.zcorky.com/oauth/app"),
    ServiceRef("service", "https://api.zcorky.com/user"),
    ServiceRef("service", "https://api.zcorky.com/menus"),
    ServiceRef("service", "https://api.zcorky.com/users"),
    ServiceRef("service", "https://api.zcorky.com/oauth/app/user/open_id"))

  /** The one client registration built from the client-id, client-secret and redirect-uri flags. */
  function DoreamonClient(clientID: string, clientSecret: string, redirectURI: string): OAuth2Client
  {
    OAuth2Client("doreamon", clientID, clientSecret, redirectURI)
  }

  /**
   * What every configuration handed to the server satisfies: the fixed auth and
   * service settings, a non-empty secret and at least one OAuth2 client.
   */
  predicate Startable(cfg: Config)
  {
    && cfg.auth == DoreamonAuth
    && cfg.services == DoreamonServices
    && cfg.secretKey != ""
    && |cfg.oauth2| >= 1
  }
}
