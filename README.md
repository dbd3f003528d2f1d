# connect-doreamon: configuration resolution

A Dafny model of the configuration resolution inside the command closure of
`main.go` in go-zoox/connect-doreamon. This is the gateway that fronts a service with the
"doreamon" OAuth2 identity provider. The closure takes the configuration loaded from
an optional file, plus eleven flag values (each may come from its environment
variable). It then overlays and checks them in a fixed order, and it either returns one error
message or hands a finished configuration to the server runtime.

The model has six modules:

- `Wrappers` (`wrappers.dfy`): `Option` and `Result`.
- `Strings` (`strings.dfy`): the two library string operations the closure depends on.
  `Contains` is `regexp.Match` with the literal pattern `"://"`. `Split` is
  `strings.Split` on `':'`. The lemmas relate `Contains` to the positional reading.
  They also show that `Split` gives one more piece than there are separators, that its
  pieces are separator-free, and that `Split` and `Join` undo each other.
- `AppConfig` (`config.dfy`): the part of `config.Config` the closure touches. It also holds
  the zero configuration, the fixed auth settings and the service table, and
  `Startable`. `Startable` is the invariant every handed-off configuration satisfies:
  fixed auth and services, a non-empty secret, and at least one OAuth2 client.
- `Errors` (`errors.dfy`): the error values and their exact message texts.
- `EndpointParsing` (`endpoint.dfy`): the endpoint-string grammar as one function,
  `ParseEndpoint`. It takes a tag naming the flag being read, because the error text and
  the default protocol both depend on it.
- `Resolver` (`resolver.dfy`): the closure itself, as imperative methods. Each method updates a
  local configuration value field by field in the source's order and returns at the
  first failed check. The closure is cut along its own sections: overlays and
  precedence, client check, and topology selection. Each of these three is a method
  with a contract. `Resolve` runs them in order, then runs the secret fallback and the
  final gate itself.
  The predicate `Resolved` states the whole outcome of a resolution.
  `Command` adds the load-or-default step in front.

Library functions whose code is not available are parameters, and the proofs hold for
every choice of them:

- `url.Parse` together with `Hostname()`/`Port()`, and `cast.ToInt64`, are the two
  function fields of `Libraries`.
- `random.String(10)` is the `generated` argument, of length 10.
- The outcome of `config.Load` is the `loaded` argument of `Command`.

Some behaviours of main.go are easy to misread:

- A non-empty session-key flag overrides a secret from the file (main.go:127-129). It is
  not only a fallback. The random key is used only if the secret is still empty
  (main.go:230-232).
- The host:port form only checks that the split gives two pieces (main.go:163-166).
  Either piece may be empty, so `":"` and `"a:"` are accepted
  (`EndpointParsing.ColonOnlyAccepted`).
- In the host:port form only upstream gets protocol `"http"`. Frontend and backend get
  an empty protocol: a fresh endpoint is built, so any protocol from the file is cleared
  (main.go:197-200, 222-225).
- An endpoint is not required to have a non-empty host or a non-zero port after parsing.
  Only a base upstream that has both is kept untouched (main.go:148).

## Model

| member | source | states |
|---|---|---|
| `Strings.Contains` | main.go:151 | the test `regexp.Match("://", s)` as a substring search: it never finds a pattern longer than the string, and it finds one that starts the string (used for all three flags, main.go:151, 180, 205) |
| `Strings.Split` | main.go:163 | `strings.Split(s, ":")`, the pieces between colons, always at least one (the empty string gives one empty piece). Also used at main.go:192 and 217 |
| `Strings.ContainsIff` | main.go:151 | the substring test used to detect the URL form holds exactly when some window of the string equals the pattern |
| `Strings.SplitCount` | main.go:163-164 | splitting on `':'` gives one piece more than the number of colons, so "exactly two parts" means "exactly one colon" |
| `Strings.SplitPiecesFree` | main.go:163 | no piece produced by the split contains the separator |
| `Strings.JoinSplit` | main.go:163 | the pieces of the split, glued with the separator, give the original string back |
| `Strings.SplitJoin` | main.go:163 | splitting a join of separator-free pieces gives those pieces back |
| `Errors.Message` | main.go:133-240 | the exact text of each error: the load failure begins with `failed to load config (<file>, ` (main.go:105), each format error begins with its flag's name (main.go:154, 165, 183, 194, 208, 219), and errors (1) and (2) share the "client_id, client_secret, redirect_uri are required (" opening (main.go:135, 239). The frontend/backend text is at main.go:176 |
| `Errors.MessagesDistinct` | main.go:133-240 | the nine errors the closure returns all have different message texts |
| `EndpointParsing.ParseEndpoint` | main.go:151-172 | a string with `"://"` succeeds iff the URL parser accepts it, and copies scheme, hostname and converted port. Any other string succeeds iff it holds exactly one `':'`: the host is the text before it, the port is the converted text after it, and the protocol is the field's default. Each failure names its field and its grammar |
| `EndpointParsing.SchemeSeparatorIff` | main.go:151 | for a colon-free host and port, `host:port` is read as a URL exactly when the port text starts with `"//"` |
| `EndpointParsing.HostPortAccepted` | main.go:163-172 | every colon-free `host:port` not starting a URL parses to that host, the converted port and the field's default protocol (`"http"` for upstream, `""` otherwise, main.go:197-200) |
| `EndpointParsing.ColonOnlyAccepted` | main.go:163-172 | the string `":"` is accepted with an empty host, because the parts are not required to be non-empty |
| `Resolver.ApplyOverlays` | main.go:112-132 | auth and the five services are forced to the doreamon values. Port and session lifetime keep a non-zero base value, else take the flag. A non-empty session-key flag replaces the secret. Client list and endpoints are untouched |
| `Resolver.ApplyClient` | main.go:133-146 | fails with error (1) exactly when a client id is given without secret or redirect URI. With a client id, the list becomes the single doreamon client. Without one, the configuration is unchanged |
| `Resolver.ResolveEndpoints` | main.go:148-228 | a base upstream with host and port is kept and no flag is read. Otherwise the upstream flag is parsed into upstream. Otherwise both frontend and backend must be given and are parsed in that order, and the first error is returned. Nothing but the three endpoints changes |
| `Resolver.Resolve` | main.go:111-240 | ensures `Resolved`: exactly when it succeeds, and with which error it fails, in the source's check order. On success the result is `Startable`, and each field's value is stated from the base and the flags, including secret precedence and the random fallback |
| `Resolver.Command` | main.go:101-240 | a failed file load is the load error. A loaded file, or the zero configuration when there is no file, is resolved as `Resolve` promises. Without a file, a missing client id always fails, and a success takes port, session lifetime, secret and the single client from the flags |
| `Resolver.ResolveTwice` | main.go:111-240 | two resolutions of the same input agree, except that the random fallback may change the secret key |
| `Resolver.ResolveStable` | main.go:112-240 | resolving a resolved configuration again with the same flags gives the same configuration |

## Left out

- Flag declaration and reading (main.go:19-99) and `app.Run`: library glue from `go-zoox/cli`. The eleven values are the `Flags` record. The debug flag is in the record but affects nothing that is modelled.
- `config.Load` (main.go:102-106): file input and deserialisation are not modelled. Its outcome is an argument. `log.Fatal` on a load failure is modelled as the `LoadFailed` error, not as process exit.
- Fields of `config.Config` that the closure neither reads nor writes are not modelled.
- `url.Parse`, `Hostname()`, `Port()` and `cast.ToInt64`: foreign library code, taken as arbitrary functions.
- `random.String(10)`: randomness. The model takes it as a given string of length 10.
- The debug `fmt.PrintJSON` (main.go:234-236): diagnostic output only.
- `internal.New().Start(cfg)` and its fatal error (main.go:242-245): the server runtime is external. The model stops at the configuration handed to it.
- EndpointParsing.ParseEndpoint: the URL form says nothing about which strings the URL parser accepts, or about how a missing or non-numeric port converts, because both belong to the unmodelled libraries.
