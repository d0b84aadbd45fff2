# vapollo client state, modelled in Dafny

vapollo is a remote-configuration provider for viper that reads the
configuration of one Apollo application and watches it for changes. This
project models the client-side state logic of its `Apollo` struct:

- construction from options applied in order over the defaults (cluster
  `"default"`, namespace `"application"`), refusing a client without server or
  application id, and seeding the notification list with the namespace at
  notification id -1;
- the rewrite of the server address to carry an `http://` scheme;
- the two configuration endpoints `{server}/configs/{appId}/{cluster}/{namespace}`
  and `{server}/configfiles/json/{appId}/{cluster}/{namespace}`, each with an
  optional `?ip=` query;
- `get`, which records the release key of a fully decoded answer and returns
  its configurations, and `getNotifications`, which treats HTTP 304 as "not
  modified" and lets any other readable answer overwrite the notification list;
- the decode hook that turns JSON text into a map for struct and map fields and
  decimal text into an int for other non-string fields, and the nil-struct
  guard of `ParseStruct`.

Files: `client.dfy` (module `Client`: the `Apollo` class, options,
construction, endpoints, fetch and poll transitions), `binding.dfy` (module
`Binding`: reflect kinds, values and the decode hook), `strconv.dfy` (module
`Strconv`: `strconv.Atoi` for a 64-bit `int`, and the formatting it inverts),
`text.dfy` (module `Text`: `strings.Contains`, splitting and joining on a
separator), `wrappers.dfy` (`Option`, `Result`).

The network is a function parameter (`fetch`, `poll`) from the request to an
`HttpResult`: a transport error, or a status code and the outcome of reading
the body. `json.Unmarshal` is described by its effect on the target: whether
it wrote a value there and which error it returned (malformed JSON leaves the
target untouched; a type mismatch writes a partial value and reports an
error). `getNotifications` decodes straight into the client's list, so a
failed decode can still overwrite it; `get` decodes into a fresh response and
records nothing unless decoding succeeded. Query escaping (`url.Values.Encode`)
is a parameter `escape`, and the struct decoder (`mapstructure` configured with
the hook) is a parameter `decode`.

Behaviour of the code worth knowing, as modelled:

- `get` never looks at the HTTP status: any answer whose body decodes, a 404
  or 500 included, sets the release key (to `""` when the body has none).
- Any status other than 304, errors included, counts as "modified" once the
  body has been read, even when decoding it fails.
- On a JSON parse failure for a struct or map field, the hook returns the
  original string together with the parse error; it is not a silent
  best-effort fallback. The string-to-int path, by contrast, falls back to
  the original string silently.
- The `"https"` test in the server rewrite is redundant (`HttpsContainsHttp`).
- No option sets `ip`, so a client built by `InitApollo` has `ip == ""` and
  its endpoint URIs never carry the `?ip=` query.

## Model

| member | source | states |
|---|---|---|
| `Client.Apollo.constructor` | vapollo.go:178-181 | a fresh client has cluster "default", namespace "application", every other setting empty or nil, no notifications |
| `Client.Apollo.Apply` | vapollo.go:64-108 | applying an option changes exactly the one setting it names, to its argument |
| `Client.InitApollo` | vapollo.go:177-199 | the settings are the options folded left to right over the defaults; construction fails with MissingArguments if and only if server or appID is empty afterwards; on success the notification list is exactly `[{namespaceName, -1}]`, the release key and ip are empty |
| `Client.LastOptionWins` | vapollo.go:74-108 | for any setting (cluster, namespace, server, appID, struct or notify channel) given by several options, the last such option decides its value |
| `Client.UnsetFieldKeepsDefault` | vapollo.go:178-184 | a setting no option mentions keeps its default (cluster "default", namespace "application", server and appID empty, struct and notify channel nil) |
| `Client.NormalizedServer` | vapollo.go:212-214 | the rewritten address always contains "http" and ends with the original; an address already containing "http" is unchanged, any other gets the prefix "http://" |
| `Client.HttpsContainsHttp` | vapollo.go:212 | every address containing "https" contains "http", so the second test of the condition never decides anything |
| `Client.NormalizeIdempotent` | vapollo.go:212-214 | rewriting an already rewritten address leaves it unchanged |
| `Client.Apollo.NormalizeServer` | vapollo.go:212-214 | the server field is replaced in place by its normalised form, nothing else changes |
| `Text.ContainsIffOccurs` | vapollo.go:212 | `strings.Contains(s, sub)` holds exactly when `sub` occurs in `s` at some position |
| `Client.ConfigsUri` | vapollo.go:311-324 | the configs URI is server, "/configs/", then appID, cluster and namespace joined by "/", then "?ip=" and the escaped ip when ip is non-empty |
| `Client.ConfigFilesUri` | vapollo.go:294-307 | the same layout under "/configfiles/json/" |
| `Client.ConfigsUriRoundTrip` | vapollo.go:312-324 | for '/'- and '?'-free components, appID, cluster and namespace are read back from the configs URI, and the URI carries a query if and only if ip is non-empty |
| `Client.ConfigFilesUriRoundTrip` | vapollo.go:295-307 | the same round trip for the cached endpoint |
| `Client.CachedEndpointMirrorsConfigs` | vapollo.go:294-327 | the two endpoints differ only in "/configfiles/json/" replacing "/configs/" |
| `Client.Fetch` | vapollo.go:330-350 | a fetch succeeds exactly when the response arrived, was read and decoded without error; then the release key becomes the response's and its configurations are returned; on a transport, read or decode error (NetworkError, ReadError, DecodeError) the release key is unchanged |
| `Client.Apollo.Get` | vapollo.go:330-350 | the result and the new release key are those of `Fetch` on the old key and the answer to the request for `uri` |
| `Client.Apollo.Load` | vapollo.go:311-327 | load requests exactly `ConfigsUri` of the client's settings and behaves as `get` on it |
| `Client.Apollo.LoadFromCache` | vapollo.go:294-309 | loadFromCache requests exactly `ConfigFilesUri` of the client's settings and behaves as `get` on it |
| `Client.ReleaseKeyOfLastSuccess` | vapollo.go:343-349 | after a series of fetches the release key is that of the most recent successful one |
| `Client.ReleaseKeyKeptWithoutSuccess` | vapollo.go:331-346 | a series of failed fetches leaves the release key as it was |
| `Client.Poll` | vapollo.go:353-378 | a transport error or a read error reports "not modified", keeps the list and returns that error (NetworkError, ReadError); status 304 reports "not modified" with no error and keeps the list; any other readable answer reports "modified", returns the decode error if any, and the list becomes whatever the decoder wrote into it; the list changes only when a response overwrote it |
| `Client.Apollo.GetNotifications` | vapollo.go:353-378 | the request carries server, appID, cluster and the current list; the result and the new list are those of `Poll` on that answer |
| `Client.NotificationsOfLastWrite` | vapollo.go:368-377 | after a series of polls the notification list is what json.Unmarshal wrote into it on the latest poll that wrote it; earlier polls leave no trace beyond what that write kept |
| `Client.NotificationsKeptWithoutWrite` | vapollo.go:363-375 | polls answered 304, failed, or not writing the list leave it as it was |
| `Binding.JsonStructInMapHook` | vapollo.go:380-399 | an error is reported only for a string bound to a struct or map field whose JSON does not parse, and then the original string is returned; only strings bound to non-string fields are ever replaced, never by a string; a parsing string becomes the parsed object; for other non-string fields the string becomes an int exactly when Atoi accepts it, within the 64-bit range, and otherwise stays as it was with no error |
| `Binding.HookIdempotent` | vapollo.go:381-398 | applying the hook to its own output changes nothing |
| `Binding.HookIntExamples` | vapollo.go:389-395 | "1" for an int field becomes 1, "-42" becomes -42, "x" stays "x" with no error |
| `Binding.HookObjectExample` | vapollo.go:382-388 | given json.Unmarshal yields {k: "v"} for the text {"k":"v"}, that text for a struct field becomes the object {k: "v"} with no error |
| `Strconv.Atoi` | vapollo.go:391 | a string is accepted exactly when it is one or more decimal digits, optionally after one '+' or '-', and its signed decimal value fits a 64-bit int; the result is that signed value |
| `Strconv.AtoiItoa` | vapollo.go:391 | the decimal text of every 64-bit integer parses back to it |
| `Client.Apollo.ParseStruct` | vapollo.go:401-421 | without a struct it returns NoInterface and decodes nothing; with a struct that is not a non-nil pointer the decoder cannot be built (the error at line 409 is discarded and Decode panics), modelled as DecoderUnavailable with nothing decoded; otherwise it decodes local (if given) and then remote, starting remote from the result of local, drops the local error and returns exactly the remote decoding error |

## Left out

- `Init` (vapollo.go:132-173): command-line flags, reading the local file through viper and the timed wait on the notify channel are I/O and timing.
- The viper wiring in `InitViperRemote` (vapollo.go:207-211, 215-231): the nil-client panic (a Dafny `Apollo` is never null), the global `Remote` and `viper.RemoteConfig` singletons, provider registration, the remote watch and the initial `ParseStruct` call belong to a library outside this model; only the server rewrite is modelled.
- `Get` and `Watch` (vapollo.go:234-244): adapters that wrap `load` and `loadFromCache` results in a byte reader for viper.
- `WatchChannel` (vapollo.go:246-284): a background goroutine polling in a loop with channel sends and a quit signal, reading through viper; concurrency is not modelled, its per-iteration steps (`getNotifications`, `ParseStruct`) are.
- `getNotificationsBody` and the notifications/v2 query (vapollo.go:286-292, 354-362): JSON encoding and URL escaping of the request; the model passes the request's parameters to the `poll` function instead.
- `http.Get`, `ioutil.ReadAll`, `json.Unmarshal`, `url.Values.Encode` and `mapstructure` decoding are inputs (outcome datatypes and function parameters), not codecs.
- Client.Apollo.ParseStruct: the caller's struct is passed in and returned as a value; updating it in place through the `object` pointer (and any aliasing) is not modelled. The panic of `d.Decode` on a nil decoder, for a struct that is not a non-nil pointer, is modelled as the error `DecoderUnavailable` rather than as an abort. Which fields end up with the local or the remote value depends on the decoder, which is a parameter; the model fixes only that remote is decoded after local.
- Logging (`log.Printf`, `log.Println`) is left out; `log.Panicln` in `InitApollo` is modelled as the `MissingArguments` failure.
