# microkernel-mod-graphqlio, modelled in Dafny

`microkernel-mod-graphqlio` is a plugin module for the Microkernel server
framework. It wraps a GraphQL-IO server. Its behaviour is:

- It keeps a configuration record with documented defaults.
- It adds five command-line options (host, port, TLS certificate, TLS key,
  JWT secret) to the kernel's option list.
- In `prepare` it checks that the TLS certificate and key come as a pair,
  builds the service URL and the server's options object, registers the
  server under `graphqlio`, passes the server's debug events on as log
  events, and logs where the service listens.
- It starts and stops the server and reports the outcome to the kernel.
- `prepare`, `start` and `stop` only act when the process mode is exactly
  `standalone` or `worker`.

The model passes the kernel in as an explicit context (`Kernel.Kernel`):

- the process mode and the parsed CLI options it reads;
- a registry map, written by `rs(name, value)`;
- an append-only event log, written by `sv(...)`.

The server is a handle that only remembers the options it was built with.
How its `start()` and `stop()` settle is an input to `Start` and `Stop`.

Files:

- `Wrappers.dfy`: `Option` and `Outcome`.
- `Decimal.dfy`: how an integral port is rendered in a template literal, and
  the inverse reading used to prove that the rendering loses nothing.
- `Url.dfy`: `scheme://host:port` and a parser that takes it apart again.
- `Server.dfy`: the wrapped library's options object and server handle.
- `Kernel.dfy`: the kernel context and the CLI option descriptor list.
- `GraphqlioConfig.dfy`: the configuration record, its defaults, and the
  five option descriptors.
- `Graphqlio.dfy`: the lifecycle logic and the `Module` class.
  - Pure specifications: `PrepareStep`, `StartStep`, `StopStep`.
  - Lemmas about those specifications.
  - `Module` class methods (`Latch`, `Prepare`, `Start`, `Stop`), each
    proved to do what its specification says.

Details of the source that the model keeps:

- The default `debug` level is 9 (line 49).
- The TLS pairing check reads the CLI options `crt` and `key` (lines 90-92),
  not the configured `tls` record.
- The configured `ttl` never reaches the server's options (lines 98-108).
- The host and port in the URL come from the CLI options (line 97). Their
  defaults are the configured values (lines 64-71).
- `start` handles only the fulfilment of the server's `start()` (line 148).
  When that promise rejects, `start` emits nothing and its own promise never
  settles. The model calls this `Pending`.

## Model

| member | source | states |
|---|---|---|
| `Decimal.IntRoundTrip` | microkernel-mod-graphqlio.js:97 | the decimal rendering of the port in the URL reads back as the same integer |
| `Url.EndpointRoundTrip` | microkernel-mod-graphqlio.js:97 | `scheme://host:port` can be parsed back into its scheme, host and port, even when the host contains colons |
| `Url.EndpointInjective` | microkernel-mod-graphqlio.js:97 | two service URLs are equal exactly when their protocols, hosts and ports are equal |
| `GraphqlioConfig.Configure` | microkernel-mod-graphqlio.js:33-51 | for each of the fifteen fields, an option the caller gives is taken as is, and an absent one takes its documented default (GraphQL-IO-, GraphQL-IO-Server, 127.0.0.1, 8080, "" for both TLS files, one week in ms, spm, spm, "", "", true, json, 9, "") |
| `GraphqlioConfig.DefaultConfiguration` | microkernel-mod-graphqlio.js:34-50 | with no options, every field holds its documented default, and ttl is one week in milliseconds |
| `GraphqlioConfig.EncodingName` | microkernel-mod-graphqlio.js:48 | each encoding has its own name: "cbor" exactly for cbor, "msgpack" exactly for msgpack, "json" exactly for json, so the server receives the configured encoding unchanged |
| `GraphqlioConfig.CliOptionDescriptors` | microkernel-mod-graphqlio.js:64-78 | exactly five descriptors in the order host, port, crt, key, secret, with their flag names, types and defaults taken from the configuration |
| `GraphqlioConfig.CliDefaultsFromConfig` | microkernel-mod-graphqlio.js:65-77 | a command line with none of the five flags yields the configured host, port, TLS files and secret |
| `Graphqlio.Module.constructor` | microkernel-mod-graphqlio.js:31-52 | the module's configuration is the caller's options merged over the defaults |
| `Graphqlio.Module.Latch` | microkernel-mod-graphqlio.js:61-80 | the list becomes its old contents followed by exactly the five descriptors; existing entries are unchanged |
| `Graphqlio.MatchesAnchoredIsMembership` | microkernel-mod-graphqlio.js:83 | an anchored alternation of literals matches exactly the strings that are one of the alternatives |
| `Graphqlio.IsActiveMode` | microkernel-mod-graphqlio.js:83 | the process-mode test holds exactly for "standalone" and "worker" |
| `Graphqlio.TlsPairing` | microkernel-mod-graphqlio.js:90-95 | the check rejects exactly when one of crt and key is empty and the other is not; when it passes, withTLS holds exactly when either file is given |
| `Graphqlio.ServiceUrlReadsBack` | microkernel-mod-graphqlio.js:95-97 | the URL reads back as protocol, CLI host and CLI port, and the protocol is https exactly under TLS, else http |
| `Graphqlio.LocalUrlExample` | microkernel-mod-graphqlio.js:95-97 | host 127.0.0.1, port 8080 and no TLS give http://127.0.0.1:8080 |
| `Graphqlio.TlsUrlExample` | microkernel-mod-graphqlio.js:95-97 | host 10.0.0.5, port 443 and TLS give https://10.0.0.5:443 |
| `Graphqlio.ResolvedOptionsContents` | microkernel-mod-graphqlio.js:98-114 | secret is present iff the CLI secret is non-empty, example iff the configured example is non-empty, and tls = {crt, key} iff TLS is on; prefix, name, pubsub, keyval, frontend, graphiql, encoding and debug are copied, and url is the computed URL |
| `Graphqlio.Module.BuildOptions` | microkernel-mod-graphqlio.js:98-114 | building the options object field by field and then inserting the optional fields yields exactly the resolved options |
| `Graphqlio.LevelName` | microkernel-mod-graphqlio.js:122-125 | level 1 maps to "info", level 2 to "trace", and every other level to "debug", in both directions |
| `Graphqlio.ForwardDebug` | microkernel-mod-graphqlio.js:121-127 | a debug event becomes a "graphqlio" log event with the event's message, at level "info" exactly for level 1, "trace" exactly for level 2, and "debug" exactly for every other level |
| `Graphqlio.HttpHintScheme` | microkernel-mod-graphqlio.js:130-136 | the HTTP hint announces an https URL exactly under TLS and an http URL exactly without it |
| `Graphqlio.WsHintScheme` | microkernel-mod-graphqlio.js:130-139 | the WebSocket hint announces a wss URL exactly under TLS and a ws URL exactly without it |
| `Graphqlio.ListenHintsAnnounce` | microkernel-mod-graphqlio.js:130-139 | exactly two "graphqlio" info lines, HTTP(S) first and then WS(S), each with a secure scheme exactly under TLS |
| `Graphqlio.HintLayout` | microkernel-mod-graphqlio.js:130-131 | a listen line is "listen on ", the URL, "/api (", the protocol label and ")", and its last '(' is the one before the label |
| `Graphqlio.HintSplit` | microkernel-mod-graphqlio.js:130-131 | the hint reader gives back exactly what the URL reader gives for the URL in a listen line, with the label |
| `Graphqlio.HintReadsBack` | microkernel-mod-graphqlio.js:130-131 | a listen line reads back as its scheme, host, port and protocol label |
| `Graphqlio.HintPartsReadable` | microkernel-mod-graphqlio.js:133-138 | none of the four schemes holds ':' and none of the four protocol labels holds '(' |
| `Graphqlio.HttpHintAnnouncesServiceUrl` | microkernel-mod-graphqlio.js:130-136 | the HTTP(S) hint is "listen on " + the server's URL + "/api (" + the HTTP label + ")", the label naming SSL/TLS exactly under TLS |
| `Graphqlio.ListenHintsReadBack` | microkernel-mod-graphqlio.js:130-139 | the first hint reads back as https or http, the CLI host and port, and the matching HTTP label; the second as wss or ws, the same host and port, and the matching WebSockets label |
| `Graphqlio.PrepareGatedByMode` | microkernel-mod-graphqlio.js:83-84 | prepare does nothing at all exactly when the process mode is neither standalone nor worker |
| `Graphqlio.PrepareRejectsOneSidedTls` | microkernel-mod-graphqlio.js:90-92 | in an active mode, prepare rejects with "TLS requires both Certificate and Key" exactly when one of crt and key is empty; it then builds no server |
| `Graphqlio.PreparedServerUrl` | microkernel-mod-graphqlio.js:95-118 | the registered server's URL reads back as the CLI host and port, under https exactly when its options carry a TLS block |
| `Graphqlio.DefaultsPrepareLocalHttp` | microkernel-mod-graphqlio.js:33-118 | with default configuration and no CLI flags, prepare registers a server for http://127.0.0.1:8080 with no secret, example or TLS |
| `Graphqlio.Module.Prepare` | microkernel-mod-graphqlio.js:81-140 | outside the active modes, and on a one-sided TLS setting, the registry and log are unchanged; otherwise the server is registered under "graphqlio" and exactly the two listen hints are logged |
| `Graphqlio.StartReportsOnce` | microkernel-mod-graphqlio.js:146-158 | with a registered server whose start fulfils, start logs exactly one event: the fatal "failed to start GraphQL-IO service" and failure with the same cause for a truthy error, or "started GraphQL-IO service" at info level and success; when the server's start rejects, start logs nothing and never settles |
| `Graphqlio.Module.Start` | microkernel-mod-graphqlio.js:141-159 | start does exactly what the start specification says and leaves the registry unchanged |
| `Graphqlio.StopLogsFirst` | microkernel-mod-graphqlio.js:160-168 | inactive: no event and success; active: exactly one "gracefully stopping" info line; then success when the server's stop succeeds, failure with the same cause when it fails, and `NoService` when no server is registered |
| `Graphqlio.Module.Stop` | microkernel-mod-graphqlio.js:160-168 | stop does exactly what the stop specification says and leaves the registry unchanged |
| `Graphqlio.PrepareThenStart` | microkernel-mod-graphqlio.js:81-159 | when start runs after a successful prepare it always finds the server, and the log holds the two hints and then what start emits |
| `Kernel.Kernel.Register` | microkernel-mod-graphqlio.js:118 | `rs(name, value)` maps the name to the handle and leaves every other entry unchanged |
| `Kernel.Kernel.Emit` | microkernel-mod-graphqlio.js:126 | `sv(...)` appends exactly one event |
| `Kernel.OptionList.Push` | microkernel-mod-graphqlio.js:64 | `push` appends exactly one descriptor |

## Left out

- The `module` identity getter (lines 53-60) is a constant record with nothing to prove.
- Ducky's type and pattern validation of constructor options is not modelled. The field types and the `Encoding` datatype make ill-typed or unknown values impossible to express, so the construction-time error is not modelled.
- The GraphQL-IO server's internals are not modelled: GraphQL execution, pub/sub, key/value storage and HTTP/WebSocket/TLS transport. The server is a value holding its options; two servers built from equal options cannot be told apart.
- How the server's `start()` and `stop()` settle is taken as an input. For `start()`, `StartResolved(Some(e))` stands for a fulfilment with a truthy error value. Other falsy values, such as `0` or `""`, are not distinguished from `undefined`.
- Promises are not modelled as asynchronous. `start` and `stop` are synchronous steps whose result is a `Completion`: settled with an `Outcome`, or `Pending` for a promise that never settles. The inactive-mode `undefined` return is modelled as `Settled(Pass)`.
- Graphqlio.StopLogsFirst: a failure of the server's `stop()` is given as `Fail(ServiceError(cause))`. The source returns that promise unchanged (line 167), so the caller sees the cause itself. The wrapper only tags the cause and keeps it unchanged.
- Graphqlio.StartReportsOnce: a fulfilment with an error is given as `Fail(ServiceError(err))`. The source rejects with `err` itself (line 151). The wrapper keeps it unchanged.
- The `server.on("debug", ...)` subscription is not modelled. The handler is the pure function `ForwardDebug`, which is not attached to anything. The `date` and `log` fields of debug events are dropped.
- `kernel.latch("options:options", ...)` registering a callback is not modelled. `Module.Latch` is the callback body applied to the list.
- The kernel's entries `ctx:procmode` and `options:options` are fields that are always set. The JavaScript `TypeError` raised when either is missing is not modelled.
- Graphqlio.Module.Start: with no server under `graphqlio`, the `TypeError` at line 148 is raised inside the promise executor (line 147), so the promise `start` returns rejects. The model gives `Settled(Fail(NoService))` and no event, and does not carry the `TypeError` itself.
- Graphqlio.Module.Stop: with no server under `graphqlio`, `stop` throws the `TypeError` synchronously at line 167, after the log line of line 166. The model emits the same log line and gives `Settled(Fail(NoService))`. It does not tell a synchronous throw from a rejected promise.
- Ports are integers. JavaScript renders non-integral numbers and numbers of 1e21 or more differently (fraction, exponent), and that rendering is not modelled.
- `GraphqlioConfig.CliDefaults` stands in for the kernel's CLI parser, and only for a command line without any of the five flags. Argument parsing is not modelled.
