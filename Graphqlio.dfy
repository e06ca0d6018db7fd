/**
 * The microkernel module that wraps a GraphQL-IO server: process-mode
 * gating, TLS pairing check, endpoint URL, the server's options object,
 * debug level mapping, listen hints, and the lifecycle hooks latch,
 * prepare, start and stop over an explicit kernel context.
 */
module Graphqlio {
  import opened Wrappers
  import opened Decimal
  import opened Url
  import opened GraphqlIoServer
  import opened Kernel
  import opened GraphqlioConfig

  /** The tag of the module's log events, also the registry name of its server. */
  const Tag := "graphqlio"

  const TlsPairingMessage := "TLS requires both Certificate and Key"

  /** Why a lifecycle step rejects. */
  datatype Error =
    | ConfigError(message: string)  // thrown synchronously by prepare
    | ServiceError(cause: string)   // the server's own start or stop failure, passed on
    | NoService                     // no server registered under "graphqlio" when start or stop needs it

  // ---------------------------------------------------------------------------
  // Process mode

  /** Whether the regular expression `^(?:a0|a1|...)$` matches `s`: one alternative spans all of it. */
  function MatchesAnchored(alternatives: seq<string>, s: string): bool
  {
    |alternatives| > 0 && (alternatives[0] == s || MatchesAnchored(alternatives[1..], s))
  }

  lemma {:induction false} MatchesAnchoredIsMembership(alternatives: seq<string>, s: string)
    ensures MatchesAnchored(alternatives, s) <==> s in alternatives
  {
    if |alternatives| > 0 {
      MatchesAnchoredIsMembership(alternatives[1..], s);
      assert alternatives == [alternatives[0]] + alternatives[1..];
    }
  }

  /** The module acts only when the process mode is exactly "standalone" or "worker". */
  function IsActiveMode(procmode: string): (active: bool)
    ensures active <==> procmode == "standalone" || procmode == "worker"
  {
    MatchesAnchoredIsMembership(["standalone", "worker"], procmode);
    MatchesAnchored(["standalone", "worker"], procmode)
  }

  // ---------------------------------------------------------------------------
  // TLS and endpoint

  /** The pairing check: a key without a certificate, or a certificate without a key. */
  predicate TlsMismatch(cli: CliOptions)
  {
    (cli.key != "" && cli.crt == "") || (cli.key == "" && cli.crt != "")
  }

  predicate WithTls(cli: CliOptions)
  {
    cli.crt != "" && cli.key != ""
  }

  /** The check rejects exactly one-sided TLS settings; when it passes, TLS is on iff either file is given. */
  lemma TlsPairing(cli: CliOptions)
    ensures TlsMismatch(cli) <==> (cli.crt == "") != (cli.key == "")
    ensures !TlsMismatch(cli) ==> (WithTls(cli) <==> cli.crt != "") && (WithTls(cli) <==> cli.key != "")
  {
  }

  function Protocol(withTls: bool): string
  {
    if withTls then "https" else "http"
  }

  /** The URL handed to the server. */
  function ServiceUrl(withTls: bool, host: string, port: int): string
  {
    Endpoint(Protocol(withTls), host, port)
  }

  /** Scheme, host and port read back from the URL; the scheme is https exactly with TLS. */
  lemma ServiceUrlReadsBack(withTls: bool, host: string, port: int)
    ensures ParseEndpoint(ServiceUrl(withTls, host, port))
            == Some(Parts(if withTls then "https" else "http", host, port))
  {
    EndpointRoundTrip(Protocol(withTls), host, port);
  }

  // ---------------------------------------------------------------------------
  // The server's options object

  /** The options the server is constructed with. */
  function ResolvedOptions(c: Config, cli: CliOptions, url: string): ServerOptions
  {
    ServerOptions(
      c.prefix, c.name, url, c.pubsub, c.keyval, c.frontend, c.graphiql,
      EncodingName(c.encoding), c.debug,
      if cli.secret != "" then Some(cli.secret) else None,
      if c.example != "" then Some(c.example) else None,
      if WithTls(cli) then Some(TlsPair(cli.crt, cli.key)) else None)
  }

  /**
   * secret, example and tls are present exactly under their conditions and
   * carry the CLI secret, the configured example and the CLI file pair; every
   * other field is copied from the configuration, and the URL is the one given.
   */
  lemma ResolvedOptionsContents(c: Config, cli: CliOptions, url: string)
    ensures var opts := ResolvedOptions(c, cli, url);
      && (opts.secret.Some? <==> cli.secret != "")
      && (opts.example.Some? <==> c.example != "")
      && (opts.tls.Some? <==> cli.crt != "" && cli.key != "")
      && (opts.secret.Some? ==> opts.secret.value == cli.secret)
      && (opts.example.Some? ==> opts.example.value == c.example)
      && (opts.tls.Some? ==> opts.tls.value == TlsPair(cli.crt, cli.key))
      && opts.url == url
      && opts.prefix == c.prefix && opts.name == c.name
      && opts.pubsub == c.pubsub && opts.keyval == c.keyval
      && opts.frontend == c.frontend && opts.graphiql == c.graphiql
      && opts.encoding == EncodingName(c.encoding) && opts.debug == c.debug
  {
  }

  // ---------------------------------------------------------------------------
  // Debug events and listen hints

  /** A debug event of the server; its date and log fields are not used. */
  datatype DebugEvent = DebugEvent(level: int, msg: string)

  function LevelName(level: int): (name: string)
    ensures name == "info" <==> level == 1
    ensures name == "trace" <==> level == 2
    ensures name == "debug" <==> level != 1 && level != 2
  {
    if level == 1 then "info"
    else if level == 2 then "trace"
    else "debug"
  }

  /** The kernel event a server debug event is passed on as. */
  function ForwardDebug(ev: DebugEvent): (e: Event)
    ensures e.Log? && e.tag == Tag && e.message == ev.msg
    ensures e.level == "info" <==> ev.level == 1
    ensures e.level == "trace" <==> ev.level == 2
    ensures e.level == "debug" <==> ev.level != 1 && ev.level != 2
  {
    Log(Tag, LevelName(ev.level), ev.msg)
  }

  function ListenHint(scheme: string, proto: string, host: string, port: int): Event
  {
    Log(Tag, "info", "listen on " + Endpoint(scheme, host, port) + "/api" + " (" + proto + ")")
  }

  /** The two lines announcing where the service listens: HTTP(S) first, then WebSockets. */
  function ListenHints(withTls: bool, host: string, port: int): seq<Event>
  {
    [ if withTls then ListenHint("https", "HTTP/{1.0,1.1,2.0} + SSL/TLS", host, port)
      else ListenHint("http", "HTTP/{1.0,1.1}", host, port),
      if withTls then ListenHint("wss", "WebSockets + SSL/TLS", host, port)
      else ListenHint("ws", "WebSockets", host, port) ]
  }

  /** A hint's message is "listen on ", the scheme, "://", and then authority, path and protocol label. */
  lemma HintShape(scheme: string, proto: string, host: string, port: int)
    ensures ListenHint(scheme, proto, host, port).message
            == "listen on " + scheme + "://" + (Authority(host, port) + "/api" + " (" + proto + ")")
  {
  }

  /** What a listen line announces: the endpoint in front of "/api", and the protocol label. */
  datatype Hint = Hint(endpoint: Parts, proto: string)

  /** Reads a listen line back: "listen on ", an endpoint, "/api (", a label without '(', and ")". */
  function ParseHint(m: string): Option<Hint>
  {
    if |m| < 10 || m[..10] != "listen on " || m[|m| - 1] != ')' then None
    else match LastIndex(m, '(')
      case None => None
      case Some(i) =>
        if i < 15 || m[i - 5..i] != "/api " then None
        else match ParseEndpoint(m[10..i - 5])
          case None => None
          case Some(parts) => Some(Hint(parts, m[i + 1..|m| - 1]))
  }

  /** Where the pieces of a listen line around a URL `u` sit. */
  lemma HintLayout(u: string, proto: string)
    requires '(' !in proto
    ensures var m := "listen on " + u + "/api" + " (" + proto + ")";
      var i := |u| + 15;
      && |m| == i + |proto| + 2 && m[|m| - 1] == ')'
      && LastIndex(m, '(') == Some(i)
      && m[..10] == "listen on " && m[i - 5..i] == "/api "
      && m[10..i - 5] == u && m[i + 1..|m| - 1] == proto
  {
    var m := "listen on " + u + "/api" + " (" + proto + ")";
    var front := "listen on " + u + "/api ";
    var back := proto + ")";
    assert m == front + ['('] + back;
    LastIndexAt(front, '(', back);
  }

  /** A listen line around any URL `u` reads back as what `u` reads back as, with the label. */
  lemma HintSplit(u: string, proto: string)
    requires '(' !in proto
    ensures ParseHint("listen on " + u + "/api" + " (" + proto + ")")
            == match ParseEndpoint(u)
               case None => None
               case Some(parts) => Some(Hint(parts, proto))
  {
    HintLayout(u, proto);
  }

  /** A listen line gives back its scheme, host, port and protocol label. */
  lemma HintReadsBack(scheme: string, proto: string, host: string, port: int)
    requires ':' !in scheme && '(' !in proto
    ensures ParseHint(ListenHint(scheme, proto, host, port).message) == Some(Hint(Parts(scheme, host, port), proto))
  {
    HintSplit(Endpoint(scheme, host, port), proto);
    EndpointRoundTrip(scheme, host, port);
  }

  /** The HTTP hint announces an https URL under TLS and an http URL otherwise, never both. */
  lemma HttpHintScheme(withTls: bool, host: string, port: int)
    ensures var m := ListenHints(withTls, host, port)[0].message;
      ("listen on https://" <= m <==> withTls) && ("listen on http://" <= m <==> !withTls)
  {
    var m := ListenHints(withTls, host, port)[0].message;
    if withTls {
      HintShape("https", "HTTP/{1.0,1.1,2.0} + SSL/TLS", host, port);
      assert "listen on " + "https" + "://" == "listen on https://";
      assert m[14] == 's';
    } else {
      HintShape("http", "HTTP/{1.0,1.1}", host, port);
      assert "listen on " + "http" + "://" == "listen on http://";
      assert m[14] == ':';
    }
  }

  /** The WebSocket hint announces a wss URL under TLS and a ws URL otherwise, never both. */
  lemma WsHintScheme(withTls: bool, host: string, port: int)
    ensures var m := ListenHints(withTls, host, port)[1].message;
      ("listen on wss://" <= m <==> withTls) && ("listen on ws://" <= m <==> !withTls)
  {
    var m := ListenHints(withTls, host, port)[1].message;
    if withTls {
      HintShape("wss", "WebSockets + SSL/TLS", host, port);
      assert "listen on " + "wss" + "://" == "listen on wss://";
      assert m[12] == 's';
    } else {
      HintShape("ws", "WebSockets", host, port);
      assert "listen on " + "ws" + "://" == "listen on ws://";
      assert m[12] == ':';
    }
  }

  /** Exactly two info lines, HTTP(S) then WebSockets, with a secure scheme exactly under TLS. */
  lemma ListenHintsAnnounce(withTls: bool, host: string, port: int)
    ensures var hints := ListenHints(withTls, host, port);
      && |hints| == 2
      && (forall i | 0 <= i < 2 :: hints[i].Log? && hints[i].tag == Tag && hints[i].level == "info")
      && ("listen on https://" <= hints[0].message <==> withTls)
      && ("listen on http://" <= hints[0].message <==> !withTls)
      && ("listen on wss://" <= hints[1].message <==> withTls)
      && ("listen on ws://" <= hints[1].message <==> !withTls)
  {
    HttpHintScheme(withTls, host, port);
    WsHintScheme(withTls, host, port);
  }

  /** The HTTP(S) hint announces the service URL the server is built with, followed by "/api". */
  lemma HttpHintAnnouncesServiceUrl(withTls: bool, host: string, port: int)
    ensures ListenHints(withTls, host, port)[0].message
            == "listen on " + ServiceUrl(withTls, host, port) + "/api" + " ("
               + (if withTls then "HTTP/{1.0,1.1,2.0} + SSL/TLS" else "HTTP/{1.0,1.1}") + ")"
  {
    assert ServiceUrl(withTls, host, port) == Endpoint(if withTls then "https" else "http", host, port);
  }

  /** The four schemes hold no ':' and the four protocol labels no '(', so every hint can be read back. */
  lemma HintPartsReadable()
    ensures ':' !in "https" && ':' !in "http" && ':' !in "wss" && ':' !in "ws"
    ensures '(' !in "HTTP/{1.0,1.1,2.0} + SSL/TLS" && '(' !in "HTTP/{1.0,1.1}"
    ensures '(' !in "WebSockets + SSL/TLS" && '(' !in "WebSockets"
  {
  }

  /** Each hint reads back as its scheme, the CLI host and port, and its protocol label. */
  lemma ListenHintsReadBack(withTls: bool, host: string, port: int)
    ensures var hints := ListenHints(withTls, host, port);
      && ParseHint(hints[0].message)
         == Some(Hint(Parts(if withTls then "https" else "http", host, port),
                      if withTls then "HTTP/{1.0,1.1,2.0} + SSL/TLS" else "HTTP/{1.0,1.1}"))
      && ParseHint(hints[1].message)
         == Some(Hint(Parts(if withTls then "wss" else "ws", host, port),
                      if withTls then "WebSockets + SSL/TLS" else "WebSockets"))
  {
    HintPartsReadable();
    if withTls {
      HintReadsBack("https", "HTTP/{1.0,1.1,2.0} + SSL/TLS", host, port);
      HintReadsBack("wss", "WebSockets + SSL/TLS", host, port);
    } else {
      HintReadsBack("http", "HTTP/{1.0,1.1}", host, port);
      HintReadsBack("ws", "WebSockets", host, port);
    }
  }

  // ---------------------------------------------------------------------------
  // Lifecycle specifications

  /** What prepare does: nothing, reject, or register a server and announce it. */
  datatype PrepareResult =
    | Skipped
    | Rejected(error: Error)
    | Prepared(server: Server, hints: seq<Event>)

  function PrepareStep(c: Config, procmode: string, cli: CliOptions): PrepareResult
  {
    if !IsActiveMode(procmode) then Skipped
    else if TlsMismatch(cli) then Rejected(ConfigError(TlsPairingMessage))
    else
      var url := ServiceUrl(WithTls(cli), cli.host, cli.port);
      Prepared(Server(ResolvedOptions(c, cli, url)), ListenHints(WithTls(cli), cli.host, cli.port))
  }

  /** prepare does nothing at all exactly outside the two active process modes. */
  lemma PrepareGatedByMode(c: Config, procmode: string, cli: CliOptions)
    ensures PrepareStep(c, procmode, cli).Skipped? <==> procmode != "standalone" && procmode != "worker"
  {
  }

  /** prepare rejects exactly when active with a one-sided TLS setting, and then builds no server. */
  lemma PrepareRejectsOneSidedTls(c: Config, procmode: string, cli: CliOptions)
    ensures var r := PrepareStep(c, procmode, cli);
      && (r.Rejected? <==> IsActiveMode(procmode) && (cli.crt == "") != (cli.key == ""))
      && (r.Rejected? ==> r.error == ConfigError("TLS requires both Certificate and Key"))
  {
  }

  /** A prepared server is given a URL that reads back as the CLI host and port, under https exactly with TLS. */
  lemma PreparedServerUrl(c: Config, procmode: string, cli: CliOptions)
    requires PrepareStep(c, procmode, cli).Prepared?
    ensures var opts := PrepareStep(c, procmode, cli).server.options;
      ParseEndpoint(opts.url) == Some(Parts(if opts.tls.Some? then "https" else "http", cli.host, cli.port))
  {
    var url := ServiceUrl(WithTls(cli), cli.host, cli.port);
    ResolvedOptionsContents(c, cli, url);
    ServiceUrlReadsBack(WithTls(cli), cli.host, cli.port);
  }

  /** The default endpoint worked through by hand. */
  lemma LocalUrlExample()
    ensures ServiceUrl(false, "127.0.0.1", 8080) == "http://127.0.0.1:8080"
  {
  }

  /** An explicit TLS endpoint worked through by hand. */
  lemma TlsUrlExample()
    ensures ServiceUrl(true, "10.0.0.5", 443) == "https://10.0.0.5:443"
  {
  }

  /**
   * A module built without options, run on a command line without any of the
   * five flags, prepares a plain-HTTP server on 127.0.0.1:8080 with neither
   * secret, example nor TLS block.
   */
  lemma DefaultsPrepareLocalHttp(procmode: string)
    requires procmode == "standalone" || procmode == "worker"
    ensures var cli := CliDefaults(CliOptionDescriptors(Configure(NoOverrides)));
      && cli.Some?
      && var r := PrepareStep(Configure(NoOverrides), procmode, cli.value);
      && r.Prepared?
      && r.server.options.url == "http://127.0.0.1:8080"
      && r.server.options.secret.None? && r.server.options.example.None? && r.server.options.tls.None?
  {
    DefaultConfiguration();
    CliDefaultsFromConfig(Configure(NoOverrides));
    LocalUrlExample();
  }

  /** How the promise of the server's own start() settles: fulfilled with an optional error, or rejected. */
  datatype ServerStart = StartResolved(err: Option<string>) | StartRejected(reason: string)

  /** How the promise start or stop hands back settles; `Pending` never settles. */
  datatype Completion = Settled(outcome: Outcome<Error>) | Pending

  /** The events a lifecycle step emits, and how its promise completes. */
  datatype StepResult = StepResult(emitted: seq<Event>, completion: Completion)

  const StartFailedMessage := "failed to start GraphQL-IO service"
  const StartedMessage := "started GraphQL-IO service"
  const StoppingMessage := "gracefully stopping GraphQL-IO service"

  /**
   * What start does, given how the server's start settled. Only a fulfilment
   * is handled, so a rejected server start leaves start's promise pending.
   */
  function StartStep(procmode: string, registered: bool, started: ServerStart): StepResult
  {
    if !IsActiveMode(procmode) then StepResult([], Settled(Pass))
    else if !registered then StepResult([], Settled(Fail(NoService)))
    else match started
      case StartRejected(_) => StepResult([], Pending)
      case StartResolved(Some(e)) => StepResult([Fatal(StartFailedMessage)], Settled(Fail(ServiceError(e))))
      case StartResolved(None) => StepResult([Log(Tag, "info", StartedMessage)], Settled(Pass))
  }

  /**
   * With a registered server, start emits exactly one event when the server's
   * start fulfils (fatal with the same error, or info with success), and none,
   * never settling, when it rejects.
   */
  lemma StartReportsOnce(procmode: string, started: ServerStart)
    requires IsActiveMode(procmode)
    ensures var r := StartStep(procmode, true, started);
      && (r.completion.Pending? <==> started.StartRejected?)
      && (started.StartRejected? ==> r.emitted == [])
      && (started.StartResolved? ==>
            && |r.emitted| == 1
            && (r.emitted[0].Fatal? <==> started.err.Some?)
            && (r.completion == Settled(Pass) <==> started.err.None?)
            && (started.err.Some? ==> r.completion == Settled(Fail(ServiceError(started.err.value))))
            && (started.err.Some? ==> r.emitted[0] == Fatal("failed to start GraphQL-IO service"))
            && (started.err.None? ==> r.emitted[0] == Log("graphqlio", "info", "started GraphQL-IO service")))
  {
  }

  /** What stop does, given how the server's stop completed. */
  function StopStep(procmode: string, registered: bool, stopped: Outcome<string>): StepResult
  {
    if !IsActiveMode(procmode) then StepResult([], Settled(Pass))
    else
      var logged := [Log(Tag, "info", StoppingMessage)];
      if !registered then StepResult(logged, Settled(Fail(NoService)))
      else match stopped
        case Pass => StepResult(logged, Settled(Pass))
        case Fail(cause) => StepResult(logged, Settled(Fail(ServiceError(cause))))
  }

  /**
   * When active, stop logs exactly one info line first, and then completes as
   * the server's stop does, with a failure's cause kept.
   */
  lemma StopLogsFirst(procmode: string, registered: bool, stopped: Outcome<string>)
    ensures var r := StopStep(procmode, registered, stopped);
      && (!IsActiveMode(procmode) ==> r == StepResult([], Settled(Pass)))
      && (IsActiveMode(procmode) ==>
            r.emitted == [Log("graphqlio", "info", "gracefully stopping GraphQL-IO service")])
      && (IsActiveMode(procmode) && !registered ==> r.completion == Settled(Fail(NoService)))
      && (IsActiveMode(procmode) && registered && stopped.Pass? ==> r.completion == Settled(Pass))
      && (IsActiveMode(procmode) && registered && stopped.Fail? ==>
            r.completion == Settled(Fail(ServiceError(stopped.error))))
  {
  }

  // ---------------------------------------------------------------------------
  // The module object

  class Module {
    const options: Config

    constructor (overrides: Overrides)
      ensures options == Configure(overrides)
    {
      options := Configure(overrides);
    }

    /** The `latch("options:options", ...)` callback: appends the five descriptors, keeping what is there. */
    method Latch(list: OptionList)
      modifies list
      ensures list.items == old(list.items) + CliOptionDescriptors(options)
    {
      list.Push(OptionDescriptor(["host", "H"], StringOption, DefaultString(options.host),
                                 "IP address to listen", "ADDRESS"));
      list.Push(OptionDescriptor(["port", "P"], IntegerOption, DefaultNumber(options.port),
                                 "TCP port to listen", "PORT"));
      list.Push(OptionDescriptor(["crt"], StringOption, DefaultString(options.tls.crt),
                                 "use X.509 certificate for TLS", "FILE"));
      list.Push(OptionDescriptor(["key"], StringOption, DefaultString(options.tls.key),
                                 "use private key for TLS", "FILE"));
      list.Push(OptionDescriptor(["secret"], StringOption, DefaultString(options.secret),
                                 "use secret for JSON Web Tokens (JWT)", "SECRET"));
    }

    /** Validates the CLI options, builds and registers the server, and announces its endpoints. */
    method Prepare(k: Kernel) returns (r: Outcome<Error>)
      modifies k`registry, k`events
      ensures match PrepareStep(options, k.procmode, k.cliOptions)
        case Skipped =>
          r == Pass && k.registry == old(k.registry) && k.events == old(k.events)
        case Rejected(e) =>
          r == Fail(e) && k.registry == old(k.registry) && k.events == old(k.events)
        case Prepared(server, hints) =>
          r == Pass && k.registry == old(k.registry)[Tag := server] && k.events == old(k.events) + hints
    {
      if !IsActiveMode(k.procmode) {
        return Pass;
      }
      var cli := k.cliOptions;
      if (cli.key != "" && cli.crt == "") || (cli.key == "" && cli.crt != "") {
        return Fail(ConfigError(TlsPairingMessage));
      }
      var withTls := cli.crt != "" && cli.key != "";
      var url := ServiceUrl(withTls, cli.host, cli.port);
      var opts := BuildOptions(cli, url);
      ghost var hints := ListenHints(withTls, cli.host, cli.port);
      assert PrepareStep(options, k.procmode, cli) == Prepared(Server(opts), hints);
      k.Register(Tag, Server(opts));
      k.Emit(if withTls then ListenHint("https", "HTTP/{1.0,1.1,2.0} + SSL/TLS", cli.host, cli.port)
             else ListenHint("http", "HTTP/{1.0,1.1}", cli.host, cli.port));
      k.Emit(if withTls then ListenHint("wss", "WebSockets + SSL/TLS", cli.host, cli.port)
             else ListenHint("ws", "WebSockets", cli.host, cli.port));
      assert k.events == old(k.events) + hints;
      return Pass;
    }

    /** Builds the server's options object: the always-present fields, then secret, example and tls by condition. */
    method BuildOptions(cli: CliOptions, url: string) returns (opts: ServerOptions)
      ensures opts == ResolvedOptions(options, cli, url)
    {
      opts := ServerOptions(
        options.prefix, options.name, url, options.pubsub, options.keyval, options.frontend,
        options.graphiql, EncodingName(options.encoding), options.debug, None, None, None);
      if cli.secret != "" {
        opts := opts.(secret := Some(cli.secret));
      }
      if options.example != "" {
        opts := opts.(example := Some(options.example));
      }
      if cli.crt != "" && cli.key != "" {
        opts := opts.(tls := Some(TlsPair(cli.crt, cli.key)));
      }
    }

    /** Starts the registered server; `started` is what its start reported. */
    method Start(k: Kernel, started: ServerStart) returns (r: Completion)
      modifies k`events
      ensures var step := StartStep(k.procmode, Tag in k.registry, started);
        r == step.completion && k.events == old(k.events) + step.emitted
    {
      if !IsActiveMode(k.procmode) {
        return Settled(Pass);
      }
      if Tag !in k.registry {
        return Settled(Fail(NoService));
      }
      match started
      case StartRejected(_) =>
        return Pending;
      case StartResolved(err) =>
        if err.Some? {
          k.Emit(Fatal(StartFailedMessage));
          return Settled(Fail(ServiceError(err.value)));
        }
        k.Emit(Log(Tag, "info", StartedMessage));
        return Settled(Pass);
    }

    /** Logs, then stops the registered server; `stopped` is how its stop completed. */
    method Stop(k: Kernel, stopped: Outcome<string>) returns (r: Completion)
      modifies k`events
      ensures var step := StopStep(k.procmode, Tag in k.registry, stopped);
        r == step.completion && k.events == old(k.events) + step.emitted
    {
      if !IsActiveMode(k.procmode) {
        return Settled(Pass);
      }
      k.Emit(Log(Tag, "info", StoppingMessage));
      if Tag !in k.registry {
        return Settled(Fail(NoService));
      }
      match stopped
      case Pass => return Settled(Pass);
      case Fail(cause) => return Settled(Fail(ServiceError(cause)));
    }
  }

  /**
   * The host's order of calls: prepare, then start only if prepare succeeded.
   * In an active mode with a consistent TLS setting, start always finds the
   * server prepare registered, and the log holds the two listen hints
   * followed by exactly the one event start reports.
   */
  method PrepareThenStart(m: Module, k: Kernel, started: ServerStart) returns (outcome: Completion)
    modifies k`registry, k`events
    ensures IsActiveMode(k.procmode) && !TlsMismatch(k.cliOptions) ==>
      && outcome == StartStep(k.procmode, true, started).completion
      && Tag in k.registry
      && k.events == old(k.events) + ListenHints(WithTls(k.cliOptions), k.cliOptions.host, k.cliOptions.port)
                     + StartStep(k.procmode, true, started).emitted
    ensures IsActiveMode(k.procmode) && TlsMismatch(k.cliOptions) ==>
      outcome == Settled(Fail(ConfigError(TlsPairingMessage))) && k.registry == old(k.registry) && k.events == old(k.events)
    ensures !IsActiveMode(k.procmode) ==>
      outcome == Settled(Pass) && k.registry == old(k.registry) && k.events == old(k.events)
  {
    var prepared := m.Prepare(k);
    if prepared.Fail? {
      return Settled(prepared);
    }
    outcome := m.Start(k, started);
  }
}
