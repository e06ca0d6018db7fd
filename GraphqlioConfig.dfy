/**
 * The module's configuration record with its documented defaults, and the
 * command-line option descriptors it contributes, whose defaults come from
 * that configuration.
 */
module GraphqlioConfig {
  import opened Wrappers
  import opened Kernel

  /** The wire encodings the server accepts; any other name is refused when the record is built. */
  datatype Encoding = Cbor | Msgpack | Json

  function EncodingName(e: Encoding): (name: string)
    ensures name in {"cbor", "msgpack", "json"}
    ensures name == "cbor" <==> e == Cbor
    ensures name == "msgpack" <==> e == Msgpack
    ensures name == "json" <==> e == Json
  {
    match e
    case Cbor => "cbor"
    case Msgpack => "msgpack"
    case Json => "json"
  }

  datatype TlsFiles = TlsFiles(crt: string, key: string)

  /** The configuration record the module keeps for its whole life. */
  datatype Config = Config(
    prefix: string,
    name: string,
    host: string,
    port: int,
    tls: TlsFiles,
    ttl: int,
    pubsub: string,
    keyval: string,
    secret: string,
    frontend: string,
    graphiql: bool,
    encoding: Encoding,
    debug: int,
    example: string)

  /** The options a caller passes to the constructor; an absent field takes its default. */
  datatype Overrides = Overrides(
    prefix: Option<string>,
    name: Option<string>,
    host: Option<string>,
    port: Option<int>,
    crt: Option<string>,
    key: Option<string>,
    ttl: Option<int>,
    pubsub: Option<string>,
    keyval: Option<string>,
    secret: Option<string>,
    frontend: Option<string>,
    graphiql: Option<bool>,
    encoding: Option<Encoding>,
    debug: Option<int>,
    example: Option<string>)

  const NoOverrides := Overrides(None, None, None, None, None, None, None, None,
                                 None, None, None, None, None, None, None)

  /** One week, in milliseconds. */
  const DefaultTtl: int := 7 * 24 * 60 * 60 * 1000

  /** Merges the caller's options over the defaults, field by field. */
  function Configure(o: Overrides): (c: Config)
    ensures c.prefix == (if o.prefix.Some? then o.prefix.value else "GraphQL-IO-")
    ensures c.name == (if o.name.Some? then o.name.value else "GraphQL-IO-Server")
    ensures c.host == (if o.host.Some? then o.host.value else "127.0.0.1")
    ensures c.port == (if o.port.Some? then o.port.value else 8080)
    ensures c.tls.crt == (if o.crt.Some? then o.crt.value else "")
    ensures c.tls.key == (if o.key.Some? then o.key.value else "")
    ensures c.ttl == (if o.ttl.Some? then o.ttl.value else 7 * 24 * 60 * 60 * 1000)
    ensures c.pubsub == (if o.pubsub.Some? then o.pubsub.value else "spm")
    ensures c.keyval == (if o.keyval.Some? then o.keyval.value else "spm")
    ensures c.secret == (if o.secret.Some? then o.secret.value else "")
    ensures c.frontend == (if o.frontend.Some? then o.frontend.value else "")
    ensures c.graphiql == (if o.graphiql.Some? then o.graphiql.value else true)
    ensures c.encoding == (if o.encoding.Some? then o.encoding.value else Json)
    ensures c.debug == (if o.debug.Some? then o.debug.value else 9)
    ensures c.example == (if o.example.Some? then o.example.value else "")
  {
    Config(
      o.prefix.GetOr("GraphQL-IO-"),
      o.name.GetOr("GraphQL-IO-Server"),
      o.host.GetOr("127.0.0.1"),
      o.port.GetOr(8080),
      TlsFiles(o.crt.GetOr(""), o.key.GetOr("")),
      o.ttl.GetOr(DefaultTtl),
      o.pubsub.GetOr("spm"),
      o.keyval.GetOr("spm"),
      o.secret.GetOr(""),
      o.frontend.GetOr(""),
      o.graphiql.GetOr(true),
      o.encoding.GetOr(Json),
      o.debug.GetOr(9),
      o.example.GetOr(""))
  }

  /** With no options given, every field holds its documented default. */
  lemma DefaultConfiguration()
    ensures Configure(NoOverrides) == Config(
      "GraphQL-IO-", "GraphQL-IO-Server", "127.0.0.1", 8080, TlsFiles("", ""),
      604800000, "spm", "spm", "", "", true, Json, 9, "")
  {
  }

  /**
   * The five descriptors the module appends to the command-line option list,
   * in the order host, port, crt, key, secret.
   */
  function CliOptionDescriptors(c: Config): (ds: seq<OptionDescriptor>)
    ensures |ds| == 5
    ensures ds[0].names == ["host", "H"] && ds[0].optionType == StringOption && ds[0].default == DefaultString(c.host)
    ensures ds[1].names == ["port", "P"] && ds[1].optionType == IntegerOption && ds[1].default == DefaultNumber(c.port)
    ensures ds[2].names == ["crt"] && ds[2].optionType == StringOption && ds[2].default == DefaultString(c.tls.crt)
    ensures ds[3].names == ["key"] && ds[3].optionType == StringOption && ds[3].default == DefaultString(c.tls.key)
    ensures ds[4].names == ["secret"] && ds[4].optionType == StringOption && ds[4].default == DefaultString(c.secret)
  {
    [ OptionDescriptor(["host", "H"], StringOption, DefaultString(c.host),
                       "IP address to listen", "ADDRESS"),
      OptionDescriptor(["port", "P"], IntegerOption, DefaultNumber(c.port),
                       "TCP port to listen", "PORT"),
      OptionDescriptor(["crt"], StringOption, DefaultString(c.tls.crt),
                       "use X.509 certificate for TLS", "FILE"),
      OptionDescriptor(["key"], StringOption, DefaultString(c.tls.key),
                       "use private key for TLS", "FILE"),
      OptionDescriptor(["secret"], StringOption, DefaultString(c.secret),
                       "use secret for JSON Web Tokens (JWT)", "SECRET") ]
  }

  /**
   * The options a command line without any of the five flags resolves to:
   * each takes the default its descriptor carries.
   */
  function CliDefaults(ds: seq<OptionDescriptor>): (cli: Option<CliOptions>)
  {
    if |ds| == 5
       && ds[0].default.DefaultString? && ds[1].default.DefaultNumber?
       && ds[2].default.DefaultString? && ds[3].default.DefaultString?
       && ds[4].default.DefaultString?
    then Some(CliOptions(ds[0].default.s, ds[1].default.n, ds[2].default.s,
                         ds[3].default.s, ds[4].default.s))
    else None
  }

  /** Without command-line flags, the listening address, TLS files and secret are the configured ones. */
  lemma CliDefaultsFromConfig(c: Config)
    ensures CliDefaults(CliOptionDescriptors(c))
            == Some(CliOptions(c.host, c.port, c.tls.crt, c.tls.key, c.secret))
  {
  }
}
