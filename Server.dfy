/**
 * The interface of the wrapped GraphQL-IO server library as far as this
 * module sees it: a handle built from one options object. What the handle
 * does when started or stopped is outside the model; the outcomes of those
 * calls are given to the lifecycle steps as inputs.
 */
module GraphqlIoServer {
  import opened Wrappers

  /** The TLS block of the options object: certificate and key file names. */
  datatype TlsPair = TlsPair(crt: string, key: string)

  /**
   * The constructor's options object. `secret`, `example` and `tls` are
   * properties the object may lack; `None` stands for an absent property.
   */
  datatype ServerOptions = ServerOptions(
    prefix: string,
    name: string,
    url: string,
    pubsub: string,
    keyval: string,
    frontend: string,
    graphiql: bool,
    encoding: string,
    debug: int,
    secret: Option<string>,
    example: Option<string>,
    tls: Option<TlsPair>)

  /** A constructed server instance, remembered together with the options it was built from. */
  datatype Server = Server(options: ServerOptions)
}
