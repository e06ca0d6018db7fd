/**
 * The host microkernel as the module sees it: runtime state read and written
 * by name (`rs`), events emitted to the kernel (`sv`), and the list of
 * command-line option descriptors that modules extend.
 */
module Kernel {
  import opened GraphqlIoServer

  /** An event emitted with `sv`: `("log", tag, level, message)` or `("fatal", message)`. */
  datatype Event =
    | Log(tag: string, level: string, message: string)
    | Fatal(message: string)

  /** The command-line options after parsing, as `rs("options:options")` returns them. */
  datatype CliOptions = CliOptions(host: string, port: int, crt: string, key: string, secret: string)

  datatype OptionType = StringOption | IntegerOption

  datatype DefaultValue = DefaultString(s: string) | DefaultNumber(n: int)

  /** A command-line option descriptor: flag names, value type, default, help text and argument label. */
  datatype OptionDescriptor = OptionDescriptor(
    names: seq<string>, optionType: OptionType, default: DefaultValue, help: string, helpArg: string)

  /**
   * The kernel context handed to every lifecycle hook. `procmode` and
   * `cliOptions` are the runtime state entries "ctx:procmode" and
   * "options:options", which the host sets before any hook runs; `registry`
   * holds the service handles modules publish under a name; `events` is the
   * sequence of everything emitted so far.
   */
  class Kernel {
    var procmode: string
    var cliOptions: CliOptions
    var registry: map<string, Server>
    var events: seq<Event>

    constructor (procmode: string, cliOptions: CliOptions)
      ensures this.procmode == procmode && this.cliOptions == cliOptions
      ensures registry == map[] && events == []
    {
      this.procmode := procmode;
      this.cliOptions := cliOptions;
      registry := map[];
      events := [];
    }

    /** `rs(name, value)`: publishes a handle under `name`. */
    method Register(name: string, server: Server)
      modifies this`registry
      ensures registry == old(registry)[name := server]
    {
      registry := registry[name := server];
    }

    /** `sv(...)`: appends one event. */
    method Emit(e: Event)
      modifies this`events
      ensures events == old(events) + [e]
    {
      events := events + [e];
    }
  }

  /** The caller-owned descriptor list that `latch("options:options", ...)` hands to a module. */
  class OptionList {
    var items: seq<OptionDescriptor>

    constructor (items: seq<OptionDescriptor>)
      ensures this.items == items
    {
      this.items := items;
    }

    /** `push`: appends one descriptor. */
    method Push(d: OptionDescriptor)
      modifies this
      ensures items == old(items) + [d]
    {
      items := items + [d];
    }
  }
}
