/**
 * The logging provider the binding forwards to. Its implementation is outside
 * the model: it is seen only through the minimum level it reports per tag,
 * the answer of its enabled check, and the calls it receives.
 */
module LoggingProvider {
  import opened Wrappers
  import opened Levels

  /** A Java throwable, identified by an opaque number. */
  datatype Throwable = Throwable(id: nat)

  /** A Java object passed as a log argument. */
  datatype Value = Null | ThrowableValue(throwable: Throwable) | Other(id: nat)

  /** How the provider is told where the log call came from. */
  datatype Caller =
    | StackDepth(depth: nat)      // number of stack frames to skip
    | CallerClass(fqcn: string)   // fully qualified name of the logging class

  /** One call of the provider's log operation. */
  datatype Call = Call(
    caller: Caller,
    tag: Option<string>,
    level: Level,
    exception: Option<Throwable>,
    message: string,
    arguments: Option<seq<Value>>)

  /** What the provider answers: its minimum level per tag (None is the untagged case) and its enabled check. */
  datatype Configuration = Configuration(
    minimumLevel: Option<string> -> Level,
    enabled: (Option<string>, Level) -> bool)

  /** True when a provider with this configuration accepts an entry with this tag and level. */
  predicate Accepts(configuration: Configuration, tag: Option<string>, level: Level)
  {
    Ordinal(configuration.minimumLevel(tag)) <= Ordinal(level)
  }

  /** The provider object; the calls it has received so far are recorded in order. */
  class Provider {
    const configuration: Configuration
    ghost var calls: seq<Call>

    constructor (configuration: Configuration)
      ensures this.configuration == configuration
      ensures calls == []
    {
      this.configuration := configuration;
      calls := [];
    }

    /** Receives one log entry. */
    method Log(call: Call)
      modifies this
      ensures calls == old(calls) + [call]
    {
      calls := calls + [call];
    }
  }
}
