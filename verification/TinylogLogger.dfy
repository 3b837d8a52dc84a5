/**
 * The SLF4J binding of tinylog: a location-aware SLF4J logger that translates
 * SLF4J severity codes into tinylog levels, drops calls below the provider's
 * minimum level, picks the throwable out of the log arguments and forwards
 * everything else to the logging provider.
 */
module Slf4jTinylog {
  import opened Wrappers
  import opened Levels
  import opened LoggingProvider

  /** Number of stack frames between a caller and the provider call. */
  const STACKTRACE_DEPTH: nat := 2

  /** The exceptions the binding itself can raise. */
  datatype JavaException = NullPointerException

  /** An SLF4J marker; only its name is used, as the tinylog tag. */
  datatype Marker = Marker(name: string)

  /** How a logging method returned to its caller. */
  datatype Outcome = Returned | Threw(exception: JavaException)

  /**
   * The argument shapes of the five overloads each SLF4J level method has:
   * (message), (format, arg), (format, arg1, arg2), (format, arguments...)
   * and (message, throwable).
   */
  datatype Arguments =
    | NoArguments
    | OneArgument(arg: Value)
    | TwoArguments(arg1: Value, arg2: Value)
    | ArgumentArray(values: Option<seq<Value>>)
    | ExplicitThrowable(exception: Option<Throwable>)

  /**
   * Maps an SLF4J severity code to tinylog's level: the least level whose SLF4J
   * code is at least the given one, and ERROR for codes above WARN's.
   */
  function TranslateLevel(code: int): (level: Severity)
    ensures level == ERROR || code <= Slf4jCode(level)
    ensures forall lower: Severity :: Ordinal(lower) < Ordinal(level) ==> Slf4jCode(lower) < code
  {
    if code <= TRACE_INT then TRACE
    else if code <= DEBUG_INT then DEBUG
    else if code <= INFO_INT then INFO
    else if code <= WARN_INT then WARN
    else ERROR
  }

  /** A larger SLF4J code never yields a less severe tinylog level. */
  lemma TranslateLevelMonotone(a: int, b: int)
    requires a <= b
    ensures Ordinal(TranslateLevel(a)) <= Ordinal(TranslateLevel(b))
  {
  }

  /** Codes at or below TRACE's become TRACE and codes above WARN's become ERROR. */
  lemma TranslateLevelSaturates(code: int)
    ensures code <= TRACE_INT ==> TranslateLevel(code) == TRACE
    ensures code > WARN_INT ==> TranslateLevel(code) == ERROR
  {
  }

  /** Each SLF4J level code translates to its namesake tinylog level. */
  lemma TranslateLevelOfCode(level: Severity)
    ensures TranslateLevel(Slf4jCode(level)) == level
  {
  }

  /** True if the provider's untagged minimum level is at or below the given level. */
  predicate IsCoveredByMinimumLevel(configuration: Configuration, level: Level)
  {
    Accepts(configuration, None, level)
  }

  /** Coverage is upward-closed: a level above a covered level is covered too. */
  lemma CoverageUpwardClosed(configuration: Configuration, lower: Level, higher: Level)
    requires Ordinal(lower) <= Ordinal(higher)
    ensures IsCoveredByMinimumLevel(configuration, lower) ==> IsCoveredByMinimumLevel(configuration, higher)
  {
  }

  /** The argument itself if it is a throwable, otherwise null. */
  function ExtractThrowable(argument: Value): (throwable: Option<Throwable>)
    ensures throwable.Some? <==> argument.ThrowableValue?
    ensures throwable.Some? ==> argument == ThrowableValue(throwable.value)
  {
    if argument.ThrowableValue? then Some(argument.throwable) else None
  }

  /**
   * The last argument if it is a throwable, otherwise null; a null argument
   * array is dereferenced and throws.
   */
  function ExtractLastThrowable(arguments: Option<seq<Value>>): (r: Result<Option<Throwable>, JavaException>)
    ensures r.Failure? <==> arguments.None?
    ensures arguments == Some([]) ==> r == Success(None)
    ensures r.Success? && r.value.Some? ==>
      arguments.Some? && |arguments.value| > 0 && arguments.value[|arguments.value| - 1] == ThrowableValue(r.value.value)
    ensures arguments.Some? && |arguments.value| > 0 && arguments.value[|arguments.value| - 1].ThrowableValue? ==>
      r == Success(Some(arguments.value[|arguments.value| - 1].throwable))
  {
    match arguments
    case None => Failure(NullPointerException)
    case Some(values) =>
      if |values| == 0 then Success(None) else Success(ExtractThrowable(values[|values| - 1]))
  }

  /** The throwable an overload hands to the provider. */
  function ForwardedThrowable(arguments: Arguments): Result<Option<Throwable>, JavaException>
  {
    match arguments
    case NoArguments => Success(None)
    case OneArgument(arg) => Success(ExtractThrowable(arg))
    case TwoArguments(_, arg2) => Success(ExtractThrowable(arg2))
    case ArgumentArray(values) => ExtractLastThrowable(values)
    case ExplicitThrowable(exception) => Success(exception)
  }

  /** The argument array an overload hands to the provider; None is a null array. */
  function ForwardedArguments(arguments: Arguments): Option<seq<Value>>
  {
    match arguments
    case NoArguments => None
    case OneArgument(arg) => Some([arg])
    case TwoArguments(arg1, arg2) => Some([arg1, arg2])
    case ArgumentArray(values) => values
    case ExplicitThrowable(_) => None
  }

  /** True for the one overload call that throws once it gets past the level check. */
  predicate IsNullArgumentArray(arguments: Arguments)
  {
    arguments == ArgumentArray(None)
  }

  /** One call of a public logging method of the logger. */
  datatype Request =
    | Unmarked(level: Severity, message: string, arguments: Arguments)
    | Marked(level: Severity, marker: Option<Marker>, message: string, arguments: Arguments)
    | LocationAware(marker: Option<Marker>, fqcn: string, code: int, message: string,
                    values: Option<seq<Value>>, exception: Option<Throwable>)

  /** True when extracting the throwable from the request's arguments dereferences a null array. */
  predicate ThrowsOnArguments(request: Request)
  {
    !request.LocationAware? && IsNullArgumentArray(request.arguments)
  }

  /** True for a marker method called with a null marker. */
  predicate HasNullMarker(request: Request)
  {
    request.Marked? && request.marker.None?
  }

  /** The tag a request is logged with; a null marker of the location-aware method gives no tag. */
  function TagOf(request: Request): Option<string>
    requires !HasNullMarker(request)
  {
    match request
    case Unmarked(_, _, _) => None
    case Marked(_, marker, _, _) => Some(marker.value.name)
    case LocationAware(marker, _, _, _, _, _) => if marker.None? then None else Some(marker.value.name)
  }

  /** The tinylog level a request is logged at. */
  function LevelOf(request: Request): Severity
  {
    match request
    case Unmarked(level, _, _) => level
    case Marked(level, _, _, _) => level
    case LocationAware(_, _, code, _, _, _) => TranslateLevel(code)
  }

  /** Calls the provider once, unless extracting the throwable throws. */
  function Forward(tag: Option<string>, level: Severity, message: string, arguments: Arguments)
    : Result<Option<Call>, JavaException>
  {
    match ForwardedThrowable(arguments)
    case Failure(e) => Failure(e)
    case Success(throwable) =>
      Success(Some(Call(StackDepth(STACKTRACE_DEPTH), tag, level, throwable, message, ForwardedArguments(arguments))))
  }

  /**
   * What one logging method call does: Success(Some(c)) forwards c to the
   * provider, Success(None) returns without a provider call, Failure(e) throws
   * before any provider call.
   */
  function Dispatch(configuration: Configuration, request: Request): (d: Result<Option<Call>, JavaException>)
    ensures HasNullMarker(request) ==> d == Failure(NullPointerException)
    ensures !HasNullMarker(request) ==>
      (d.Failure? <==> Accepts(configuration, TagOf(request), LevelOf(request)) && ThrowsOnArguments(request))
      && (d.Success? && d.value.Some? <==> Accepts(configuration, TagOf(request), LevelOf(request)) && !ThrowsOnArguments(request))
    ensures d.Success? && d.value.Some? ==>
      !HasNullMarker(request)
      && d.value.value.tag == TagOf(request)
      && d.value.value.level == LevelOf(request)
      && d.value.value.message == request.message
      && Accepts(configuration, d.value.value.tag, d.value.value.level)
    ensures request.LocationAware? ==> d.Success?
  {
    match request
    case Unmarked(level, message, arguments) =>
      if IsCoveredByMinimumLevel(configuration, level) then Forward(None, level, message, arguments)
      else Success(None)
    case Marked(level, marker, message, arguments) =>
      if marker.None? then Failure(NullPointerException)
      else if Accepts(configuration, Some(marker.value.name), level) then
        Forward(Some(marker.value.name), level, message, arguments)
      else Success(None)
    case LocationAware(marker, fqcn, code, message, values, exception) =>
      var level := TranslateLevel(code);
      var tag := if marker.None? then None else Some(marker.value.name);
      if Accepts(configuration, tag, level) then
        Success(Some(Call(CallerClass(fqcn), tag, level, exception, message, values)))
      else Success(None)
  }

  /** The provider calls a dispatch result makes: none or one. */
  function Recorded(d: Result<Option<Call>, JavaException>): (calls: seq<Call>)
    ensures |calls| <= 1
  {
    if d.Success? && d.value.Some? then [d.value.value] else []
  }

  /** How a logging method with this dispatch result returns. */
  function OutcomeOf(d: Result<Option<Call>, JavaException>): Outcome
  {
    if d.Failure? then Threw(d.error) else Returned
  }

  /**
   * The logger. The five coverage flags are static final fields in the binding,
   * computed once from the provider's untagged minimum level; every logger
   * holds the same values.
   */
  class TinylogLogger {
    const name: string
    const provider: Provider
    const minimumLevelCoversTrace: bool
    const minimumLevelCoversDebug: bool
    const minimumLevelCoversInfo: bool
    const minimumLevelCoversWarn: bool
    const minimumLevelCoversError: bool

    /** Each cached flag agrees with the provider's untagged minimum level. */
    ghost predicate Valid()
    {
      && minimumLevelCoversTrace == IsCoveredByMinimumLevel(provider.configuration, TRACE)
      && minimumLevelCoversDebug == IsCoveredByMinimumLevel(provider.configuration, DEBUG)
      && minimumLevelCoversInfo == IsCoveredByMinimumLevel(provider.configuration, INFO)
      && minimumLevelCoversWarn == IsCoveredByMinimumLevel(provider.configuration, WARN)
      && minimumLevelCoversError == IsCoveredByMinimumLevel(provider.configuration, ERROR)
    }

    constructor (name: string, provider: Provider)
      ensures this.name == name && this.provider == provider
      ensures Valid()
    {
      this.name := name;
      this.provider := provider;
      minimumLevelCoversTrace := IsCoveredByMinimumLevel(provider.configuration, TRACE);
      minimumLevelCoversDebug := IsCoveredByMinimumLevel(provider.configuration, DEBUG);
      minimumLevelCoversInfo := IsCoveredByMinimumLevel(provider.configuration, INFO);
      minimumLevelCoversWarn := IsCoveredByMinimumLevel(provider.configuration, WARN);
      minimumLevelCoversError := IsCoveredByMinimumLevel(provider.configuration, ERROR);
    }

    method GetName() returns (r: string)
      ensures r == name
    {
      r := name;
    }

    /** The cached flag of a level. */
    function MinimumLevelCovers(level: Severity): (covered: bool)
      requires Valid()
      ensures covered == IsCoveredByMinimumLevel(provider.configuration, level)
    {
      if level == TRACE then minimumLevelCoversTrace
      else if level == DEBUG then minimumLevelCoversDebug
      else if level == INFO then minimumLevelCoversInfo
      else if level == WARN then minimumLevelCoversWarn
      else minimumLevelCoversError
    }

    /** The cached flags are upward-closed: each covered level's successor is covered too. */
    lemma CachedFlagsUpwardClosed()
      requires Valid()
      ensures minimumLevelCoversTrace ==> minimumLevelCoversDebug
      ensures minimumLevelCoversDebug ==> minimumLevelCoversInfo
      ensures minimumLevelCoversInfo ==> minimumLevelCoversWarn
      ensures minimumLevelCoversWarn ==> minimumLevelCoversError
    {
      CoverageUpwardClosed(provider.configuration, TRACE, DEBUG);
      CoverageUpwardClosed(provider.configuration, DEBUG, INFO);
      CoverageUpwardClosed(provider.configuration, INFO, WARN);
      CoverageUpwardClosed(provider.configuration, WARN, ERROR);
    }

    /** Shared body of the marker-less is*Enabled() methods. */
    method IsEnabledAt(level: Severity) returns (enabled: bool)
      requires Valid()
      ensures enabled == (MinimumLevelCovers(level) && provider.configuration.enabled(None, level))
      ensures enabled ==> IsCoveredByMinimumLevel(provider.configuration, level)
    {
      enabled := MinimumLevelCovers(level) && provider.configuration.enabled(None, level);
    }

    /** Shared body of the is*Enabled(marker) methods. */
    method IsEnabledForMarkerAt(level: Severity, marker: Option<Marker>) returns (r: Result<bool, JavaException>)
      ensures marker.None? ==> r == Failure(NullPointerException)
      ensures marker.Some? ==> r == Success(provider.configuration.enabled(Some(marker.value.name), level))
    {
      if marker.None? {
        r := Failure(NullPointerException);
      } else {
        r := Success(provider.configuration.enabled(Some(marker.value.name), level));
      }
    }

    /** Shared body of the marker-less logging methods. */
    method LogAt(level: Severity, message: string, arguments: Arguments) returns (outcome: Outcome)
      requires Valid()
      modifies provider
      ensures provider.calls == old(provider.calls) + Recorded(Dispatch(provider.configuration, Unmarked(level, message, arguments)))
      ensures outcome == OutcomeOf(Dispatch(provider.configuration, Unmarked(level, message, arguments)))
      ensures !MinimumLevelCovers(level) ==> provider.calls == old(provider.calls) && outcome == Returned
      ensures MinimumLevelCovers(level) && !IsNullArgumentArray(arguments) ==>
        outcome == Returned &&
        provider.calls == old(provider.calls) + [Call(StackDepth(STACKTRACE_DEPTH), None, level,
          ForwardedThrowable(arguments).value, message, ForwardedArguments(arguments))]
    {
      if MinimumLevelCovers(level) {
        var throwable := ForwardedThrowable(arguments);
        if throwable.Failure? {
          return Threw(throwable.error);
        }
        provider.Log(Call(StackDepth(STACKTRACE_DEPTH), None, level, throwable.value, message, ForwardedArguments(arguments)));
      }
      outcome := Returned;
    }

    /** Shared body of the logging methods that take a marker. */
    method LogMarkedAt(level: Severity, marker: Option<Marker>, message: string, arguments: Arguments)
      returns (outcome: Outcome)
      modifies provider
      ensures provider.calls == old(provider.calls) + Recorded(Dispatch(provider.configuration, Marked(level, marker, message, arguments)))
      ensures outcome == OutcomeOf(Dispatch(provider.configuration, Marked(level, marker, message, arguments)))
      ensures marker.None? ==> provider.calls == old(provider.calls) && outcome == Threw(NullPointerException)
      ensures marker.Some? && !Accepts(provider.configuration, Some(marker.value.name), level) ==>
        provider.calls == old(provider.calls) && outcome == Returned
      ensures marker.Some? && Accepts(provider.configuration, Some(marker.value.name), level) && !IsNullArgumentArray(arguments) ==>
        outcome == Returned &&
        provider.calls == old(provider.calls) + [Call(StackDepth(STACKTRACE_DEPTH), Some(marker.value.name), level,
          ForwardedThrowable(arguments).value, message, ForwardedArguments(arguments))]
    {
      if marker.None? {
        return Threw(NullPointerException);
      }
      var tag := marker.value.name;
      if Ordinal(provider.configuration.minimumLevel(Some(tag))) <= Ordinal(level) {
        var throwable := ForwardedThrowable(arguments);
        if throwable.Failure? {
          return Threw(throwable.error);
        }
        provider.Log(Call(StackDepth(STACKTRACE_DEPTH), Some(tag), level, throwable.value, message, ForwardedArguments(arguments)));
      }
      outcome := Returned;
    }

    /** isTraceEnabled(): the cached flag and the provider's answer for untagged TRACE entries. */
    method IsTraceEnabled() returns (enabled: bool)
      requires Valid()
      ensures enabled == (minimumLevelCoversTrace && provider.configuration.enabled(None, TRACE))
      ensures !minimumLevelCoversTrace ==> !enabled
    {
      enabled := IsEnabledAt(TRACE);
    }

    /** trace(...) without a marker: forwards at TRACE with no tag when the cached flag is set. */
    method Trace(message: string, arguments: Arguments) returns (outcome: Outcome)
      requires Valid()
      modifies provider
      ensures provider.calls == old(provider.calls) + Recorded(Dispatch(provider.configuration, Unmarked(TRACE, message, arguments)))
      ensures outcome == OutcomeOf(Dispatch(provider.configuration, Unmarked(TRACE, message, arguments)))
      ensures !minimumLevelCoversTrace ==> provider.calls == old(provider.calls) && outcome == Returned
      ensures minimumLevelCoversTrace && !IsNullArgumentArray(arguments) ==>
        |provider.calls| == |old(provider.calls)| + 1 && provider.calls[|old(provider.calls)|].level == TRACE
    {
      outcome := LogAt(TRACE, message, arguments);
    }

    /** isTraceEnabled(marker): the provider's answer for TRACE entries tagged with the marker's name. */
    method IsTraceEnabledFor(marker: Option<Marker>) returns (r: Result<bool, JavaException>)
      ensures marker.None? ==> r == Failure(NullPointerException)
      ensures marker.Some? ==> r == Success(provider.configuration.enabled(Some(marker.value.name), TRACE))
    {
      r := IsEnabledForMarkerAt(TRACE, marker);
    }

    /** trace(marker, ...): forwards at TRACE tagged with the marker's name when that tag's minimum level allows it. */
    method TraceMarked(marker: Option<Marker>, message: string, arguments: Arguments) returns (outcome: Outcome)
      modifies provider
      ensures provider.calls == old(provider.calls) + Recorded(Dispatch(provider.configuration, Marked(TRACE, marker, message, arguments)))
      ensures outcome == OutcomeOf(Dispatch(provider.configuration, Marked(TRACE, marker, message, arguments)))
      ensures marker.Some? && !Accepts(provider.configuration, Some(marker.value.name), TRACE) ==>
        provider.calls == old(provider.calls) && outcome == Returned
    {
      outcome := LogMarkedAt(TRACE, marker, message, arguments);
    }

    /** isDebugEnabled(): the cached flag and the provider's answer for untagged DEBUG entries. */
    method IsDebugEnabled() returns (enabled: bool)
      requires Valid()
      ensures enabled == (minimumLevelCoversDebug && provider.configuration.enabled(None, DEBUG))
      ensures !minimumLevelCoversDebug ==> !enabled
    {
      enabled := IsEnabledAt(DEBUG);
    }

    /** debug(...) without a marker: forwards at DEBUG with no tag when the cached flag is set. */
    method Debug(message: string, arguments: Arguments) returns (outcome: Outcome)
      requires Valid()
      modifies provider
      ensures provider.calls == old(provider.calls) + Recorded(Dispatch(provider.configuration, Unmarked(DEBUG, message, arguments)))
      ensures outcome == OutcomeOf(Dispatch(provider.configuration, Unmarked(DEBUG, message, arguments)))
      ensures !minimumLevelCoversDebug ==> provider.calls == old(provider.calls) && outcome == Returned
      ensures minimumLevelCoversDebug && !IsNullArgumentArray(arguments) ==>
        |provider.calls| == |old(provider.calls)| + 1 && provider.calls[|old(provider.calls)|].level == DEBUG
    {
      outcome := LogAt(DEBUG, message, arguments);
    }

    /** isDebugEnabled(marker): the provider's answer for DEBUG entries tagged with the marker's name. */
    method IsDebugEnabledFor(marker: Option<Marker>) returns (r: Result<bool, JavaException>)
      ensures marker.None? ==> r == Failure(NullPointerException)
      ensures marker.Some? ==> r == Success(provider.configuration.enabled(Some(marker.value.name), DEBUG))
    {
      r := IsEnabledForMarkerAt(DEBUG, marker);
    }

    /** debug(marker, ...): forwards at DEBUG tagged with the marker's name when that tag's minimum level allows it. */
    method DebugMarked(marker: Option<Marker>, message: string, arguments: Arguments) returns (outcome: Outcome)
      modifies provider
      ensures provider.calls == old(provider.calls) + Recorded(Dispatch(provider.configuration, Marked(DEBUG, marker, message, arguments)))
      ensures outcome == OutcomeOf(Dispatch(provider.configuration, Marked(DEBUG, marker, message, arguments)))
      ensures marker.Some? && !Accepts(provider.configuration, Some(marker.value.name), DEBUG) ==>
        provider.calls == old(provider.calls) && outcome == Returned
    {
      outcome := LogMarkedAt(DEBUG, marker, message, arguments);
    }

    /** isInfoEnabled(): the cached flag and the provider's answer for untagged INFO entries. */
    method IsInfoEnabled() returns (enabled: bool)
      requires Valid()
      ensures enabled == (minimumLevelCoversInfo && provider.configuration.enabled(None, INFO))
      ensures !minimumLevelCoversInfo ==> !enabled
    {
      enabled := IsEnabledAt(INFO);
    }

    /** info(...) without a marker: forwards at INFO with no tag when the cached flag is set. */
    method Info(message: string, arguments: Arguments) returns (outcome: Outcome)
      requires Valid()
      modifies provider
      ensures provider.calls == old(provider.calls) + Recorded(Dispatch(provider.configuration, Unmarked(INFO, message, arguments)))
      ensures outcome == OutcomeOf(Dispatch(provider.configuration, Unmarked(INFO, message, arguments)))
      ensures !minimumLevelCoversInfo ==> provider.calls == old(provider.calls) && outcome == Returned
      ensures minimumLevelCoversInfo && !IsNullArgumentArray(arguments) ==>
        |provider.calls| == |old(provider.calls)| + 1 && provider.calls[|old(provider.calls)|].level == INFO
    {
      outcome := LogAt(INFO, message, arguments);
    }

    /** isInfoEnabled(marker): the provider's answer for INFO entries tagged with the marker's name. */
    method IsInfoEnabledFor(marker: Option<Marker>) returns (r: Result<bool, JavaException>)
      ensures marker.None? ==> r == Failure(NullPointerException)
      ensures marker.Some? ==> r == Success(provider.configuration.enabled(Some(marker.value.name), INFO))
    {
      r := IsEnabledForMarkerAt(INFO, marker);
    }

    /** info(marker, ...): forwards at INFO tagged with the marker's name when that tag's minimum level allows it. */
    method InfoMarked(marker: Option<Marker>, message: string, arguments: Arguments) returns (outcome: Outcome)
      modifies provider
      ensures provider.calls == old(provider.calls) + Recorded(Dispatch(provider.configuration, Marked(INFO, marker, message, arguments)))
      ensures outcome == OutcomeOf(Dispatch(provider.configuration, Marked(INFO, marker, message, arguments)))
      ensures marker.Some? && !Accepts(provider.configuration, Some(marker.value.name), INFO) ==>
        provider.calls == old(provider.calls) && outcome == Returned
    {
      outcome := LogMarkedAt(INFO, marker, message, arguments);
    }

    /** isWarnEnabled(): the cached flag and the provider's answer for untagged WARN entries. */
    method IsWarnEnabled() returns (enabled: bool)
      requires Valid()
      ensures enabled == (minimumLevelCoversWarn && provider.configuration.enabled(None, WARN))
      ensures !minimumLevelCoversWarn ==> !enabled
    {
      enabled := IsEnabledAt(WARN);
    }

    /** warn(...) without a marker: forwards at WARN with no tag when the cached flag is set. */
    method Warn(message: string, arguments: Arguments) returns (outcome: Outcome)
      requires Valid()
      modifies provider
      ensures provider.calls == old(provider.calls) + Recorded(Dispatch(provider.configuration, Unmarked(WARN, message, arguments)))
      ensures outcome == OutcomeOf(Dispatch(provider.configuration, Unmarked(WARN, message, arguments)))
      ensures !minimumLevelCoversWarn ==> provider.calls == old(provider.calls) && outcome == Returned
      ensures minimumLevelCoversWarn && !IsNullArgumentArray(arguments) ==>
        |provider.calls| == |old(provider.calls)| + 1 && provider.calls[|old(provider.calls)|].level == WARN
    {
      outcome := LogAt(WARN, message, arguments);
    }

    /** isWarnEnabled(marker): the provider's answer for WARN entries tagged with the marker's name. */
    method IsWarnEnabledFor(marker: Option<Marker>) returns (r: Result<bool, JavaException>)
      ensures marker.None? ==> r == Failure(NullPointerException)
      ensures marker.Some? ==> r == Success(provider.configuration.enabled(Some(marker.value.name), WARN))
    {
      r := IsEnabledForMarkerAt(WARN, marker);
    }

    /** warn(marker, ...): forwards at WARN tagged with the marker's name when that tag's minimum level allows it. */
    method WarnMarked(marker: Option<Marker>, message: string, arguments: Arguments) returns (outcome: Outcome)
      modifies provider
      ensures provider.calls == old(provider.calls) + Recorded(Dispatch(provider.configuration, Marked(WARN, marker, message, arguments)))
      ensures outcome == OutcomeOf(Dispatch(provider.configuration, Marked(WARN, marker, message, arguments)))
      ensures marker.Some? && !Accepts(provider.configuration, Some(marker.value.name), WARN) ==>
        provider.calls == old(provider.calls) && outcome == Returned
    {
      outcome := LogMarkedAt(WARN, marker, message, arguments);
    }

    /** isErrorEnabled(): the cached flag and the provider's answer for untagged ERROR entries. */
    method IsErrorEnabled() returns (enabled: bool)
      requires Valid()
      ensures enabled == (minimumLevelCoversError && provider.configuration.enabled(None, ERROR))
      ensures !minimumLevelCoversError ==> !enabled
    {
      enabled := IsEnabledAt(ERROR);
    }

    /** error(...) without a marker: forwards at ERROR with no tag when the cached flag is set. */
    method Error(message: string, arguments: Arguments) returns (outcome: Outcome)
      requires Valid()
      modifies provider
      ensures provider.calls == old(provider.calls) + Recorded(Dispatch(provider.configuration, Unmarked(ERROR, message, arguments)))
      ensures outcome == OutcomeOf(Dispatch(provider.configuration, Unmarked(ERROR, message, arguments)))
      ensures !minimumLevelCoversError ==> provider.calls == old(provider.calls) && outcome == Returned
      ensures minimumLevelCoversError && !IsNullArgumentArray(arguments) ==>
        |provider.calls| == |old(provider.calls)| + 1 && provider.calls[|old(provider.calls)|].level == ERROR
    {
      outcome := LogAt(ERROR, message, arguments);
    }

    /** isErrorEnabled(marker): the provider's answer for ERROR entries tagged with the marker's name. */
    method IsErrorEnabledFor(marker: Option<Marker>) returns (r: Result<bool, JavaException>)
      ensures marker.None? ==> r == Failure(NullPointerException)
      ensures marker.Some? ==> r == Success(provider.configuration.enabled(Some(marker.value.name), ERROR))
    {
      r := IsEnabledForMarkerAt(ERROR, marker);
    }

    /** error(marker, ...): forwards at ERROR tagged with the marker's name when that tag's minimum level allows it. */
    method ErrorMarked(marker: Option<Marker>, message: string, arguments: Arguments) returns (outcome: Outcome)
      modifies provider
      ensures provider.calls == old(provider.calls) + Recorded(Dispatch(provider.configuration, Marked(ERROR, marker, message, arguments)))
      ensures outcome == OutcomeOf(Dispatch(provider.configuration, Marked(ERROR, marker, message, arguments)))
      ensures marker.Some? && !Accepts(provider.configuration, Some(marker.value.name), ERROR) ==>
        provider.calls == old(provider.calls) && outcome == Returned
    {
      outcome := LogMarkedAt(ERROR, marker, message, arguments);
    }

    /**
     * The location-aware log(marker, fqcn, level, message, arguments, throwable):
     * translates the SLF4J code, tags with the marker's name (none for a null
     * marker) and forwards iff that tag's minimum level allows the level.
     */
    method Log(marker: Option<Marker>, fqcn: string, code: int, message: string,
               values: Option<seq<Value>>, exception: Option<Throwable>)
      modifies provider
      ensures provider.calls == old(provider.calls)
        + Recorded(Dispatch(provider.configuration, LocationAware(marker, fqcn, code, message, values, exception)))
      ensures
        var tag := if marker.None? then None else Some(marker.value.name);
        var level := TranslateLevel(code);
        provider.calls ==
          if Accepts(provider.configuration, tag, level)
          then old(provider.calls) + [Call(CallerClass(fqcn), tag, level, exception, message, values)]
          else old(provider.calls)
    {
      var level := TranslateLevel(code);
      var tag := if marker == None then None else Some(marker.value.name);
      if Ordinal(provider.configuration.minimumLevel(tag)) <= Ordinal(level) {
        provider.Log(Call(CallerClass(fqcn), tag, level, exception, message, values));
      }
    }
  }
}
