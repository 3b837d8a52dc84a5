# tinylog SLF4J binding — level handling model

This project models the level handling of tinylog's SLF4J binding,
`TinylogLogger`: the SLF4J `Logger`/`LocationAwareLogger` implementation that
forwards SLF4J log calls to tinylog's logging provider. It covers

- **level translation** — SLF4J's integer severity codes (`TRACE_INT` 0,
  `DEBUG_INT` 10, `INFO_INT` 20, `WARN_INT` 30, `ERROR_INT` 40) become tinylog
  `Level`s (`Slf4jTinylog.TranslateLevel`);
- **level gating** — marker-less methods test five cached flags computed once
  from the provider's untagged minimum level; marker methods and the
  location-aware `log` compare against the minimum level of the tag (the
  marker's name);
- **throwable extraction** — the last argument is passed as the throwable when
  it is one (`ExtractThrowable`, `ExtractLastThrowable`);
- the **effect on the provider**: every logging method either appends exactly
  one call to the provider's record of calls, returns without a provider call,
  or throws `NullPointerException` before any provider call.

Files:

- `Wrappers.dfy` — `Option` (a nullable reference) and `Result` (return or throw).
- `Levels.dfy` — tinylog's `Level` enum with its ordinals and SLF4J's level codes.
- `LoggingProvider.dfy` — the provider as seen from the binding: a fixed
  `Configuration` (minimum level per tag, `isEnabled` answer) and a `Provider`
  class whose ghost field `calls` records every `log` call it receives.
- `TinylogLogger.dfy` — module `Slf4jTinylog`: the static helpers, the
  specification function `Dispatch` giving the effect of one logging call, and
  the class `TinylogLogger` whose methods are proved to append exactly
  `Recorded(Dispatch(...))` to the provider's calls and to return the matching
  outcome.
- `Sessions.dfy` — whole sequences of logging calls: `Forwarded` is what the
  provider receives; it is proved to be a concatenation over calls, to contain
  only accepted entries, and to shrink to a filter of itself when minimum levels
  are raised.

The five SLF4J overloads per level — `(message)`, `(format, arg)`,
`(format, arg1, arg2)`, `(format, arguments...)`, `(message, throwable)` — are
one Dafny method each, taking an `Arguments` value that says which overload was
called. Java's `null` is `None`.

## Model

| member | source | states |
|---|---|---|
| `Levels.Slf4jCodeStrictlyMonotone` | slf4j-tinylog/src/main/java/org/tinylog/slf4j/TinylogLogger.java:507-519 | the SLF4J thresholds the if-chain compares against increase strictly with the level they name |
| `Slf4jTinylog.TranslateLevel` | slf4j-tinylog/src/main/java/org/tinylog/slf4j/TinylogLogger.java:507-519 | the result is never OFF; it is the least level whose SLF4J code is at least the given code (all lower levels have smaller codes), or ERROR above WARN's code |
| `Slf4jTinylog.TranslateLevelMonotone` | slf4j-tinylog/src/main/java/org/tinylog/slf4j/TinylogLogger.java:507-519 | a larger SLF4J code never yields a level with a smaller ordinal |
| `Slf4jTinylog.TranslateLevelSaturates` | slf4j-tinylog/src/main/java/org/tinylog/slf4j/TinylogLogger.java:508-517 | every code at or below TRACE_INT gives TRACE, every code above WARN_INT gives ERROR |
| `Slf4jTinylog.TranslateLevelOfCode` | slf4j-tinylog/src/main/java/org/tinylog/slf4j/TinylogLogger.java:508-517 | each of TRACE_INT, DEBUG_INT, INFO_INT, WARN_INT, ERROR_INT translates to its namesake level |
| `Slf4jTinylog.CoverageUpwardClosed` | slf4j-tinylog/src/main/java/org/tinylog/slf4j/TinylogLogger.java:496-498 | if a level is covered by the untagged minimum level, every higher level is covered |
| `Slf4jTinylog.ExtractThrowable` | slf4j-tinylog/src/main/java/org/tinylog/slf4j/TinylogLogger.java:539-541 | returns the argument exactly when it is a throwable, null otherwise |
| `Slf4jTinylog.ExtractLastThrowable` | slf4j-tinylog/src/main/java/org/tinylog/slf4j/TinylogLogger.java:528-530 | throws exactly for a null array; an empty array gives null; a throwable result is the last element, and a last element that is a throwable is returned |
| `Slf4jTinylog.Dispatch` | slf4j-tinylog/src/main/java/org/tinylog/slf4j/TinylogLogger.java:59-487 | a null marker throws before the level check; otherwise the call forwards iff the tag's minimum level accepts the request's level and the arguments are not a null array, throws iff accepted with a null array, and a forwarded entry carries the request's tag, level and message; the location-aware log never throws |
| `Slf4jTinylog.TinylogLogger.constructor` | slf4j-tinylog/src/main/java/org/tinylog/slf4j/TinylogLogger.java:32-47 | keeps the name and establishes that each cached flag equals coverage of its level by the provider's untagged minimum level |
| `Slf4jTinylog.TinylogLogger.GetName` | slf4j-tinylog/src/main/java/org/tinylog/slf4j/TinylogLogger.java:49-52 | returns the name given at construction |
| `Slf4jTinylog.TinylogLogger.MinimumLevelCovers` | slf4j-tinylog/src/main/java/org/tinylog/slf4j/TinylogLogger.java:32-36 | the cached flag of a level equals whether the untagged minimum level covers it |
| `Slf4jTinylog.TinylogLogger.CachedFlagsUpwardClosed` | slf4j-tinylog/src/main/java/org/tinylog/slf4j/TinylogLogger.java:32-36 | TRACE covered implies DEBUG covered, DEBUG implies INFO, INFO implies WARN, WARN implies ERROR |
| `Slf4jTinylog.TinylogLogger.IsEnabledAt` | slf4j-tinylog/src/main/java/org/tinylog/slf4j/TinylogLogger.java:54-57 | true iff the cached flag is set and the provider answers enabled for no tag; true only for covered levels |
| `Slf4jTinylog.TinylogLogger.IsEnabledForMarkerAt` | slf4j-tinylog/src/main/java/org/tinylog/slf4j/TinylogLogger.java:94-97 | throws for a null marker, otherwise returns the provider's answer for the marker's name |
| `Slf4jTinylog.TinylogLogger.LogAt` | slf4j-tinylog/src/main/java/org/tinylog/slf4j/TinylogLogger.java:59-92 | appends exactly the dispatched call; with the flag unset nothing is appended; with it set and a non-null array one untagged entry at the level, with the extracted throwable and the overload's arguments, is appended |
| `Slf4jTinylog.TinylogLogger.LogMarkedAt` | slf4j-tinylog/src/main/java/org/tinylog/slf4j/TinylogLogger.java:99-137 | a null marker throws with nothing appended; a tag whose minimum level is above the level appends nothing; otherwise one entry tagged with the marker's name is appended |
| `Slf4jTinylog.TinylogLogger.IsTraceEnabled` | slf4j-tinylog/src/main/java/org/tinylog/slf4j/TinylogLogger.java:54-57 | false whenever the TRACE flag is unset, whatever the provider answers; otherwise the provider's answer |
| `Slf4jTinylog.TinylogLogger.Trace` | slf4j-tinylog/src/main/java/org/tinylog/slf4j/TinylogLogger.java:59-92 | appends the dispatched call; nothing when the TRACE flag is unset; one TRACE entry when it is set and the arguments are not a null array |
| `Slf4jTinylog.TinylogLogger.IsTraceEnabledFor` | slf4j-tinylog/src/main/java/org/tinylog/slf4j/TinylogLogger.java:94-97 | the provider's answer for TRACE and the marker's name, unguarded by the cached flag; throws for a null marker |
| `Slf4jTinylog.TinylogLogger.TraceMarked` | slf4j-tinylog/src/main/java/org/tinylog/slf4j/TinylogLogger.java:99-137 | appends the dispatched call; nothing when the marker's tag has a minimum level above TRACE |
| `Slf4jTinylog.TinylogLogger.IsDebugEnabled` | slf4j-tinylog/src/main/java/org/tinylog/slf4j/TinylogLogger.java:139-142 | false whenever the DEBUG flag is unset; otherwise the provider's answer |
| `Slf4jTinylog.TinylogLogger.Debug` | slf4j-tinylog/src/main/java/org/tinylog/slf4j/TinylogLogger.java:144-177 | appends the dispatched call; nothing when the DEBUG flag is unset; one DEBUG entry when it is set and the arguments are not a null array |
| `Slf4jTinylog.TinylogLogger.IsDebugEnabledFor` | slf4j-tinylog/src/main/java/org/tinylog/slf4j/TinylogLogger.java:179-182 | the provider's answer for DEBUG and the marker's name; throws for a null marker |
| `Slf4jTinylog.TinylogLogger.DebugMarked` | slf4j-tinylog/src/main/java/org/tinylog/slf4j/TinylogLogger.java:184-222 | appends the dispatched call; nothing when the marker's tag has a minimum level above DEBUG |
| `Slf4jTinylog.TinylogLogger.IsInfoEnabled` | slf4j-tinylog/src/main/java/org/tinylog/slf4j/TinylogLogger.java:224-227 | false whenever the INFO flag is unset; otherwise the provider's answer |
| `Slf4jTinylog.TinylogLogger.Info` | slf4j-tinylog/src/main/java/org/tinylog/slf4j/TinylogLogger.java:229-262 | appends the dispatched call; nothing when the INFO flag is unset; one INFO entry when it is set and the arguments are not a null array |
| `Slf4jTinylog.TinylogLogger.IsInfoEnabledFor` | slf4j-tinylog/src/main/java/org/tinylog/slf4j/TinylogLogger.java:264-267 | the provider's answer for INFO and the marker's name; throws for a null marker |
| `Slf4jTinylog.TinylogLogger.InfoMarked` | slf4j-tinylog/src/main/java/org/tinylog/slf4j/TinylogLogger.java:269-307 | appends the dispatched call; nothing when the marker's tag has a minimum level above INFO |
| `Slf4jTinylog.TinylogLogger.IsWarnEnabled` | slf4j-tinylog/src/main/java/org/tinylog/slf4j/TinylogLogger.java:309-312 | false whenever the WARN flag is unset; otherwise the provider's answer |
| `Slf4jTinylog.TinylogLogger.Warn` | slf4j-tinylog/src/main/java/org/tinylog/slf4j/TinylogLogger.java:314-347 | appends the dispatched call; nothing when the WARN flag is unset; one WARN entry when it is set and the arguments are not a null array |
| `Slf4jTinylog.TinylogLogger.IsWarnEnabledFor` | slf4j-tinylog/src/main/java/org/tinylog/slf4j/TinylogLogger.java:349-352 | the provider's answer for WARN and the marker's name; throws for a null marker |
| `Slf4jTinylog.TinylogLogger.WarnMarked` | slf4j-tinylog/src/main/java/org/tinylog/slf4j/TinylogLogger.java:354-392 | appends the dispatched call; nothing when the marker's tag has a minimum level above WARN |
| `Slf4jTinylog.TinylogLogger.IsErrorEnabled` | slf4j-tinylog/src/main/java/org/tinylog/slf4j/TinylogLogger.java:394-397 | false whenever the ERROR flag is unset (minimum level OFF); otherwise the provider's answer |
| `Slf4jTinylog.TinylogLogger.Error` | slf4j-tinylog/src/main/java/org/tinylog/slf4j/TinylogLogger.java:399-432 | appends the dispatched call; nothing when the ERROR flag is unset; one ERROR entry when it is set and the arguments are not a null array |
| `Slf4jTinylog.TinylogLogger.IsErrorEnabledFor` | slf4j-tinylog/src/main/java/org/tinylog/slf4j/TinylogLogger.java:434-437 | the provider's answer for ERROR and the marker's name; throws for a null marker |
| `Slf4jTinylog.TinylogLogger.ErrorMarked` | slf4j-tinylog/src/main/java/org/tinylog/slf4j/TinylogLogger.java:439-477 | appends the dispatched call; nothing when the marker's tag has a minimum level above ERROR |
| `Slf4jTinylog.TinylogLogger.Log` | slf4j-tinylog/src/main/java/org/tinylog/slf4j/TinylogLogger.java:479-487 | appends exactly one entry — tag the marker's name or none for a null marker, level the translated code, the caller class, throwable, message and arguments as given — iff that tag's minimum level accepts the translated level, and nothing otherwise |
| `Sessions.Forwarded` | slf4j-tinylog/src/main/java/org/tinylog/slf4j/TinylogLogger.java:59-487 | a session of logging calls makes at most one provider call per logging call |
| `Sessions.ForwardedAppend` | slf4j-tinylog/src/main/java/org/tinylog/slf4j/TinylogLogger.java:59-487 | the provider calls of two consecutive sessions are those of the first followed by those of the second |
| `Sessions.ForwardedAccepted` | slf4j-tinylog/src/main/java/org/tinylog/slf4j/TinylogLogger.java:59-487 | every entry the provider receives is at or above the minimum level of its tag, and never at OFF |
| `Sessions.ForwardedNothingWhenOff` | slf4j-tinylog/src/main/java/org/tinylog/slf4j/TinylogLogger.java:59-487 | a provider whose minimum level is OFF for every tag receives no calls |
| `Sessions.KeepAccepted` | slf4j-tinylog/src/main/java/org/tinylog/slf4j/TinylogLogger.java:99-105 | the filter by a configuration's minimum levels keeps only accepted entries drawn from its input |
| `Sessions.KeepAcceptedAppend` | slf4j-tinylog/src/main/java/org/tinylog/slf4j/TinylogLogger.java:99-105 | filtering by minimum level distributes over concatenation |
| `Sessions.StricterConfigurationFilters` | slf4j-tinylog/src/main/java/org/tinylog/slf4j/TinylogLogger.java:59-487 | raising minimum levels turns the provider's received calls into exactly their filter by the new minimum levels |
| `Sessions.StricterConfigurationForwardsFewer` | slf4j-tinylog/src/main/java/org/tinylog/slf4j/TinylogLogger.java:59-487 | a provider with higher minimum levels never receives more calls |
| `Sessions.LocationAwareAgreesWithLevelMethod` | slf4j-tinylog/src/main/java/org/tinylog/slf4j/TinylogLogger.java:479-487 | the location-aware log with a level's SLF4J code forwards exactly when the marker-less method of that level does, with the same entry except the caller |

## Left out

- The logging provider and the registry lookup (`ProviderRegistry.getLoggingProvider()`) are foreign code: the provider is a constructor parameter seen only through its minimum level per tag, its `isEnabled` answer and the calls it records. Exceptions raised inside the provider are not modelled.
- The provider's minimum levels are taken as fixed for its lifetime; the cached flags rely on this, since they are computed once.
- The five coverage flags are `static final` in the binding; here they are per-logger constants that the constructor computes from the same provider, so every logger holds the same values.
- The stack-depth argument (`STACKTRACE_DEPTH`, 2) and the caller class name are recorded with each call, but the provider's caller lookup is not modelled; `isEnabled` is modelled as depending on tag and level only.
- Message formatting and argument rendering happen in the provider; messages and arguments are passed through unchanged. A `null` message is treated like any other string.
- tinylog's `Level` enum is not part of this model; it is modelled with TRACE, DEBUG, INFO, WARN, ERROR and OFF in that order, so the minimum level can be OFF and the ERROR flag can be unset.
- SLF4J's `LocationAwareLogger` constants are not part of this model; they take SLF4J's values 0, 10, 20, 30 and 40.
- Markers are reduced to their name; marker references and a marker whose name is `null` are not modelled.
- Java overload resolution is replaced by the `Arguments` datatype naming the overload that was called.
- `tests/src/org/pmw/tinylog/PropertiesLoaderTest.java` and `tests/src/org/pmw/tinylog/writers/SharedFileWriterTest.java` test the properties loader, file writers, rotation policies and labellers, whose code is not part of this model.
