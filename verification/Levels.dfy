/**
 * tinylog's severity levels and the integer severity codes of SLF4J's
 * location-aware logger interface.
 */
module Levels {

  /** tinylog's severity levels in ascending order of severity; OFF is above every real level. */
  datatype Level = TRACE | DEBUG | INFO | WARN | ERROR | OFF

  /** Position of a level in the enum, the order the logger compares levels by. */
  function Ordinal(level: Level): (n: nat)
    ensures n <= 5
    ensures level == OFF <==> n == 5
  {
    match level
    case TRACE => 0
    case DEBUG => 1
    case INFO => 2
    case WARN => 3
    case ERROR => 4
    case OFF => 5
  }

  /** The levels a log entry can have: every level except OFF. */
  type Severity = level: Level | level != OFF witness TRACE

  // Severity codes of SLF4J's LocationAwareLogger.
  const TRACE_INT: int := 0
  const DEBUG_INT: int := 10
  const INFO_INT: int := 20
  const WARN_INT: int := 30
  const ERROR_INT: int := 40

  /** The SLF4J code that names a severity level. */
  function Slf4jCode(level: Severity): (code: int)
    ensures TRACE_INT <= code <= ERROR_INT
  {
    if level == TRACE then TRACE_INT
    else if level == DEBUG then DEBUG_INT
    else if level == INFO then INFO_INT
    else if level == WARN then WARN_INT
    else ERROR_INT
  }

  /** The SLF4J codes increase with the tinylog levels they name. */
  lemma Slf4jCodeStrictlyMonotone(a: Severity, b: Severity)
    requires Ordinal(a) < Ordinal(b)
    ensures Slf4jCode(a) < Slf4jCode(b)
  {
  }
}
