/**
 * Sequences of logging method calls against one provider: what the provider
 * receives over a whole session, and how that depends on its minimum levels.
 * Each logging method appends Recorded(Dispatch(configuration, request)) to
 * the provider's calls, so a session of requests appends Forwarded(...).
 */
module Sessions {
  import opened Wrappers
  import opened Levels
  import opened LoggingProvider
  import opened Slf4jTinylog

  /** The provider calls a session of logging method calls makes, in order. */
  function Forwarded(configuration: Configuration, requests: seq<Request>): (calls: seq<Call>)
    ensures |calls| <= |requests|
  {
    if requests == [] then []
    else Forwarded(configuration, requests[..|requests| - 1]) + Recorded(Dispatch(configuration, requests[|requests| - 1]))
  }

  /** Running two sessions one after the other forwards the first's calls, then the second's. */
  lemma {:induction false} ForwardedAppend(configuration: Configuration, first: seq<Request>, second: seq<Request>)
    ensures Forwarded(configuration, first + second) == Forwarded(configuration, first) + Forwarded(configuration, second)
    decreases |second|
  {
    if second == [] {
      assert first + second == first;
    } else {
      var n := |second| - 1;
      assert (first + second)[..|first + second| - 1] == first + second[..n];
      assert (first + second)[|first + second| - 1] == second[n];
      ForwardedAppend(configuration, first, second[..n]);
    }
  }

  /** Every call the provider receives is at or above the minimum level for its tag, and never at OFF. */
  lemma {:induction false} ForwardedAccepted(configuration: Configuration, requests: seq<Request>)
    ensures forall call :: call in Forwarded(configuration, requests) ==>
      Accepts(configuration, call.tag, call.level) && call.level != OFF
    decreases |requests|
  {
    if requests != [] {
      ForwardedAccepted(configuration, requests[..|requests| - 1]);
    }
  }

  /** A provider whose minimum level is OFF for every tag receives nothing. */
  lemma ForwardedNothingWhenOff(configuration: Configuration, requests: seq<Request>)
    requires forall tag :: configuration.minimumLevel(tag) == OFF
    ensures Forwarded(configuration, requests) == []
  {
    ForwardedAccepted(configuration, requests);
  }

  /** The calls among the given ones that a configuration accepts, in order. */
  function KeepAccepted(configuration: Configuration, calls: seq<Call>): (kept: seq<Call>)
    ensures |kept| <= |calls|
    ensures forall call :: call in kept ==> call in calls && Accepts(configuration, call.tag, call.level)
  {
    if calls == [] then []
    else
      var last := calls[|calls| - 1];
      KeepAccepted(configuration, calls[..|calls| - 1]) + (if Accepts(configuration, last.tag, last.level) then [last] else [])
  }

  /** Filtering distributes over concatenation. */
  lemma {:induction false} KeepAcceptedAppend(configuration: Configuration, first: seq<Call>, second: seq<Call>)
    ensures KeepAccepted(configuration, first + second) == KeepAccepted(configuration, first) + KeepAccepted(configuration, second)
    decreases |second|
  {
    if second == [] {
      assert first + second == first;
    } else {
      var n := |second| - 1;
      assert (first + second)[..|first + second| - 1] == first + second[..n];
      assert (first + second)[|first + second| - 1] == second[n];
      KeepAcceptedAppend(configuration, first, second[..n]);
    }
  }

  /** Every tag's minimum level under `stricter` is at or above the one under `looser`. */
  ghost predicate AtLeastAsStrict(stricter: Configuration, looser: Configuration)
  {
    forall tag :: Ordinal(looser.minimumLevel(tag)) <= Ordinal(stricter.minimumLevel(tag))
  }

  /**
   * Raising minimum levels only removes provider calls: what a stricter
   * provider receives is exactly what a looser one receives, filtered by the
   * stricter provider's minimum levels.
   */
  lemma {:induction false} StricterConfigurationFilters(stricter: Configuration, looser: Configuration, requests: seq<Request>)
    requires AtLeastAsStrict(stricter, looser)
    ensures Forwarded(stricter, requests) == KeepAccepted(stricter, Forwarded(looser, requests))
    decreases |requests|
  {
    if requests != [] {
      var front, last := requests[..|requests| - 1], requests[|requests| - 1];
      StricterConfigurationFilters(stricter, looser, front);
      var loose := Recorded(Dispatch(looser, last));
      KeepAcceptedAppend(stricter, Forwarded(looser, front), loose);
      assert KeepAccepted(stricter, loose) == Recorded(Dispatch(stricter, last));
    }
  }

  /** A stricter provider never receives more calls. */
  lemma StricterConfigurationForwardsFewer(stricter: Configuration, looser: Configuration, requests: seq<Request>)
    requires AtLeastAsStrict(stricter, looser)
    ensures |Forwarded(stricter, requests)| <= |Forwarded(looser, requests)|
  {
    StricterConfigurationFilters(stricter, looser, requests);
  }

  /**
   * The location-aware log called with the SLF4J code of a level, no marker,
   * no arguments and no throwable forwards exactly when the marker-less
   * method of that level does, with the same tag, level and message.
   */
  lemma LocationAwareAgreesWithLevelMethod(configuration: Configuration, level: Severity, fqcn: string, message: string)
    ensures
      var viaCode := Dispatch(configuration, LocationAware(None, fqcn, Slf4jCode(level), message, None, None));
      var direct := Dispatch(configuration, Unmarked(level, message, NoArguments));
      viaCode.Success? && direct.Success?
      && (viaCode.value.Some? <==> direct.value.Some?)
      && (direct.value.Some? ==>
            viaCode.value.value == direct.value.value.(caller := CallerClass(fqcn)))
  {
    TranslateLevelOfCode(level);
  }
}
