/**
 * A logger bound to one logged class. Each emit operation has a fixed level; a
 * message passes the threshold gate of the shared configuration, then the class
 * gate of that level's pattern, and is then dispatched once to the level's
 * console operation, directly or through a callback.
 */
module Logging {
  import opened Wrappers
  import opened Levels
  import opened Console
  import opened Config

  /** The logged class: a plain name, or a type whose display name is its `name`. */
  datatype Identity = Named(name: string) | Typed(typeName: string)

  /**
   * A payload: a plain value, or a callback, given by the arguments of each `write`
   * call it makes on the environment logger it is handed, in order.
   */
  datatype Payload = Plain(value: Value) | Callback(calls: seq<seq<Value>>)

  /** The regular-expression engine's verdict when a pattern is tested against a name. */
  datatype RegexResult = Match | NoMatch | Invalid

  /** The regular-expression engine: `matcher(pattern, name)`; Invalid when the pattern does not compile. */
  type Matcher = (string, string) -> RegexResult

  /** How one emit call ended. PatternError stands for the exception a pattern that does not compile raises. */
  datatype Outcome = BelowThreshold | FilteredOut | PatternError | Dispatched

  /** The outcome of one emit call and what it observably did. */
  datatype Step = Step(outcome: Outcome, effects: seq<Effect>)

  /** The sink calls the environment logger makes, one per `write` call, in order. */
  function Outputs(fn: ConsoleFn, calls: seq<seq<Value>>): (r: seq<Effect>)
    ensures |r| == |calls|
    ensures forall i :: 0 <= i < |calls| ==> r[i] == Output(fn, calls[i])
  {
    if calls == [] then [] else Outputs(fn, calls[..|calls| - 1]) + [Output(fn, calls[|calls| - 1])]
  }

  /** What dispatching `payload` to console slot `fn` observably does. */
  function Dispatch(fn: ConsoleFn, payload: Payload, slots: map<ConsoleFn, bool>): (r: seq<Effect>)
    // everything printed goes to the captured slot `fn`
    ensures forall e :: e in r && e.Output? ==> e.fn == fn
    // a plain value is printed once, unchanged, when the slot is live, and nothing happens otherwise
    ensures payload.Plain? ==> (r == [Output(fn, [payload.value])] <==> Live(slots, fn)) && (r == [] <==> !Live(slots, fn))
    // a callback is invoked first, then one line per write when the slot is live
    ensures payload.Callback? ==>
      && |r| == 1 + (if Live(slots, fn) then |payload.calls| else 0)
      && r[0] == CallbackInvoked
      && forall i :: 1 <= i < |r| ==> r[i] == Output(fn, payload.calls[i - 1])
  {
    match payload
    case Plain(v) => if Live(slots, fn) then [Output(fn, [v])] else []
    case Callback(calls) => [CallbackInvoked] + if Live(slots, fn) then Outputs(fn, calls) else []
  }

  /**
   * One emit call at `level`, against threshold `threshold`, the level's `pattern`,
   * the logged class `name` and the console `slots`.
   */
  function WriteSpec(level: Level, threshold: int, pattern: Option<string>, name: Option<string>,
                     payload: Payload, slots: map<ConsoleFn, bool>, matcher: Matcher): (s: Step)
    // the threshold gate alone decides whether anything else is looked at
    ensures s.outcome == BelowThreshold <==> !Enabled(level, threshold)
    // the class gate: consulted only with both a class name and a pattern
    ensures s.outcome == PatternError <==>
      Enabled(level, threshold) && name.Some? && pattern.Some? && matcher(pattern.value, name.value) == Invalid
    ensures s.outcome == FilteredOut <==>
      Enabled(level, threshold) && name.Some? && pattern.Some? && matcher(pattern.value, name.value) == NoMatch
    ensures s.outcome == Dispatched <==>
      Enabled(level, threshold) && (name.None? || pattern.None? || matcher(pattern.value, name.value) == Match)
    // nothing is evaluated after a failed gate
    ensures s.outcome != Dispatched ==> s.effects == []
    // every output goes to the level's own console operation
    ensures forall e :: e in s.effects && e.Output? ==> e.fn == ConsoleFnFor(level)
    // a plain value is handed over unchanged, once
    ensures s.outcome == Dispatched && payload.Plain? ==>
      s.effects == if Live(slots, ConsoleFnFor(level)) then [Output(ConsoleFnFor(level), [payload.value])] else []
    // a callback runs first, then each of its writes reaches the sink with exactly its arguments, in order
    ensures s.outcome == Dispatched && payload.Callback? ==>
      && |s.effects| == 1 + (if Live(slots, ConsoleFnFor(level)) then |payload.calls| else 0)
      && s.effects[0] == CallbackInvoked
      && forall i :: 1 <= i < |s.effects| ==> s.effects[i] == Output(ConsoleFnFor(level), payload.calls[i - 1])
  {
    if !Enabled(level, threshold) then Step(BelowThreshold, [])
    else if name.None? || pattern.None? then Step(Dispatched, Dispatch(ConsoleFnFor(level), payload, slots))
    else match matcher(pattern.value, name.value)
      case Invalid => Step(PatternError, [])
      case NoMatch => Step(FilteredOut, [])
      case Match => Step(Dispatched, Dispatch(ConsoleFnFor(level), payload, slots))
  }

  /** The number of callback invocations in a trace. */
  function Invocations(effects: seq<Effect>): nat
  {
    if effects == [] then 0
    else Invocations(effects[..|effects| - 1]) + if effects[|effects| - 1].CallbackInvoked? then 1 else 0
  }

  lemma {:induction false} InvocationsAppend(a: seq<Effect>, b: seq<Effect>)
    ensures Invocations(a + b) == Invocations(a) + Invocations(b)
  {
    if b != [] {
      assert (a + b)[..|a + b| - 1] == a + b[..|b| - 1];
      InvocationsAppend(a, b[..|b| - 1]);
    } else {
      assert a + b == a;
    }
  }

  /** Forwarding writes never runs a callback. */
  lemma {:induction false} OutputsInvokeNothing(fn: ConsoleFn, calls: seq<seq<Value>>)
    ensures Invocations(Outputs(fn, calls)) == 0
  {
    if calls != [] {
      var r := Outputs(fn, calls);
      assert r[..|r| - 1] == Outputs(fn, calls[..|calls| - 1]);
      OutputsInvokeNothing(fn, calls[..|calls| - 1]);
    }
  }

  /** A callback that passes both gates is invoked exactly once; otherwise it is never invoked. */
  lemma CallbackInvokedExactlyOnce(level: Level, threshold: int, pattern: Option<string>, name: Option<string>,
                                   payload: Payload, slots: map<ConsoleFn, bool>, matcher: Matcher)
    ensures Invocations(WriteSpec(level, threshold, pattern, name, payload, slots, matcher).effects) ==
      if WriteSpec(level, threshold, pattern, name, payload, slots, matcher).outcome == Dispatched && payload.Callback?
      then 1 else 0
  {
    var s := WriteSpec(level, threshold, pattern, name, payload, slots, matcher);
    var fn := ConsoleFnFor(level);
    if s.outcome == Dispatched {
      match payload
      case Plain(v) =>
        if Live(slots, fn) {
          assert Invocations(s.effects) == Invocations([]) + 0;
        }
      case Callback(calls) =>
        var outs := if Live(slots, fn) then Outputs(fn, calls) else [];
        OutputsInvokeNothing(fn, calls);
        assert Invocations([CallbackInvoked]) == Invocations([]) + 1;
        InvocationsAppend([CallbackInvoked], outs);
    }
  }

  /** Below the threshold, neither the pattern, the class name, the payload, the console nor the engine is consulted. */
  lemma ThresholdGateShortCircuits(level: Level, threshold: int,
                                   pattern: Option<string>, name: Option<string>, payload: Payload,
                                   slots: map<ConsoleFn, bool>, matcher: Matcher,
                                   pattern': Option<string>, name': Option<string>, payload': Payload,
                                   slots': map<ConsoleFn, bool>, matcher': Matcher)
    requires Rank(level) > threshold
    ensures WriteSpec(level, threshold, pattern, name, payload, slots, matcher) == Step(BelowThreshold, [])
    ensures WriteSpec(level, threshold, pattern, name, payload, slots, matcher) ==
            WriteSpec(level, threshold, pattern', name', payload', slots', matcher')
  {
  }

  /** Without a logged class, or without a pattern for the level, the class gate always passes. */
  lemma ClassGatePassesWithoutNameOrPattern(level: Level, threshold: int, pattern: Option<string>, name: Option<string>,
                                            payload: Payload, slots: map<ConsoleFn, bool>, matcher: Matcher)
    requires Enabled(level, threshold)
    requires name.None? || pattern.None?
    ensures WriteSpec(level, threshold, pattern, name, payload, slots, matcher).outcome == Dispatched
  {
  }

  /**
   * The environment logger handed to a callback: each `write` the callback makes is
   * forwarded, with exactly its arguments, to the console slot `fn` captured beforehand.
   */
  method ForwardWrites(host: Host, fn: ConsoleFn, calls: seq<seq<Value>>)
    modifies host
    ensures host.slots == old(host.slots)
    ensures host.trace == old(host.trace) + if Live(host.slots, fn) then Outputs(fn, calls) else []
  {
    var i := 0;
    while i < |calls|
      invariant 0 <= i <= |calls|
      invariant host.slots == old(host.slots)
      invariant host.trace == old(host.trace) + if Live(host.slots, fn) then Outputs(fn, calls[..i]) else []
    {
      assert calls[..i + 1][..i] == calls[..i];
      host.Call(fn, calls[i]);
      i := i + 1;
    }
    assert calls[..i] == calls;
  }

  /** The dispatch step: the payload goes once to the console slot `fn` resolved for its level. */
  method DispatchTo(host: Host, fn: ConsoleFn, payload: Payload)
    modifies host
    ensures host.slots == old(host.slots)
    ensures host.trace == old(host.trace) + Dispatch(fn, payload, host.slots)
  {
    match payload {
      case Plain(v) =>
        host.Call(fn, [v]);
      case Callback(calls) =>
        host.Invoke();
        ForwardWrites(host, fn, calls);
    }
  }

  class Logger {
    /** The configuration object this logger was created with; the logger never replaces it. */
    const loggerConfig: LoggerConfig
    var loggedClass: Option<Identity>

    constructor (loggerConfig: LoggerConfig)
      ensures this.loggerConfig == loggerConfig && loggedClass == None
    {
      this.loggerConfig := loggerConfig;
      loggedClass := None;
    }

    /** Records the logged class and returns this same logger. */
    method SetLoggedClass(loggedClass: Option<Identity>) returns (self: Logger)
      modifies this
      ensures self == this
      ensures this.loggedClass == loggedClass
    {
      this.loggedClass := loggedClass;
      self := this;
    }

    /** The logged class's display name: none without a class, the string itself, or the type's name. */
    function LoggedClassName(): (name: Option<string>)
      reads this
      ensures name.None? <==> loggedClass.None?
      ensures loggedClass.Some? ==>
        name.value == match loggedClass.value case Named(s) => s case Typed(t) => t
    {
      match loggedClass
      case None => None
      case Some(Named(s)) => Some(s)
      case Some(Typed(t)) => Some(t)
    }

    /** What an emit call at `level` does, read from the shared configuration as it is now. */
    function Emitted(level: Level, payload: Payload, slots: map<ConsoleFn, bool>, matcher: Matcher): Step
      reads this, loggerConfig
    {
      WriteSpec(level, loggerConfig.logLevel, loggerConfig.PatternFor(level), LoggedClassName(), payload, slots, matcher)
    }

    /** The write pipeline: threshold gate, class gate, then dispatch to the level's console slot. */
    method Write(level: Level, payload: Payload, pattern: Option<string>, host: Host, matcher: Matcher)
      returns (outcome: Outcome)
      modifies host
      ensures host.slots == old(host.slots)
      ensures var s := WriteSpec(level, loggerConfig.logLevel, pattern, LoggedClassName(), payload, host.slots, matcher);
        outcome == s.outcome && host.trace == old(host.trace) + s.effects
    {
      if Rank(level) > loggerConfig.logLevel {
        return BelowThreshold;
      }
      var name := LoggedClassName();
      if name.Some? && pattern.Some? {
        var verdict := matcher(pattern.value, name.value);
        if verdict == Invalid {
          return PatternError;
        }
        if verdict == NoMatch {
          return FilteredOut;
        }
      }
      DispatchTo(host, ConsoleFnFor(level), payload);
      return Dispatched;
    }

    method Debug(payload: Payload, host: Host, matcher: Matcher) returns (outcome: Outcome)
      modifies host
      ensures host.slots == old(host.slots)
      ensures var s := Emitted(Level.Debug, payload, host.slots, matcher);
        outcome == s.outcome && host.trace == old(host.trace) + s.effects
    {
      outcome := Write(Level.Debug, payload, loggerConfig.PatternFor(Level.Debug), host, matcher);
    }

    method Info(payload: Payload, host: Host, matcher: Matcher) returns (outcome: Outcome)
      modifies host
      ensures host.slots == old(host.slots)
      ensures var s := Emitted(Level.Info, payload, host.slots, matcher);
        outcome == s.outcome && host.trace == old(host.trace) + s.effects
    {
      outcome := Write(Level.Info, payload, loggerConfig.PatternFor(Level.Info), host, matcher);
    }

    method Log(payload: Payload, host: Host, matcher: Matcher) returns (outcome: Outcome)
      modifies host
      ensures host.slots == old(host.slots)
      ensures var s := Emitted(Level.Notice, payload, host.slots, matcher);
        outcome == s.outcome && host.trace == old(host.trace) + s.effects
    {
      outcome := Write(Level.Notice, payload, loggerConfig.PatternFor(Level.Notice), host, matcher);
    }

    method Warn(payload: Payload, host: Host, matcher: Matcher) returns (outcome: Outcome)
      modifies host
      ensures host.slots == old(host.slots)
      ensures var s := Emitted(Level.Warn, payload, host.slots, matcher);
        outcome == s.outcome && host.trace == old(host.trace) + s.effects
    {
      outcome := Write(Level.Warn, payload, loggerConfig.PatternFor(Level.Warn), host, matcher);
    }

    method Error(payload: Payload, host: Host, matcher: Matcher) returns (outcome: Outcome)
      modifies host
      ensures host.slots == old(host.slots)
      ensures var s := Emitted(Level.Error, payload, host.slots, matcher);
        outcome == s.outcome && host.trace == old(host.trace) + s.effects
    {
      outcome := Write(Level.Error, payload, loggerConfig.PatternFor(Level.Error), host, matcher);
    }
  }
}
