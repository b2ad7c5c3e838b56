/**
 * Severity levels of the logger and the console operation each one is written to.
 *
 * The numeric ranks are those of the severity table in section 6.2.1 of RFC 5424,
 * which the configuration record quotes: a smaller rank is more severe, a larger
 * rank more verbose.
 */
module Levels {

  /** The five levels the logger emits at. */
  datatype Level = Error | Warn | Notice | Info | Debug

  const ErrorRank: int := 3
  const DebugRank: int := 7

  /** The numeric rank of a level (its RFC 5424 severity code). */
  function Rank(level: Level): (r: int)
    ensures ErrorRank <= r <= DebugRank
    ensures r == ErrorRank <==> level == Error
    ensures r == DebugRank <==> level == Debug
  {
    match level
    case Error => 3
    case Warn => 4
    case Notice => 5
    case Info => 6
    case Debug => 7
  }

  /** The five leveled operations of the host console. */
  datatype ConsoleFn = DebugFn | InfoFn | LogFn | WarnFn | ErrorFn

  const AllConsoleFns: set<ConsoleFn> := {DebugFn, InfoFn, LogFn, WarnFn, ErrorFn}

  lemma AllConsoleFnsListed()
    ensures forall fn: ConsoleFn :: fn in AllConsoleFns
  {
    forall fn: ConsoleFn
      ensures fn in AllConsoleFns
    {
      match fn
      case DebugFn =>
      case InfoFn =>
      case LogFn =>
      case WarnFn =>
      case ErrorFn =>
    }
  }

  /** The fixed level-to-console mapping of the logger. */
  function ConsoleFnFor(level: Level): (fn: ConsoleFn)
    ensures LevelOfFn(fn) == level
  {
    match level
    case Debug => DebugFn
    case Info => InfoFn
    case Notice => LogFn
    case Warn => WarnFn
    case Error => ErrorFn
  }

  /** The level whose messages go to a console operation: the inverse of the mapping above. */
  function LevelOfFn(fn: ConsoleFn): (level: Level)
    ensures level == Debug <==> fn == DebugFn
    ensures level == Info <==> fn == InfoFn
    ensures level == Notice <==> fn == LogFn
    ensures level == Warn <==> fn == WarnFn
    ensures level == Error <==> fn == ErrorFn
  {
    match fn
    case DebugFn => Debug
    case InfoFn => Info
    case LogFn => Notice
    case WarnFn => Warn
    case ErrorFn => Error
  }

  /** Every console operation is the target of the level `LevelOfFn` gives it, so the mapping is onto. */
  lemma ConsoleFnForOnto(fn: ConsoleFn)
    ensures ConsoleFnFor(LevelOfFn(fn)) == fn
  {
  }

  /** Distinct levels write to distinct console operations, so the mapping is a bijection. */
  lemma ConsoleFnForInjective(a: Level, b: Level)
    ensures ConsoleFnFor(a) == ConsoleFnFor(b) ==> a == b
    ensures LevelOfFn(ConsoleFnFor(a)) == a
  {
  }

  /** Ranks strictly increase from the most severe level to the most verbose one. */
  lemma RankOrder()
    ensures Rank(Error) < Rank(Warn) < Rank(Notice) < Rank(Info) < Rank(Debug)
  {
  }

  /** Derived helper: a level passes the threshold gate of a configuration whose threshold is `threshold`. */
  predicate Enabled(level: Level, threshold: int)
  {
    Rank(level) <= threshold
  }

  /** Passing the threshold is downward closed: a level passes whenever a more verbose one does. */
  lemma EnabledDownwardClosed(more: Level, less: Level, threshold: int)
    requires Rank(less) <= Rank(more)
    ensures Enabled(more, threshold) ==> Enabled(less, threshold)
  {
  }
}
