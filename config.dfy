/**
 * The logger configuration record: a severity threshold and, per level, an optional
 * pattern that the logged class name must match.
 *
 * The record's pattern keys are indexed here by the level they belong to; a key the
 * object does not define is absent from the map, and a key defined as null is
 * present with value None.
 */
module Config {
  import opened Wrappers
  import opened Levels

  /** The keys one configuration object defines: the threshold (when defined) and the defined pattern keys. */
  datatype Layer = Layer(logLevel: Option<int>, patterns: map<Level, Option<string>>)

  /** A configuration object whose threshold is always defined. */
  datatype ConfigView = ConfigView(logLevel: int, patterns: map<Level, Option<string>>)
  {
    /** The pattern the logger reads for `level`: None when the key is undefined or null. */
    function PatternFor(level: Level): Option<string>
    {
      if level in patterns then patterns[level] else None
    }

    /** The object literal with exactly this view's keys (what serialising it yields). */
    function AsLayer(): Layer
    {
      Layer(Some(logLevel), patterns)
    }
  }

  /** The frozen default configuration: threshold DEBUG and no pattern keys. */
  const InitialConfig: ConfigView := ConfigView(Rank(Debug), map[])

  /** The threshold a layer defines, if any (an absent layer defines nothing). */
  function DefinedLevel(source: Option<Layer>): Option<int>
  {
    if source.Some? then source.value.logLevel else None
  }

  /** The value a layer defines for the pattern key of `level`, if it defines that key. */
  function DefinedPattern(source: Option<Layer>, level: Level): Option<Option<string>>
  {
    if source.Some? && level in source.value.patterns then Some(source.value.patterns[level]) else None
  }

  /**
   * Shallow merge of `source` over `base`: every key the source defines overwrites the
   * base's, every other key keeps the base's value; an absent source changes nothing.
   */
  function Merge(base: ConfigView, source: Option<Layer>): (r: ConfigView)
    ensures source.None? ==> r == base
    ensures r.logLevel == if DefinedLevel(source).Some? then DefinedLevel(source).value else base.logLevel
    ensures forall level: Level :: level in r.patterns <==> level in base.patterns || DefinedPattern(source, level).Some?
    ensures forall level: Level ::
      r.PatternFor(level) == if DefinedPattern(source, level).Some? then DefinedPattern(source, level).value else base.PatternFor(level)
  {
    match source
    case None => base
    case Some(layer) =>
      ConfigView(if layer.logLevel.Some? then layer.logLevel.value else base.logLevel, base.patterns + layer.patterns)
  }

  /** Merging a view's own keys over any base yields that view again. */
  lemma MergeOwnLayer(base: ConfigView, v: ConfigView)
    requires base.patterns.Keys <= v.patterns.Keys
    ensures Merge(base, Some(v.AsLayer())) == v
  {
  }

  /** A configuration object shared by reference between the factory and its loggers. */
  class LoggerConfig {
    var logLevel: int
    var patterns: map<Level, Option<string>>

    /** A new object holding a copy of `v`'s keys. */
    constructor Copy(v: ConfigView)
      ensures View() == v
    {
      logLevel := v.logLevel;
      patterns := v.patterns;
    }

    /** The keys this object currently holds. */
    function View(): ConfigView
      reads this
    {
      ConfigView(logLevel, patterns)
    }

    /** The pattern the logger reads for `level` from this object now. */
    function PatternFor(level: Level): Option<string>
      reads this
    {
      View().PatternFor(level)
    }

    /** Copies every key `source` defines onto this object, in place. */
    method Assign(source: Option<Layer>)
      modifies this
      ensures View() == Merge(old(View()), source)
    {
      if source.Some? {
        if source.value.logLevel.Some? {
          logLevel := source.value.logLevel.value;
        }
        patterns := patterns + source.value.patterns;
      }
    }
  }
}
