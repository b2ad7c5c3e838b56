/**
 * The process-wide logger factory: it owns the one active configuration object,
 * hands it by reference to every logger it makes, rebuilds it from defaults, an
 * outer configuration and the persisted configuration, and after every change
 * re-installs each console slot as the real operation or a no-op.
 */
module Factory {
  import opened Wrappers
  import opened Levels
  import opened Console
  import opened Config
  import opened Logging

  /** The outer configuration given to `configure`: none, an object, or a class whose instance is used. */
  datatype OuterConfig = Absent | Literal(layer: Layer) | Template(constructs: Layer)

  /** The object an outer configuration contributes to the merge. */
  function Resolve(outer: OuterConfig): (r: Option<Layer>)
    ensures r.None? <==> outer.Absent?
    ensures outer.Literal? ==> r == Some(outer.layer)
    ensures outer.Template? ==> r == Some(outer.constructs)
  {
    match outer
    case Absent => None
    case Literal(layer) => Some(layer)
    case Template(constructs) => Some(constructs)
  }

  /**
   * The configuration `configure` builds: the defaults, overwritten by the outer
   * configuration, overwritten by the stored one.
   */
  function Layered(outer: OuterConfig, stored: Option<Layer>): (r: ConfigView)
    ensures r.logLevel ==
      if DefinedLevel(stored).Some? then DefinedLevel(stored).value
      else if DefinedLevel(Resolve(outer)).Some? then DefinedLevel(Resolve(outer)).value
      else InitialConfig.logLevel
    ensures forall level: Level ::
      r.PatternFor(level) == if DefinedPattern(stored, level).Some? then DefinedPattern(stored, level).value
                             else if DefinedPattern(Resolve(outer), level).Some? then DefinedPattern(Resolve(outer), level).value
                             else None
  {
    Merge(Merge(InitialConfig, Resolve(outer)), stored)
  }

  /** With neither an outer nor a stored configuration, `configure` restores the defaults. */
  lemma LayeredDefaults()
    ensures Layered(Absent, None) == InitialConfig
  {
  }

  /** Storing a configuration and then configuring with no outer configuration reinstates it exactly. */
  lemma StoredConfigRoundTrip(v: ConfigView)
    ensures Layered(Absent, Some(v.AsLayer())) == v
  {
  }

  /** The console slots for threshold `threshold`: each level's slot is live exactly when the level passes it. */
  function ActiveSlots(threshold: int): (s: map<ConsoleFn, bool>)
    ensures forall fn: ConsoleFn :: fn in s
    ensures forall level: Level :: s[ConsoleFnFor(level)] == Enabled(level, threshold)
  {
    var s := map[ErrorFn := threshold >= Rank(Error),
                 WarnFn := threshold >= Rank(Warn),
                 LogFn := threshold >= Rank(Notice),
                 InfoFn := threshold >= Rank(Info),
                 DebugFn := threshold >= Rank(Debug)];
    AllConsoleFnsListed();
    assert s.Keys == AllConsoleFns;
    s
  }

  /** Live slots are downward closed: when a more verbose level's slot is live, so is every less verbose one. */
  lemma ActiveSlotsDownwardClosed(threshold: int, more: Level, less: Level)
    requires Rank(less) <= Rank(more)
    ensures ActiveSlots(threshold)[ConsoleFnFor(more)] ==> ActiveSlots(threshold)[ConsoleFnFor(less)]
  {
  }

  /** Below ERROR's rank every slot holds the no-op. */
  lemma AllSlotsSilentBelowError(threshold: int)
    requires threshold < Rank(Error)
    ensures forall fn: ConsoleFn :: !ActiveSlots(threshold)[fn]
  {
  }

  /**
   * A logger that still holds a configuration object the factory has replaced keeps
   * that object's threshold, while its output also passes through the slots of the
   * current one: a plain value is printed only if both thresholds let its level through.
   */
  lemma EarlierLoggerOutput(level: Level, held: int, current: int, pattern: Option<string>, name: Option<string>,
                            v: Value, matcher: Matcher)
    ensures WriteSpec(level, held, pattern, name, Plain(v), ActiveSlots(current), matcher).effects != [] <==>
      && WriteSpec(level, held, pattern, name, Plain(v), ActiveSlots(current), matcher).outcome == Dispatched
      && Enabled(level, current)
  {
  }

  /** What the store holds under the configuration key. */
  datatype StoredItem =
    | Missing      // no entry
    | Malformed    // an entry that is not valid JSON
    | NonObject    // JSON that is not an object, whose keys the merge never reads
    | Json(layer: Layer)

  /** The persistent key-value store, which may be unavailable in the host. */
  class Storage {
    var available: bool
    var item: StoredItem

    constructor (available: bool, item: StoredItem)
      ensures this.available == available && this.item == item
    {
      this.available := available;
      this.item := item;
    }
  }

  class LoggerFactory {
    /** The active configuration object, shared by reference with the loggers made since it was installed. */
    var config: LoggerConfig
    /** The console, whose five slots this factory patches. */
    const host: Host
    const storage: Storage

    /** Every console slot agrees with the active threshold. */
    ghost predicate Valid()
      reads this, host, config
    {
      host.slots == ActiveSlots(config.logLevel)
    }

    /** Load time: the active configuration is a fresh copy of the frozen defaults and the console is untouched. */
    constructor (storage: Storage)
      ensures fresh(config) && config.View() == InitialConfig
      ensures fresh(host) && host.trace == []
      ensures this.storage == storage
      ensures Valid()
    {
      this.storage := storage;
      host := new Host();
      config := new LoggerConfig.Copy(InitialConfig);
      new;
      assert ActiveSlots(Rank(Debug)) == AllLive;
    }

    /** A new logger bound to the active configuration object and the given logged class. */
    method MakeLogger(loggedClass: Option<Identity>) returns (logger: Logger)
      ensures fresh(logger)
      ensures logger.loggerConfig == config && logger.loggedClass == loggedClass
    {
      logger := new Logger(config);
      logger := logger.SetLoggedClass(loggedClass);
    }

    /** The persisted configuration: none when the store is unavailable or its entry is missing or unreadable. */
    function TryGetFromStorage(): (stored: Option<Layer>)
      reads storage
      ensures stored.Some? <==> storage.available && storage.item.Json?
      ensures stored.Some? ==> stored.value == storage.item.layer
    {
      if !storage.available then None
      else match storage.item
        case Json(layer) => Some(layer)
        case _ => None
    }

    /** Persists `layer` when the store is available; the active configuration is not touched. */
    method StoreConfig(layer: Layer)
      modifies storage
      ensures storage.available == old(storage.available)
      ensures TryGetFromStorage() == if storage.available then Some(layer) else old(TryGetFromStorage())
    {
      if storage.available {
        storage.item := Json(layer);
      }
    }

    /**
     * Installs a new configuration object built from the defaults, the outer configuration
     * and the stored one; the previous object, still held by earlier loggers, is left as it was.
     */
    method Configure(outer: OuterConfig)
      modifies this, host
      ensures fresh(config)
      ensures config.View() == Layered(outer, TryGetFromStorage())
      ensures old(config).View() == old(config.View())
      ensures host.trace == old(host.trace)
      ensures Valid()
    {
      var stored := TryGetFromStorage();
      var merged := new LoggerConfig.Copy(InitialConfig);
      merged.Assign(Resolve(outer));
      merged.Assign(stored);
      config := merged;
      RefreshEnvLoggersFunctions();
    }

    /** Sets the threshold of the active configuration object in place, so every logger holding it sees the change. */
    method ConfigureLogLevel(logLevel: int)
      modifies config, host
      ensures config == old(config)
      ensures config.logLevel == logLevel && config.patterns == old(config.patterns)
      ensures host.trace == old(host.trace)
      ensures Valid()
    {
      config.logLevel := logLevel;
      RefreshEnvLoggersFunctions();
    }

    /** Puts the no-op in every console slot, then the real operation back in each slot whose level passes the threshold. */
    method RefreshEnvLoggersFunctions()
      modifies host
      ensures host.slots == ActiveSlots(config.logLevel)
      ensures host.trace == old(host.trace)
    {
      host.slots := map[DebugFn := false, InfoFn := false, LogFn := false, WarnFn := false, ErrorFn := false];
      if config.logLevel >= Rank(Error) {
        host.slots := host.slots[ErrorFn := true];
      }
      if config.logLevel >= Rank(Warn) {
        host.slots := host.slots[WarnFn := true];
      }
      if config.logLevel >= Rank(Notice) {
        host.slots := host.slots[LogFn := true];
      }
      if config.logLevel >= Rank(Info) {
        host.slots := host.slots[InfoFn := true];
      }
      if config.logLevel >= Rank(Debug) {
        host.slots := host.slots[DebugFn := true];
      }
    }
  }

  /**
   * A logger keeps seeing the active object after `configureLogLevel`: with no logged
   * class, an `info` call prints nothing under threshold ERROR and prints its value
   * exactly once under threshold DEBUG.
   */
  method InfoFollowsConfigureLogLevel(factory: LoggerFactory, v: Value, matcher: Matcher) returns (logger: Logger)
    modifies factory.config, factory.host
    ensures factory.host.trace == old(factory.host.trace) + [Output(InfoFn, [v])]
  {
    logger := factory.MakeLogger(None);
    factory.ConfigureLogLevel(Rank(Error));
    var silenced := logger.Info(Plain(v), factory.host, matcher);
    assert silenced == BelowThreshold;
    factory.ConfigureLogLevel(Rank(Debug));
    var printed := logger.Info(Plain(v), factory.host, matcher);
    assert printed == Dispatched;
  }

  /**
   * Storing any configuration object and then configuring with no outer configuration
   * installs that object merged over the defaults.
   */
  method StoreThenConfigure(factory: LoggerFactory, layer: Layer)
    requires factory.storage.available
    modifies factory, factory.storage, factory.host
    ensures factory.config.View() == Merge(InitialConfig, Some(layer))
    ensures factory.Valid()
  {
    factory.StoreConfig(layer);
    factory.Configure(Absent);
    assert factory.config.View() == Merge(InitialConfig, Some(layer));
  }
}
