# angular2-smart-logger: a verified model of the logger and its factory

This project models the core of a class-scoped logging facade. A `Logger` is bound to
a logged class and to the configuration object of the `LoggerFactory` that made it.
It has five emit operations, `debug`, `info`, `log`, `warn` and `error`, each with a
fixed severity. An emit call runs three steps in order:

- the threshold gate: the level's rank is compared with the configuration's `logLevel`;
- the class gate: the level's optional pattern is tested against the logged class name;
- dispatch: a plain payload goes once to the level's console operation; a callback
  payload runs once, and each `write` it makes on its environment logger is forwarded
  to that operation.

The factory keeps one active configuration object. `configure` builds a new object by
shallow merge: the frozen defaults, then the outer configuration, then the persisted
one. `configureLogLevel` changes the threshold of the current object in place. After
either call the factory puts the real operation or a no-op into each of the five
console slots, according to the new threshold.

Modules, one per part of the source:

- `Levels` (levels.dfy): the five levels and their ranks, which follow the severity
  table of section 6.2.1 of RFC 5424 (ERROR=3, WARN=4, NOTICE=5, INFO=6, DEBUG=7).
  It also holds the fixed level-to-console mapping and the derived predicate `Enabled`
  (the threshold gate).
- `Console` (console.dfy): the host console. Its five slots each hold the real
  operation (`true`) or the no-op (`false`). It also keeps a trace of everything
  observable: each callback invocation and each line a live operation prints.
- `Config` (config.dfy): the configuration record. `Layer` is the set of keys one
  object defines, `ConfigView` is a merged configuration, and `LoggerConfig` is the
  shared mutable object. `Merge` is the key-by-key overwrite that `Object.assign` does.
- `Logging` (logger.dfy): the `Logger` class, the write pipeline `Logger.Write`, and
  its specification `WriteSpec`, with lemmas about short-circuiting and exactly-once
  dispatch.
- `Factory` (logger_factory.dfy): the `LoggerFactory` class, with the persistent store,
  the layered merge `Layered` and the slot table `ActiveSlots`.

The static members of `LoggerFactory` become the fields and methods of one
`LoggerFactory` object. Its constructor stands for module load. Several facts about
aliasing are proved:

- `Configure` installs a fresh object and leaves the previous one untouched, so
  loggers made earlier keep the old threshold and patterns.
- `ConfigureLogLevel` changes the active object in place, so every logger made since
  the last `configure` sees the change; loggers made before it do not.
- `InfoFollowsConfigureLogLevel` shows the second point end to end.
- `StoreThenConfigure` shows that storing any configuration object and then calling
  `configure` with no outer configuration installs it merged over the defaults.

The model follows the code where it differs from the library's documented intent:

- each emit method takes a single payload, not a variadic list;
- there are no `isXxxEnabled` methods;
- a callback's return value is ignored;
- `configure` allocates a new configuration object instead of updating the shared one
  (src/LoggerFactory.ts:47).

Pattern keys are indexed by level. The logger reads them as `debugLevelPath`,
`infoLevelPath`, `logLevelPath`, `warnLevelPath` and `errorLevelPath`
(src/Logger.ts:70-86). The configuration interface declares them as
`*LevelClassesRegexp` (src/ILoggerConfig.ts:3-7). The merge copies whatever keys an
object defines, so a map from level to optional pattern fits both names.

## Model

| member | source | states |
|---|---|---|
| `Levels.Rank` | src/ILoggerConfig.ts:9-21 | every level's rank lies between ERROR's (3) and DEBUG's (7); only ERROR has rank 3 and only DEBUG has rank 7 |
| `Levels.RankOrder` | src/ILoggerConfig.ts:15-19 | ranks strictly increase ERROR < WARN < NOTICE < INFO < DEBUG |
| `Levels.ConsoleFnFor` | src/Logger.ts:15-21 | the level-to-console dictionary: `LevelOfFn` gives back the level of the operation it returns, so no two levels share an operation |
| `Levels.LevelOfFn` | src/Logger.ts:15-21 | the inverse of the dictionary: `debug` belongs to DEBUG, `info` to INFO, `log` to NOTICE, `warn` to WARN, `error` to ERROR, and each operation to that level alone |
| `Levels.ConsoleFnForOnto` | src/Logger.ts:15-21 | every console operation is the target of the level `LevelOfFn` gives it, so the dictionary is onto |
| `Levels.ConsoleFnForInjective` | src/Logger.ts:15-21 | distinct levels write to distinct console operations |
| `Levels.EnabledDownwardClosed` | src/Logger.ts:97-99 | if a level passes the threshold gate, every less verbose level passes it too |
| `Console.Host.constructor` | src/LoggerFactory.ts:13-17 | at load time every console slot holds the real operation and nothing has been printed |
| `Console.Host.Call` | src/Logger.ts:108-118 | calling a slot prints exactly its arguments when the real operation is installed and nothing for the no-op; slots are unchanged |
| `Console.Host.Invoke` | src/Logger.ts:111-115 | a callback invocation is recorded once and changes no slot |
| `Config.Merge` | src/LoggerFactory.ts:47-53 | shallow merge: an absent source changes nothing; each key the source defines (threshold or a level's pattern, including a null one) overwrites the base's; every other key keeps the base's value |
| `Config.MergeOwnLayer` | src/LoggerFactory.ts:47-53 | merging a configuration's own keys over a base with no other keys gives back that configuration |
| `Config.LoggerConfig.Copy` | src/LoggerFactory.ts:27 | a new object holding exactly the given keys |
| `Config.LoggerConfig.Assign` | src/LoggerFactory.ts:47-53 | in place, the object's keys become `Merge` of its old keys with the source |
| `Logging.Outputs` | src/Logger.ts:112-114 | the environment logger makes one sink call per `write`, and the i-th carries exactly the i-th write's arguments, in order |
| `Logging.WriteSpec` | src/Logger.ts:96-119 | below the threshold the outcome is BelowThreshold and nothing happens. Otherwise the class gate is consulted only when both a class name and a pattern exist; a non-matching pattern filters out, an invalid one raises. Any outcome other than dispatch has no effect. Every output goes to the level's own console operation. A plain value reaches the sink unchanged and once. A callback is invoked first, then its writes are forwarded in order |
| `Logging.Dispatch` | src/Logger.ts:108-118 | everything printed goes to the resolved slot; a plain value is printed once, unchanged, exactly when the slot is live; a callback is invoked first and then each write is printed in order when the slot is live |
| `Logging.DispatchTo` | src/Logger.ts:108-118 | the trace grows by exactly `Dispatch` of the payload on the current slots; slots are unchanged |
| `Logging.OutputsInvokeNothing` | src/Logger.ts:112-114 | forwarding writes never invokes a callback |
| `Logging.CallbackInvokedExactlyOnce` | src/Logger.ts:110-115 | a callback payload that passes both gates is invoked exactly once; in every other case no callback is invoked |
| `Logging.ThresholdGateShortCircuits` | src/Logger.ts:97-99 | below the threshold the result is BelowThreshold with no effect, whatever the pattern, the class name, the payload, the console slots or the regex engine |
| `Logging.ClassGatePassesWithoutNameOrPattern` | src/Logger.ts:101-106 | with no logged class, or with no pattern for the level, a message that passes the threshold is dispatched |
| `Logging.ForwardWrites` | src/Logger.ts:111-115 | each `write` the callback makes reaches the captured console slot, with exactly its arguments and in order; slots are unchanged |
| `Logging.Logger.constructor` | src/Logger.ts:50-52 | the logger holds the given configuration object and no logged class |
| `Logging.Logger.SetLoggedClass` | src/Logger.ts:64-67 | returns the same logger and sets only the logged class; the configuration reference is a constant |
| `Logging.Logger.LoggedClassName` | src/Logger.ts:121-126 | no name without a logged class; otherwise the string itself or the type's name |
| `Logging.Logger.Write` | src/Logger.ts:96-119 | the outcome and the effects appended to the trace are those of `WriteSpec` on the shared configuration's current threshold, the logged class name and the current slots; slots are unchanged |
| `Logging.Logger.Debug` | src/Logger.ts:69-71 | runs the pipeline at DEBUG with the DEBUG pattern of the shared configuration, so its output goes to the `debug` slot |
| `Logging.Logger.Info` | src/Logger.ts:73-75 | runs the pipeline at INFO with the INFO pattern, so its output goes to the `info` slot |
| `Logging.Logger.Log` | src/Logger.ts:77-79 | runs the pipeline at NOTICE with the NOTICE pattern, so its output goes to the `log` slot |
| `Logging.Logger.Warn` | src/Logger.ts:81-83 | runs the pipeline at WARN with the WARN pattern, so its output goes to the `warn` slot |
| `Logging.Logger.Error` | src/Logger.ts:85-87 | runs the pipeline at ERROR with the ERROR pattern, so its output goes to the `error` slot |
| `Factory.Resolve` | src/LoggerFactory.ts:50 | an outer configuration contributes nothing exactly when it is absent; a literal contributes its own keys and a template the object it constructs |
| `Factory.Layered` | src/LoggerFactory.ts:39-53 | the threshold and every level's pattern come from the stored configuration if it defines that key, else from the outer one if it defines it, else from the defaults (DEBUG, no pattern) |
| `Factory.LayeredDefaults` | src/LoggerFactory.ts:23-27 | with no outer and no stored configuration the result is the frozen default |
| `Factory.StoredConfigRoundTrip` | src/LoggerFactory.ts:73-83 | storing a configuration and then configuring with no outer configuration gives back exactly that configuration |
| `Factory.ActiveSlots` | src/LoggerFactory.ts:85-107 | all five slots are set, and a level's slot is live exactly when the level passes the threshold gate |
| `Factory.ActiveSlotsDownwardClosed` | src/LoggerFactory.ts:92-106 | if a more verbose level's slot is live, every less verbose level's slot is live |
| `Factory.AllSlotsSilentBelowError` | src/LoggerFactory.ts:86-106 | with a threshold below ERROR's rank every slot holds the no-op |
| `Factory.EarlierLoggerOutput` | src/LoggerFactory.ts:47-54 | a logger that still holds a replaced configuration object prints a plain value only if its own threshold and class gate pass and the current slots also let the level through |
| `Factory.LoggerFactory.constructor` | src/LoggerFactory.ts:23-27 | at load the active object is a fresh copy of the default (DEBUG, no patterns), and the slots agree with its threshold |
| `Factory.LoggerFactory.MakeLogger` | src/LoggerFactory.ts:29-31 | a new logger holding the active configuration object itself (not a copy), bound to the given logged class |
| `Factory.LoggerFactory.TryGetFromStorage` | src/LoggerFactory.ts:77-83 | a stored configuration is returned exactly when the store is available and holds a well-formed object; a missing store, a missing entry or a parse failure yield none |
| `Factory.LoggerFactory.StoreConfig` | src/LoggerFactory.ts:73-75 | when the store is available the next read returns exactly the stored configuration; otherwise nothing changes; the active configuration is not touched |
| `Factory.LoggerFactory.Configure` | src/LoggerFactory.ts:38-55 | installs a fresh object whose keys are `Layered` of the outer and stored configurations, leaves the previous object unchanged, prints nothing, and recomputes every slot from the new threshold |
| `Factory.LoggerFactory.ConfigureLogLevel` | src/LoggerFactory.ts:62-66 | sets the threshold of the same active object in place, leaves every pattern unchanged, and recomputes every slot |
| `Factory.LoggerFactory.RefreshEnvLoggersFunctions` | src/LoggerFactory.ts:85-107 | all five slots become `ActiveSlots` of the active threshold; nothing is printed |
| `Factory.InfoFollowsConfigureLogLevel` | src/LoggerFactory.ts:62-66 | from any factory state, a logger made before two `configureLogLevel` calls sees both: at ERROR its `info` prints nothing, and at DEBUG it prints its value exactly once |
| `Factory.StoreThenConfigure` | src/LoggerFactory.ts:38-83 | with the store available, storing any configuration object and then configuring with no outer configuration installs that object merged over the defaults, with the slots agreeing |

## Left out

- Console output: printing is I/O. Each slot is a flag, and what a live slot prints is recorded in the trace.
- Persistent storage and JSON: `localStorage` and `JSON.parse`/`JSON.stringify` are foreign. The store is modelled as one entry under the configuration key, which is missing, malformed, not an object, or an object. Serialising and parsing an object are taken as inverse, and a non-object value adds no configuration key. `storeConfig` on a host that has no `localStorage` binding at all (a reference error) is not modelled.
- Regular expressions: pattern compilation and matching are the `Matcher` parameter. A pattern that does not compile gives the outcome `PatternError`, which stands for the exception that leaves the emit call.
- Runtime type probing (`isFunction`, `isPresent`, `isString`, `isType`): replaced by the variants of `Payload`, `Identity`, `OuterConfig` and `Option`.
- Callbacks: a callback is modelled by the `write` calls it makes. A callback that throws, re-enters the logger or reconfigures the factory is not modelled.
- Configuration values: a threshold that is not an integer (or not a number) and a pattern that is not a string are not modelled. A key present with the value `undefined` is treated like a key that is absent.
- Publishing the factory on `window` (src/LoggerFactory.ts:110) is a global side effect with nothing to verify.
- The IE10 fallback from `console.debug` to `console.info` (src/LoggerFactory.ts:105) depends on the host and is not modelled.
- The variadic payloads and `isXxxEnabled` predicates declared in src/ILogger.ts:11-29 have no implementation in src/Logger.ts. `Levels.Enabled` is a derived helper that mirrors src/Logger.ts:97.
- Callback return values and list payloads are not handled in src/Logger.ts and are not modelled.
- `LoggerLevelEnum` is not part of this model. Its ranks are taken from the RFC 5424 table quoted in src/ILoggerConfig.ts:9-20.
