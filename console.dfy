/**
 * The host console as the logger sees it: five slots, each holding either the real
 * output operation or a no-op, and the trace of what the program has observably done.
 */
module Console {
  import opened Levels

  /** An opaque value handed to the console. */
  type Value(==)

  /** Something observable: a callback payload started running, or a live console operation printed. */
  datatype Effect = CallbackInvoked | Output(fn: ConsoleFn, args: seq<Value>)

  /** A console operation prints only if its slot holds the real operation. */
  predicate Live(slots: map<ConsoleFn, bool>, fn: ConsoleFn)
  {
    fn in slots && slots[fn]
  }

  /** Every slot holding the real operation. */
  const AllLive: map<ConsoleFn, bool> := map[DebugFn := true, InfoFn := true, LogFn := true, WarnFn := true, ErrorFn := true]

  class Host {
    /** For each console operation: true when the real operation is installed, false for the no-op. */
    var slots: map<ConsoleFn, bool>
    /** Everything observable that has happened so far, oldest first. */
    var trace: seq<Effect>

    /** The console as found at load time: every slot holds the real operation. */
    constructor ()
      ensures slots == AllLive
      ensures trace == []
    {
      slots := AllLive;
      trace := [];
    }

    /** Calls the operation in slot `fn` with `args`: printed if live, nothing if it is the no-op. */
    method Call(fn: ConsoleFn, args: seq<Value>)
      modifies this
      ensures slots == old(slots)
      ensures trace == old(trace) + if Live(slots, fn) then [Output(fn, args)] else []
    {
      if Live(slots, fn) {
        trace := trace + [Output(fn, args)];
      }
    }

    /** Marks the start of a callback payload's evaluation. */
    method Invoke()
      modifies this
      ensures slots == old(slots)
      ensures trace == old(trace) + [CallbackInvoked]
    {
      trace := trace + [CallbackInvoked];
    }
  }
}
