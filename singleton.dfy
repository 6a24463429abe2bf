/**
 * The lazily created Logger singleton. `Logger::instance` is a static pointer
 * that starts null; `getInstance` creates the Logger on the first call and
 * returns the stored one on every call after that. The mutex and the
 * double-checked test are not modelled: this is the sequential contract.
 */
module Singleton {

  /** The state of the static instance slot. */
  datatype Lazy<H> = Uninitialized | Initialized(instance: H)

  /** One call of getInstance: the slot after it, the handle returned, whether it constructed. */
  datatype Call<H> = Call(after: Lazy<H>, handle: H, constructed: bool)

  /**
   * One call of getInstance on `slot`; `made` is the object `new Logger()`
   * would yield if the call has to construct one.
   */
  function Acquire<H>(slot: Lazy<H>, made: H): (c: Call<H>)
    ensures c.after == Initialized(c.handle)
    ensures c.constructed <==> slot.Uninitialized?
    ensures slot.Initialized? ==> c.handle == slot.instance
    ensures slot.Uninitialized? ==> c.handle == made
  {
    match slot
    case Uninitialized => Call(Initialized(made), made, true)
    case Initialized(h) => Call(slot, h, false)
  }

  /** The outcome of a sequence of getInstance calls. */
  datatype Run<H> = Run(after: Lazy<H>, handles: seq<H>, constructions: nat)

  /**
   * |made| calls of getInstance in a row, the i-th of which would construct made[i].
   * Its contract only gives the number of handles; what the handles are is
   * stated by the lemma EveryCallReturnsSameInstance.
   */
  function AcquireEach<H>(slot: Lazy<H>, made: seq<H>): (r: Run<H>)
    ensures |r.handles| == |made|
    decreases |made|
  {
    if made == [] then Run(slot, [], 0)
    else
      var c := Acquire(slot, made[0]);
      var rest := AcquireEach(c.after, made[1..]);
      Run(rest.after, [c.handle] + rest.handles, rest.constructions + if c.constructed then 1 else 0)
  }

  /**
   * Singleton identity: every call in a sequence returns the same instance,
   * namely the stored one or else the one the first call creates, and the
   * Logger is constructed at most once (exactly once from an empty slot).
   */
  lemma {:induction false} EveryCallReturnsSameInstance<H>(slot: Lazy<H>, made: seq<H>)
    requires |made| > 0
    ensures var r := AcquireEach(slot, made);
      && r.handles[0] == (if slot.Initialized? then slot.instance else made[0])
      && (forall i :: 0 <= i < |r.handles| ==> r.handles[i] == r.handles[0])
      && r.after == Initialized(r.handles[0])
      && r.constructions == (if slot.Uninitialized? then 1 else 0)
    decreases |made|
  {
    var c := Acquire(slot, made[0]);
    if |made| > 1 {
      EveryCallReturnsSameInstance(c.after, made[1..]);
    }
  }

  /** The text `log(level, message)` writes: "[" level "] " message "\n". */
  function LogLine(level: string, message: string): (line: string)
    ensures |line| == |level| + |message| + 4
    ensures line[0] == '[' && line[|level| + 1..|level| + 3] == "] " && line[|line| - 1] == '\n'
    ensures line[1..|level| + 1] == level
    ensures line[|level| + 3..|line| - 1] == message
  {
    "[" + level + "] " + message + "\n"
  }

  /**
   * When levels contain no ']' (as INFO, WARNING and ERROR do not), a log
   * line determines the level and the message it was written for.
   */
  lemma {:induction false} LogLineDeterminesEntry(level1: string, message1: string, level2: string, message2: string)
    requires ']' !in level1 && ']' !in level2
    requires LogLine(level1, message1) == LogLine(level2, message2)
    ensures level1 == level2 && message1 == message2
  {
    var line := LogLine(level1, message1);
    assert line[|level1| + 1] == ']' && line[|level2| + 1] == ']';
    assert |level1| == |level2|;
  }

  /** A ']' inside the level makes two different entries write the same line. */
  lemma LogLineAmbiguousWithBracketInLevel()
    ensures LogLine("A", "B] C") == LogLine("A] B", "C")
  {
  }

  /** The Logger class; its private constructor is only reached through getInstance. */
  class Logger {

    constructor ()
    {
    }

    /** Logger::log: the line it writes to standard output. */
    method Log(level: string, message: string) returns (line: string)
      ensures line == LogLine(level, message)
    {
      line := LogLine(level, message);
    }
  }

  /** The static storage of class Logger: the `instance` pointer. */
  class LoggerStatics {
    var instance: Logger?

    /** Static initialisation: `Logger::instance = nullptr`. */
    constructor ()
      ensures instance == null
    {
      instance := null;
    }

    ghost function Slot(): Lazy<Logger>
      reads this
    {
      if instance == null then Uninitialized else Initialized(instance as Logger)
    }

    /**
     * Logger::getInstance: creates the Logger when the slot is empty, and
     * returns the stored instance otherwise, leaving the slot unchanged.
     */
    method GetInstance() returns (l: Logger)
      modifies this
      ensures var c := Acquire(old(Slot()), l); Slot() == c.after && l == c.handle
      ensures old(instance) == null ==> fresh(l)
      ensures old(instance) != null ==> l == old(instance) && unchanged(this)
    {
      if instance == null {
        instance := new Logger();
      }
      l := instance;
    }
  }
}
