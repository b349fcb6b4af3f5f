/**
 * The browser-side logger of `src/lib/client-logger.ts`: entries at or
 * above the minimum level are queued, an error or a full queue sends the
 * queue at once, otherwise a timer is started (if none runs) that sends it
 * later. A send posts a single entry on its own and several as an array.
 *
 * The queue, the timer flag and the list of bodies posted so far form a
 * `QueueState`; `LogStep` and `Flush` say how one call changes it, and the
 * class `ClientLogger` performs those steps in place. Timestamps, the page
 * URL and the user agent are parameters; the timer firing is the method
 * `TimerFires`.
 */
module ClientLogger {
  import opened Common
  import Logger

  /** One queued entry; `url` and `userAgent` are added to the caller's context. */
  datatype ClientEntry = ClientEntry(level: string, message: string, context: Option<Logger.Record>,
                                     url: Option<string>, userAgent: Option<string>,
                                     error: Option<Logger.ErrorInfo>, timestamp: string)

  /** The body of one POST: a lone entry, or an array of two or more. */
  datatype Payload = Single(entry: ClientEntry) | Batch(entries: seq<ClientEntry>)

  datatype QueueState = QueueState(queue: seq<ClientEntry>, timerPending: bool, posted: seq<Payload>)

  /** `getLevelValue(level)`: unknown names count as INFO. */
  function GetLevelValue(level: string): (v: int)
    ensures Lower(level) == "debug" ==> v == Logger.Debug
    ensures Lower(level) == "info" ==> v == Logger.Info
    ensures Lower(level) == "warn" ==> v == Logger.Warn
    ensures Lower(level) == "error" ==> v == Logger.Error
    ensures Lower(level) !in {"debug", "info", "warn", "error"} ==> v == Logger.Info
    ensures Logger.Debug <= v <= Logger.Error
  {
    var l := Lower(level);
    if l == "debug" then Logger.Debug
    else if l == "info" then Logger.Info
    else if l == "warn" then Logger.Warn
    else if l == "error" then Logger.Error
    else Logger.Info
  }

  /** The entries of the posted bodies, in the order they were posted. */
  function Unpacked(ps: seq<Payload>): seq<ClientEntry> {
    if ps == [] then []
    else Unpacked(ps[..|ps| - 1]) + (match ps[|ps| - 1] case Single(e) => [e] case Batch(es) => es)
  }

  /** `flushLogs()`. */
  function Flush(s: QueueState): (r: QueueState)
    ensures s.queue == [] ==> r == s
    ensures s.queue != [] ==>
      r.queue == [] && !r.timerPending && |r.posted| == |s.posted| + 1 && r.posted[..|s.posted|] == s.posted
  {
    if s.queue == [] then s
    else QueueState([], false, s.posted + [if |s.queue| == 1 then Single(s.queue[0]) else Batch(s.queue)])
  }

  /** `log(...)` for the entry `e`, with the logger's `minLevel` and `batchSize`. */
  function LogStep(s: QueueState, minLevel: int, batchSize: int, e: ClientEntry): QueueState {
    if GetLevelValue(e.level) < minLevel then s
    else
      var s1 := s.(queue := s.queue + [e]);
      if e.level == "error" || |s1.queue| >= batchSize then Flush(s1)
      else if !s1.timerPending then s1.(timerPending := true)
      else s1
  }

  /**
   * What holds between calls: a timer runs exactly while entries wait, fewer
   * than a batch wait, and every array body holds at least two entries.
   */
  predicate QueueValid(s: QueueState, batchSize: int) {
    (s.timerPending <==> s.queue != [])
    && |s.queue| < Max(1, batchSize)
    && forall i :: 0 <= i < |s.posted| ==> s.posted[i].Batch? ==> |s.posted[i].entries| >= 2
  }

  lemma UnpackedSnoc(ps: seq<Payload>, p: Payload)
    ensures Unpacked(ps + [p]) == Unpacked(ps) + (match p case Single(e) => [e] case Batch(es) => es)
  {
    assert (ps + [p])[..|ps|] == ps;
  }

  /** Sending loses nothing: posted entries followed by waiting ones are unchanged. */
  lemma FlushKeepsEntries(s: QueueState)
    ensures Unpacked(Flush(s).posted) + Flush(s).queue == Unpacked(s.posted) + s.queue
  {
    if s.queue != [] {
      var p := if |s.queue| == 1 then Single(s.queue[0]) else Batch(s.queue);
      UnpackedSnoc(s.posted, p);
      if |s.queue| == 1 {
        assert s.queue == [s.queue[0]];
      }
    }
  }

  /** Logging loses nothing and keeps order: an admitted entry joins the end, a filtered one changes nothing. */
  lemma LogStepKeepsEntries(s: QueueState, minLevel: int, batchSize: int, e: ClientEntry)
    ensures var r := LogStep(s, minLevel, batchSize, e);
      Unpacked(r.posted) + r.queue
      == Unpacked(s.posted) + s.queue + (if GetLevelValue(e.level) < minLevel then [] else [e])
  {
    if GetLevelValue(e.level) >= minLevel {
      var s1 := s.(queue := s.queue + [e]);
      FlushKeepsEntries(s1);
    }
  }

  lemma FlushValid(s: QueueState, batchSize: int)
    requires forall i :: 0 <= i < |s.posted| ==> s.posted[i].Batch? ==> |s.posted[i].entries| >= 2
    requires s.queue == [] ==> !s.timerPending
    ensures QueueValid(Flush(s), batchSize)
  {
  }

  /** Every call keeps the state valid. */
  lemma LogStepValid(s: QueueState, minLevel: int, batchSize: int, e: ClientEntry)
    requires QueueValid(s, batchSize)
    ensures QueueValid(LogStep(s, minLevel, batchSize, e), batchSize)
  {
    if GetLevelValue(e.level) >= minLevel {
      var s1 := s.(queue := s.queue + [e]);
      if e.level == "error" || |s1.queue| >= batchSize {
        FlushValid(s1, batchSize);
      }
    }
  }

  /** An admitted error is sent at once, together with everything that waited before it. */
  lemma ErrorSentAtOnce(s: QueueState, minLevel: int, batchSize: int, e: ClientEntry)
    requires e.level == "error" && minLevel <= Logger.Error
    ensures var r := LogStep(s, minLevel, batchSize, e);
      r.queue == [] && !r.timerPending && |r.posted| == |s.posted| + 1
      && r.posted[|s.posted|] == (if s.queue == [] then Single(e) else Batch(s.queue + [e]))
  {
    assert Lower("error") == "error";
  }

  /** Below-minimum entries are dropped without trace. */
  lemma FilteredIgnored(s: QueueState, minLevel: int, batchSize: int, e: ClientEntry)
    requires GetLevelValue(e.level) < minLevel
    ensures LogStep(s, minLevel, batchSize, e) == s
  {
  }

  /** With a valid state, the entry that fills the queue sends exactly `batchSize` entries. */
  lemma FullBatchSent(s: QueueState, minLevel: int, batchSize: int, e: ClientEntry)
    requires QueueValid(s, batchSize) && batchSize >= 2
    requires GetLevelValue(e.level) >= minLevel && e.level != "error"
    requires |s.queue| == batchSize - 1
    ensures LogStep(s, minLevel, batchSize, e).posted == s.posted + [Batch(s.queue + [e])]
  {
  }

  class ClientLogger {
    const endpoint: string
    const minLevel: int
    const batchSize: int
    const batchInterval: int
    /** `logQueue`. */
    var queue: seq<ClientEntry>
    /** `timer !== null`. */
    var timerPending: bool
    /** The bodies handed to `fetch(endpoint, ...)`, oldest first. */
    var posted: seq<Payload>

    function State(): QueueState
      reads this
    {
      QueueState(queue, timerPending, posted)
    }

    ghost predicate Valid()
      reads this
    {
      QueueValid(State(), batchSize)
    }

    /** `new ClientLogger(endpoint, minLevel, batchSize, batchInterval)`. */
    constructor(endpoint: string, minLevel: int, batchSize: int, batchInterval: int)
      ensures this.endpoint == endpoint && this.minLevel == minLevel
      ensures this.batchSize == batchSize && this.batchInterval == batchInterval
      ensures State() == QueueState([], false, []) && Valid()
    {
      this.endpoint := endpoint;
      this.minLevel := minLevel;
      this.batchSize := batchSize;
      this.batchInterval := batchInterval;
      queue := [];
      timerPending := false;
      posted := [];
    }

    /** `new ClientLogger()`: the defaults, as the exported `clientLogger` is made. */
    constructor Default()
      ensures endpoint == "/api/log" && minLevel == Logger.Info && batchSize == 10 && batchInterval == 5000
      ensures State() == QueueState([], false, []) && Valid()
    {
      endpoint := "/api/log";
      minLevel := Logger.Info;
      batchSize := 10;
      batchInterval := 5000;
      queue := [];
      timerPending := false;
      posted := [];
    }

    /** `flushLogs()`. */
    method FlushLogs()
      modifies this
      ensures State() == Flush(old(State()))
    {
      if queue == [] {
        return;
      }
      if timerPending {
        timerPending := false;
      }
      var logs := queue;
      queue := [];
      posted := posted + [if |logs| == 1 then Single(logs[0]) else Batch(logs)];
    }

    /** `log(level, message, context, error)`. */
    method Log(e: ClientEntry)
      requires Valid()
      modifies this
      ensures State() == LogStep(old(State()), minLevel, batchSize, e) && Valid()
    {
      LogStepValid(State(), minLevel, batchSize, e);
      if GetLevelValue(e.level) < minLevel {
        return;
      }
      queue := queue + [e];
      if e.level == "error" || |queue| >= batchSize {
        FlushLogs();
      } else if !timerPending {
        timerPending := true;
      }
    }

    /** The timer set by `log` runs out. */
    method TimerFires()
      requires Valid() && timerPending
      modifies this
      ensures State() == Flush(old(State())) && Valid() && queue == [] && |posted| == |old(posted)| + 1
    {
      FlushValid(State(), batchSize);
      FlushLogs();
    }

    /** `handleGlobalError(event)`: logged at error level with the event's location. */
    method HandleGlobalError(message: string, error: Option<Logger.ErrorInfo>, filename: string, lineno: int, colno: int,
                             url: Option<string>, userAgent: Option<string>, timestamp: string)
      requires Valid()
      modifies this
      ensures var ctx := [("filename", JStr(filename)), ("lineno", JNum(lineno)), ("colno", JNum(colno))];
        State() == LogStep(old(State()), minLevel, batchSize,
                           ClientEntry("error", "Uncaught error: " + message, Some(ctx), url, userAgent, error, timestamp))
      ensures Valid()
    {
      var ctx := [("filename", JStr(filename)), ("lineno", JNum(lineno)), ("colno", JNum(colno))];
      Log(ClientEntry("error", "Uncaught error: " + message, Some(ctx), url, userAgent, error, timestamp));
    }

    /**
     * `handlePromiseRejection(event)`: a rejection reason that is not an
     * `Error` is wrapped in a new one (`reasonText` is `String(reason)`,
     * `newStack` the new error's stack).
     */
    method HandlePromiseRejection(reason: Option<Logger.ErrorInfo>, reasonText: string, newStack: Option<string>,
                                  url: Option<string>, userAgent: Option<string>, timestamp: string)
      requires Valid()
      modifies this
      ensures var err := if reason.Some? then reason.value else Logger.ErrorInfo(reasonText, "Error", newStack);
        State() == LogStep(old(State()), minLevel, batchSize,
                           ClientEntry("error", "Unhandled promise rejection: " + err.message, None, url, userAgent, Some(err), timestamp))
      ensures Valid()
    {
      var err := if reason.Some? then reason.value else Logger.ErrorInfo(reasonText, "Error", newStack);
      Log(ClientEntry("error", "Unhandled promise rejection: " + err.message, None, url, userAgent, Some(err), timestamp));
    }
  }
}
