/**
 * The server logger of `src/lib/logger.ts`: a level filter, the in-memory
 * history capped at 1000 entries with the oldest dropped first, the
 * console label and method per level, the configuration that `configure`
 * overwrites field by field, and `sanitizeData`, which redacts every value
 * whose key looks secret, at any depth, before an entry is sent away.
 *
 * The timestamp (`new Date().toISOString()`) is a parameter; the console
 * call and the remote `fetch` are returned as values instead of performed.
 * A context object is a list of key/value pairs with distinct keys, in
 * `Object.entries` order.
 */
module Logger {
  import opened Common

  const Debug: int := 0
  const Info: int := 1
  const Warn: int := 2
  const Error: int := 3
  const NoLevel: int := 4
  const MaxLogHistory: int := 1000

  type Record = seq<(string, Json)>

  datatype ErrorInfo = ErrorInfo(message: string, name: string, stack: Option<string>)

  datatype LogEntry = LogEntry(timestamp: string, level: int, message: string,
                               context: Option<Record>, error: Option<ErrorInfo>)

  datatype LoggerConfig = LoggerConfig(minLevel: int, enableConsole: bool, enableRemote: bool,
                                       remoteUrl: Option<string>)

  /** A `Partial<LoggerConfig>`: `Some` marks a field that was supplied. */
  datatype ConfigPatch = ConfigPatch(minLevel: Option<int>, enableConsole: Option<bool>,
                                     enableRemote: Option<bool>, remoteUrl: Option<Option<string>>)

  datatype ConsoleMethod = LogMethod | InfoMethod | WarnMethod | ErrorMethod

  /** One console call: the method, the formatted line, and whether context/error are attached. */
  datatype ConsoleLine = ConsoleLine(call: ConsoleMethod, text: string, withDetails: bool)

  /** `defaultConfig`, given whether `NODE_ENV` is production and the `LOG_ENDPOINT` variable. */
  function DefaultConfig(production: bool, logEndpoint: Option<string>): (c: LoggerConfig)
    ensures c.minLevel == (if production then Info else Debug)
    ensures c.enableConsole && c.enableRemote == production && c.remoteUrl == logEndpoint
  {
    LoggerConfig(if production then Info else Debug, true, production, logEndpoint)
  }

  /** `{ ...config, ...patch }`. */
  function Configured(c: LoggerConfig, p: ConfigPatch): (r: LoggerConfig)
    ensures r.minLevel == (if p.minLevel.Some? then p.minLevel.value else c.minLevel)
    ensures r.enableConsole == (if p.enableConsole.Some? then p.enableConsole.value else c.enableConsole)
    ensures r.enableRemote == (if p.enableRemote.Some? then p.enableRemote.value else c.enableRemote)
    ensures r.remoteUrl == (if p.remoteUrl.Some? then p.remoteUrl.value else c.remoteUrl)
  {
    LoggerConfig(
      if p.minLevel.Some? then p.minLevel.value else c.minLevel,
      if p.enableConsole.Some? then p.enableConsole.value else c.enableConsole,
      if p.enableRemote.Some? then p.enableRemote.value else c.enableRemote,
      if p.remoteUrl.Some? then p.remoteUrl.value else c.remoteUrl)
  }

  /** An empty patch changes nothing, and a second patch of the same fields wins. */
  lemma ConfiguredLaws(c: LoggerConfig, p: ConfigPatch, q: ConfigPatch)
    ensures Configured(c, ConfigPatch(None, None, None, None)) == c
    ensures p.minLevel.Some? && q.minLevel.Some? ==> Configured(Configured(c, p), q).minLevel == q.minLevel.value
    ensures Configured(Configured(c, p), p) == Configured(c, p)
  {
  }

  // ------------------------------------------------------------ console

  /** The label and console method of a level; any value outside the four is `[UNKNOWN]` on `log`. */
  function ConsoleLabel(level: int): (r: (string, ConsoleMethod))
    ensures level == Debug ==> r == ("[DEBUG]", LogMethod)
    ensures level == Info ==> r == ("[INFO]", InfoMethod)
    ensures level == Warn ==> r == ("[WARN]", WarnMethod)
    ensures level == Error ==> r == ("[ERROR]", ErrorMethod)
    ensures !(Debug <= level <= Error) ==> r == ("[UNKNOWN]", LogMethod)
  {
    if level == Debug then ("[DEBUG]", LogMethod)
    else if level == Info then ("[INFO]", InfoMethod)
    else if level == Warn then ("[WARN]", WarnMethod)
    else if level == Error then ("[ERROR]", ErrorMethod)
    else ("[UNKNOWN]", LogMethod)
  }

  /** `logToConsole(entry)`: `[LEVEL] TIMESTAMP - MESSAGE`. */
  function ConsoleOutput(e: LogEntry): (line: ConsoleLine)
    ensures line.call == ConsoleLabel(e.level).1
    ensures line.text == ConsoleLabel(e.level).0 + " " + e.timestamp + " - " + e.message
    ensures line.withDetails <==> e.context.Some? || e.error.Some?
  {
    var lm := ConsoleLabel(e.level);
    ConsoleLine(lm.1, lm.0 + " " + e.timestamp + " - " + e.message, e.context.Some? || e.error.Some?)
  }

  // ------------------------------------------------------------ history

  /** The history after one more entry: the oldest goes first when 1000 are held. */
  function Appended(h: seq<LogEntry>, e: LogEntry): (r: seq<LogEntry>)
    ensures |h| <= MaxLogHistory ==> |r| <= MaxLogHistory
    ensures |r| > 0 && r[|r| - 1] == e
  {
    (if |h| >= MaxLogHistory then h[1..] else h) + [e]
  }

  function AppendAll(h: seq<LogEntry>, es: seq<LogEntry>): seq<LogEntry>
    decreases |es|
  {
    if es == [] then h else AppendAll(Appended(h, es[0]), es[1..])
  }

  /** The history always holds the most recent entries: the last 1000 of everything logged. */
  lemma {:induction false} AppendAllKeepsLatest(h: seq<LogEntry>, es: seq<LogEntry>)
    requires |h| <= MaxLogHistory
    ensures var all := h + es;
      AppendAll(h, es) == all[Max(0, |all| - MaxLogHistory)..]
    decreases |es|
  {
    var all := h + es;
    if es == [] {
      assert all == h;
    } else {
      var h' := Appended(h, es[0]);
      AppendAllKeepsLatest(h', es[1..]);
      var all' := h' + es[1..];
      var cut := if |h| >= MaxLogHistory then 1 else 0;
      assert all' == all[cut..];
      assert all'[Max(0, |all'| - MaxLogHistory)..] == all[Max(0, |all| - MaxLogHistory)..];
    }
  }

  // ------------------------------------------------------------ redaction

  /** A key counts as secret when its lower-cased form contains one of six words. */
  predicate SensitiveKey(key: string) {
    var k := Lower(key);
    Contains(k, "password") || Contains(k, "token") || Contains(k, "secret")
    || Contains(k, "key") || Contains(k, "auth") || Contains(k, "cookie")
  }

  const Redacted: Json := JStr("[REDACTED]")

  /** The entries of an object, or of an array under its index keys, as `Object.entries` lists them. */
  function Entries(v: Json): Record {
    match v
    case JObj(fs) => fs
    case JArr(es) => seq(|es|, (i: int) requires 0 <= i < |es| => (IntToString(i), es[i]))
    case _ => []
  }

  /** Whether `typeof value === "object" && value !== null`. */
  predicate IsObject(v: Json) {
    v.JObj? || v.JArr?
  }

  /** What `sanitizeData` stores under `key`. */
  function SanitizeEntry(key: string, v: Json): (r: Json)
    decreases v, 1
  {
    if SensitiveKey(key) then Redacted
    else if IsObject(v) then JObj(SanitizeValue(v))
    else v
  }

  /** `sanitizeData(v)` for an object or array `v`: a fresh object with the same keys. */
  function SanitizeValue(v: Json): (r: Record)
    decreases v, 0
  {
    match v
    case JObj(fs) => seq(|fs|, (i: int) requires 0 <= i < |fs| => (fs[i].0, SanitizeEntry(fs[i].0, fs[i].1)))
    case JArr(es) => seq(|es|, (i: int) requires 0 <= i < |es| => (IntToString(i), SanitizeEntry(IntToString(i), es[i])))
    case _ => []
  }

  /** Same keys in the same order; a secret key's value is redacted; a plain value is copied. */
  lemma SanitizeShape(v: Json, i: int)
    requires 0 <= i < |Entries(v)|
    ensures |SanitizeValue(v)| == |Entries(v)|
    ensures SanitizeValue(v)[i].0 == Entries(v)[i].0
    ensures SensitiveKey(Entries(v)[i].0) ==> SanitizeValue(v)[i].1 == Redacted
    ensures !SensitiveKey(Entries(v)[i].0) && !IsObject(Entries(v)[i].1) ==> SanitizeValue(v)[i].1 == Entries(v)[i].1
    ensures !SensitiveKey(Entries(v)[i].0) && IsObject(Entries(v)[i].1)
            ==> SanitizeValue(v)[i].1 == JObj(SanitizeValue(Entries(v)[i].1))
  {
  }

  /** No value under a secret key survives, at any depth. */
  predicate NoSecrets(v: Json)
    decreases v
  {
    match v
    case JObj(fs) => forall i :: 0 <= i < |fs| ==> (SensitiveKey(fs[i].0) ==> fs[i].1 == Redacted) && NoSecrets(fs[i].1)
    case JArr(es) => forall i :: 0 <= i < |es| ==> NoSecrets(es[i])
    case _ => true
  }

  /** A sanitised object holds no secret anywhere. */
  lemma {:induction false} SanitizedHasNoSecrets(v: Json)
    ensures NoSecrets(JObj(SanitizeValue(v)))
    decreases v
  {
    var r := SanitizeValue(v);
    forall i | 0 <= i < |r| ensures (SensitiveKey(r[i].0) ==> r[i].1 == Redacted) && NoSecrets(r[i].1) {
      SanitizeShape(v, i);
      var (k, w) := Entries(v)[i];
      if !SensitiveKey(k) && IsObject(w) {
        assert w < v by {
          if v.JObj? { assert Entries(v)[i] == v.fields[i]; } else { assert w == v.elems[i]; }
        }
        SanitizedHasNoSecrets(w);
      }
    }
  }

  /** Sanitising a sanitised object changes nothing. */
  lemma {:induction false} SanitizeIdempotent(v: Json)
    ensures SanitizeValue(JObj(SanitizeValue(v))) == SanitizeValue(v)
    decreases v
  {
    var r := SanitizeValue(v);
    var rr := SanitizeValue(JObj(r));
    forall i | 0 <= i < |r| ensures rr[i] == r[i] {
      SanitizeShape(v, i);
      SanitizeShape(JObj(r), i);
      var (k, w) := Entries(v)[i];
      if !SensitiveKey(k) && IsObject(w) {
        assert w < v by {
          if v.JObj? { assert Entries(v)[i] == v.fields[i]; } else { assert w == v.elems[i]; }
        }
        SanitizeIdempotent(w);
      }
    }
  }

  /** `sanitizeData(data)`: one pass over the entries, writing each into a fresh result. */
  method SanitizeData(data: Json) returns (result: Record)
    ensures result == SanitizeValue(data)
    decreases data
  {
    var entries := Entries(data);
    result := [];
    var i := 0;
    while i < |entries|
      invariant 0 <= i <= |entries|
      invariant |result| == i
      invariant forall j :: 0 <= j < i ==> result[j] == SanitizeValue(data)[j]
    {
      SanitizeShape(data, i);
      var (key, value) := entries[i];
      var stored: Json;
      if SensitiveKey(key) {
        stored := Redacted;
      } else if IsObject(value) {
        assert value < data by {
          if data.JObj? { assert entries[i] == data.fields[i]; } else { assert value == data.elems[i]; }
        }
        var inner := SanitizeData(value);
        stored := JObj(inner);
      } else {
        stored := value;
      }
      result := result + [(key, stored)];
      i := i + 1;
    }
  }

  /** The entry `logToRemote` sends: the context sanitised, the error reduced to message, name and stack. */
  function SafeEntry(e: LogEntry): (r: LogEntry)
    ensures r.context.Some? <==> e.context.Some?
    ensures r.context.Some? ==> NoSecrets(JObj(r.context.value))
  {
    if e.context.Some? then
      SanitizedHasNoSecrets(JObj(e.context.value));
      e.(context := Some(SanitizeValue(JObj(e.context.value))))
    else e
  }

  // ------------------------------------------------------------ the logger

  class Logger {
    var config: LoggerConfig
    /** `logHistory`. */
    var history: seq<LogEntry>

    ghost predicate Valid()
      reads this
    {
      |history| <= MaxLogHistory
    }

    /** `new Logger(config)`: `{ ...defaultConfig, ...config }` with every field given. */
    constructor(config: LoggerConfig)
      ensures this.config == config && history == [] && Valid()
    {
      this.config := config;
      history := [];
    }

    /** `configure(patch)`. */
    method Configure(patch: ConfigPatch)
      modifies this
      ensures config == Configured(old(config), patch) && history == old(history)
    {
      config := Configured(config, patch);
    }

    /** `getHistory()`: a copy of the history. */
    method GetHistory() returns (h: seq<LogEntry>)
      ensures h == history
    {
      h := history;
    }

    /** `clearHistory()`. */
    method ClearHistory()
      modifies this
      ensures history == [] && config == old(config) && Valid()
    {
      history := [];
    }

    /**
     * `log(level, message, context, error)` at time `timestamp`: what it
     * prints and what it sends to `remoteUrl`, if anything.
     */
    method Log(level: int, message: string, context: Option<Record>, error: Option<ErrorInfo>, timestamp: string)
      returns (printed: Option<ConsoleLine>, sent: Option<LogEntry>)
      requires Valid()
      modifies this
      ensures Valid() && config == old(config)
      ensures level < config.minLevel ==> history == old(history) && printed.None? && sent.None?
      ensures level >= config.minLevel ==>
        var e := LogEntry(timestamp, level, message, context, error);
        history == Appended(old(history), e)
        && printed == (if config.enableConsole then Some(ConsoleOutput(e)) else None)
        && sent == (if config.enableRemote && Present(config.remoteUrl) then Some(SafeEntry(e)) else None)
    {
      if level < config.minLevel {
        return None, None;
      }
      var entry := LogEntry(timestamp, level, message, context, error);
      if |history| >= MaxLogHistory {
        history := history[1..];
      }
      history := history + [entry];
      printed := if config.enableConsole then Some(ConsoleOutput(entry)) else None;
      sent := if config.enableRemote && Present(config.remoteUrl) then Some(SafeEntry(entry)) else None;
    }
  }
}
