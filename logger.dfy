/**
 * The session logger (class Logger): every entry goes to the in-memory list `logs`,
 * which keeps only the newest 1000 entries, and to the upload queue `logQueue`, which
 * is sent as a batch once it holds 10 entries while online and is emptied only by a
 * batch the server accepted.
 */
module Logging {
  import opened Common

  const MaxLogs: nat := 1000
  const BatchSize: nat := 10

  datatype EntryType = EVENT | VIOLATION | WARNING | ERROR
  datatype Severity = INFO | HIGH | MEDIUM

  /** The `data` object of an entry: caller-supplied fields, or the error summary of `logError`. */
  datatype Payload =
    | Details(fields: map<string, string>)
    | ErrorInfo(error: Option<string>, stack: Option<string>)

  /** A thrown error: its `toString()` text and its stack, which may be absent. */
  datatype Thrown = Thrown(text: string, stack: Option<string>)

  /** One log entry; `id` and `timestamp` are produced by the clock and random source. */
  datatype LogEntry = LogEntry(
    id: string,
    timestamp: int,
    entryType: EntryType,
    category: string,
    message: string,
    data: Payload,
    severity: Severity)

  /** What the server call ended with: success, a `success: false` answer, or an exception. */
  datatype SendOutcome = Delivered | Rejected | Threw

  /** The logger's fields. */
  datatype LoggerState = LoggerState(logs: seq<LogEntry>, logQueue: seq<LogEntry>, isOnline: bool)

  /** `logs.slice(-n)` for a list longer than `n`: the newest `n` entries. */
  function Newest<T>(s: seq<T>, n: nat): (r: seq<T>)
    ensures |r| == if |s| <= n then |s| else n
    ensures r == s[|s| - |r|..]
  {
    if |s| > n then s[|s| - n..] else s
  }

  /** Keeping the newest `n` after every append is keeping the newest `n` of everything. */
  lemma NewestOfAppend<T>(h: seq<T>, e: T, n: nat)
    ensures Newest(Newest(h, n) + [e], n) == Newest(h + [e], n)
  {
    var t := Newest(h, n);
    assert h + [e] == h[..|h| - |t|] + (t + [e]);
  }

  datatype Sent = Sent(next: LoggerState, payload: seq<LogEntry>)

  /**
   * `sendLogsToServer(specificLogs)`: the payload is the given list or, without one,
   * the whole queue. Only a delivered send of a non-empty queue clears the queue; a
   * send of a given list never touches it.
   */
  function Send(s: LoggerState, specific: Option<seq<LogEntry>>, outcome: SendOutcome): (o: Sent)
    ensures o.payload == if specific.Some? then specific.value else s.logQueue
    ensures o.next.logs == s.logs && o.next.isOnline == s.isOnline
    ensures o.next.logQueue == [] || o.next.logQueue == s.logQueue
    ensures o.next.logQueue == [] <==> s.logQueue == [] || (specific.None? && outcome == Delivered)
  {
    var payload := if specific.Some? then specific.value else s.logQueue;
    if payload == [] then Sent(s, payload)
    else if outcome == Delivered && specific.None? then Sent(s.(logQueue := []), payload)
    else Sent(s, payload)
  }

  /** Whether `addLog` of one more entry starts a batch send. */
  predicate TriggersBatch(s: LoggerState) {
    |s.logQueue| + 1 >= BatchSize && s.isOnline
  }

  /**
   * `addLog(entry)`: appends to both lists, keeps the newest 1000 in `logs`, and sends
   * the queue as a batch when it has reached 10 entries while online; `payload` is the
   * batch sent, or empty.
   */
  function Add(s: LoggerState, e: LogEntry, outcome: SendOutcome): (o: Sent)
    ensures o.next.logs == Newest(s.logs + [e], MaxLogs)
    ensures |o.next.logs| <= MaxLogs && o.next.logs[|o.next.logs| - 1] == e
    ensures o.payload == if TriggersBatch(s) then s.logQueue + [e] else []
    ensures o.next.logQueue == if TriggersBatch(s) && outcome == Delivered then [] else s.logQueue + [e]
    ensures o.next.isOnline == s.isOnline
  {
    var logs := s.logs + [e];
    var kept := if |logs| > MaxLogs then logs[|logs| - MaxLogs..] else logs;
    var t := LoggerState(kept, s.logQueue + [e], s.isOnline);
    if |t.logQueue| >= BatchSize && t.isOnline then Send(t, None, outcome) else Sent(t, [])
  }

  /**
   * `logViolation`: the entry is added like any other, then sent on its own when
   * online. That extra send never clears the queue, so the violation is either still
   * queued for the next batch or part of the batch `addLog` delivered.
   */
  function Violate(s: LoggerState, e: LogEntry, batchOutcome: SendOutcome, immediateOutcome: SendOutcome): (o: Violated)
    ensures o.next == Add(s, e, batchOutcome).next && o.batch == Add(s, e, batchOutcome).payload
    ensures o.immediate == if s.isOnline then [e] else []
    ensures (|o.next.logQueue| > 0 && o.next.logQueue[|o.next.logQueue| - 1] == e)
         || (o.next.logQueue == [] && e in o.batch && batchOutcome == Delivered)
  {
    var a := Add(s, e, batchOutcome);
    if a.next.isOnline then
      var i := Send(a.next, Some([e]), immediateOutcome);
      Violated(i.next, a.payload, i.payload)
    else Violated(a.next, a.payload, [])
  }

  datatype Violated = Violated(next: LoggerState, batch: seq<LogEntry>, immediate: seq<LogEntry>)

  /** One `addLog` call together with the outcome of the batch send it may start. */
  datatype Addition = Addition(entry: LogEntry, outcome: SendOutcome)

  function Entries(additions: seq<Addition>): (es: seq<LogEntry>)
    ensures |es| == |additions|
    decreases |additions|
  {
    if additions == [] then [] else Entries(additions[..|additions| - 1]) + [additions[|additions| - 1].entry]
  }

  /** Entry `k` is the entry of the `k`-th addition. */
  lemma {:induction false} EntriesInOrder(additions: seq<Addition>)
    ensures forall k :: 0 <= k < |additions| ==> Entries(additions)[k] == additions[k].entry
    decreases |additions|
  {
    if additions != [] {
      var before := additions[..|additions| - 1];
      EntriesInOrder(before);
      assert forall k :: 0 <= k < |before| ==> before[k] == additions[k];
    }
  }

  function Run(s: LoggerState, additions: seq<Addition>): LoggerState
    decreases |additions|
  {
    if additions == [] then s else Add(Run(s, additions[..|additions| - 1]), additions[|additions| - 1].entry, additions[|additions| - 1].outcome).next
  }

  /** The concatenation of the batches the server accepted, in order. */
  function DeliveredEntries(s: LoggerState, additions: seq<Addition>): seq<LogEntry>
    decreases |additions|
  {
    if additions == [] then []
    else
      var before := additions[..|additions| - 1];
      var a := additions[|additions| - 1];
      var o := Add(Run(s, before), a.entry, a.outcome);
      DeliveredEntries(s, before) + (if a.outcome == Delivered then o.payload else [])
  }

  /** However many entries are added, `logs` holds the newest 1000 of all of them. */
  lemma {:induction false} RetainsNewest(s: LoggerState, additions: seq<Addition>)
    requires |s.logs| <= MaxLogs
    ensures Run(s, additions).logs == Newest(s.logs + Entries(additions), MaxLogs)
    decreases |additions|
  {
    if additions != [] {
      var before := additions[..|additions| - 1];
      var e := additions[|additions| - 1].entry;
      RetainsNewest(s, before);
      NewestOfAppend(s.logs + Entries(before), e, MaxLogs);
      assert s.logs + Entries(additions) == s.logs + Entries(before) + [e];
    }
  }

  lemma AppendRegroup<T>(d: seq<T>, q: seq<T>, x: seq<T>, sent: seq<T>, q': seq<T>, e: T)
    requires d + q == x && sent + q' == q + [e]
    ensures (d + sent) + q' == x + [e]
  {
    calc {
      (d + sent) + q';
      d + (sent + q');
      d + (q + [e]);
      (d + q) + [e];
    }
  }

  /** One `addLog`: what it delivers followed by the new queue is the old queue plus the entry. */
  lemma AddConserves(t: LoggerState, e: LogEntry, outcome: SendOutcome)
    ensures var o := Add(t, e, outcome);
      (if outcome == Delivered then o.payload else []) + o.next.logQueue == t.logQueue + [e]
  {
  }

  /**
   * No entry is lost or duplicated on its way to the server: the delivered batches
   * followed by the queue are exactly the old queue followed by the new entries.
   */
  lemma {:induction false} QueueConserved(s: LoggerState, additions: seq<Addition>)
    ensures DeliveredEntries(s, additions) + Run(s, additions).logQueue == s.logQueue + Entries(additions)
    ensures Run(s, additions).isOnline == s.isOnline
    decreases |additions|
  {
    if additions != [] {
      var before := additions[..|additions| - 1];
      var a := additions[|additions| - 1];
      var t := Run(s, before);
      var o := Add(t, a.entry, a.outcome);
      var sent := if a.outcome == Delivered then o.payload else [];
      QueueConserved(s, before);
      AddConserves(t, a.entry, a.outcome);
      assert DeliveredEntries(s, additions) == DeliveredEntries(s, before) + sent;
      assert Run(s, additions).logQueue == o.next.logQueue;
      assert Entries(additions) == Entries(before) + [a.entry];
      AppendRegroup(DeliveredEntries(s, before), t.logQueue, s.logQueue + Entries(before), sent, o.next.logQueue, a.entry);
    }
  }

  /** Online with a server that accepts every batch, the queue stays below the batch size. */
  lemma {:induction false} QueueStaysShort(s: LoggerState, additions: seq<Addition>)
    requires s.isOnline && |s.logQueue| < BatchSize
    requires forall i :: 0 <= i < |additions| ==> additions[i].outcome == Delivered
    ensures |Run(s, additions).logQueue| < BatchSize
    decreases |additions|
  {
    if additions != [] {
      QueueStaysShort(s, additions[..|additions| - 1]);
      QueueConserved(s, additions[..|additions| - 1]);
    }
  }

  function SeverityOf(t: EntryType): Severity {
    match t
    case EVENT => INFO
    case VIOLATION => HIGH
    case WARNING => MEDIUM
    case ERROR => HIGH
  }

  /** The `data` of a `logError` entry. */
  function ErrorPayload(error: Option<Thrown>): Payload {
    if error.Some? then ErrorInfo(Some(error.value.text), error.value.stack) else ErrorInfo(None, None)
  }

  /** How many entries have the given type (`logs.filter(...).length`). */
  function TypeCount(logs: seq<LogEntry>, t: EntryType): nat
    decreases |logs|
  {
    if logs == [] then 0
    else TypeCount(logs[..|logs| - 1], t) + (if logs[|logs| - 1].entryType == t then 1 else 0)
  }

  /** Every entry has exactly one of the four types. */
  lemma {:induction false} TypesPartition(logs: seq<LogEntry>)
    ensures TypeCount(logs, VIOLATION) + TypeCount(logs, WARNING) + TypeCount(logs, ERROR) + TypeCount(logs, EVENT) == |logs|
    decreases |logs|
  {
    if logs != [] {
      TypesPartition(logs[..|logs| - 1]);
    }
  }

  /** How many entries have the given category. */
  function CategoryCount(logs: seq<LogEntry>, c: string): nat
    decreases |logs|
  {
    if logs == [] then 0
    else CategoryCount(logs[..|logs| - 1], c) + (if logs[|logs| - 1].category == c then 1 else 0)
  }

  /** The `categories` object as the `forEach` builds it, entry by entry. */
  function CategoryCounts(logs: seq<LogEntry>): map<string, nat>
    decreases |logs|
  {
    if logs == [] then map[]
    else
      var m := CategoryCounts(logs[..|logs| - 1]);
      var c := logs[|logs| - 1].category;
      m[c := (if c in m then m[c] else 0) + 1]
  }

  /** The category map lists exactly the categories present, each with its number of entries. */
  lemma {:induction false} CategoryCountsExact(logs: seq<LogEntry>, c: string)
    ensures c in CategoryCounts(logs) <==> CategoryCount(logs, c) > 0
    ensures c in CategoryCounts(logs) ==> CategoryCounts(logs)[c] == CategoryCount(logs, c)
    decreases |logs|
  {
    if logs != [] {
      CategoryCountsExact(logs[..|logs| - 1], c);
    }
  }

  /** The sum of a map's values. */
  ghost function MapSum(m: map<string, nat>): nat
    decreases |m|
  {
    if m == map[] then 0
    else
      var k :| k in m;
      assert (m - {k}).Keys == m.Keys - {k};
      m[k] + MapSum(m - {k})
  }

  /** The sum does not depend on which key is taken first. */
  lemma {:induction false} MapSumRemove(m: map<string, nat>, k: string)
    requires k in m
    ensures MapSum(m) == m[k] + MapSum(m - {k})
    decreases |m|
  {
    var j :| j in m && MapSum(m) == m[j] + MapSum(m - {j});
    if j != k {
      assert (m - {j}).Keys == m.Keys - {j};
      assert (m - {k}).Keys == m.Keys - {k};
      MapSumRemove(m - {j}, k);
      MapSumRemove(m - {k}, j);
      assert m - {j} - {k} == m - {k} - {j};
    }
  }

  /** The category counts add up to the number of entries. */
  lemma {:induction false} CategoriesSumToTotal(logs: seq<LogEntry>)
    ensures MapSum(CategoryCounts(logs)) == |logs|
    decreases |logs|
  {
    if logs != [] {
      var before := logs[..|logs| - 1];
      var m := CategoryCounts(before);
      var c := logs[|logs| - 1].category;
      var m' := CategoryCounts(logs);
      CategoriesSumToTotal(before);
      MapSumRemove(m', c);
      if c in m {
        MapSumRemove(m, c);
        assert m' - {c} == m - {c};
      } else {
        assert m' - {c} == m;
      }
    }
  }

  /** The result of `getLogStats()`. */
  datatype LogStats = LogStats(total: nat, violations: nat, warnings: nat, errors: nat, events: nat,
                               categories: map<string, nat>)

  class Logger {
    var logs: seq<LogEntry>
    var logQueue: seq<LogEntry>
    var isOnline: bool

    function Snapshot(): LoggerState
      reads this
    {
      LoggerState(logs, logQueue, isOnline)
    }

    /** `online` is the browser's connectivity when the logger is created. */
    constructor (online: bool)
      ensures Snapshot() == LoggerState([], [], online)
    {
      logs := [];
      logQueue := [];
      isOnline := online;
    }

    /** `sendLogsToServer(specificLogs)`; `payload` is what was handed to the server. */
    method SendLogsToServer(specific: Option<seq<LogEntry>>, outcome: SendOutcome) returns (payload: seq<LogEntry>)
      modifies this
      ensures Sent(Snapshot(), payload) == Send(old(Snapshot()), specific, outcome)
    {
      payload := if specific.Some? then specific.value else logQueue;
      if |payload| == 0 {
        return;
      }
      if outcome == Delivered && specific.None? {
        logQueue := [];
      }
    }

    /** `addLog(entry)`; `batch` is the batch sent, or empty. */
    method AddLog(entry: LogEntry, outcome: SendOutcome) returns (batch: seq<LogEntry>)
      modifies this
      ensures Sent(Snapshot(), batch) == Add(old(Snapshot()), entry, outcome)
    {
      logs := logs + [entry];
      logQueue := logQueue + [entry];
      if |logs| > MaxLogs {
        logs := logs[|logs| - MaxLogs..];
      }
      batch := [];
      if |logQueue| >= BatchSize && isOnline {
        batch := SendLogsToServer(None, outcome);
      }
    }

    /** `logEvent(type, message, data)`: an EVENT entry of severity INFO. */
    method LogEvent(id: string, timestamp: int, category: string, message: string, data: map<string, string>,
                    outcome: SendOutcome)
      returns (entry: LogEntry, batch: seq<LogEntry>)
      modifies this
      ensures entry == LogEntry(id, timestamp, EVENT, category, message, Details(data), INFO)
      ensures Sent(Snapshot(), batch) == Add(old(Snapshot()), entry, outcome)
    {
      entry := LogEntry(id, timestamp, EVENT, category, message, Details(data), SeverityOf(EVENT));
      batch := AddLog(entry, outcome);
    }

    /**
     * `logViolation(type, message, data)`: a VIOLATION entry of severity HIGH, added
     * and then, when online, sent on its own.
     */
    method LogViolation(id: string, timestamp: int, category: string, message: string, data: map<string, string>,
                        batchOutcome: SendOutcome, immediateOutcome: SendOutcome)
      returns (entry: LogEntry, batch: seq<LogEntry>, immediate: seq<LogEntry>)
      modifies this
      ensures entry == LogEntry(id, timestamp, VIOLATION, category, message, Details(data), HIGH)
      ensures Violated(Snapshot(), batch, immediate) == Violate(old(Snapshot()), entry, batchOutcome, immediateOutcome)
    {
      entry := LogEntry(id, timestamp, VIOLATION, category, message, Details(data), SeverityOf(VIOLATION));
      batch := AddLog(entry, batchOutcome);
      immediate := [];
      if isOnline {
        immediate := SendLogsToServer(Some([entry]), immediateOutcome);
      }
    }

    /** `logWarning(type, message, data)`: a WARNING entry of severity MEDIUM. */
    method LogWarning(id: string, timestamp: int, category: string, message: string, data: map<string, string>,
                      outcome: SendOutcome)
      returns (entry: LogEntry, batch: seq<LogEntry>)
      modifies this
      ensures entry == LogEntry(id, timestamp, WARNING, category, message, Details(data), MEDIUM)
      ensures Sent(Snapshot(), batch) == Add(old(Snapshot()), entry, outcome)
    {
      entry := LogEntry(id, timestamp, WARNING, category, message, Details(data), SeverityOf(WARNING));
      batch := AddLog(entry, outcome);
    }

    /** `logError(type, message, error)`: an ERROR entry of severity HIGH with the error's text and stack. */
    method LogError(id: string, timestamp: int, category: string, message: string, error: Option<Thrown>,
                    outcome: SendOutcome)
      returns (entry: LogEntry, batch: seq<LogEntry>)
      modifies this
      ensures entry.entryType == ERROR && entry.severity == HIGH
      ensures entry.id == id && entry.timestamp == timestamp && entry.category == category && entry.message == message
      ensures entry.data == if error.Some? then ErrorInfo(Some(error.value.text), error.value.stack)
                            else ErrorInfo(None, None)
      ensures Sent(Snapshot(), batch) == Add(old(Snapshot()), entry, outcome)
    {
      entry := LogEntry(id, timestamp, ERROR, category, message, ErrorPayload(error), SeverityOf(ERROR));
      batch := AddLog(entry, outcome);
    }

    /**
     * `getLogStats()`: the four type counts partition the total, and the category
     * map counts each present category and sums to the total.
     */
    method GetLogStats() returns (stats: LogStats)
      ensures stats.total == |logs|
      ensures stats.violations == TypeCount(logs, VIOLATION) && stats.warnings == TypeCount(logs, WARNING)
      ensures stats.errors == TypeCount(logs, ERROR) && stats.events == TypeCount(logs, EVENT)
      ensures stats.violations + stats.warnings + stats.errors + stats.events == stats.total
      ensures forall c :: c in stats.categories <==> CategoryCount(logs, c) > 0
      ensures forall c :: c in stats.categories ==> stats.categories[c] == CategoryCount(logs, c)
      ensures MapSum(stats.categories) == stats.total
    {
      var categories: map<string, nat> := map[];
      var i := 0;
      while i < |logs|
        invariant 0 <= i <= |logs|
        invariant categories == CategoryCounts(logs[..i])
      {
        var c := logs[i].category;
        categories := categories[c := (if c in categories then categories[c] else 0) + 1];
        i := i + 1;
        assert logs[..i][..i - 1] == logs[..i - 1];
      }
      assert logs[..i] == logs;
      TypesPartition(logs);
      CategoriesSumToTotal(logs);
      forall c {
        CategoryCountsExact(logs, c);
      }
      stats := LogStats(|logs|, TypeCount(logs, VIOLATION), TypeCount(logs, WARNING), TypeCount(logs, ERROR),
                        TypeCount(logs, EVENT), categories);
    }

    /** `clearLogs()`: empties both lists. */
    method ClearLogs()
      modifies this
      ensures Snapshot() == old(Snapshot()).(logs := [], logQueue := [])
    {
      logs := [];
      logQueue := [];
    }
  }
}
