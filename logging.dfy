/**
 * The leveled logger of modules/Log.js: a threshold filter over four
 * severities, a message made by joining the call's arguments with newlines,
 * and one record appended to a log store for every call that passes the
 * filter. Every leveled call answers false for ERROR and true otherwise,
 * whether or not the message was stored.
 */
module Logging {
  import opened Text

  datatype Option<T> = None | Some(value: T)

  // The severity constants of the source; a lower number is more severe.
  const ERROR: int := 1
  const WARNING: int := 2
  const INFO: int := 3
  const DEBUG: int := 4

  datatype Severity = Error | Warning | Info | Debug

  /** The numeric constant a severity stands for. */
  function Ordinal(s: Severity): (n: int)
    ensures ERROR <= n <= DEBUG
  {
    match s
    case Error => ERROR
    case Warning => WARNING
    case Info => INFO
    case Debug => DEBUG
  }

  /**
   * The reverse lookup the console echo does: the severity whose constant
   * equals `n`, if any.
   */
  function FromOrdinal(n: int): (r: Option<Severity>)
    ensures r.Some? <==> ERROR <= n <= DEBUG
  {
    if n == ERROR then Some(Error)
    else if n == WARNING then Some(Warning)
    else if n == INFO then Some(Info)
    else if n == DEBUG then Some(Debug)
    else None
  }

  /** The four constants are distinct, so the reverse lookup is exact. */
  lemma OrdinalRoundTrip(s: Severity, n: int)
    ensures FromOrdinal(Ordinal(s)) == Some(s)
    ensures FromOrdinal(n).Some? ==> Ordinal(FromOrdinal(n).value) == n
  {
  }

  /**
   * The stored threshold after `this.level * 1`. A value whose numeric
   * coercion is NaN (undefined, a non-blank string that is not a number)
   * is NotANumber; null, an empty or blank string and false coerce to
   * Num(0), true to Num(1).
   */
  datatype Threshold = NotANumber | Num(n: int)

  /**
   * `this.level * 1 < level`: the request is dropped when the threshold is
   * below the severity's constant. Every comparison with NaN is false, so a
   * threshold that is not a number drops nothing.
   */
  predicate Suppressed(t: Threshold, s: Severity): (dropped: bool)
    ensures t.NotANumber? ==> !dropped
    ensures t.Num? && t.n >= DEBUG ==> !dropped
    ensures t.Num? && t.n < ERROR ==> dropped
    ensures s == Error ==> (dropped <==> t.Num? && t.n < ERROR)
  {
    t.Num? && t.n < Ordinal(s)
  }

  /** A severity that passes lets every more severe one pass too. */
  lemma PassesMoreSevere(t: Threshold, s: Severity, s': Severity)
    requires !Suppressed(t, s)
    requires Ordinal(s') <= Ordinal(s)
    ensures !Suppressed(t, s')
  {
  }

  /** At the ERROR threshold only errors pass; at DEBUG all four pass. */
  lemma ThresholdExtremes(s: Severity)
    ensures !Suppressed(Num(ERROR), s) <==> s == Error
    ensures !Suppressed(Num(DEBUG), s)
    ensures !Suppressed(NotANumber, s)
  {
  }

  /** `level !== ERROR`: false for an error, true for anything else. */
  function Response(level: int): (ok: bool)
    ensures !ok <==> FromOrdinal(level) == Some(Error)
  {
    level != ERROR
  }

  lemma ResponseBySeverity(s: Severity)
    ensures !Response(Ordinal(s)) <==> s == Error
  {
  }

  /**
   * `_toArray`: nothing for null or undefined, otherwise the arguments in
   * the same order.
   */
  function ToArray(args: Option<seq<string>>): (r: seq<string>)
    ensures args.None? ==> r == []
    ensures args.Some? ==> |r| == |args.value| && forall i :: 0 <= i < |r| ==> r[i] == args.value[i]
  {
    match args
    case None => []
    case Some(a) => a[..]
  }

  /**
   * The message of `_prepareMessage`: the arguments joined with newlines.
   * The defects of that function are not reproduced: the extra
   * `_createLog(message)` insert before the message exists (line 140), the
   * read of `this.options.type` when no options record was found, which
   * throws (line 142), and the evaluation of the undeclared `LogId`, which
   * throws a ReferenceError (line 143).
   */
  function PrepareMessage(rawArgs: Option<seq<string>>): (message: string)
    ensures ToArray(rawArgs) == [] ==> message == ""
    ensures |ToArray(rawArgs)| == 1 ==> message == ToArray(rawArgs)[0]
  {
    Join(ToArray(rawArgs), '\n')
  }

  /** The examples the message format promises. */
  lemma MessageExamples()
    ensures PrepareMessage(None) == ""
    ensures PrepareMessage(Some([])) == ""
    ensures PrepareMessage(Some(["a"])) == "a"
    ensures PrepareMessage(Some(["a", "b"])) == "a\nb"
  {
  }

  /**
   * Every argument is one line of the message: splitting the message at
   * newlines gives the arguments back, when none of them holds a newline.
   */
  lemma {:induction false} MessageLines(args: seq<string>)
    requires args != []
    requires FreeOf(args, '\n')
    ensures Split(PrepareMessage(Some(args)), '\n') == args
  {
    assert ToArray(Some(args)) == args;
    SplitJoin(args, '\n');
  }

  /**
   * `bundle_id.split('-')[0]`: the part of a bundle identifier before its
   * first dash, or all of it when it has none.
   */
  function BundleKey(bundleId: string): (key: string)
    ensures key <= bundleId
    ensures '-' !in key
    ensures |key| < |bundleId| ==> bundleId[|key|] == '-'
  {
    FirstSegment(bundleId, '-');
    Split(bundleId, '-')[0]
  }

  /** The transaction snapshot the logger captures when it is created. */
  datatype Transaction = Transaction(bundleId: string, activeUser: string)

  /**
   * A persisted log record. `record` is the associated record, which no
   * code path sets, so it is always absent; `timestamp` is the clock
   * reading in milliseconds at insertion.
   */
  datatype LogRecord = LogRecord(
    level: Severity,
    record: Option<string>,
    source: Option<string>,
    message: string,
    timestamp: int,
    user: string)

  /**
   * What one leveled call adds to the store: nothing when the threshold
   * suppresses it, otherwise exactly one record with the requested
   * severity, the joined message, the source and the transaction's user.
   */
  function Emitted(t: Threshold, source: Option<string>, user: string,
                   s: Severity, rawArgs: Option<seq<string>>, now: int): (records: seq<LogRecord>)
    ensures Suppressed(t, s) <==> records == []
    ensures |records| <= 1
    ensures forall r :: r in records ==>
      r.level == s && r.record.None? && r.source == source &&
      r.message == PrepareMessage(rawArgs) && r.timestamp == now && r.user == user
  {
    if Suppressed(t, s) then []
    else [LogRecord(s, None, source, PrepareMessage(rawArgs), now, user)]
  }

  /** Every stored record's severity passes the threshold in force. */
  lemma EmittedPass(t: Threshold, source: Option<string>, user: string,
                    s: Severity, rawArgs: Option<seq<string>>, now: int)
    ensures forall r :: r in Emitted(t, source, user, s, rawArgs, now) ==> !Suppressed(t, r.level)
    ensures t.Num? ==> forall r :: r in Emitted(t, source, user, s, rawArgs, now) ==> Ordinal(r.level) <= t.n
  {
  }

  /**
   * The logger. `store` stands for the log table the records are inserted
   * into; `transaction` is the snapshot taken at construction.
   */
  class Log {
    const transaction: Transaction
    var source: Option<string>
    var level: Threshold
    var store: seq<LogRecord>

    /**
     * `initialize`: the source is the name of the bundle whose key is the
     * first segment of the transaction's bundle identifier, or absent when
     * `bundles` has no such key; the threshold is the `level` option as
     * given (NotANumber when it is missing). The source reads it from an
     * undeclared `options` (modules/Log.js:27), which throws as written;
     * here it is a parameter.
     */
    constructor (transaction: Transaction, bundles: map<string, string>,
                 level: Threshold, store: seq<LogRecord>)
      ensures this.transaction == transaction
      ensures BundleKey(transaction.bundleId) in bundles ==>
        source == Some(bundles[BundleKey(transaction.bundleId)])
      ensures BundleKey(transaction.bundleId) !in bundles ==> source == None
      ensures this.level == level
      ensures this.store == store
    {
      this.transaction := transaction;
      var key := BundleKey(transaction.bundleId);
      source := if key in bundles then Some(bundles[key]) else None;
      this.level := level;
      this.store := store;
    }

    /** Replaces the source; the threshold and the store stay as they were. */
    method SetSource(source: Option<string>)
      modifies this`source
      ensures this.source == source
      ensures level == old(level) && store == old(store)
    {
      this.source := source;
    }

    /** Replaces the threshold; the source and the store stay as they were. */
    method SetLevel(level: Threshold)
      modifies this`level
      ensures this.level == level
      ensures source == old(source) && store == old(store)
    {
      this.level := level;
    }

    /**
     * `_createLog`: inserts one record built from the severity, the
     * message, the source, the clock reading `now` and the active user,
     * and returns its identifier (its position in the store).
     */
    method CreateLog(level: Severity, message: string, now: int) returns (id: nat)
      modifies this`store
      ensures store == old(store) + [LogRecord(level, None, source, message, now, transaction.activeUser)]
      ensures id == |old(store)| && store[id].message == message
    {
      id := |store|;
      store := store + [LogRecord(level, None, source, message, now, transaction.activeUser)];
    }

    /**
     * `_log`: a suppressed request leaves the store alone, any other
     * appends the one record of `Emitted`; the answer is the response of
     * the requested severity either way.
     */
    method LogAt(level: Severity, rawArgs: Option<seq<string>>, now: int) returns (ok: bool)
      modifies this`store
      ensures ok <==> level != Severity.Error
      ensures store == old(store) + Emitted(this.level, source, transaction.activeUser, level, rawArgs, now)
    {
      if Suppressed(this.level, level) {
        return Response(Ordinal(level));
      }
      var message := PrepareMessage(rawArgs);
      var _ := CreateLog(level, message, now);
      return Response(Ordinal(level));
    }

    /** `info(...)`: logs at INFO and always answers true. */
    method Info(args: seq<string>, now: int) returns (ok: bool)
      modifies this`store
      ensures ok
      ensures store == old(store) + Emitted(level, source, transaction.activeUser, Severity.Info, Some(args), now)
    {
      ok := LogAt(Severity.Info, Some(args), now);
    }

    /** `error(...)`: logs at ERROR and always answers false. */
    method Error(args: seq<string>, now: int) returns (ok: bool)
      modifies this`store
      ensures !ok
      ensures store == old(store) + Emitted(level, source, transaction.activeUser, Severity.Error, Some(args), now)
    {
      ok := LogAt(Severity.Error, Some(args), now);
    }

    /** `debug(...)`: logs at DEBUG and always answers true. */
    method Debug(args: seq<string>, now: int) returns (ok: bool)
      modifies this`store
      ensures ok
      ensures store == old(store) + Emitted(level, source, transaction.activeUser, Severity.Debug, Some(args), now)
    {
      ok := LogAt(Severity.Debug, Some(args), now);
    }

    /** `warning(...)`: logs at WARNING and always answers true. */
    method Warning(args: seq<string>, now: int) returns (ok: bool)
      modifies this`store
      ensures ok
      ensures store == old(store) + Emitted(level, source, transaction.activeUser, Severity.Warning, Some(args), now)
    {
      ok := LogAt(Severity.Warning, Some(args), now);
    }
  }

  /**
   * A caller's view: after `SetLevel(Num(ERROR))` a warning is not stored
   * and still answers true, and an error is stored and answers false.
   */
  method ErrorOnlyClient(log: Log, now: int)
    modifies log
  {
    log.SetLevel(Num(ERROR));
    var before := log.store;
    var ok := log.Warning(["x"], now);
    assert ok && log.store == before;
    ok := log.Error(["a", "b"], now);
    assert !ok && |log.store| == |before| + 1;
    assert log.store[|before|].level == Severity.Error && log.store[|before|].message == "a\nb";
  }
}
