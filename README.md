# Leveled logger (DS-Logs `Log`)

A Dafny model of the `Log` class of modules/Log.js. The logger belongs to a
transactional platform. It keeps three things:

- a severity threshold;
- a source, which is the name of the bundle the transaction runs in;
- a log store, which receives one record per accepted message.

There are four public leveled calls: `info`, `error`, `debug` and `warning`.
Each one passes its severity to `_log`. `_log` compares the threshold with the
severity (ERROR=1, WARNING=2, INFO=3, DEBUG=4). When `threshold < severity`, it
stores nothing. In the intended behaviour, it otherwise joins the arguments
with newlines and inserts one record. Every call answers `false` for ERROR and
`true` for the other three, whether or not the message was stored. The code as
written departs from this; see the defects under "## Left out".

Files:

- `text.dfy` (module `Text`): `join` and `split` on a one-character
  separator, with the round trip between them and the first-segment property
  that `split('-')[0]` relies on.
- `logging.dfy` (module `Logging`): the severities and the threshold filter,
  the return value, message preparation, the record that one call emits, and
  the class `Log`. `Log` has the fields `source`, `level` and `store`, and
  its methods are proved against `Emitted`.

Modelling choices:

- The threshold is `Threshold = NotANumber | Num(n)`. This is the value of
  `this.level * 1`. `NotANumber` stands for a value whose numeric coercion
  is NaN: undefined, or a non-blank string that is not a number. Every
  comparison with NaN is false, so such a threshold suppresses nothing.
- The doc comment at modules/Log.js:18 says the level defaults to INFO. No
  code does that. The model follows the code: a missing level logs everything.
- The log table is the field `store: seq<LogRecord>`. The id that `insert()`
  returns is the new record's position in the store.
- The clock (`new Date().getTime()`) is the parameter `now`.
- The ambient transaction is a `Transaction` value passed to the constructor.
- The bundle table is a map from bundle key to bundle name, passed to the
  constructor.
- Arguments are strings. `arguments` is `Option<seq<string>>`, where `None`
  is null or undefined.

## Model

| member | source | states |
|---|---|---|
| Logging.Ordinal | modules/Log.js:7-12 | each severity stands for one of the constants ERROR=1 … DEBUG=4 |
| Logging.FromOrdinal | modules/Log.js:97-99 | the reverse lookup from a number to a severity name succeeds exactly for 1..4 |
| Logging.OrdinalRoundTrip | modules/Log.js:7-12 | the four constants are distinct: the lookup from a severity's number gives that severity back, and a found severity has the number looked up |
| Logging.Suppressed | modules/Log.js:88 | decides whether a request is dropped (`threshold < level`): a NaN threshold drops nothing, a threshold of 4 or more drops nothing, one below 1 drops everything, and an error is dropped only below 1 |
| Logging.Response | modules/Log.js:187-189 | the answer of a leveled call is false exactly when the level is the ERROR constant |
| Logging.PassesMoreSevere | modules/Log.js:88 | filtering is monotonic: if a severity passes the threshold, every more severe one passes too |
| Logging.ThresholdExtremes | modules/Log.js:88 | with threshold 1 only ERROR passes; with 4 all pass; a NaN threshold lets all pass |
| Logging.ResponseBySeverity | modules/Log.js:187-189 | `_response` is false exactly for ERROR, true for WARNING, INFO and DEBUG |
| Logging.ToArray | modules/Log.js:150-153 | null/undefined arguments give an empty list; otherwise the same arguments, same length, same order |
| Logging.PrepareMessage | modules/Log.js:137-148 | no arguments give "", one argument gives that argument |
| Logging.MessageExamples | modules/Log.js:147 | the message for (), ("a") and ("a","b") is "", "a" and "a\nb" |
| Logging.MessageLines | modules/Log.js:132-147 | each argument is its own line: splitting the message at newlines gives back the arguments, if none holds a newline |
| Text.Join | modules/Log.js:147 | the joined string is as long as all the parts plus one separator between each two |
| Text.Split | modules/Log.js:115 | split gives at least one segment, and no segment contains the separator |
| Text.SplitJoin | modules/Log.js:147 | split undoes join, for non-empty lists of separator-free parts |
| Text.JoinSplit | modules/Log.js:115 | join undoes split: the segments, joined with the separator, are exactly the original string |
| Text.FirstSegment | modules/Log.js:115 | the first segment of a split is the longest separator-free prefix |
| Logging.BundleKey | modules/Log.js:115 | the bundle key is a dash-free prefix of the bundle id, ending at the end or just before the first dash |
| Logging.Emitted | modules/Log.js:84-106 | a call is suppressed exactly when it adds no record; otherwise it adds exactly one record, with the requested level, the joined message, the source, the clock reading and the active user |
| Logging.EmittedPass | modules/Log.js:88-103 | every record a call adds passes the threshold in force (for a numeric threshold, its severity number is at most the threshold) |
| Logging.Log.constructor | modules/Log.js:22-28 | the source is the bundle name for the transaction's bundle key, or absent if there is none; the threshold is the given option; the store is as given |
| Logging.Log.SetSource | modules/Log.js:36-38 | stores the source; the threshold and the store are unchanged |
| Logging.Log.SetLevel | modules/Log.js:46-48 | stores the threshold; the source and the store are unchanged |
| Logging.Log.CreateLog | modules/Log.js:170-179 | appends exactly one record built from the level, the message, the source, the clock and the active user; returns its id |
| Logging.Log.LogAt | modules/Log.js:84-106 | the store grows by exactly `Emitted` (unchanged when suppressed, one record otherwise); the answer is false exactly for ERROR on both exits |
| Logging.Log.Info | modules/Log.js:57-59 | logs at INFO through `_log`; always answers true |
| Logging.Log.Error | modules/Log.js:61-63 | logs at ERROR through `_log`; always answers false |
| Logging.Log.Debug | modules/Log.js:65-67 | logs at DEBUG through `_log`; always answers true |
| Logging.Log.Warning | modules/Log.js:69-71 | logs at WARNING through `_log`; always answers true |

## Left out

- Console echoes are left out because they are output only. This covers the
  `backgroundLog` echo (modules/Log.js:95-101), the `options.type !== 1` echo
  (modules/Log.js:142-144) and `test` (modules/Log.js:50-52). Of them, only
  the reverse severity lookup is modelled (`FromOrdinal`).
- `this.utils.getTimestamp()` is a foreign helper that is not part of this
  model.
- The `logs_options` lookup (`_getOptions`, modules/Log.js:122-130) is left
  out. In the intended behaviour its result only gates the console echo. As
  written, a missing options record also makes line 142 throw (see below).
  The bundle lookup (`_getBundleName`, modules/Log.js:113-121) is a query on
  the platform's record API. It is modelled as a map that holds one name
  per key. "First match" among several records is not modelled.
- Four defects in the code are not reproduced. As written, construction
  throws at line 27. Every call that passes the filter inserts a spurious
  record (line 140). Without an options record whose `type === 1`, the call
  then throws, so it never reaches line 103. With such a record, the call
  inserts two records, the spurious one (line 140) and then the real one
  (line 103), and returns `_response(level)`. The model implements the
  intended behaviour: a single insert, then `_response(level)`. The four
  defects:
  - `initialize` reads an undeclared `options` (modules/Log.js:27), which
    throws a ReferenceError. The constructor takes the level option as a
    parameter instead.
  - `_prepareMessage` calls `_createLog(message)` before the message exists
    (modules/Log.js:139-140). That call inserts a second record whose level
    and message are undefined.
  - `_prepareMessage` reads `this.options.type` even when no options record
    was found (modules/Log.js:142). With `this.options` undefined, that read
    throws a TypeError.
  - `_prepareMessage` evaluates the undeclared `LogId` (modules/Log.js:143;
    line 139 declares `LogID`). That throws a ReferenceError, so nothing is
    printed.
- `this.backgroundLog` is never assigned (modules/Log.js:95), so the first
  echo never runs. It is left out with the echoes.
- The `record` field of a log record is always absent, because
  `this.record` is never assigned (modules/Log.js:173).
- Coercion of the threshold is modelled only for integers and NaN.
  - A `null` level, an empty or blank string, and `false` all coerce to 0.
    They are `Num(0)`, which suppresses all four severities.
  - `true` coerces to 1 and is `Num(1)`.
  - Fractional thresholds are not modelled.
- Arguments are modelled only as strings. For non-string arguments, the
  stringification that `join` applies is not modelled.
- A failing insert throws to the caller. Exceptions from the store are not
  modelled.
