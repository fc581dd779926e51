# loggy: a verified model of the level filter and dispatch

This project models the core of the `loggy` logging crate (`src/lib.rs`):
the three severity levels `Error`, `Warn`, `Info` with their derived order
and fixed tags, and the `Logger`, whose single mutable threshold decides
which messages are printed. A message is printed when its level is at most
the threshold in declaration order (`Error < Warn < Info`). A printed line
reads `[timestamp] TAG message` and goes to stderr for `Error` and to
stdout otherwise.

Modules:

- `Wrappers` (`wrappers.dfy`): `Option`.
- `Levels` (`levels.dfy`): `LogLevel`, its rank and order, the tags and
  their inverse.
- `Logging` (`logger.dfy`): line formatting and its inverse, stream
  routing, the pure `Dispatch` rule, and the `Logger` class with its
  `logLevel` field and methods. Printing is replaced by returning
  `Option<(Stream, string)>`; the clock reading is a `timestamp`
  parameter.
- `Sessions` (`sessions.dfy`): a program's sequence of calls on one
  logger (threshold changes interleaved with log calls) and what the
  whole sequence prints.

`src/lib.rs` declares exactly three levels and no `Debug` level or
`debug` method; `src/macros.rs` defines a `debug!` macro that calls such a
method, but nothing gives it an order. The model has the three declared
levels.

## Model

| member | source | states |
|---|---|---|
| Levels.Rank | src/lib.rs:63-68 | the declaration position of a level: below 3, 0 exactly for Error and 2 exactly for Info, so Error < Warn < Info |
| Levels.Le | src/lib.rs:63-68 | the derived comparison `a <= b` used by the filter, written case by case; it holds iff a is declared no later than b (Error < Warn < Info) |
| Levels.LeIsTotalOrder | src/lib.rs:63-68 | the derived comparison is reflexive, antisymmetric, transitive and total |
| Levels.Tag | src/lib.rs:71-77 | every tag is six characters, opening with `[` and closing with `]` |
| Levels.LevelOfTag | src/lib.rs:71-77 | a string read back as a level is exactly that level's tag |
| Levels.TagRoundTrip | src/lib.rs:71-77 | each tag reads back as its own level, so the three tags are distinct |
| Logging.FormatLine | src/lib.rs:119-124 | the line is `[`, the timestamp, `] `, the tag, a space and the message, in those positions, 10 characters longer than timestamp and message |
| Logging.ParseLine | src/lib.rs:119-124 | a parsed line yields a timestamp of the requested width |
| Logging.ParseFormat | src/lib.rs:119-124 | every formatted line parses back into its timestamp, level and message |
| Logging.FormatParse | src/lib.rs:119-124 | every line that parses is exactly the formatted line of its parts, so formatting and parsing are inverse |
| Logging.StreamOf | src/lib.rs:125-129 | the stream is stderr iff the level is Error, stdout otherwise |
| Logging.Dispatch | src/lib.rs:117-131 | output exists iff the level's rank is at most the threshold's; when it exists it is on stderr iff the level is Error, and its line parses back to the call's timestamp, level and message |
| Logging.ErrorAlwaysEmitted | src/lib.rs:106-109 | an Error message is printed on stderr whatever the threshold |
| Logging.DefaultEmitsAll | src/lib.rs:106-109 | under threshold Info every level is printed on its stream |
| Logging.RestrictiveThresholds | src/lib.rs:106-109 | under threshold Error only Error is printed; under Warn everything but Info is printed |
| Logging.DispatchMonotonic | src/lib.rs:106-109 | a message printed under a threshold is printed identically under any higher threshold |
| Logging.Logger.constructor | src/lib.rs:89-93 | a new logger has threshold Info and lets every level through |
| Logging.Logger.SetLogLevel | src/lib.rs:101-104 | the threshold afterwards is the given level, so repeating the call changes nothing |
| Logging.Logger.ShouldLog | src/lib.rs:106-109 | the filter holds iff the level's rank is at most the threshold's rank; it only reads the threshold |
| Logging.Logger.Log | src/lib.rs:117-131 | prints iff the filter holds, and what it prints is the dispatch of the current threshold; the threshold is unchanged |
| Logging.Logger.LogInfo | src/lib.rs:139-141 | behaves as log at Info: a stdout line exactly when the threshold is Info |
| Logging.Logger.LogWarn | src/lib.rs:149-151 | behaves as log at Warn: a stdout line exactly when the threshold is not Error |
| Logging.Logger.LogError | src/lib.rs:159-161 | behaves as log at Error: always a stderr line |
| Logging.Scenarios | src/lib.rs:88-162 | on one logger: at the default all three levels print; after setting Warn, Info is dropped; after setting Error, only Error prints |
| Sessions.Run | src/lib.rs:101-131 | a sequence of `set_log_level` and `log` calls run in order on one logger: each set replaces the threshold, each log prints the dispatch under the current threshold; at most one line per call, and without set calls the threshold is unchanged |
| Sessions.RunAppend | src/lib.rs:101-131 | running two call sequences in turn equals running their concatenation, carrying the threshold across |
| Sessions.SetLevelIdempotent | src/lib.rs:101-104 | two consecutive identical threshold changes anywhere in a program have the effect of one |
| Sessions.RunEndsAtLastSet | src/lib.rs:101-104 | after any sequence of calls the threshold is the last level set, or the initial one when none was set |
| Sessions.StderrIsExactlyErrors | src/lib.rs:117-131 | stderr receives, in order, exactly the lines of the Error calls, however the threshold changes |
| Sessions.DefaultPrintsEveryCall | src/lib.rs:89-93 | a logger left at its default prints every log call, in order: the i-th line is the i-th call's formatted line on its level's stream |
| Sessions.RunSingle | src/lib.rs:101-131 | a single set call replaces the threshold and prints nothing; a single log call keeps the threshold and prints its dispatch |
| Sessions.RunStep | src/lib.rs:101-131 | one more call after a run changes the final threshold and appends the output exactly as that single call would |
| Sessions.Replay | src/lib.rs:101-131 | replaying calls on a `Logger` object with its own methods leaves it at the threshold `Run` predicts and prints exactly what `Run` predicts |

## Left out

- The `Mutex` around the threshold and the `lazy_static` global `LOGGER`: they make the logger shareable between threads; the model is a sequential object, so concurrent interleavings are not modelled.
- The clock (`chrono::Local::now()` and its `%Y-%m-%d %H:%M:%S` format): the timestamp is an opaque string parameter.
- `LogLevel::color` and all ANSI colouring from the `colored` crate: presentation only, from a library outside this model; the tag is plain text.
- `println!` / `eprintln!`: the I/O is replaced by returning the stream and the line; write failures are not modelled.
- The `info!`, `warn!`, `error!` macros and `src/macros.rs`: pure text substitution onto the methods modelled here; the `debug!` macro calls a method and level that `src/lib.rs` does not define.
- `src/main.rs`: an example program, which imports free functions that `src/lib.rs` does not define.
