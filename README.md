# extcpp logging — a Dafny model

This project models the core of the `ext::logging` library:

- the per-statement `logger`: its constructor builds the message prefix, the caller appends the body, and the destructor writes the line to the configured stream and ends the process for a fatal statement;
- the built-in topics and the process-wide configuration defaults;
- the two call-site guards (`_EXT_LOG_INTERNAL`, checked at run time against the topic's current activation level, and `_EXT_LOG_INTERNAL_CONST`, checked against a compiled-in floor);
- the argument defaulting of `EXT_LOGVARIABLE1-4` and `EXT_LOGCONST1-4`, and the `EXT_DEV*` shortcuts.

The modules follow the program's structure.

- `Levels` (levels.dfy) holds the severities, their display names and the activation test.
- `Format` (format.dfy) gives the layout of a line as pure functions. It also renders the line number in decimal and proves that rendering lossless.
- `Logging` (logging.dfy) holds the imperative part as classes:
  - `Topic`, whose activation level is mutable;
  - `Registry`, the four built-in topics;
  - `Sink`, the output stream;
  - `Configuration`, the flags and the stream;
  - `Logger`, with a buffer, `Append`, `Write` and the destructor `Finish`.
- `Gate` (gate.dfy) completes the arguments with defaults and runs a statement through either guard.
- `Scenarios` (scenarios.dfy) replays the library's test cases on the model. Each test's expected sink content or predicate answers is a postcondition. The expected text is written the way the test writes it: the literal pieces and the line number.

A fatal statement ends the process inside `write()` while the write lock is still held (src/logging.cpp:85-94). After the write a logger is `Written`, `Terminated` (fatal) or `Dropped` (the stream raised).

## Model

| member | source | states |
|---|---|---|
| Levels.LevelName | tests/logging.cpp:222-231 | the name is "unknown" exactly for values that are not one of the six ranks; otherwise it is one of the six lowercase names |
| Levels.LevelNameIdentifiesRank | tests/logging.cpp:222-231 | two named levels have the same name only if they are the same level |
| Levels.RanksStrictlyOrdered | include/ext/logging.hpp:6-8 | fatal (0) < error < warn < info < debug < trace (100) |
| Levels.ActiveMonotone | include/ext/logging.hpp:10-13 | a more severe level passes whenever a less severe one does, and raising the activation level never deactivates a level |
| Levels.ActiveExtremes | include/ext/logging.hpp:6-13 | against any named activation level fatal passes; trace passes only at trace |
| Levels.Active | include/ext/logging.hpp:10-13 | a level is active against an activation level when the activation level is greater than or equal to it |
| Format.NatToDecimal | src/logging.cpp:72-74 | the rendering of the line number is a non-empty digit string without a leading zero, one digit exactly below 10 |
| Format.DecimalRoundTrip | src/logging.cpp:72-74 | reading the decimal rendering back gives the number |
| Format.IntToDecimal | src/logging.cpp:42-42 | a signed `int` line number renders with a leading '-' exactly when it is negative, followed by digits |
| Format.SignedRoundTrip | src/logging.cpp:72-74 | reading the signed rendering back gives the number |
| Format.Prefix | src/logging.cpp:45-81 | the text the constructor leaves in the buffer: optional newline, "[" id "] " level name, topic tag for a non-default topic, " " file ":" line with show_filename, " in " function "()" with show_function, then ": '" |
| Format.Line | src/logging.cpp:87-90 | the text the write sends: the buffer, "'", and "\n" when append_newline is set |
| Format.PlainPrefix | tests/logging.cpp:98-104 | with every flag off and the default topic the prefix is "[" id "] " level name ": '" |
| Format.PrefixNewlineOnlyPrepends | src/logging.cpp:45-47 | prefix_newline adds exactly one leading "\n" and changes nothing else |
| Format.HeaderFirst | src/logging.cpp:61-63 | after the optional newline the prefix starts with "[" id "] " and the level name |
| Format.TopicAnnotation | src/logging.cpp:66-68 | " (" name ")" follows the level name exactly for a non-default topic; the default topic's name never appears |
| Format.FilenameAnnotation | src/logging.cpp:71-75 | " " file ":" line appears exactly with show_filename, after the topic and before the function tag and ": '" |
| Format.FunctionAnnotation | src/logging.cpp:78-81 | " in " function "()" appears exactly with show_function, right before ": '" |
| Format.PrefixEndsWithOpening | src/logging.cpp:81-81 | every prefix ends with ": '" |
| Format.LeadingNewline | src/logging.cpp:45-47 | the emitted line starts with "\n" exactly when prefix_newline is set |
| Format.ClosingQuote | src/logging.cpp:87-90 | the line ends with "'\n" with append_newline and with "'" without; it ends in a newline exactly with append_newline |
| Format.ConcatAppend | tests/logging.cpp:80-81 | appending one more body piece extends the body by exactly that piece |
| Format.ConcatSplit | tests/logging.cpp:80-81 | every body piece appears verbatim, after the pieces appended before it and before those appended after it |
| Format.PieceAt | tests/logging.cpp:80-81 | each body piece sits in the body at the offset given by the pieces before it |
| Format.BodyBetweenQuotes | src/logging.cpp:81-87 | in the written line the prefix comes first, the body follows unchanged, then the closing quote |
| Logging.Topic.constructor | src/logging.cpp:20-26 | a topic keeps the id, name and activation level it is created with |
| Logging.Registry.constructor | src/logging.cpp:20-26 | the built-in topics have ids 1-4 and names default, development, network, engine, with levels warn, debug, warn, warn |
| Logging.Registry.Resolve | include/ext/logging.hpp:41-41 | a topic name at the call site (pasted as `ext::logging::topic::topic_`, also line 76) resolves to a registered topic, and to the one with the default topic's id, which src/logging.cpp:66 tests, exactly for `no_topic` |
| Logging.Registry.SetLevelAll | tests/logging.cpp:201-206 | every registered topic's activation level becomes the given level |
| Logging.Sink.Put | src/logging.cpp:87-91 | a stream either appends the text to its content or raises and leaves its content unchanged |
| Logging.Configuration.constructor | src/logging.cpp:28-36 | the defaults are prefix_newline off, append_newline on, filename on and function on, and the stream is the given one |
| Logging.Logger.constructor | src/logging.cpp:41-82 | the buffer holds exactly the prefix for the statement's id, topic, level, shortened file, line and function under the flags in force |
| Logging.Logger.Append | tests/logging.cpp:80-80 | the body piece is appended to the buffer, and the buffer stays the prefix followed by the pieces in order |
| Logging.Logger.Write | src/logging.cpp:84-96 | the stream's old content is kept and grows by exactly buffer, "'" and an optional "\n"; the state is terminated exactly for a fatal level whose line was written; a raising stream gets nothing and is reported |
| Logging.Logger.Finish | src/logging.cpp:98-103 | the destructor writes as above and reports nothing to its caller, whether or not the stream raised |
| Gate.Expand | include/ext/logging.hpp:43-46 | a missing topic becomes no_topic, a missing level the default level, a missing condition true; given arguments pass through |
| Gate.ExpandAsFourArguments | include/ext/logging.hpp:78-81 | each shorter form equals the four-argument form with the defaults written out |
| Gate.DevCall | include/ext/logging.hpp:62-63 | the dev shortcuts use topic dev and the default level, id "$$$$" through the runtime guard and "@@@@" through the constant guard (lines 94-95) |
| Gate.VariableLevelIsActive | include/ext/logging.hpp:37-37 | the runtime check: the level is active against the topic's current activation level (tests/logging.cpp:187-193, 215-220) |
| Gate.ConstexprLevelIsActive | include/ext/logging.hpp:72-72 | the constant check: the level is active against the compiled-in floor, whatever the topics' levels (tests/logging.cpp:195-212) |
| Gate.GuardAsWritten | include/ext/logging.hpp:36-37 | the guard as the macro pastes a condition `left \|\| right`: `(active && left) \|\| right` (also lines 71-72) |
| Gate.Guard | include/ext/logging.hpp:36-37 | a statement passes the guard only when its level is active, and then exactly when its condition holds |
| Gate.GuardNeedsLevel | include/ext/logging.hpp:36-37 | with the condition parenthesized, no disjunctive condition lets an inactive level through |
| Gate.GuardAsWrittenIgnoresLevel | include/ext/logging.hpp:36-37 | as the macro pastes it, a condition `false \|\| true` lets an inactive info statement through |
| Gate.Emit | include/ext/logging.hpp:37-38 | a statement that is let through writes exactly its rendered line to a working stream and ends the process exactly when it is fatal; a raising stream is left unchanged |
| Gate.LogVariable | include/ext/logging.hpp:36-38 | the condition is evaluated exactly when the level is active for the topic's current level; a line is written exactly when both hold, and otherwise the stream is unchanged |
| Gate.LogConst | include/ext/logging.hpp:71-73 | a line is written exactly when the level passes the compiled-in floor and the condition holds; no topic's level is read |
| Gate.ActiveAfterSetLevelAll | tests/logging.cpp:201-206 | after every topic is set to x, the runtime check on any topic accepts exactly the levels at most x |
| Gate.GatesAgreeAtFloor | tests/logging.cpp:189-199 | on a topic at the compiled-in floor the two checks give the same answer for every level |
| Gate.GatesDisagreeBelowFloor | tests/logging.cpp:201-212 | below a topic lowered under the floor, a level between the two passes the constant check but not the runtime check |
| Scenarios.FinalSegment | tests/logging.cpp:40-41 | the stand-in for the file-name helper returns no more than the path |
| Scenarios.FinalSegmentAfterSlash | tests/logging.cpp:40-41 | the stand-in returns the text after the last '/' |
| Scenarios.TestFileShortName | tests/logging.cpp:56-57 | the test file's path shortens to "logging.cpp" |
| Logging.Sink.constructor | tests/logging.cpp:49-49 | a new stream (the fixture's `std::stringstream _log`) is empty and working |
| Scenarios.Fixture | tests/logging.cpp:19-32 | the fixture starts from an empty working stream, the default flags and every topic at warn |
| Scenarios.LoggingDev | tests/logging.cpp:54-58 | on the constant gate, the sink holds exactly `[@@@@] warning (development) logging.cpp:56 in TestBody(): 'development'\n` |
| Scenarios.LoggingDevIfStatic | tests/logging.cpp:60-64 | on the constant gate, the sink holds exactly `[@@@@] warning (development) logging.cpp:62 in TestBody(): 'development'\n` |
| Scenarios.LoggingDevVariable | tests/logging.cpp:66-70 | on the runtime gate, the sink holds exactly `[$$$$] warning (development) logging.cpp:68 in TestBody(): 'development'\n` |
| Scenarios.LoggingDevIf | tests/logging.cpp:72-76 | on the runtime gate, the sink holds exactly `[$$$$] warning (development) logging.cpp:74 in TestBody(): 'development'\n` |
| Scenarios.LoggingDefault | tests/logging.cpp:78-82 | on the runtime gate, the sink holds exactly `[badcafe] warning logging.cpp:80 in TestBody(): '2 Cafe NOHA'\n` |
| Scenarios.LoggingNoFilename | tests/logging.cpp:84-89 | on the runtime gate, the sink holds exactly `[badcafe] warning in TestBody(): '2 Cafe NOHA'\n` |
| Scenarios.LoggingNoFunction | tests/logging.cpp:91-96 | on the runtime gate, the sink holds exactly `[badcafe] warning logging.cpp:94: '2 Cafe NOHA'\n` |
| Scenarios.LoggingNoFileNoFunction | tests/logging.cpp:98-104 | on the runtime gate, the sink holds exactly `[badcafe] warning: '2 Cafe NOHA'\n` |
| Scenarios.LoggingIdLevel | tests/logging.cpp:106-110 | on the runtime gate, the sink holds exactly `[log-id] error logging.cpp:108 in TestBody(): 'Where is Pierre?'\n` |
| Scenarios.LoggingIdTopicLevel | tests/logging.cpp:112-116 | on the runtime gate, the sink holds exactly `[log-id] error (network) logging.cpp:114 in TestBody(): 'Where is Pierre?'\n` |
| Scenarios.LoggingConditionTrue | tests/logging.cpp:118-122 | on the runtime gate, the sink holds exactly `[log-id] error (network) logging.cpp:120 in TestBody(): 'Where is Pierre?'\n` |
| Scenarios.LoggingStaticConditionTrue | tests/logging.cpp:124-128 | on the constant gate, the sink holds exactly `[log-id] error (network) logging.cpp:126 in TestBody(): 'Where is Pierre?'\n` |
| Scenarios.LoggingGdbVim | tests/logging.cpp:149-166 | on the runtime gate, the sink holds exactly `[babe] warning logging.cpp:157 in TestBody(): 'cafe?'\n` |
| Scenarios.LoggingFatal | tests/logging.cpp:178-185 | on the runtime gate, the sink holds exactly `[work] fatal (network) logging.cpp:183 in TestBody(): 'What?!?! No Cafe!?!?!? :('\n` and the process ends |
| Scenarios.LoggingPrependNewline | tests/logging.cpp:168-176 | on the runtime gate, the sink holds exactly `\n[babe] warning logging.cpp:174 in TestBody(): '2cafe?'` |
| Scenarios.LoggingConditionFalse | tests/logging.cpp:130-134 | a false condition is evaluated and nothing is written |
| Scenarios.LoggingLevelTooLow1 | tests/logging.cpp:136-140 | an info statement on a warn topic writes nothing and its condition is not evaluated |
| Scenarios.LoggingLevelTooLow2 | tests/logging.cpp:142-147 | after network is lowered to error, a warn statement on network writes nothing |
| Scenarios.ChangeAllLevels | tests/logging.cpp:187-213 | the runtime check gives error and warn active, info and trace not; after set_level_all(error) only error. The constant check stays at error and warn throughout |
| Scenarios.ChangeSingleLevel | tests/logging.cpp:215-220 | info is inactive for network until network is raised to info |
| Scenarios.LevelsToString | tests/logging.cpp:222-231 | the six names, and "unknown" for 1337 |

## Left out

- The write lock (`logmutex`, `lock_guard`, src/logging.cpp:13, 85) and every other concurrency concern. A write is one atomic append to the stream.
- Process termination (`std::terminate`, src/logging.cpp:94) is the logger state `Terminated`. Nothing runs after it in the scenarios that check it, but the model does not stop the caller.
- The static-initialisation priorities and the `topics_map` registration (src/logging.cpp:11-19). The registry is built by a constructor with the four topics. The registration code (`logtopic`) is in ext/logging/functionality.hpp, which is not part of this model.
- The functions `level_to_str`, `variable_level_is_active`, `constexpr_level_is_active`, `set_level_all` and the logger's `operator<<` live in ext/logging/functionality.hpp, which is not part of this model. Their behaviour is taken from the tests.
- Levels: the numeric values of error, warn, info and debug (20, 40, 60, 80) are assumed. Only fatal = 0 and trace = 100 are stated in the header, and the model's claims depend only on their order.
- The default level `Gate.DefaultLevel` is fixed at warn, the value the tests give `EXT_LOGGING_DEFAULT_LEVEL` (tests/logging.cpp:13); the library's own default is in a header that is not part of this model.
- Gate.LogVariable / Gate.LogConst: the condition is one value, so a condition whose text binds looser than `&&` is modelled only by Gate.GuardAsWritten.
- Gate.LogConst: the compiled-in floor is taken to be the default level (warn, as the tests compile it). The floor's definition is not part of this model.
- `ext::util::filename` (src/logging.cpp:56, 73) is not part of this model. It is a function parameter `shorten`. The scenarios use a stand-in that keeps the text after the last '/'.
- The vim/gdb lines under `EXT_LOGGING_ENABLE_VIM_GDB` (src/logging.cpp:49-58) are compiled out by default and are not modelled.
- The preprocessor mechanics (the arity-counting macro and the MSVC `_EXT_LOG_EXPAND` workaround) are not modelled. The defaulting is the function `Gate.Expand` over an argument record.
- Body values are strings. Formatting of other types by `operator<<` is not modelled, nor is the evaluation of body expressions (a statement that is not let through never evaluates them, which the model reflects only by not writing).
- A stream either accepts a whole write or raises before writing anything. A partial write, `std::flush` and the stream's error bits are not modelled. A raise skips the termination, as an exception out of `write()` would.
- The line number is an unbounded integer. The source's `int` range is not modelled, and nothing in the model depends on it.
- The `if constexpr` requirement that the constant guard's condition be a compile-time constant is not modelled. The condition is an ordinary boolean.

## Findings

| source | as written | input that shows it | evidently intended | confidence | as-written member | corrected member |
|---|---|---|---|---|---|---|
| include/ext/logging.hpp:36-37 | the condition argument is pasted after `&&` without parentheses (also at lines 71-72) | `EXT_LOG("id", no_topic, info, false \|\| true)` with every topic at warn: the guard reads `(active && false) \|\| true` and the statement is logged | `active && (cond)`: no condition lets a filtered level through | high (not executed) | Gate.GuardAsWrittenIgnoresLevel | Gate.GuardNeedsLevel |
