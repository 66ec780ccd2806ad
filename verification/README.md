# Number pipeline and logger demo, modelled in Dafny

A Dafny model of the two C++ programs in `Homework_Hillel`:

- `number_pipeline.cpp` is `number_pipeline <FILTER> <FILENAME>`. It builds a filter from the
  token `EVEN`, `ODD` or `GT<int>`. It reads integers from a file and passes each kept
  value to two observers. The print observer writes the value; the count observer counts
  the values and reports the total when the run is over.
- `test.cpp` is a logging demo. It reads a sink name (`console`, `file` or `none`, in any
  letter case) and installs that sink in the `Logger` singleton. It then logs three messages.

Output is modelled as data, not performed:

- Every line a program writes is a `Streams.Line`: standard output, standard error, or the
  `app.log` file. `Streams.Texts` picks out the texts written to one stream, in order.
- `NumberProcessor::run` is modelled as the trace of observer callbacks it makes
  (`Processor.Event`). Observers are named by their registration slot.
- `Observers.Replay` runs a callback trace against the print and count observers.
- The `Logger` is an explicit state: the installed sink kind and the append-only list of
  lines written so far.
- The file system of the pipeline is a parameter. It maps each readable file name to the
  integers read from that file.

Modules, one per component:

- `Wrappers`: `Option`, `Result`.
- `SeqFacts`: associativity of concatenation.
- `Streams`: output lines and their projection onto one stream.
- `Decimal`: digit strings and `operator<<(int)`.
- `Extraction`: `std::istream >> int`.
- `Filters`, `Factory`, `Processor`, `Observers`, `Pipeline`: the number pipeline.
- `Sinks`, `Logging`, `LogDemo`: the logger demo.

The three `keep` overrides are the predicate `Filters.Keep` on the datatype `Filters.Filter`.
C++ `n % 2` truncates toward zero, while Dafny's `%` is Euclidean. `Filters.TruncRem2`
writes the C++ operator out. `Filters.EvenIffDivisible` shows that both agree on
"remainder zero".

The threshold after `GT` is read as `std::istream >> int` reads it in the "C" locale
(ISO C++ [istream.formatted.arithmetic], [facet.num.get.virtuals]):

1. Skip leading white space.
2. Accept an optional `+` or `-`.
3. Require at least one decimal digit, and stop at the first non-digit.
4. Fail if the value does not fit in a 32-bit `int`.

The C++ enumerator `SinkType::NONE` is called `Discard` here, so that it does not clash with
`Option.None`.

An unreadable input file does not stop the run. `read_numbers` prints
`Error: Cannot open file <name>` on standard error and returns no numbers. The run goes on:
the count observer prints a total of 0, and `main` returns 0 (`Pipeline.ReadNumbers`,
`Pipeline.MainOutput`).

## Model

| member | source | states |
|---|---|---|
| Filters.TruncRem2 | number_pipeline.cpp:56 | C++ `n % 2`: the remainder is -1, 0 or 1, n minus it is even, and its sign follows n (so `-3 % 2 == -1`) |
| Filters.EvenIffDivisible | number_pipeline.cpp:55-63 | the even filter keeps n exactly when 2 divides n, and the odd filter exactly when the Euclidean remainder is 1, negative n included |
| Filters.EvenOddExclusive | number_pipeline.cpp:55-63 | every integer is kept by exactly one of the even and odd filters |
| Filters.GreaterThanStrict | number_pipeline.cpp:70-74 | the greater-than filter keeps n exactly when n > t, for all signs, and never keeps t itself |
| Decimal.NatToDigits | number_pipeline.cpp:82 | the decimal form of a natural number is a non-empty digit string with no leading zero |
| Decimal.IntToString | number_pipeline.cpp:82 | `operator<<(int)` writes a minus sign exactly for negative values, then digits only |
| Decimal.DigitsRoundTrip | number_pipeline.cpp:82 | the digit string of n has value n |
| Decimal.IntToStringRoundTrip | number_pipeline.cpp:82 | reading back the printed form of k (sign and digits) gives k |
| Decimal.IntToStringInjective | number_pipeline.cpp:82 | different integers print differently |
| Extraction.SkipSpace | number_pipeline.cpp:111-112 | the stream's sentry drops a prefix made only of white space, and stops at the first character that is not white space |
| Extraction.LeadingDigits | number_pipeline.cpp:111-112 | extraction consumes the longest run of leading decimal digits and stops at the first non-digit |
| Extraction.ExtractInt | number_pipeline.cpp:111-112 | a successful `iss >> threshold` yields a value in the range of a 32-bit int |
| Extraction.Checked | number_pipeline.cpp:111-112 | a value is delivered exactly when it fits in int, and then unchanged; otherwise failbit is set |
| Extraction.ExtractIntRoundTrip | number_pipeline.cpp:111-112 | white space, then the decimal form of any int, then a non-digit, extracts as that int |
| Extraction.ExtractIntPlusSign | number_pipeline.cpp:111-112 | an explicit `+` before the digits is accepted |
| Extraction.ExtractIntTooLarge | number_pipeline.cpp:111-113 | a magnitude above INT_MAX fails, whatever follows it |
| Extraction.ExtractIntTooSmall | number_pipeline.cpp:111-113 | a negative value below INT_MIN fails, whatever follows it |
| Extraction.ExtractIntWithoutDigits | number_pipeline.cpp:111-113 | input without any decimal digit fails |
| Extraction.ExtractIntNeedsDigit | number_pipeline.cpp:111-113 | a successful extraction found a decimal digit right after the white space and the optional sign, and its value is that of the leading digits, negated exactly after a minus |
| Extraction.ExtractIntAccepts | number_pipeline.cpp:111-112 | whenever a digit follows the white space and the optional sign and the signed value of the leading digits fits in int, extraction succeeds, for any spelling ("007", "-0", " +5") and whatever follows |
| Extraction.ExtractIntRejectsNonNumber | number_pipeline.cpp:111-113 | input where no digit follows the white space and the optional sign (a letter, a second sign, a space after the sign, or nothing) fails |
| Factory.CreateFilter | number_pipeline.cpp:104-119 | exactly "EVEN" gives the even filter and exactly "ODD" the odd one; a greater-than filter needs the "GT" prefix and an int threshold; the unknown-filter error happens exactly for tokens that are neither EVEN, ODD nor GT-prefixed |
| Factory.CreateFilterGt | number_pipeline.cpp:109-115 | after the "GT" prefix the factory's answer is exactly the extraction's: a threshold, or the invalid-format error |
| Factory.CreateFilterThreshold | number_pipeline.cpp:109-115 | "GT" followed by the decimal form of any int k, with optional leading white space and trailing non-digits, builds GreaterThan(k) |
| Factory.CreateFilterGtWithoutDigits | number_pipeline.cpp:109-114 | a "GT" token with no digit after the prefix is an invalid-format error |
| Factory.CreateFilterGtNotANumber | number_pipeline.cpp:109-114 | a "GT" token whose remainder does not begin with a number (no digit after white space and an optional sign) is an invalid-format error, whatever follows |
| Factory.CreateFilterGtOverflow | number_pipeline.cpp:111-113 | a "GT" threshold beyond INT_MAX is an invalid-format error |
| Factory.UnknownFilterMessage | number_pipeline.cpp:116-117 | any other token is an error whose message is "Unknown filter: " followed by the token verbatim |
| Factory.FactoryExampleNegative | number_pipeline.cpp:109-115 | "GT-5" builds GreaterThan(-5) |
| Factory.FactoryExampleBare | number_pipeline.cpp:109-114 | "GT" alone is an invalid-format error |
| Factory.FactoryExampleLetters | number_pipeline.cpp:109-114 | "GTabc" is an invalid-format error |
| Factory.FactoryExampleUnknown | number_pipeline.cpp:116-117 | "XYZ" is an unknown-filter error |
| Processor.Filtered | number_pipeline.cpp:136-137 | the kept values are no more than the inputs, and each of them passes the filter |
| Processor.FilteredAppend | number_pipeline.cpp:136-137 | filtering distributes over concatenation, so input order is kept |
| Processor.FilteredCounts | number_pipeline.cpp:136-137 | an accepted value occurs as often as in the input, a rejected one not at all |
| Processor.FanOut | number_pipeline.cpp:138-140 | one kept value goes to slots 0, 1, ..., k-1 in registration order |
| Processor.FinishAll | number_pipeline.cpp:144-146 | the completion signal goes to slots 0, 1, ..., k-1 in registration order |
| Processor.NotifyAll | number_pipeline.cpp:138-140 | the inner observer loop appends exactly the fan-out of the value |
| Processor.FinishObservers | number_pipeline.cpp:144-146 | the final loop appends exactly one `on_finished` per observer, in order |
| Processor.Run | number_pipeline.cpp:133-147 | the loops of `run` produce the reference trace: the fan-outs of the kept values in input order, then the completion signals |
| Processor.BroadcastBlock | number_pipeline.cpp:136-142 | the i-th kept value's block of callbacks sits after the earlier values' blocks and before the later ones, and reaches every slot before the next value |
| Processor.RunDelivers | number_pipeline.cpp:136-142 | every registered observer receives exactly the kept values, in input order, and an unregistered slot receives nothing |
| Processor.RunFinishesOnce | number_pipeline.cpp:144-146 | every registered observer gets exactly one `on_finished`, even when nothing was kept |
| Processor.RunShape | number_pipeline.cpp:133-147 | the trace is `on_number` calls with kept values to registered slots, followed by the k completion signals |
| Observers.ReplayAppend | number_pipeline.cpp:79-98 | the observers react to two traces in a row as to their concatenation |
| Observers.CountTracksDeliveries | number_pipeline.cpp:88-93 | a counting observer's counter is its start value plus the number of values delivered to its slot |
| Observers.PrintCountBroadcast | number_pipeline.cpp:79-93 | over the fan-out phase the print observer prints each kept value once, in order, and the counter grows by one per value |
| Observers.PrintCountRun | number_pipeline.cpp:79-98 | with the observers of `main`, a run prints the kept values one per line, then "Total numbers passed filter: N" with N the number kept |
| Pipeline.ReadNumbers | number_pipeline.cpp:33-40 | a readable file gives its numbers with no diagnostic; an unreadable one gives no numbers and nothing on standard output |
| Pipeline.PipelineMain | number_pipeline.cpp:152-179 | exit code 1 exactly for a wrong argument count; 2 exactly when the factory throws; otherwise 0; a failure makes no observer callback and writes nothing on standard output |
| Pipeline.MainUsage | number_pipeline.cpp:153-157 | a wrong argument count prints the two usage lines on standard error only |
| Pipeline.MainBadFilter | number_pipeline.cpp:173-175 | a bad filter token prints "Error: " and the exception's message on standard error and makes no observer callback |
| Pipeline.MainOutput | number_pipeline.cpp:159-171 | a good token prints the kept values and their count; an unreadable file adds one diagnostic, counts as empty input, and still exits with 0 |
| Pipeline.MainExample | number_pipeline.cpp:152-179 | `EVEN` on the numbers 3 4 5 6 7 8 prints 4, 6, 8 and "Total numbers passed filter: 3" |
| Sinks.LowerMatches | test.cpp:88-94 | ASCII lower-casing turns s into a lower-case word exactly when s spells that word in any mix of cases |
| Sinks.ParseSinkType | test.cpp:86-97 | any case variant of console, file or none gives that kind, and only those; any other input is an error carrying the input as given |
| Sinks.ParseExamples | test.cpp:86-97 | "FILE" and "CoNsOlE" are accepted; "Disk" is rejected and quoted verbatim |
| Logging.Write | test.cpp:15-39 | a sink writes at most one line and never to standard error; the null sink writes nothing, and only it |
| Logging.WriteRouting | test.cpp:15-39 | console writes "[Console] " + m to standard output only, file writes "[File] " + m to app.log only, none drops m |
| Logging.SetSink | test.cpp:52-67 | after `set_sink(k)` the sink is k, whatever it was, and exactly one announcement line is appended to standard output |
| Logging.AnnouncementInjective | test.cpp:52-67 | different kinds are announced by different lines |
| Logging.Construct | test.cpp:77-79 | a new logger has the console sink and has printed the CONSOLE announcement |
| Logging.ConstructIsSetSink | test.cpp:77-79 | construction is `set_sink(CONSOLE)` whatever the sink slot held before |
| Logging.Log | test.cpp:69-73 | `log` never changes the sink, appends exactly what the sink writes, and with the null sink changes nothing |
| Logging.ExecLastSetWins | test.cpp:52-73 | after any sequence of calls the sink is the one chosen by the last `set_sink`, or the initial one if there was none |
| Logging.ExecAppendOnly | test.cpp:52-73 | the calls only append to the output; nothing written earlier changes |
| LogDemo.DemoMain | test.cpp:100-122 | exit code 1 exactly when an argument is given and is not a sink name; then every line goes to standard error |
| LogDemo.SessionLines | test.cpp:109-112 | a session appends the CONSOLE announcement, the chosen kind's announcement, and whatever the sink writes for the three messages |
| LogDemo.TaggedBySink | test.cpp:110-112 | the three messages appear tagged on standard output for console, tagged in app.log for file, and nowhere for none |
| LogDemo.DemoSelected | test.cpp:103-114 | with a sink name: two announcements, the messages where that sink sends them, then "Logging complete.", and nothing on standard error |
| LogDemo.DemoDefault | test.cpp:102-114 | with no argument: the notice, then the same output as with "console", nothing in app.log or on standard error |
| LogDemo.DemoRejected | test.cpp:115-118 | an unknown sink name exits with 1 and prints the error message and the valid options on standard error |

## Left out

- `FileNumberReader::read_numbers` does not model tokenising the file: the integers read from
  each file are given. It does model opening the file and the diagnostic when that fails.
- Real output is left out: standard output, standard error, `app.log` and flushing are all
  modelled as lines in a trace.
- `FileSink` skips silently when `app.log` cannot be opened. That is an I/O outcome, and the
  model always writes the line.
- The `Logger` singleton (function-local static, deleted copy operations) and virtual
  dispatch are left out. The logger is an explicit value, and sinks and filters are
  datatypes.
- `Logger::log` checks `if (sink_)`. This is not modelled, because the constructor always
  installs a sink, so the null branch cannot be reached.
- `std::tolower` is modelled for the "C" locale only: the 26 ASCII capitals.
- Text is Dafny `string` (Unicode characters), while the C++ code works on bytes. In the "C"
  locale no non-ASCII byte is white space, a digit or a capital letter, so every token is
  classified the same way and nothing observable changes.
- 32-bit overflow of `CountObserver::count` and of the values read is not modelled: both are
  unbounded integers. The threshold's range check is modelled.
- Exceptions other than the `std::invalid_argument` thrown by `create_filter` and
  `parse_sink_type` (such as `std::bad_alloc`) are left out.
- Observers.Deliver: its contract states only that the number of observers is kept. What
  the observers print and count is stated by `Observers.CountTracksDeliveries` and
  `Observers.PrintCountRun`.
- Observers.Replay: its contract states only that the number of observers is kept. The
  lemmas above state the rest.
- LogDemo.DemoMain: its contract states the exit code and the error routing only. The
  output of a successful run is stated by `LogDemo.DemoSelected` and `LogDemo.DemoDefault`.
