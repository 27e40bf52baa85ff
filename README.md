# httpstat_rs: timing breakdown and report, modelled in Dafny

httpstat_rs performs one HTTP request through libcurl and prints a report of
it: the response's status line and header lines, then a table that splits the
transfer's time into five phases (DNS lookup, TCP connection, TLS handshake,
server processing, content transfer) plus the total. This project models the
pure part of that program, in `src/main.rs`:

- `collect_timings`: reading curl's six cumulative instants (`namelookup`,
  `connect`, `appconnect`, `pretransfer`, `starttransfer`, `total`, each 0 when
  curl cannot report it) and deriving the phase map by successive inserts. The
  four middle phases are clamped differences; DNS lookup and total are passed
  through. Modelled by the method `Timings.CollectTimings` against the
  specification function `Timings.DerivePhases` (file `timings.dfy`).
- `print_headers`: the status line `HTTP/1.1 <code>` followed by one
  `name: value` line per raw header line that contains a colon, split at the
  first colon and trimmed; other lines are dropped. This is a simplified form of
  the field-line syntax of section 5 of RFC 9112. Modelled by the method
  `Headers.PrintHeaders`, whose loop appends lines one at a time, against the
  function `Headers.HeaderLines` (file `headers.dfy`).
- `print_timings` / `format_duration`: which map entry fills each of the ten
  duration slots of the table, and the `N/A` / `…ms` choice. Modelled by
  `Report.TableSlots`, `Report.FormatDuration` and `Report.TimingTable`
  (file `report.dfy`), which returns the printed lines.

`option.dfy` holds Rust's `Option`. `text.dfy` models the pieces of Rust's standard library the core relies on:
`str::trim` (with the Unicode `White_Space` set of `char::is_whitespace`),
`str::split_once`, the `{:>7}` / `{:<7}` padding, and the decimal `Display` of
the `u32` status code. `seqs.dfy` holds `filter_map`, the shape of the header
loop.

Curl's instants are modelled as non-negative `real` seconds, so the arithmetic
is exact: the properties below are proved of that exact arithmetic, and hold of
the program's `f64` arithmetic only up to rounding. Printing to standard output is modelled as returning the printed
lines as a `seq<string>`.

The table's labels and layout suggest more than the code does; the model
follows the code:

- A phase whose instant curl does not report is not shown as `N/A`, although
  `format_duration` has an `N/A` case.
  The code reads any missing instant as 0, so a plain-HTTP transfer shows a TLS
  handshake of 0 ms (`Timings.MissingTlsIsZero`). Every slot of the table
  always holds a number (`Report.DerivedTableHasNoNotApplicable`).
- The rows labelled `connect`, `pretransfer` and `starttransfer`, named after
  curl's cumulative instants and staggered under the bars, do not show running
  totals from the start of the request. They show the TCP connection, TLS
  handshake and server processing durations
  (`Report.CumulativeRowsShowPhases`, `Report.InnerRowsAreNotRunningTotals`).
  The `namelookup` and `total` rows do show running totals, because DNS lookup
  and total are those instants themselves (`Report.OuterRowsAreRunningTotals`).
- Server processing is measured from `pretransfer`, not from the end of the TLS
  handshake. So with ordered instants the five phases need not tile the total:
  the interval from `appconnect` to `pretransfer` belongs to no phase, and the
  phases add up to the total exactly when that interval is empty
  (`Timings.PhasesLeaveGap`).

## Model

| member | source | states |
|---|---|---|
| `Timings.Instant` | src/main.rs:78-84 | an instant curl reports is used as reported; one it cannot report is 0 |
| `Timings.ClampedDiff` | src/main.rs:89-93 | the clamped difference is the least value that is both non-negative and at least `later - earlier`, and it is one of those two |
| `Timings.DerivePhases` | src/main.rs:78-119 | DNS lookup and total are the `namelookup` and `total` instants; each middle phase is non-negative and at least the difference of its two instants (`ClampedPhases` gives each exactly) |
| `Timings.PhaseMap` | src/main.rs:86-119 | the timings map holds exactly the six phase keys |
| `Timings.CollectTimings` | src/main.rs:75-122 | building the map insert by insert yields exactly the six keys, each holding the phase `DerivePhases` gives for the same instants |
| `Timings.ClampedPhases` | src/main.rs:87-118 | TCP connection, TLS handshake, server processing and content transfer each equal `later - earlier` when `later > earlier` and exactly 0 otherwise |
| `Timings.PhasesNonNegative` | src/main.rs:86-119 | no derived value is negative |
| `Timings.PassThrough` | src/main.rs:78-119 | DNS lookup is `namelookup` and total is `total`, unclamped; an unreported instant gives 0 |
| `Timings.ConnectionPhasesTelescope` | src/main.rs:86-102 | with `namelookup <= connect <= appconnect`, DNS + TCP + TLS equals `appconnect` |
| `Timings.TransferPhasesTelescope` | src/main.rs:103-118 | with `pretransfer <= starttransfer <= total`, server processing + content transfer equals `total - pretransfer` |
| `Timings.PhasesLeaveGap` | src/main.rs:86-119 | with all instants ordered, the five phases sum to the total less `pretransfer - appconnect`, and tile the total exactly when that interval is empty |
| `Timings.MissingTlsIsZero` | src/main.rs:80-102 | without a TLS instant the TLS handshake key is present and holds 0 |
| `Timings.PhaseMapLookups` | src/main.rs:86-119 | each of the six keys holds its own phase |
| `Timings.ExampleTransfer` | src/main.rs:86-119 | instants of 10, 40, 90, 90, 150, 200 ms give phases of 10, 30, 50, 60, 50 ms and a 200 ms total |
| `Headers.StatusLine` | src/main.rs:180 | the status line is `HTTP/1.1 ` followed by digits, with no leading zero unless the code is 0, that read back as the status code |
| `Headers.StatusLineDeterminedByCode` | src/main.rs:180 | any line of that form for the code is the status line, so the contract fixes the text |
| `Headers.PrintHeaders` | src/main.rs:178-188 | the output is the status line, then the header lines in order; its first line starts with `HTTP/1.1 ` and ends with the code; it has one line per raw line containing a colon, plus one |
| `Headers.PrintFieldLine` | src/main.rs:184-186 | one loop step appends the raw line's `name: value` line when it has a colon and nothing otherwise |
| `Headers.Emitted` | src/main.rs:184-186 | one raw line contributes at most one output line, and one exactly when it contains a colon |
| `Headers.PrintedSoFarStep` | src/main.rs:183-187 | each pass of the loop extends the printed lines from the first i raw lines to the first i + 1 |
| `Headers.AppendStep` | src/main.rs:183-187 | a proof step for `PrintedSoFarStep`, not a model of its own: regrouping a concatenation, so extending a prefix extends the output |
| `Headers.HeaderLinesStep` | src/main.rs:183-187 | one more raw line adds its output line, if any, at the end |
| `Headers.FieldLine` | src/main.rs:184-185 | a raw line gives an output line exactly when it contains a colon; `SingleHeaderLine` and `LaterColonsStayInValue` give the line itself |
| `Headers.HeaderLines` | src/main.rs:183-187 | never more output lines than raw lines; `HeaderLinesAreColonLines`, `HeaderLinesAppend` and `SingleHeaderLine` fix the lines |
| `Headers.ColonLines` | src/main.rs:183-184 | a raw line is kept exactly when it is one of the raw lines and contains a colon |
| `Headers.ColonLinesSingle` | src/main.rs:183-184 | a single raw line is kept exactly when it contains a colon |
| `Headers.HeaderLinesAppend` | src/main.rs:183-187 | output lines keep input order: two blocks of raw lines print as the first block's lines followed by the second's |
| `Headers.ColonLinesAppend` | src/main.rs:183-184 | the colon lines of two blocks are those of the first followed by those of the second |
| `Headers.SingleHeaderLine` | src/main.rs:184-185 | a raw line without a colon prints nothing; one with a colon prints exactly one line, trimmed name, `": "`, trimmed value, split at a colon with no colon before it |
| `Headers.LaterColonsStayInValue` | src/main.rs:184-185 | the split is at the first colon: every later colon stays in the value |
| `Headers.HeaderLinesAreColonLines` | src/main.rs:183-187 | there is exactly one output line per raw line with a colon, the j-th being the rewrite of the j-th such line, so duplicate names are neither merged nor dropped |
| `Headers.FieldLineIdempotent` | src/main.rs:184-185 | rewriting an output line again leaves it unchanged |
| `Headers.SpaceThenTrimmed` | src/main.rs:185 | the space printed after the colon is trimmed away when the output line is split again |
| `Headers.TrimKeepsOut` | src/main.rs:185 | trimming a name never brings a colon into it |
| `Headers.RenderedLineParts` | src/main.rs:184-185 | an output line `name: value` splits back at its first colon into the name and the value |
| `Headers.WireFieldLine` | src/main.rs:184-185 | a wire line `name:`, whitespace, value, CRLF prints as `name: value` |
| `Headers.FramingLinesDropped` | src/main.rs:183-184 | curl's own status line and the blank line ending the block print nothing |
| `Headers.DuplicateNamesKeptInOrder` | src/main.rs:183-187 | a block with fields `a`, `b`, `a` between a status line and the blank line prints the three fields in wire order |
| `Sequences.FilterMap` | src/main.rs:183-187 | the loop's output is never longer than its input |
| `Sequences.Kept` | src/main.rs:183-184 | an element is kept exactly when it is an input that yields an output |
| `Sequences.KeptSingle` | src/main.rs:183-184 | a single input is kept exactly when it yields an output; with `KeptAppend` this fixes keeping on every input |
| `Sequences.FilterMapAppend` | src/main.rs:183-187 | filter-map over two blocks is the concatenation of the results |
| `Sequences.KeptAppend` | src/main.rs:183-184 | so is keeping |
| `Sequences.FilterMapSingle` | src/main.rs:184-186 | a single input gives its value when there is one, and nothing otherwise |
| `Sequences.FilterMapIsMapOfKept` | src/main.rs:183-187 | filter-map is keep-then-map: one output per kept input, in order |
| `Sequences.FilterMapMiddleThree` | src/main.rs:183-187 | five inputs of which the outer two give nothing yield the middle three's outputs in order |
| `Text.IsWhitespace` | src/main.rs:185 | `char::is_whitespace`, the 25 characters with the Unicode `White_Space` property; `AsciiWhitespace` gives its ASCII part |
| `Text.AsciiWhitespace` | src/main.rs:185 | on ASCII, whitespace is the space and tab through carriage return |
| `Text.TrimStart` | src/main.rs:185 | the result is the suffix left after removing leading whitespace, and it does not start with whitespace |
| `Text.TrimEnd` | src/main.rs:185 | the result is the prefix left after removing trailing whitespace, and it does not end with whitespace |
| `Text.Trim` | src/main.rs:185 | the trimmed text has no whitespace at either end and is no longer than the input |
| `Text.TrimDecompose` | src/main.rs:185 | the input is whitespace, then the trimmed text, then whitespace |
| `Text.TrimOfPadded` | src/main.rs:185 | trimming a trimmed text surrounded by whitespace gives that text back |
| `Text.TrimOfTrimmed` | src/main.rs:185 | a text with no whitespace at its ends is left unchanged |
| `Text.TrimIdempotent` | src/main.rs:185 | trimming twice is trimming once |
| `Text.TrimStartOfWhitespace` | src/main.rs:185 | leading whitespace before a text that starts otherwise is removed exactly |
| `Text.TrimEndOfWhitespace` | src/main.rs:185 | trailing whitespace after a text that ends otherwise is removed exactly |
| `Text.SuffixPrefixJoin` | src/main.rs:185 | a proof step for `TrimDecompose`, not a model of its own: a text is what precedes a suffix, a prefix of that suffix, and the rest of it |
| `Text.FindChar` | src/main.rs:184 | finds the first occurrence of the character, or reports that there is none |
| `Text.SplitOnce` | src/main.rs:184 | splits exactly when the colon occurs; the parts joined by the colon give the input, and the first part has no colon |
| `Text.SplitOnceOfJoin` | src/main.rs:184 | splitting undoes joining at a colon when the first part has none, whatever the second part holds |
| `Text.Spaces` | src/main.rs:129 | a run of n spaces |
| `Text.PadLeft` | src/main.rs:129 | right alignment: the text ends the result, preceded only by spaces, in at least the field width |
| `Text.PadRight` | src/main.rs:140-156 | left alignment: the text starts the result, followed only by spaces, in at least the field width |
| `Text.Decimal` | src/main.rs:180 | the status code's text is non-empty, all digits, and starts with `0` only for 0, which prints as the single digit |
| `Text.DecimalRoundTrip` | src/main.rs:180 | reading back the decimal text of a code gives the code |
| `Text.DecimalCanonical` | src/main.rs:180 | a digit string without a leading zero (other than `0`) that denotes n is the decimal text of n |
| `Text.DecimalValuePositive` | src/main.rs:180 | digits starting with a non-zero digit denote a positive number |
| `Text.DecimalInjective` | src/main.rs:180 | different codes print differently |
| `Report.FormatDuration` | src/main.rs:161-166 | a slot prints `   N/A` exactly when its lookup gave nothing; otherwise it ends in `ms`, is at least nine columns, and holds the millisecond numeral right before `ms` |
| `Report.Lookup` | src/main.rs:130-157 | a lookup gives a value exactly when the key is in the map, and then the key's value |
| `Report.TableSlots` | src/main.rs:130-157 | the ten slots look up, in order, DNS Lookup, TCP Connection, TLS Handshake, Server Processing, Content Transfer, DNS Lookup, TCP Connection, TLS Handshake, Server Processing, Total |
| `Report.Cell` | src/main.rs:130-157 | a slot's text is `   N/A` exactly when its key is missing, and otherwise the formatted duration the map holds for the key |
| `Report.DurationRow` | src/main.rs:128-135 | the duration row: the five phase slots right-aligned in seven columns between the row's bars; `DurationRowShowsPhases` gives its text over the derived map |
| `Report.CumulativeRow` | src/main.rs:139-158 | a cumulative row: label, slot left-aligned in seven columns, trailing bars; `CumulativeRows` and `CumulativeRowsShowPhases` give the five rows |
| `Report.TimingTable` | src/main.rs:124-159 | the table is nine lines: an empty line, the column header and, after the duration row, the row of bars |
| `Report.DurationRowShowsPhases` | src/main.rs:128-135 | in the derived table the duration row prints the five phases' formatted durations, unpadded, between the row's bars |
| `Report.DurationCells` | src/main.rs:129-134 | the five duration-row cells of the derived table are the formatted phases |
| `Report.CellWidths` | src/main.rs:129-156 | a duration text is never padded by the seven-column alignment; `   N/A` gains one space |
| `Report.DerivedSlots` | src/main.rs:130-157 | over the derived map the duration row shows the five phases and the cumulative rows show DNS lookup, TCP connection, TLS handshake, server processing and total |
| `Report.DerivedTableHasNoNotApplicable` | src/main.rs:130-166 | over the derived map no slot prints `N/A`; every slot ends in `ms` |
| `Report.CumulativeRows` | src/main.rs:139-158 | each cumulative row is its label, its slot's text left-aligned in seven columns, and the row's trailing bars |
| `Report.CumulativeRowsShowPhases` | src/main.rs:139-158 | in the derived table each cumulative row prints its phase's own duration text, unpadded |
| `Report.DerivedCells` | src/main.rs:140-157 | the five cumulative cells of the derived table are the formatted phases |
| `Report.KeyedCell` | src/main.rs:129-157 | a slot whose key is in the map prints the key's formatted duration, unpadded, in either alignment |
| `Report.OuterRowsAreRunningTotals` | src/main.rs:139-158 | the `namelookup` and `total` rows always show the `namelookup` and `total` instants, the running totals to those instants |
| `Report.InnerRowsAreNotRunningTotals` | src/main.rs:143-154 | with ordered instants, the `connect` row equals the running total only when DNS lookup took no time, the `pretransfer` row only when `connect` is 0 and `appconnect` equals `pretransfer`, and the `starttransfer` row only when `pretransfer` is 0 |

## Left out

- `main` (src/main.rs:7-73): argument handling, curl setup, performing the request, the header and body callbacks, the second request that fetches the body, the "Connected to" line with its hard-coded local address, and exit codes. These are network and process I/O through libcurl.
- curl's timing getters and `response_code`: their results are inputs of the model (`Timings.CurlTimes`, the `status` parameter).
- `get_env_var` and `save_body_to_file`: environment and file-system I/O.
- Floating-point arithmetic: instants and durations are exact reals, so `f64` rounding in the subtractions and in `d * 1000.0` is not modelled.
- Timings.PhasesLeaveGap: the sum is exact over reals; under `f64` the five phases can differ from `total - (pretransfer - appconnect)` in the last bit.
- Timings.ConnectionPhasesTelescope: exact over reals; under `f64` only up to rounding.
- Timings.TransferPhasesTelescope: exact over reals; under `f64` only up to rounding.
- Report.FormatDuration: the rounding of milliseconds to a whole-number text (`{:.0}`) is a function parameter (`Numeral`), so the contract says where that text sits, not which digits it has.
- Writing to standard output: each printing function returns its lines instead.
