# A verification model of the NV2A low-level test harness

Four parts of the harness hold logic of their own, and this project models those four in Dafny 4.11 and
proves what they are for. `dafny verify dfyconfig.toml` checks everything.

**The streaming JSON log** (`Json`, `JsonText`, `TestLog`, `LogMeaning`, `LogEntries`, `TestLogRuns`,
`TestRunner`). The log writer only
ever appends text; separators, indentation, escapes and closing brackets are decided by a phase, a flag
`has_tests` and one flag per open `events` array. `Json` is an independent pushdown parser for RFC 8259
(sections 2 to 7). `TestLog.Log` is the writer as a class whose file is a growing string, with a ghost tree of
what was recorded; its invariant is that parsing the text so far stands exactly where the tree says
(`Image`), and that the writer's flags are those of the tree. From it follow the theorems about whole runs:
the text parses if and only if the scopes of the suite were closed before the suite was left, and then it
denotes the recorded tree. The recorded tree is defined without any reference to text. `LogMeaning` says what a
reader learns from the parsed values: members are looked up by name, numbers are read as decimals, a time is the
difference of two readings of a 32-bit counter that may have wrapped. Every event, dump, scope, test and suite of
a run is found in the document with that meaning (`RunSuite`, `RunSuiteOfTests`).

**The rounding models** (`Power`, `Rounding`, `RoundingTheorems`, `RoundingTables`, `BitPatterns`,
`RoundingRows`) and **the batch harness** (`VshRounding`, `VshHarness`, `VshBatches`). A float with a 24-bit
significand is an integer number of units of a power of two that is fine enough for all operands; `rn`, `rz`,
`rn_rn`, `rz_rz`, `tp_rz`, `seq_rz` and `win_rz` are functions on such integers. General laws are proved for
all operands, and every recorded row of the tables is proved in bits: each pattern denotes what the model it
is recorded for predicts. The harness is modelled as a class with the constant file; the shaders are
straight-line methods, the arithmetic unit is arbitrary, and the batching loops are proved to check every case
by itself.

**The PTIMER protocol** (`Ptimer`, `PtimerTests`, `PtimerSequences`). The registers are a state machine over
ticks, writes and serviced interrupts. The readers, the polling loops and the register sequences of the tests
are methods over a class in which counts pass before every register access. How many is the pace of the CPU,
an arbitrary function of the access, so that what a test finds is stated as a condition on the pace and on the
state in which the test before left the registers.

**The M2MF checkers and the state-buffer printer** (`M2mfBuffers`, `M2mfStrided`, `StateBuffer`). The checks
are loops over byte arrays, proved to be exact decision procedures for a copy specification; the printer is a
run-length encoder with an exact decoder.

## What the code does that its documentation does not say

- `EndTest` closes open scopes, but `BeginTest` and `EndSuite` do not close those of the suite; a run that
  leaves one open is not a JSON document, whatever follows (`RunSuite`).
- The hi-lo-hi reader is right for all reads whose two high reads are at most d counts apart if and only if
  d is at most 2^61 - 2^32; the first span that can go wrong is 2^61 - 2^32 + 1, where a full turn of the high
  half goes unnoticed (`RightWithinIff`, `FirstMiss`).
- The PTIMER tests acknowledge the flag before they write ALARM_0. An old alarm that is reached in between
  spoils them: the past-alarm test fails and the masked tests pass or fail for the wrong reason (`SetUpTurn`,
  `OldAlarmSpoils`).
- `VerifyStridedOutput` rejects a correct copy whose elements share a destination byte and disagree on it. The
  bound `(line_len - 1) * stride_out < pitch_out` keeps elements apart only for a stride of at least 1
  (`VerifyBounded`, `StrideZeroDisagrees`, `VerifyStrideZero`).

## Model

| member | source | states |
|---|---|---|
| JsonText.AppendJsonString | src/test_log.cpp:50-80 | appends the escaped literal of the value, for every byte string |
| JsonText.StringReads | src/test_log.cpp:50-80 | reading the literal by RFC 8259 section 7 gives back exactly the original bytes |
| JsonText.StringStaysOpen | src/test_log.cpp:50-80 | every proper prefix of the literal is still inside the string: its closing quote is the first unescaped one |
| JsonText.EscapeIsPrintable | src/test_log.cpp:50-80 | the literal is printable ASCII |
| JsonText.EscapesSpelt | src/test_log.cpp:50-80 | the two-character escapes and a control character, spelt out |
| JsonText.DecimalRoundTrip | src/test_log.cpp:198-224 | a printed unsigned integer denotes that integer |
| JsonText.SignedDecimalRoundTrip | src/test_log.cpp:198-224 | a printed integer of either sign denotes that integer |
| JsonText.DecimalDigits | src/test_log.cpp:198-224 | the base is ten and the most significant digit comes first |
| JsonText.ValueReads | src/test_log.cpp:198-224 | the text of every value type parses to that value |
| JsonText.FieldsRead | src/test_log.cpp:233-246 | the "fields" object parses to the fields in order, with their typed values |
| JsonText.HexRoundTrip | src/test_log.cpp:392-442 | the hex digits of a dump decode to the dumped bytes |
| JsonText.HexDigits | src/test_log.cpp:392-442 | two upper-case digits a byte, the high one first |
| TestLog.SinceIsElapsed | src/test_log.cpp:125-125 | a reading d ms after another, d < 2^32, gives d, even when the counter has wrapped in between |
| TestLog.NormalizedPathIsRelative | src/test_log.cpp:82-96 | a recorded path is exactly what follows the last "/src/" of the path with forward slashes, or all of it when there is none; so it has no backslash and no further "/src/" |
| TestLog.StripTrailingNewlines | src/test_log.cpp:98-103 | the result is a prefix, every byte cut off is a newline or carriage return, and the last byte left is neither |
| TestLog.StrippedIsUnique | src/test_log.cpp:98-103 | that determines the result |
| TestLog.MessageIsTrimmed | src/test_log.cpp:98-111 | a message is the formatted text between its leading spaces and its trailing newlines |
| TestLog.RecordableIffOpen | src/test_log.cpp:147-151 | nothing is dropped: events can be recorded exactly while an events array is open |
| LogMeaning.EventMeans | src/test_log.cpp:362-390 | an event read by name: its level's name, the trimmed message, the relative path, the line, the fields in order with their values, and as "t_ms" the milliseconds from BeginSuite to the event |
| LogMeaning.DumpMeans | src/test_log.cpp:392-442 | a dump read by name: label, size, bytes, place and time |
| LogMeaning.ScopeMeans | src/test_log.cpp:444-470 | a scope read by name: its name, place, time and items |
| LogMeaning.TestMeans | src/test_log.cpp:310-360 | a test's entry read by name: name, source, start since BeginSuite, items, "pass" or "fail", and its duration |
| LogMeaning.SuiteMeans | src/test_log.cpp:266-308 | a document read by name: schema version, URL base, suite, items, tests, the three counts of the summary, and its duration |
| TestLog.Log.Initialize | src/test_log.cpp:250-262 | succeeds exactly if the file opens, truncates it only then and on request, and starts no document |
| TestLog.Log.BeginSuite | src/test_log.cpp:266-281 | starts a document whose only open array is the suite's events; the time base is reset |
| TestLog.Log.Event | src/test_log.cpp:362-390 | appends text after which the file parses to the old tree with one event more, whose t_ms is the time since BeginSuite (`SinceIsElapsed`, `LogMeaning.EventMeans`), or changes nothing outside an open array |
| TestLog.Log.HexDump | src/test_log.cpp:392-442 | the same for a dump with label, size and hex bytes |
| TestLog.Log.BeginScope | src/test_log.cpp:444-461 | opens a nested object with its own events array |
| TestLog.Log.EndScope | src/test_log.cpp:463-470 | the innermost scope becomes an item of the array around it; the outermost array is never closed |
| TestLog.Log.BeginTest | src/test_log.cpp:310-340 | leaves the suite's events or separates from the test before, and opens a test |
| TestLog.Log.EndTest | src/test_log.cpp:342-360 | closes open scopes and the test, with result and duration |
| TestLog.Log.EndSuite | src/test_log.cpp:283-308 | ends a test left open as failed, writes an empty tests array if there was none, the summary and the end of the document |
| TestLogRuns.PerformAll | src/test_log.cpp:266-470 | any sequence of calls keeps text, flags and recorded tree in step |
| TestLogRuns.RunSuite | src/test_log.cpp:266-470 | for any calls between BeginSuite and EndSuite the text is a JSON document if and only if the suite's scopes were closed before the suite was left; it then denotes the recorded tree and, read by name, holds the suite with its summary and duration, one entry a test in order with its result and times, and every event, dump and scope with its time |
| TestLogRuns.EntryIsFound | src/test_log.cpp:362-470 | whatever calls follow, an event, dump or scope begun while an events array is open is in the final document, and read by name says what was logged and when |
| TestLogRuns.TestIsFound | src/test_log.cpp:310-360 | the k-th test begun is entry k; its result and duration are those of the first EndTest after it, or it fails at EndSuite if there is none |
| TestLogRuns.CrashPrefix | src/test_log.h:25-28 | a file cut off at a call boundary is no document; its unclosed objects are the current test and open scopes in order, and a comma is due exactly when the top flag is set |
| TestLogRuns.CrashBetweenTests | src/test_log.cpp:310-340 | between tests the unclosed object is the suite's, and a comma is due exactly when has_tests is set |
| TestLogRuns.CrashAnywhere | src/test_log.h:25-28 | the file of an unfinished run parses nowhere it may be cut, inside a write or between calls |
| TestLogRuns.LeftOpenIsBelow | src/test_log.cpp:283-340 | the containers left around the document are the suite scopes open at the first BeginTest or at EndSuite |
| Json.TruncatedIsIncomplete | src/test_log.h:25-28 | a text whose document is no number parses when cut at k if and only if only white space was cut off; so an object document cut before its closing brace never parses |
| TestRunner.RecordsStructure | src/test_log.h:144-151 | code that opens scopes only through guards records a tree nested as the code is |
| TestRunner.StmtsMean | src/test_log.h:144-151 | ... and read by name the items say what the code did, block by block |
| TestRunner.TestRunner.RunAllTests | src/test_runner.cpp:141-156 | the file parses to a document with one entry a test, in order; read by name, each has the test's name, source, items, result and times, "result" is "pass" if and only if the test returned true, and the summary's "passed" is the number of entries that say so |
| TestRunner.TestRunner.RunSuiteOfTests | src/test_runner.cpp:106-156 | the file that a run with an open log writes, from BeginSuite and what is logged before the tests to EndSuite, is a whole report read by name |
| Rounding.RzIsLargest | src/vsh_tests/vsh_rounding_common.h:16-16 | rz is the float of the grid of largest magnitude not beyond the exact result |
| RoundingTheorems.RzIsLargestOfAll | src/vsh_tests/vsh_rounding_common.h:16-16 | ... among the floats of every finer grid |
| Rounding.RnIsNearest | src/vsh_tests/vsh_rounding_common.h:15-15 | no float of the grid is nearer to the exact result than rn |
| RoundingTheorems.RnIsNearestOfAll | src/vsh_tests/vsh_rounding_common.h:15-15 | ... and none of any finer grid is |
| Rounding.RnTiesToEven | src/vsh_tests/vsh_rounding_common.h:15-15 | half-way cases go to the even significand |
| Rounding.WinPermutes | src/vsh_tests/vsh_rounding_common.h:23-28 | win_rz does not depend on the order of its addends |
| Rounding.WinNegates | src/vsh_tests/vsh_rounding_common.h:23-28 | negating all addends negates win_rz |
| Rounding.WinError | src/vsh_tests/vsh_rounding_common.h:23-28 | for n float addends the alignment loses at most (n - 1) units below 2^(e - 28), and the final truncation less than one ulp |
| Rounding.CancellationLosesSmall | src/vsh_tests/test_vsh_rounding_dot.cpp:179-202 | win_rz of b, -b, s is zero for every s below the window of b |
| RoundingTheorems.TwoAddends | src/vsh_tests/test_vsh_rounding_add.cpp:7-32 | win_rz of two floats is the exact sum truncated once if signs agree or leading bits are at most 5 apart; otherwise the next float exactly when the bits lost in alignment make up the truncated ulp |
| RoundingTheorems.WinIsBracketed | src/vsh_tests/test_vsh_rounding_add.cpp:7-32 | win_rz of two floats is never below the truncated exact sum and never past the next float |
| RoundingTheorems.MadResidue | src/vsh_tests/test_vsh_rounding_mad.cpp:18-29 | MAD of a, b and -RN(a * b) is zero unless rounding went away from zero, and then one ulp of the truncated product with the opposite sign |
| RoundingTheorems.DotResidue | src/vsh_tests/test_vsh_rounding_dot.cpp:20-43 | the same residue through (a, RN(a * b), 0) . (b, -1, 0) |
| RoundingTheorems.WinScales | src/vsh_tests/vsh_rounding_common.h:23-28 | the choice of the unit does not matter |
| RoundingTheorems.PredictScales | src/vsh_tests/vsh_rounding_common.h:14-28 | nor does it for any other model |
| RoundingTables.PredictFour | src/vsh_tests/vsh_rounding_common.h:14-28 | what every model predicts for four addends, in closed form |
| RoundingTables.PadZero | src/vsh_tests/vsh_rounding_common.h:14-28 | a zero addend changes no model's prediction |
| BitPatterns.DenotesOne | src/vsh_tests/vsh_rounding_common.h:29-33 | a non-zero value has one bit pattern |
| BitPatterns.DenotesValue | src/vsh_tests/vsh_rounding_common.h:29-33 | a bit pattern has one value |
| RoundingRows.AddRow0 | src/vsh_tests/test_vsh_rounding_add.cpp:8-13 | ADD row 0: the expected bits are what win_rz predicts for these operand bits, and the bits of every model are what that model predicts |
| RoundingRows.AddRow1 | src/vsh_tests/test_vsh_rounding_add.cpp:14-19 | ADD row 1: the expected bits are what win_rz predicts for these operand bits, and the bits of every model are what that model predicts |
| RoundingRows.AddRow2 | src/vsh_tests/test_vsh_rounding_add.cpp:20-25 | ADD row 2: the expected bits are what win_rz predicts for these operand bits, and the bits of every model are what that model predicts |
| RoundingRows.AddRow3 | src/vsh_tests/test_vsh_rounding_add.cpp:26-31 | ADD row 3: the expected bits are what win_rz predicts for these operand bits, and the bits of every model are what that model predicts |
| RoundingRows.MulRow0 | src/vsh_tests/test_vsh_rounding_mul.cpp:8-11 | MUL row 0: the same, through the exact product |
| RoundingRows.MulRow1 | src/vsh_tests/test_vsh_rounding_mul.cpp:12-15 | MUL row 1: the same, through the exact product |
| RoundingRows.MadRow0 | src/vsh_tests/test_vsh_rounding_mad.cpp:19-29 | MAD row 0: the same for all five models |
| RoundingRows.MadRow1 | src/vsh_tests/test_vsh_rounding_mad.cpp:30-40 | MAD row 1: the same for all five models |
| RoundingRows.MadRow2 | src/vsh_tests/test_vsh_rounding_mad.cpp:41-51 | MAD row 2: the same for all five models |
| RoundingRows.MadRow3 | src/vsh_tests/test_vsh_rounding_mad.cpp:52-62 | MAD row 3: the same for all five models |
| RoundingRows.MadRow4 | src/vsh_tests/test_vsh_rounding_mad.cpp:63-73 | MAD row 4: the same for all five models |
| RoundingRows.DotRow0 | src/vsh_tests/test_vsh_rounding_dot.cpp:20-43 | dot-product row 0: the same for DP3, DPH and DP4 |
| RoundingRows.DotRow1 | src/vsh_tests/test_vsh_rounding_dot.cpp:44-67 | dot-product row 1: the same for DP3, DPH and DP4 |
| RoundingRows.DotRow2 | src/vsh_tests/test_vsh_rounding_dot.cpp:68-91 | dot-product row 2: the same for DP3, DPH and DP4 |
| RoundingRows.DotRow3 | src/vsh_tests/test_vsh_rounding_dot.cpp:92-115 | dot-product row 3: the same for DP3, DPH and DP4 |
| RoundingRows.DotRow4 | src/vsh_tests/test_vsh_rounding_dot.cpp:116-139 | dot-product row 4: the same for DP3, DPH and DP4 |
| RoundingRows.DotRow5 | src/vsh_tests/test_vsh_rounding_dot.cpp:140-149 | the Rugby 2005 row: the same for DP3, whatever w holds |
| RoundingRows.AccumulationRow0 | src/vsh_tests/test_vsh_rounding_dot.cpp:155-178 | accumulation row 0: the same for DP3, DPH and DP4 |
| RoundingRows.AccumulationRow1 | src/vsh_tests/test_vsh_rounding_dot.cpp:179-202 | accumulation row 1: the same for DP3, DPH and DP4 |
| RoundingRows.AccumulationRow2 | src/vsh_tests/test_vsh_rounding_dot.cpp:203-226 | accumulation row 2: the same for DP3, DPH and DP4 |
| RoundingRows.RowTells | src/vsh_tests/vsh_rounding_common.cpp:18-28 | on every such row a model is listed for a non-zero result if and only if it predicts that result |
| RoundingRows.RowChecks | src/vsh_tests/vsh_rounding_common.cpp:38-50 | ... and the check passes if and only if the unit returned what win_rz predicts |
| VshHarness.Gpu.ReadConstant | src/vsh_tests/vsh_test_common.cpp:452-458 | reading a register through the data port, which yields w, z, y, x, returns it in x, y, z, w order |
| VshHarness.Gpu.Dot | src/vsh_tests/vsh_compute_round_dot.vsh:3-19 | the masked writes leave DP3, DPH and DP4 of pair k in component k of three registers |
| VshHarness.Gpu.MulAdd | src/vsh_tests/vsh_compute_round_mad.vsh:2-14 | register 188 + i is the MAD of registers 96 + 3i to 98 + 3i, and no other register changes |
| VshHarness.Gpu.AddOrMul | src/vsh_tests/vsh_compute_round_add.vsh:2-10 | register 188 + i is OP of registers 96 + 2i and 97 + 2i, and no other register changes |
| VshHarness.ShadedAgain | src/vsh_tests/vsh_test_common.cpp:502-515 | running the shader for every vertex of the quad is running it once |
| VshHarness.Gpu.RunCompute | src/vsh_tests/vsh_test_common.cpp:460-500 | returns false exactly when uninitialised, asked for more than 5 outputs or past register 191; otherwise the outputs are what the shader computes from the loaded inputs over sentinels |
| VshHarness.InputsArrive | src/vsh_tests/vsh_test_common.cpp:476-483 | the shader finds the inputs, whatever the file held before and whatever outputs are marked |
| VshHarness.Gpu.ReportRounding | src/vsh_tests/vsh_rounding_common.cpp:10-51 | logs one entry with the comma-separated names of the models that predict the result; false only for a checked mismatch |
| VshHarness.MatchingIff | src/vsh_tests/vsh_rounding_common.cpp:18-28 | a name is listed if and only if a model of that name predicts the result |
| VshHarness.MatchingReads | src/vsh_tests/vsh_rounding_common.cpp:18-28 | the listed names, split at the commas, stand for exactly the models that predict the result, in the order of the table |
| VshHarness.ReportIsLogged | src/vsh_tests/vsh_rounding_common.cpp:30-50 | an entry is recorded if the result is not checked, passed if it is the expected one, and failed otherwise |
| VshBatches.RunBinaryCases | src/vsh_tests/vsh_rounding_common.cpp:53-83 | for any number of cases, pass holds if and only if MUL or ADD of each case's own operands is the expected value wherever it is checked; entry i of the log is about case i; without a device the run says so and fails |
| VshBatches.RunMadCases | src/vsh_tests/test_vsh_rounding_mad.cpp:87-115 | the same for MAD with its twelve inputs a draw |
| VshBatches.RunDotCases | src/vsh_tests/test_vsh_rounding_dot.cpp:231-262 | the same for DP3, DPH and DP4, each held against its own expectation: entries 3i, 3i + 1 and 3i + 2 of the log are about them in this order |
| VshBatches.DotsRead | src/vsh_tests/test_vsh_rounding_dot.cpp:231-262 | the probes of all cases are acceptable if and only if DP3, DPH and DP4 of every case agree with their own expectations |
| VshBatches.BinaryLanes | src/vsh_tests/vsh_rounding_common.h:58-60 | component k % 4 of output k / 4 belongs to case k of the draw |
| VshBatches.DotLanes | src/vsh_tests/vsh_compute_round_dot.vsh:1-2 | component k of the three outputs belongs to case k of the draw |
| VshBatches.EntriesInOrder | src/vsh_tests/vsh_rounding_common.cpp:76-80 | the log has one entry a probe, in order |
| Ptimer.CrossesIff | src/ptimer_tests/test_alarm_set_in_the_past.cpp:12-50 | a tick latches exactly if some count it passes has the alarm as its low half |
| Ptimer.CrossesWhenReached | src/ptimer_tests/test_alarm_set_in_the_past.cpp:12-50 | an alarm fires when its distance ahead has passed, up to a full turn for one that is in the past |
| Ptimer.PendingIff | src/ptimer_tests/test_alarm_adjust_preserves_pending_flag.cpp:72-100 | over every run INTR_0 bit 0 is set if and only if some tick since the last acknowledgement crossed the alarm current then; nothing else alters it |
| Ptimer.MaskedNeverFires | src/ptimer_tests/test_interrupt_masking.cpp:21-34 | while INTR_EN_0 stays 0 nothing fires |
| Ptimer.FiringCount | src/ptimer_tests/test_alarm_rollover_and_periodicity.cpp:12-64 | the number of firings is at most how often the alarm is passed, and equal if and only if no tick passes it twice, however the interval is split |
| PtimerTests.FiringsAfter | src/ptimer_tests/test_alarm_rollover_and_periodicity.cpp:32-44 | with interrupts enabled a flag that is up fires at once and then every passing of the alarm does, for any ticks of at most a turn |
| PtimerSequences.AlarmRolloverAndPeriodicity | src/ptimer_tests/test_alarm_rollover_and_periodicity.cpp:5-70 | the test passes if and only if the firing that is due when interrupts are enabled and the passings of the alarm in the wait are two; if they are enabled before the alarm is reached, if and only if the time since TIME_0 was set is in [0x02002000 + 2^32, 0x02002000 + 2^33), one turn earlier if the old alarm had spoilt the flag |
| PtimerTests.WaitServiced | src/ptimer_tests/ptimer_test_common.cpp:8-19 | the capture buffer holds the first 32 firings in order, each with the count, the alarm and the number of firings before it (`FiringTaken`) |
| PtimerTests.FiringTaken | src/ptimer_tests/ptimer_test_common.cpp:8-19 | capture k was taken at the end of a tick in which the alarm was due: its halves are the count there modulo 2^61, with the alarm and the number of firings before it |
| PtimerTests.FiringsAreCounted | src/ptimer_tests/ptimer_test_common.cpp:8-19 | the captures offered are as many as the firings counted |
| PtimerTests.Registers.GetPTIMERTime | src/ptimer_tests/ptimer_test_common.h:32-40 | within any budget of passes it returns exactly the count at the low read of its last pass if it finishes, however slow the reads are up to half of 2^61 - 2^32; two passes suffice if they span less than 2^32 |
| PtimerTests.HighLowHigh | src/ptimer_tests/ptimer_test_common.h:32-40 | agreeing high reads at most 2^61 - 2^32 apart determine the count at the low read between them |
| PtimerTests.RightWithinIff | src/ptimer_tests/ptimer_test_common.h:32-40 | for every d: all accepted reads that span at most d are right if and only if d <= 2^61 - 2^32 |
| PtimerTests.FirstMiss | src/ptimer_tests/ptimer_test_common.h:32-40 | reads just before a carry, at it, and a full turn later are accepted and wrong, one count beyond the bound |
| PtimerTests.Registers.ClockMainTime | src/investigatory_tests/clock_main.cpp:31-36 | the count at the low read, plus 2^32 for each carry before the high read; at most one if the two reads are less than 2^32 apart |
| PtimerTests.Registers.GetNV2ATime | src/investigatory_tests/pfifo_cache1_main.cpp:229-233 | the count at the low read, minus 2^32 for each carry after the high read; at most one if the two reads are less than 2^32 apart |
| PtimerTests.Registers.PollForAlarm | src/ptimer_tests/ptimer_test_common.cpp:101-123 | an alarm armed with a clear flag never leaves the loop by its time limit, even across a wrap of TIME_0; the flag is seen if and only if the last turn the wall clock allows reads INTR_0 at or after the target, and in the first turn that does |
| PtimerTests.FirstSeenIsUnique | src/ptimer_tests/ptimer_test_common.cpp:101-123 | that determines the turn, and with it the time that is read |
| PtimerTests.Registers.AlarmFlagIsSetWhileMasked | src/ptimer_tests/test_alarm_flag_is_set_while_masked.cpp:5-92 | with gaps up to 5,000,000 and any log line and sleep in between, the test passes if and only if the flag is seen, and then it fires when enabled; unless the old alarm is reached between the acknowledgement and the arming, the poll ends as above and the jitter is exactly that of the read, in [0, 3 gaps + the log line) |
| PtimerTests.Registers.PreInitBootAlarm | src/ptimer_tests/ptimer_test_common.cpp:80-132 | the same for the boot test with gaps up to 0x01000000 and whatever alarm the machine booted with |
| PtimerTests.Registers.AdjustPending | src/ptimer_tests/test_alarm_adjust_preserves_pending_flag.cpp:72-83 | moving ALARM_0 keeps the pending flag |
| PtimerSequences.SetUpTurn | src/ptimer_tests/test_interrupt_masking.cpp:8-16 | after the set-up the flag is up if and only if the old alarm was reached between the acknowledgement and the write to TIME_0, or between that and the write to ALARM_0, for every pace |
| PtimerSequences.SetUp | src/ptimer_tests/test_interrupt_acknowledge.cpp:8-11 | the same without TIME_1 |
| PtimerSequences.FarAlarmSpoilsNothing | src/ptimer_tests/test_interrupt_masking.cpp:8-16 | an old alarm farther ahead than the set-up can take leaves the flag clear |
| PtimerSequences.OldAlarmSpoils | src/ptimer_tests/test_interrupt_masking.cpp:8-16 | a state and a steady pace for which the old alarm spoils every one of the tests |
| PtimerSequences.WaitUntil | src/ptimer_tests/test_interrupt_acknowledge.cpp:12-13 | the wait ends with the first read of TIME_0 that reaches its bound |
| PtimerSequences.InterruptAcknowledge | src/ptimer_tests/test_interrupt_acknowledge.cpp:5-42 | for every pace, what each of the three reads of INTR_0 finds; if ALARM_0 is written before its time, the flag is up before and after a write of 0, and the test passes if and only if the read after the write of 1 comes before the alarm is reached again |
| PtimerSequences.InterruptMasking | src/ptimer_tests/test_interrupt_masking.cpp:5-67 | for every pace and sleep, nothing fires early if and only if the flag was not spoilt and interrupts were disabled before the alarm; a flag that is up after the wait fires when enabled; if ALARM_0 is written before its time, the test passes if and only if the flag was not spoilt and interrupts were disabled before that time |
| PtimerSequences.AlarmSetInThePast | src/ptimer_tests/test_alarm_set_in_the_past.cpp:5-54 | for every pace, the test passes if and only if the flag was not spoilt and interrupts are disabled again before the alarm is reached, which is 0xF0000000 counts after TIME_0 was set |
| M2mfBuffers.FillPattern | src/m2mf_tests/m2mf_test_common.cpp:33-40 | writes the pattern of the seed into its stretch and nowhere else |
| M2mfBuffers.VerifyPattern | src/m2mf_tests/m2mf_test_common.cpp:42-52 | accepts exactly what FillPattern writes |
| M2mfBuffers.PatternRecurs | src/m2mf_tests/m2mf_test_common.cpp:33-40 | the pattern is the one stretch that starts with the seed and in which byte i + 1 is (109 v + 89) xor the low byte of i for byte v before it |
| M2mfBuffers.VerifyCanaries | src/m2mf_tests/m2mf_test_common.cpp:54-62 | accepts exactly a stretch of canaries |
| M2mfBuffers.NextIsInjective | src/m2mf_tests/m2mf_test_common.cpp:38-38 | a step of the generator loses nothing |
| M2mfBuffers.NextIsOnto | src/m2mf_tests/m2mf_test_common.cpp:38-38 | every byte has a predecessor |
| M2mfBuffers.SeedsDifferEverywhere | src/m2mf_tests/m2mf_test_common.cpp:33-40 | patterns of different seeds differ at every index |
| M2mfBuffers.CheckPitched | src/m2mf_tests/test_m2mf_pitched_asymmetric.cpp:52-99 | accepts if and only if every byte is right: byte x of line y is byte x of source line y or, past the line's end, the background, and both guards hold |
| M2mfBuffers.GuardedIffRightBytes | src/m2mf_tests/test_m2mf_pitched_asymmetric.cpp:52-99 | the copy specification says exactly that of every byte |
| M2mfStrided.VerifyStridedOutput | src/m2mf_tests/test_m2mf_format.cpp:10-54 | true if and only if, in 32-bit arithmetic, every element lies in the span at y * pitch_out + x * stride_out and holds the source byte at y * pitch_in + x * stride_in, and every other byte of the span holds the canary; equivalently the copy stays in the span, elements that share a byte agree, and the destination is the strided copy over canaries |
| M2mfStrided.MatchesIffRightSpan | src/m2mf_tests/test_m2mf_format.cpp:10-54 | the comparisons the check makes decide the first form |
| M2mfStrided.MatchesIffCopied | src/m2mf_tests/test_m2mf_format.cpp:10-54 | the comparisons the check makes decide that |
| M2mfStrided.ApartAgrees | src/m2mf_tests/test_m2mf_format.cpp:10-54 | elements cannot share a byte if lines fit in the pitch, the stride is at least 1 and offsets do not wrap |
| M2mfStrided.BoundedMatchesIffCopied | src/m2mf_tests/test_m2mf_format.cpp:10-54 | with a stride of at least 1, (line_len - 1) * stride_out < pitch_out and lines * pitch_out at most 2^32, the comparisons hold if and only if the destination is the strided copy |
| M2mfStrided.VerifyBounded | src/m2mf_tests/test_m2mf_format.cpp:10-54 | ... and the check accepts exactly that |
| M2mfStrided.StrideZeroDisagrees | src/m2mf_tests/test_m2mf_format.cpp:10-54 | a stride of 0 meets the bound (line_len - 1) * stride_out < pitch_out, but its elements share a byte and disagree where the source varies |
| M2mfStrided.VerifyStrideZero | src/m2mf_tests/test_m2mf_format.cpp:10-54 | ... so the check rejects every destination, a correct copy included |
| StateBuffer.PrintStateBuffer | src/investigatory_tests/pfifo_cache1_main.cpp:141-170 | expanding the printed lines gives back the buffer, and no two entries in a row are equal, for any length |
| StateBuffer.RepeatedCounts | src/investigatory_tests/pfifo_cache1_main.cpp:141-170 | an entry and "repeated n times" stand for n + 1 equal entries |
| StateBuffer.OnePrinting | src/investigatory_tests/pfifo_cache1_main.cpp:141-170 | the printed lines are the only canonical ones for the buffer |

## Left out

- Doubles in the log: a double is an opaque number token or `null`; its printf formatting is not modelled.
- printf formatting and the truncation of messages to 512 bytes: the formatted message is an input.
- File-open failure: every append succeeds. A null source path is an empty path.
- The on-screen log, the debugger echo, configuration files, shutdown and rendering.
- Line breaks and indentation of the log are written as the code does, but no theorem is about their looks.
- The wall clock: the tick counter's readings are inputs, and the 500 ms limit of the polling loops is a number of polls.
- NaN, infinities, denormals, overflow and underflow of the arithmetic unit; the two Rugby 2005 results that are NaN patterns have no model and no row here.
- VshCheckVector, RCC, LOGP, DST and the A0 probes of the vertex shader tests.
- The order and number of vertices beyond the four of a quad, and the pipeline state around a draw.
- The M2MF engine itself, `gpum_copy*`, memory allocation and cache flushes: a copy function is the specification.
- TestRunner.TestRunner.RunSuiteOfTests: starts with the log open; when it cannot be opened the tests run and nothing is recorded.
- M2mfBuffers.CheckPitched: assumes pitch_out >= line_len, as in both cases of the test, because rows would overlap otherwise.
- PtimerSequences.AlarmRolloverAndPeriodicity: assumes that an interrupt is serviced within a turn of 2^32 counts, so that no two passings of the alarm fall together.
- Interrupt latency: a serviced run services an asserted interrupt after each tick; QPC and TSC stamps of a capture are not modelled.
- NUMERATOR and DENOMINATOR: the rate of the counter is arbitrary.
- Power and Rounding: exponents are unbounded, so no law says what happens at the ends of the exponent range.
