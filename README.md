# Esp32Cam diagnostics core in Dafny

A model of four small pieces of the Esp32Cam firmware, with the properties they promise:

- **Log prefix** (`Logger::createPrefix`). Every log line starts with `severity | uptime | `, and then `tag | ` when the message has a known source. The uptime is a 32-bit millisecond counter. It is split into days, hours, minutes, seconds and milliseconds. Below one day it prints as `HH:MM:SS.mmm`; after that, the unpadded day count and `:` come first. The modules are `Format` (the `%d` / `%0Nd` conversions) and `Logger`. The console is a `Stdout` object whose `written` sequence each `fwrite` appends to.
- **Error-code catalog** (`ErrorMessageTable`). The table pairs each ESP-IDF status macro's value with its own spelling. Each entry is present only when its macro is defined. The model keeps all 172 candidate macros with the values their annotations give. A build's table keeps the macros that build defines, in order. `Lookup` is a first-match search that answers `None` when no entry has the code. The module is `ErrorList`.
- **Check-and-report guards** (`DebugAssert`, `DebugAssertWithoutAbort`). A guard evaluates an expression once, converts the result to a 32-bit `int` and compares it exactly with the expected value. On a mismatch it reports the observed code with the file, line, function name and expression text. The non-aborting guard yields the observed code. The expression is a state-changing function `op: S -> (int, S)`, so "evaluated once" means `op` is applied once. The module is `DebugAssert`, which also models the release (`NDEBUG`) macros.
- **Console helpers of the hardware tester**. These are `ReadKey`, the line editor `ReadString` (as written, and corrected as an in-place method over a `char` array), the `strchr` newline strip after `fgets`, and the digit-to-channel conversion. The keys are a sequence: a `scanf` that delivers nothing leaves the key at 0, so it appears as a `'\0'` key. What `printf` echoes is returned as a sequence. The module is `HardwareTester`.

`Wrappers` holds the `Option` type.

## Model

| member | source | states |
|---|---|---|
| Format.DecimalText | HardwareVerification/System/Source/Middleware/Logger.cpp:126 | `%d` of a non-negative int is a non-empty run of digits with no leading zero |
| Format.DecimalTextValue | HardwareVerification/System/Source/Middleware/Logger.cpp:126 | round trip: the digits `%d` prints read back as the number |
| Format.DecimalTextLength | HardwareVerification/System/Source/Middleware/Logger.cpp:126 | a number below 10^k prints in at most k digits (a day count below 100 takes at most two) |
| Format.ZeroPadded | HardwareVerification/System/Source/Middleware/Logger.cpp:126-128 | `%0Nd` is all digits and is exactly N long once the number fits in N digits |
| Format.ZeroPaddedValue | HardwareVerification/System/Source/Middleware/Logger.cpp:126-128 | round trip: the zero-padded digits read back as the number |
| Format.ZeroPaddedLength | HardwareVerification/System/Source/Middleware/Logger.cpp:126-128 | a field below 10^N pads to exactly N characters |
| Logger.TypeInfosLengths | HardwareVerification/System/Source/Middleware/Logger.cpp:24-28 | every `typeInfos` entry's length is the length of its own tag ("HAL" 3, "CAMERA" 6, "BLE" 3, "WIFI" 4) |
| Logger.SourceIndex | HardwareVerification/System/Source/Middleware/Logger.cpp:146 | every known source indexes inside the four-entry tag table |
| Logger.Split | HardwareVerification/System/Source/Middleware/Logger.cpp:117-122 | ms in 0..999, seconds and minutes in 0..59, hours in 0..23; days, although taken `% 99`, equal `ms / 86400000` and are at most 49; the five fields recompose to `ms` for every 32-bit counter |
| Logger.SplitIsExact | HardwareVerification/System/Source/Middleware/Logger.cpp:117-122 | the chained quotients by 1000, 60, 60 and 24 recompose to the counter, and the `% 99` on days changes nothing |
| Logger.ClockLayout | HardwareVerification/System/Source/Middleware/Logger.cpp:128 | `%02d:%02d:%02d.%03d` of in-range fields is 12 characters, with separators at 2, 5 and 8; the digits at 0-1, 3-4, 6-7 and 9-11 read back as the hours, minutes, seconds and ms themselves, so each field holds its own unit |
| Logger.FormatTime | HardwareVerification/System/Source/Middleware/Logger.cpp:123-128 | the uptime text is exactly 12 characters iff ms < 86400000, and is never longer than 15 |
| Logger.DayCountUnpadded | HardwareVerification/System/Source/Middleware/Logger.cpp:125-126 | from one day on, the text is the day count `ms / 86400000` as plain `%d` (no padding, no leading zero), then ':', then the clock text of the split uptime |
| Logger.FormatTimeReadsBack | HardwareVerification/System/Source/Middleware/Logger.cpp:125-128 | round trip: reading either layout back gives the counter, so the text is exact and the two layouts cannot be confused |
| Logger.ClockTimeReadsBack | HardwareVerification/System/Source/Middleware/Logger.cpp:127-128 | below one day, the `HH:MM:SS.mmm` text reads back as the counter |
| Logger.DayTimeReadsBack | HardwareVerification/System/Source/Middleware/Logger.cpp:125-126 | from one day on, the day count, ':' and clock text read back as the counter |
| Logger.Snprintf | HardwareVerification/System/Source/Middleware/Logger.cpp:126-128 | `snprintf` keeps all of the text when it fits and exactly its first size-1 characters otherwise, and returns the full length |
| Logger.PrintTime | HardwareVerification/System/Source/Middleware/Logger.cpp:123-129 | the 20-byte buffer and the `uint8_t` count always hold the whole uptime text: no truncation and no wrap |
| Logger.SourceFieldInjective | HardwareVerification/System/Source/Middleware/Logger.cpp:144-149 | different sources print different tag columns; `Unknown` prints none |
| Logger.PrefixTextLayout | HardwareVerification/System/Source/Middleware/Logger.cpp:113-151 | the prefix splits into the severity, a separator, the uptime text, a separator, and the tag column |
| Logger.PrefixTimeReadsBack | HardwareVerification/System/Source/Middleware/Logger.cpp:117-130 | the uptime column of the prefix reads back as the counter it was printed from |
| Logger.PrefixTextLength | HardwareVerification/System/Source/Middleware/Logger.cpp:113-151 | the prefix is at most 30 characters longer than the severity |
| Logger.Stdout.Write | HardwareVerification/System/Source/Middleware/Logger.cpp:115 | `fwrite(data, 1, count, stdout)` appends the first `count` characters and nothing else |
| Logger.WriteSource | HardwareVerification/System/Source/Middleware/Logger.cpp:144-149 | for a known source the tag from `typeInfos` and a separator are appended; for `Unknown` nothing is |
| Logger.CreatePrefix | HardwareVerification/System/Source/Middleware/Logger.cpp:113-151 | the successive writes append exactly the severity, separator, uptime text, separator and (for a known source) tag and separator to the console, and the result is always true |
| Logger.WriteLogPrefix | HardwareVerification/System/Source/Middleware/Logger.cpp:18-22 | the severities "I" and "E" with their one-byte lengths, as `LogInfo` and `LogError` pass them, write the whole severity and the rest of the prefix, and the call succeeds |
| ErrorList.ErrorCodeAndName | HardwareVerification/System/Include/Hal/ErrorList.h:4 | an entry's code is the macro's value and its name is the macro's own spelling |
| ErrorList.Select | HardwareVerification/System/Include/Hal/ErrorList.h:11-591 | the `#ifdef` chain: every entry kept is a candidate macro the build defines, the table is never longer than the candidates, and a build defining every candidate keeps them all |
| ErrorList.ErrorMessageTable | HardwareVerification/System/Include/Hal/ErrorList.h:11-591 | a build's table is the selection from the 172 candidates: no more entries than candidates, each one a defined candidate |
| ErrorList.SdkMacrosCount | HardwareVerification/System/Include/Hal/ErrorList.h:13-591 | the table lists 172 candidate entries |
| ErrorList.SelectAppend | HardwareVerification/System/Include/Hal/ErrorList.h:11-591 | the `#ifdef` chain selects from each run of macros in turn, so the table keeps the macros' order |
| ErrorList.SelectMembers | HardwareVerification/System/Include/Hal/ErrorList.h:13-591 | an entry is in a build's table iff its macro is a candidate and that build defines it |
| ErrorList.SelectIncreasing | HardwareVerification/System/Include/Hal/ErrorList.h:13-591 | keeping any subset of an increasing run of macros keeps the codes increasing |
| ErrorList.SdkMacrosIncreasing | HardwareVerification/System/Include/Hal/ErrorList.h:14-590 | by the annotated values, codes strictly increase through all 172 entries, so no code occurs twice |
| ErrorList.Lookup | Projects/Esp32/Include/Middleware/DebugAssert.h:70 | first-match search: `None` iff no entry has the code; otherwise the name of the first entry with that code |
| ErrorList.LookupUnique | HardwareVerification/System/Include/Hal/ErrorList.h:11 | in a table without repeated codes, lookup gives a name iff that (code, name) entry is in the table |
| ErrorList.LookupFindsDefinedMacro | HardwareVerification/System/Include/Hal/ErrorList.h:13-591 | in every build, looking up a code gives `name` iff a defined macro spelled `name` has that value |
| ErrorList.LookupUnknownCode | HardwareVerification/System/Include/Hal/ErrorList.h:13-591 | a code that no candidate macro has is never found, in any build |
| ErrorList.FailAndOk | HardwareVerification/System/Include/Hal/ErrorList.h:13-18 | ESP_FAIL looks up from -1 and ESP_OK from 0 in every build that defines them |
| ErrorList.NvsBlockConsecutive | HardwareVerification/System/Include/Hal/ErrorList.h:56-151 | the NVS block is 25 consecutive codes, from ESP_ERR_NVS_BASE = 4352 to 4376 |
| ErrorList.WifiGap | HardwareVerification/System/Include/Hal/ErrorList.h:283-288 | the Wi-Fi codes skip 12304 and 12305: no build finds a name for them |
| DebugAssert.CastToInt | Projects/Esp32/Include/Middleware/DebugAssert.h:28 | the `(int)` conversion gives a 32-bit value congruent to its operand modulo 2^32 |
| DebugAssert.CastToIntKeepsInts | Projects/Esp32/Include/Middleware/DebugAssert.h:28 | a value that already fits an `int` is unchanged by the conversion |
| DebugAssert.CastToIntCongruent | Projects/Esp32/Include/Middleware/DebugAssert.h:28 | two values convert to the same `int` iff they agree modulo 2^32 |
| DebugAssert.AssertFunc | Projects/Esp32/Include/Middleware/DebugAssert.h:7-13 | the reported function name is a predefined `__ASSERT_FUNC`, else `__ASSERT_FUNCTION`, else "??" |
| DebugAssert.Guard | Projects/Esp32/Include/Middleware/DebugAssert.h:25-49 | one evaluation; the code is the converted value; no report iff it equals the expected value; otherwise exactly one report carrying that code and the site |
| DebugAssert.DebugAssert | Projects/Esp32/Include/Middleware/DebugAssert.h:25-34 | the state advances by exactly one evaluation; `Assert` is called iff the converted value differs from the expected one, with that value, file, line, function and expression |
| DebugAssert.DebugAssertWithoutAbort | Projects/Esp32/Include/Middleware/DebugAssert.h:41-49 | as above, reporting through `AssertWithoutBreaking`; the guard's value is the observed code whether it matched or not |
| DebugAssert.GuardsAgree | Projects/Esp32/Include/Middleware/DebugAssert.h:25-49 | the two guards leave the same state, match on the same inputs and report the same code |
| DebugAssert.GuardReportsObservedCode | Projects/Esp32/Include/Middleware/DebugAssert.h:41-49 | for an expression that already yields an `int`, the guard yields and reports that exact value |
| DebugAssert.ReleaseDebugAssertAsWritten | Projects/Esp32/Include/Middleware/DebugAssert.h:51 | the release `DebugAssert` accepts only one argument, and then expands to the bare expression evaluated once |
| DebugAssert.ReleaseWithoutAbortAsWritten | Projects/Esp32/Include/Middleware/DebugAssert.h:52 | the release `DebugAssertWithoutAbort` never yields the expression's value |
| DebugAssert.ReleaseFormsRejectDebugCalls | Projects/Esp32/Include/Middleware/DebugAssert.h:50-53 | a two-argument call of either release macro is an arity error, and the one-argument `DebugAssertWithoutAbort` names the undeclared `function` |
| DebugAssert.ReleaseDebugAssert | Projects/Esp32/Include/Middleware/DebugAssert.h:15-17 | the corrected release `DebugAssert(function, result)` leaves the state the debug guard leaves |
| DebugAssert.ReleaseWithoutAbort | Projects/Esp32/Include/Middleware/DebugAssert.h:15-17 | the corrected release `DebugAssertWithoutAbort` yields the converted value, evaluated once, unchecked |
| DebugAssert.ReleaseMatchesDebug | Projects/Esp32/Include/Middleware/DebugAssert.h:15-53 | apart from the reports, release and debug builds leave the same state and yield the same value |
| HardwareTester.ReadKey | Projects/HardwareTester/main/Tests.cpp:159-168 | the key returned is the first non-zero key, all keys before it were 0, and when every key is 0 nothing is returned |
| HardwareTester.Before | Projects/HardwareTester/main/Tests.cpp:62 | the text before the first `c` is a prefix without `c`, followed by `c` or by the end |
| HardwareTester.CString | Projects/HardwareTester/main/Tests.cpp:59-65 | a buffer's C string is the prefix before its first NUL |
| HardwareTester.Strchr | Projects/HardwareTester/main/Tests.cpp:62 | `strchr` finds the first `c` of the C string, and finds none iff the C string has no `c` |
| HardwareTester.StripNewlineOf | Projects/HardwareTester/main/Tests.cpp:133-137 | after the strip, the C string ends where its first newline was; only that byte changes, to NUL; a line without a newline is unchanged |
| HardwareTester.StripNewline | Projects/HardwareTester/main/Tests.cpp:62-64 | the in-place strip leaves the buffer as `StripNewlineOf` of its old contents |
| HardwareTester.ChannelFromKey | Projects/HardwareTester/main/Tests.cpp:269-270 | `key - 48` as a byte: '0'..'9' give 0..9 and every other key gives a value above 9; adding 48 back gives the key |
| HardwareTester.Typed | Projects/HardwareTester/main/Tests.cpp:170-203 | the text a key stream types (push, pop on Backspace) never contains NUL and is no longer than the stream |
| HardwareTester.Step | Projects/HardwareTester/main/Tests.cpp:178-198 | one key of the corrected editor keeps the index inside the buffer, with room for the terminator; the line finishes iff the key is Enter or fills the last free cell; Enter writes NUL at the index, Backspace and 0 leave the buffer untouched, and any other key is stored at the index (then NUL after it when the line fills) |
| HardwareTester.Run | Projects/HardwareTester/main/Tests.cpp:172-200 | the corrected editor never writes outside the buffer, whatever the keys |
| HardwareTester.RunHoldsTyped | Projects/HardwareTester/main/Tests.cpp:172-200 | invariant: while editing, `string[0..i)` is the typed text |
| HardwareTester.FinishedHoldsTyped | Projects/HardwareTester/main/Tests.cpp:178-198 | when the line finishes, by Enter or by a full buffer, the buffer's C string is exactly the typed text |
| HardwareTester.RunStaysFinished | Projects/HardwareTester/main/Tests.cpp:180-198 | after the line finishes, further keys change nothing |
| HardwareTester.ReadString | Projects/HardwareTester/main/Tests.cpp:170-203 | the corrected in-place editor over the array consumes keys up to the one that finishes the line (or all of them) and leaves the buffer and echo `Run` gives; when the keys run out, `Run` is still editing |
| HardwareTester.StepAsWritten | Projects/HardwareTester/main/Tests.cpp:178-198 | one key of the editor as written, with the `uint8_t` index wrapping; a fault always lies outside the buffer |
| HardwareTester.StepAsWrittenAgrees | Projects/HardwareTester/main/Tests.cpp:178-198 | with two free cells after the index and no Backspace at the start, the editor as written and the corrected editor agree on the buffer, the index, the echo and whether the line goes on, so they differ only at the two defects |
| HardwareTester.RunAsWritten | Projects/HardwareTester/main/Tests.cpp:170-203 | the editor as written keeps its index in 0..255 |
| HardwareTester.BackspaceAtStartWraps | Projects/HardwareTester/main/Tests.cpp:183-188 | a Backspace on an empty line wraps the index to 255, and the next key is stored at `string[255]` |
| HardwareTester.BackspaceAtStartIgnored | Projects/HardwareTester/main/Tests.cpp:183-188 | the corrected editor ignores that Backspace and stores the next key in the first cell |
| HardwareTester.WrittenFillsInOrder | Projects/HardwareTester/main/Tests.cpp:189-194 | ordinary keys advance the as-written index one by one while the buffer is not full |
| HardwareTester.FullBufferWritesPastEnd | Projects/HardwareTester/main/Tests.cpp:195-198 | size-1 ordinary keys make the editor as written store the terminator at `string[size]` |
| HardwareTester.FullBufferTerminatedInside | Projects/HardwareTester/main/Tests.cpp:195-198 | on the same keys, the corrected editor finishes with the keys as its C string |
| HardwareTester.RunFillsInOrder | Projects/HardwareTester/main/Tests.cpp:189-194 | ordinary keys advance the corrected index one by one while the buffer is not full |
| HardwareTester.TypedOrdinary | Projects/HardwareTester/main/Tests.cpp:189-194 | keys with no editing meaning type themselves |

## Left out

- `Logger::LogInfo` / `LogError` (Logger.cpp:30-111) are modelled only as far as the prefix they request (`WriteLogPrefix`); the `_logLock` mutex, `vfprintf` and the debug-port check are locking and I/O.
- The `LOGGER_PREFIX_TIME` real-time-clock block (Logger.cpp:132-142) is not modelled: it is compiled out and reads hardware.
- The millisecond counter `Hardware::Instance()->Milliseconds()` is a parameter of `CreatePrefix`.
- Logger.CreatePrefix: `prefixLen` is a `char` in the source; the model takes it as a natural number no larger than the severity text.
- `DebugAssert::Assert`, `AssertWithoutBreaking`, `abort` and `GetErrorName` are only declared (DebugAssert.h:65-70); their bodies are not part of this model. A guard's outcome records which handler is called and with what; no message format, abort mechanism or unknown-code text is invented.
- ErrorList.Lookup: answers `None` for a code without an entry; `GetErrorName`, which would turn that into text, is only declared (DebugAssert.h:70), so no fallback text is modelled.
- Logger.SourceIndex: the `LogSource` enumerators are declared in Logger.h, which is not part of this model; the model assumes `Hal`, `Camera`, `Ble` and `Wifi` are 0, 1, 2 and 3, matching the order of `typeInfos`, and that `Unknown` is none of them.
- Which SDK macros a build defines comes from the vendor headers: it is the `defined` parameter of `ErrorMessageTable`. The values are those of the annotations.
- DebugAssert: `DEBUG` may also be defined by other means than the absence of `NDEBUG` (DebugAssert.h:15-19); the model takes the debug/release choice as given.
- DebugAssert.CastToInt: the conversion of values wider than 32 bits follows GCC's modulo-2^32 behaviour; an expression of floating-point type is not modelled.
- HardwareTester.Strchr and HardwareTester.StripNewline: require a NUL somewhere in the buffer. Tests.cpp:59 and 130 do not check what `fgets` returns, so on an empty or unreadable file `line` is uninitialised and the source does not guarantee that NUL; the model does not cover that case.
- DebugAssert.Guard: the macros substitute their arguments without parentheses (`(int)function` and `__err_rc != result`, DebugAssert.h:28-29 and 42-43); the model assumes each argument is a single operand, i.e. `(int)(function)` and `__err_rc != (result)`. An argument with a lower-precedence operator at its top level would parse differently and is not modelled.
- HardwareTester.ChannelFromKey: gives the byte `(key - 48) mod 256`. With a signed `char`, keys below '0' and keys 176..255 give a negative `char` (key 200 prints -104); how such a value prints and how `SetChannel` (Tests.cpp:272, parameter type not part of this model) reads it are not modelled.
- HardwareTester.ReadString: the corrected method needs a buffer of at least two cells (one character and the terminator). Smaller buffers are covered only by the as-written `RunAsWritten`, which takes any size: with size 0 the first key faults, and with size 1 the first key is stored in `string[0]` and the second faults at index 1.
- HardwareTester.ReadKey and HardwareTester.ReadString: `vTaskDelay` is left out, and a finite key sequence can run out where the device keeps waiting; the model then reports how far it got.
- `TestSdCard` and `TestSpiffs` file operations, `PutCpuToSleep`, `SoftwareResetTest`, `ToggleFlashLed` and the `WifiMenu` dispatch with its `scanf`/`printf` are not modelled: they are console and SDK I/O. Only the newline strip (Tests.cpp:62-64, 133-137) and the channel conversion (Tests.cpp:269-270) are.
- Projects/WebCamera/System/Include/Application/ApplicationAgent.h (a lazy singleton wiring services) and HardwareVerification/System/Include/Hal/Dwt.h (busy-wait delay declarations) hold no logic of their own and are not modelled.

## Findings

| source | as written | input that shows it | evidently intended | confidence | as-written member | corrected member |
|---|---|---|---|---|---|---|
| Projects/HardwareTester/main/Tests.cpp:183-188 | Backspace does `i--` on a `uint8_t` even at index 0, which wraps it to 255 | keys Backspace then 'a' into any buffer of at most 255 cells: 'a' is stored at `string[255]`, past its end | Backspace on an empty line does nothing | high (not executed) | HardwareTester.BackspaceAtStartWraps | HardwareTester.BackspaceAtStartIgnored |
| Projects/HardwareTester/main/Tests.cpp:195-198 | when the index reaches `size - 1`, the terminator is written to `string[i + 1]`, i.e. `string[size]` | size 2 and the single key 'a': the NUL goes to `string[2]`, one past the buffer | terminate in the last cell, `string[size - 1]` | high (not executed) | HardwareTester.FullBufferWritesPastEnd | HardwareTester.FullBufferTerminatedInside |
| Projects/Esp32/Include/Middleware/DebugAssert.h:51-52 | under `NDEBUG` both macros take one parameter, and `DebugAssertWithoutAbort(x)` expands to `function` rather than `x` | any two-argument call such as `DebugAssert(f(), ESP_OK)` in a release build is a preprocessor arity error | the release forms take `(function, result)`: `DebugAssert` expands to the expression alone and `DebugAssertWithoutAbort` to `(int)(function)` | high (not executed) | DebugAssert.ReleaseFormsRejectDebugCalls | DebugAssert.ReleaseMatchesDebug |
