# kyui core in Dafny

kyui is a small Python scraping toolkit with a text menu. This project
models the four parts of it that make decisions, and proves properties of
them:

- **`RequestHandler.request` / `retry`** (module `Fetch`). A rate-limited GET
  with the retry loop. `requests.get` is an oracle, `net: seq<Outcome>`:
  `net[k]` is what attempt `k` does, either a transport error or a response
  with its status and content length. Time is a `Clock` object that
  `time.sleep` advances.
  - A pure function `Attempts`/`Call` specifies the whole call. It gives the
    reply, the final retry count, the last request timestamp, the clock, the
    GETs sent and the logger calls made.
  - The class methods are proved against it.
- **`ImageSaver`** (module `Images`). It chooses the file format from the
  image mode, probes a palette image for frames, and makes exactly one save
  call.
  - An image is its mode together with the outcomes of its `seek` calls.
  - The `save` outcome is a boolean parameter.
  - The pure function `SaveImageEffect` specifies `save_image`.
- **`Scribe`** (module `Logging`). The console/log routing of `write`, and
  `writeLog` / `setLogDir`.
  - The routing decision is the function `Route`.
  - The class keeps what reaches the console and the log file as two
    sequences.
  - Directory creation and log appends are oracles (`Option<string>` error
    texts).
- **`UserInterface`** (module `Menu`). The navigation stack, `menuLogic`, the
  displayed path and the `main` loop.
  - Keyboard input is a sequence of `Input` values.
  - The loop is specified by the function `Session`.

`ImageSaver`, `RequestHandler` and `UserInterface` only hand messages to the
logger, so their models record each `scribe.write(message, modifiers, color)`
call as a `Reports.Note`. The `Scribe` class models what one such call does.
A call the logger cannot print raises KeyError (an unknown colour name).
Only the interface's `main` models that case: all of the interface's writes
reach the console in the logger's colour.

Behaviour as written, which the model follows:

- **The rate-limit wait is computed once per call.**
  - `request` computes `next_allowed_request` and `current_time` once, before
    its `while True` loop (classes.py:203-204).
  - So every attempt of a call, retries included, sleeps that same initial
    wait when it is positive.
  - An attempt therefore starts the previous attempt's duration plus the
    retry delay plus that wait after the previous one started, not the
    minimum interval after it (`Fetch.AttemptsTiming`,
    `Fetch.RetriesNotSpacedByInterval`).
- **The wait counts from the last attempt, not the last completed request.**
  `last_request_timestamp` is taken before every attempt, failed ones
  included.
- **Unknown image modes are not rejected.** Any mode outside
  JPEG/GIF/SVG is saved as PNG (classes.py:91-92).
- **The `ImageSaver` constructor ignores its directory argument.** It sets
  the field to None before testing it (classes.py:67-69).
- **`setLogDir` reports its error in the default colour, console only.** Its
  error call passes `'c-v' 'red'`, which Python concatenates into one
  modifier string `"c-vred"` with no colour argument (classes.py:186).
- **`main` only ever returns `'exit'`.** `menuLogic` returns only `'exit'` or
  None. Otherwise `main` ends only by an exception. The model covers two:
  the logger's KeyError for an unknown colour, and the EOFError of `input()`
  once the input runs out (`InputsExhausted`). `getUserInput` catches only
  ValueError, and `main` catches only KeyboardInterrupt.

## Model

| member | source | states |
|---|---|---|
| `Text.ContainsIffOccurs` | classes.py:156-163 | the `in` substring test on modifier strings holds exactly when the needle occurs at some index |
| `Text.Contains` | classes.py:156-163 | Python's `in` on strings, as a scan; `ContainsIffOccurs` and `ContainsChar` state what it means |
| `Text.ContainsChar` | classes.py:160-163 | testing a one-character modifier is membership of that character |
| `Text.JoinSnoc` | kyui.py:95 | `str.join`: joining one more part appends the separator and that part |
| `Text.Join` | kyui.py:95 | `str.join` by recursion on the parts; `JoinSnoc` states its law |
| `Text.PathJoin` | classes.py:82 | `os.path.join`: an absolute name replaces the directory; otherwise the result is the directory, then one '/' exactly when the directory is non-empty and does not end in one, then the name |
| `Text.OrElse` | classes.py:154-155 | `x or default` gives a truthy value as it is and the fallback otherwise, and it is falsy only when both are |
| `Logging.Route` | classes.py:153-163 | colour is the given one or the default; outside verbose mode a call reaches the console iff its modifiers contain 'c' and the log iff they contain 'l' (verbose mode: `RouteVerboseReachesBoth`, `RouteIgnoresVerbose`) |
| `Logging.RouteVerboseReachesBoth` | classes.py:156-158 | in verbose mode a call without '-v' reaches console and log |
| `Logging.RouteIgnoresVerbose` | classes.py:152-163 | with '-v' in the modifiers verbose mode makes no difference: the console iff 'c', the log iff 'l' |
| `Logging.RouteDebugOnlyWhenVerbose` | classes.py:147-163 | a 'd' (debug) call reaches console and log exactly in verbose mode |
| `Logging.RouteDefaultModifiers` | classes.py:132-163 | a call with no modifiers uses 'c': always the console, the log only in verbose mode |
| `Logging.OwnMessagesConsoleOnly` | classes.py:170-186 | the logger's own messages ('c-v', 'c-vred') reach the console and never the log, so `writeLog` cannot re-enter itself |
| `Logging.SetLogDirErrorUsesDefaultColor` | classes.py:181-186 | setLogDir's error is printed in the logger's default colour, console only |
| `Logging.Paint` | classes.py:165-168 | the line `writeConsole` prints: the colour's code, the text, the reset code |
| `Logging.LogPath` | classes.py:171-172 | a log file path exists exactly when both the log directory and the log name are set |
| `Logging.LogConsoleLines` | classes.py:170-179 | `writeLog` prints a console line exactly when the path is unset or the append fails |
| `Logging.LogFileLines` | classes.py:170-179 | every `writeLog` leaves exactly one line: the text and a newline in the log file, or the logger's warning or error on the console |
| `Logging.Scribe.constructor` | classes.py:128-145 | defaults 'c' and 'default'; the log directory is set only through setLogDir when the argument is truthy |
| `Logging.Scribe.Write` | classes.py:153-163 | console and log file grow as `Route` decides; an unknown colour raises KeyError |
| `Logging.Scribe.WriteConsole` | classes.py:165-168 | one coloured line, or KeyError for an unknown colour |
| `Logging.Scribe.WriteLog` | classes.py:170-179 | the log file and console grow by `LogFileLines` and `LogConsoleLines`; nothing else changes |
| `Logging.Scribe.SetLogDir` | classes.py:181-186 | the directory is stored only when the directory is created; otherwise the error reaches the console |
| `Images.FormatFor` | classes.py:84-92 | JPEG exactly for RGB/L/F/CMYK, GIF exactly for P/PA/1, SVG exactly for SVG, PNG for every other mode |
| `Images.SaveImageEffect` | classes.py:78-124 | what `save_image` does for a given directory, image and save outcome; the lemmas below state its properties |
| `Images.PlainSave` | classes.py:96-102 | the single-frame save of frame 0 and its logger call: 'l' green on success, 'cl' red on failure |
| `Images.LeadingMoves` | classes.py:109-113 | the number of successful seeks before the first one that raises |
| `Images.FrameCount` | classes.py:107-113 | the probe collects at least one frame |
| `Images.Frames` | classes.py:107-111 | the collected frame indices are those below n, each once, in increasing order |
| `Images.FramesSnoc` | classes.py:109-110 | copying one more frame appends the next index |
| `Images.ProbeStopsAtFirstRaise` | classes.py:108-115 | the probe's last seek raises and every earlier seek moved |
| `Images.NoOutputDirNoSave` | classes.py:81-104 | without an output directory no save is made, only a yellow warning |
| `Images.ExactlyOneSave` | classes.py:78-124 | with a directory and a readable mode exactly one save call is made, in FormatFor(mode), to `<dir>/<name>.<FORMAT>` |
| `Images.MultiFrameSave` | classes.py:116-120 | a multi-frame palette image is saved once with all its frames and the plain save is skipped |
| `Images.SingleFrameSave` | classes.py:96-102 | every other image is saved as frame 0 alone with `tangent_save` false |
| `Images.ProbeOnlyForPalette` | classes.py:84-92 | for non-palette modes the image's frames make no difference |
| `Images.EffectDependsOnModeAndFrames` | classes.py:78-124 | the outcome depends on the image only through its mode, frame count and the probe's stop |
| `Images.FiveFrameAnimation` | classes.py:106-120 | a five-frame animation is saved as one GIF of frames 0-4 |
| `Images.ImageSaver.constructor` | classes.py:65-69 | the output directory is None whatever the argument |
| `Images.ImageSaver.SetOutputDir` | classes.py:71-76 | the path is stored even when mkdir fails, which logs an error |
| `Images.ImageSaver.SaveImage` | classes.py:78-104 | the new saves, notes, `tangent_save` and `file_mode` are those of `SaveImageEffect` |
| `Images.ImageSaver.CheckAnimated` | classes.py:106-124 | the loop collects exactly FrameCount frames in order; a multi-frame image gets one all-frames save |
| `Fetch.GateWait` | classes.py:203-212 | the wait is non-negative, positive exactly when the interval has not elapsed, and then ends exactly at `last + interval` |
| `Fetch.IsOk` | classes.py:223 | the truthiness `if response_content:` tests: false exactly for status 400 to 599 |
| `Fetch.Attempts` | classes.py:207-237 | the `while True` loop from attempt k on, as a function of the oracle; `AttemptsGets`, `AttemptsOutcome`, `AttemptsTiming` and the wait lemmas state its properties |
| `Fetch.Call` | classes.py:202-230 | a whole `request` call: the wait computed at entry, then `Attempts` from attempt 0 |
| `Fetch.AttemptAnswered` | classes.py:213-218 | a transport success ends the call with the response (truthy) or None |
| `Fetch.AttemptGaveUp` | classes.py:219-222 | a failure with no retry left logs the error and re-raises |
| `Fetch.AttemptSleepFailed` | classes.py:232-237 | a negative retry delay makes the retry's sleep raise after the warning |
| `Fetch.AttemptRetried` | classes.py:208-221 | a failure with a retry left warns, sleeps the delay and runs the next attempt |
| `Fetch.AttemptsPrefix` | classes.py:208-222 | earlier GETs and logger calls are carried along unchanged |
| `Fetch.AttemptsGets` | classes.py:207-222 | at most max_retry + 1 attempts, every GET to the requested URL, earlier GETs kept, the last GET sent at the last request timestamp |
| `Fetch.AttemptsOutcome` | classes.py:207-237 | all attempts but the last failed; the call raises iff the last failed, then with the retry count above max_retry for a transport error; otherwise it returns the truthy response or None |
| `Fetch.AttemptsTiming` | classes.py:208-221 | each attempt starts the previous one's duration plus delay plus the call's wait later; the clock ends at the last request timestamp plus the last response's elapsed time |
| `Fetch.AnnouncedWait` | classes.py:208-213 | an attempt announces the wait once when it is positive, never otherwise, and only with that wait |
| `Fetch.WaitsLast` | classes.py:208-222 | an attempt that ends the call adds one announced wait when the wait is positive |
| `Fetch.WaitsRetried` | classes.py:208-237 | a retried attempt adds one announced wait to those of the attempts after it |
| `Fetch.WaitBeforeEveryAttempt` | classes.py:203-212 | a positive wait is announced before every attempt, retries included; a zero wait never |
| `Fetch.SameWaitEveryAttempt` | classes.py:203-212 | every wait announced in a call is the one computed at its start; earlier logger calls are kept |
| `Fetch.FreshWaits` | classes.py:203-222 | the logger calls from any attempt on announce no wait other than the call's own |
| `Fetch.FirstAttemptGated` | classes.py:203-215 | the first attempt starts at the later of last timestamp + interval and the entry time |
| `Fetch.AlwaysFailing` | classes.py:219-235 | an always-failing endpoint gets exactly max_retry + 1 attempts and the last error is re-raised |
| `Fetch.FirstSuccessEndsCall` | classes.py:214-230 | the first success ends the call; the retry count is the number of failures before it |
| `Fetch.RetriesNotSpacedByInterval` | classes.py:203-212 | a retry can follow its attempt by less than the minimum interval |
| `Fetch.SampleSettingsDeadEndpoint` | config.py:9-11 | with interval 1, 3 retries and delay 5, a dead endpoint whose attempts each fail instantly is tried 4 times, 5 s plus the wait apart |
| `Fetch.Clock.Sleep` | classes.py:237 | `time.sleep` advances the clock, or raises ValueError for a negative duration |
| `Fetch.Clock.Pass` | classes.py:214-216 | the GET takes its elapsed time |
| `Fetch.RequestHandler.constructor` | classes.py:190-200 | configuration as given; timestamp, duration and size start at 0 |
| `Fetch.RequestHandler.Retry` | classes.py:232-238 | adds exactly 1 to the retry count and reports false iff it now exceeds max_retry; otherwise warns and sleeps the delay |
| `Fetch.RequestHandler.Announce` | classes.py:208-215 | sleep the call's wait if positive, log, take the timestamp, send the GET |
| `Fetch.RequestHandler.Request` | classes.py:202-230 | reply, retry count, timestamp, clock, GETs and logger calls are those of `Call`; duration and size are set for a truthy response, zeroed for a falsy one and untouched when it raises; the configuration is unchanged |
| `Fetch.RequestHandler.Loop` | classes.py:208-222 | the `while True` loop ends in the state `Attempts` gives |
| `Fetch.RequestHandler.Iteration` | classes.py:208-222 | one pass of the loop body: either a retry is due and the state is that of the next attempt, or the call ends in the state `Attempts` gives |
| `Fetch.RequestHandler.Attempt` | classes.py:208-222 | one attempt: the wait, the GET, and `retry` after a transport error |
| `Fetch.RequestHandler.Conclude` | classes.py:223-230 | truthy response: returned, duration and size recorded; falsy: None, both reset to 0 |
| `Menu.MenuStep` | kyui.py:49-64 | raises only on an empty path; returns only 'exit' or None; the new path is the old one or the old one minus its top |
| `Menu.MenuStepExit` | kyui.py:52-55 | 'exit' exactly for input 0 with 'main' on top, and the path is left unchanged |
| `Menu.MenuStepBack` | kyui.py:56-58 | input 0 on another menu pops exactly that menu |
| `Menu.MenuStepNonZero` | kyui.py:59-64 | a non-zero input returns None and leaves the path unchanged |
| `Menu.MenuStepKeepsRoot` | kyui.py:49-58 | on a rooted path menuLogic never raises and the path stays rooted |
| `Menu.Replay` | kyui.py:23-58 | a run of `navPathUpdate` and `menuLogic` calls, None once one raises; `ReplayKeepsRoot` states its property |
| `Menu.ReplayKeepsRoot` | kyui.py:19-58 | from ['main'], no run of navPathUpdate and menuLogic calls raises, empties the path or removes 'main' from the bottom |
| `Menu.PathDisplay` | kyui.py:94-96 | the line `printMenuPath` writes; `PathDisplayPush` and `PathDisplayRooted` state its properties |
| `Menu.PathDisplayPush` | kyui.py:94-96 | entering a menu extends the displayed path by " > " and its id |
| `Menu.PathDisplayRooted` | kyui.py:94-96 | the displayed path starts with "- main", and is exactly that at the start |
| `Menu.Session` | kyui.py:36-47 | the `while True` loop over the given inputs: each iteration, the last one whose read finds no input included, first shows a truthy sub-page once; each number goes to the menu logic, and the first truthy command is returned |
| `Menu.SessionOnlyExits` | kyui.py:33-58 | the main loop returns only 'exit', with 'main' on top after "Exiting..."; menuLogic never raises IndexError and the path stays rooted; with 'main' on top the path never changes |
| `Menu.InterfaceWritesReachConsole` | kyui.py:31-47 | a write with 'c' and no colour reaches the console in the logger's colour in either mode, so an unknown colour raises KeyError |
| `Menu.UserInterface.constructor` | kyui.py:15-21 | path ['main'], no sub-page, the stack invariant holds, and the logger's default colour becomes the UI colour |
| `Menu.UserInterface.NavPathUpdate` | kyui.py:23-24 | push: the old path plus the id; the stack invariant is kept |
| `Menu.UserInterface.NavBack` | kyui.py:26-27 | pop exactly the top, or IndexError on an empty path |
| `Menu.UserInterface.NavExit` | kyui.py:29-31 | writes "Exiting..." to the console |
| `Menu.UserInterface.MenuLogic` | kyui.py:49-64 | the path, the command and the exit message are those of `MenuStep`; under the stack invariant it never raises and keeps the invariant |
| `Menu.UserInterface.PrintMenuPath` | kyui.py:94-96 | one console line holding `PathDisplay(navPath)` |
| `Menu.UserInterface.Run` | kyui.py:33-47 | the log directory and name are set as `setLogDir` leaves them; the logger's console gains only `setLogDir`'s line, and the loop's writes are recorded in the notes; KeyError (from `setLogDir` or the first console write) exactly for an unknown colour; otherwise sub-page, logger calls and exit are those of `Session`; the path is unchanged and only 'exit' is returned |
| `Menu.UserInterface.Loop` | kyui.py:35-47 | the `while True` loop ends with the sub-page, logger calls and exit that `Session` gives, the last sub-page write before the end of input included, and the path unchanged |

## Left out

- `ProgressBar`: floating-point division, Python's `round` and its ZeroDivisionError; numerics outside this model.
- `WebPage` and `WebPageParser`: thin wrappers over BeautifulSoup.
- `UserInput.query`, `UserInterface.getUserInput`, `printInterface` and `printMenuBody`: `input()`, screen clearing, debounce sleeps and banner and menu printing. Each keyboard read of the `main` loop is one `Input` value. `getUserInput`'s retry on a non-number is folded into that value.
- `UserInterface.NavExit`: the `os.system('clear')` call is not modelled.
- `UserInterface.Run` (the `main` method): being a finite list, the inputs can run out (`InputsExhausted`). This stands for the EOFError that `input()` raises at end of input, after that iteration's sub-page write, which no handler in `getUserInput` or `main` catches (kyui.py:42-45, 76-82).
- `UserInterface.Run` (the `main` method): a Ctrl-C is modelled only during the read. A KeyboardInterrupt raised during `printInterface` or the sub-page write (kyui.py:37-40) is outside the `try` and would leave `main`; it is not modelled.
- `UserInterface.Run` (the `main` method): the `printInterface` call at the top of each iteration is left out, except for the KeyError its first write raises under an unknown colour. `Run` requires 'main' on top of the path, as on an interface fresh from its constructor (main.py runs `main` on one); from any other top menu `printMenuBody` raises KeyError, which is not modelled.
- `RequestHandler.Request`: its logger calls are recorded as notes and assumed not to raise. Its 'd' calls print in the logger's colour in verbose mode; the KeyError an unknown logger colour would raise there is not modelled. (`ImageSaver` names a known colour in every call, so its calls cannot raise.)
- main.py: it only wires objects together. config.py: its constants appear only as sample values in `Fetch.SampleSettingsDeadEndpoint`.
- `RequestHandler.dynamic_interval`: an empty stub.
- `RequestHandler.Conclude`: stores the exact elapsed time, not `round(..., 2)` of it.
- The redirect flag, timeout and headers are kept as configuration, but the GET oracle does not depend on them.
- `RequestHandler.Request`: requires `min_request_interval` and `delay_on_retry` to be numbers. Their default `None` makes the addition and `time.sleep` raise TypeError, which is not modelled.
- `RequestHandler.Request`: requires the oracle to list an outcome for every attempt the call can make (`max(max_retry, 0) < |net|`).
- The HTTP truthiness of a response is modelled as "status below 400 or at least 600", the rule `requests` applies.
- Exception texts and rounded numbers in messages are not kept in the logger-call traces. The console trace holds the coloured text of each line.
- `ImageSaver.CheckAnimated`: an image is its mode and the outcomes of its seeks. The pixel `copy()` is not modelled, so a failing `copy()` is not either; frames are kept as their indices.
- The text written to files and the real file system are not modelled. `os.makedirs`, log appends and `save` are outcome parameters.
- `os.path.join` is modelled for POSIX paths only.
