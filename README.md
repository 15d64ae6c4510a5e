# EasyDict trigger servers, modelled in Dafny

EasyDict trigger is a small local HTTP server that turns a request such as
`GET /?text=hello%20world` into an EasyDict lookup on macOS. It comes in three
independent variants: Rust (`src/main.rs`), Python (`url_converter.py`) and
Go (`easydict_server.go`). Each variant takes the `text` value from the query.
Python and Go answer 400 when the value is empty or missing; Rust answers 400
only when no `text` pair can be read from the request line (an empty request,
a first line of fewer than two tokens, a target the URL library rejects, or a
query without `text`), and looks up an empty value like any other. Otherwise
the server does these steps in order:

1. Presses the key chord that pins the currently focused window (the Python
   variant first asks for the pointer position).
2. Opens `easydict://query?text=<encoded word>` and waits one second.
3. For a text of two or more whitespace-separated tokens, activates EasyDict,
   sends a second key chord and waits seven seconds.
4. Presses the chord that switches back to the pinned window (the Python
   variant then runs a script meant to move the pointer back; see Findings).
5. Answers 200.

The three variants are modelled separately, because they differ in:
- which `text` value they pick;
- which characters count as whitespace;
- which failures of an external command end the handler.

The model is split into these files:

- `text.dfy`, modules `Options` and `Text`:
  - whitespace as each standard library defines it (the Unicode White_Space
    property for Rust and Go; Python's `str.isspace`, which adds
    U+001C..U+001F);
  - tokenising (`split_whitespace`, `str.split()`, `strings.Fields`);
  - `str.strip()` and `str.split(sep)`.
- `query.dfy`, module `Query`: picking a value out of the decoded
  (name, value) pairs of a query string.
- `desktop.dfy`, module `Desktop`: the desktop and the connection as a trace of
  requests.
  - Every external command (an `osascript` run, opening the URL, the pointer
    query) appends the actions it asks for. So do sleeping and writing the
    response.
  - A function `answer` says how each command ends: `Done`, `Failed` (it ran
    and reported failure) or `SpawnFailed` (it could not be started).
  - A handler is specified by a plan of steps. Each external step carries the
    outcomes that end that variant's handler (a panic, an uncaught
    exception).
  - `Run(plan, answer)` is the trace the plan produces. It stops right after
    the first step that ends the handler.
  - The class `Env` holds the trace. Its methods are the calls the handlers
    make.
- `rust_server.dfy`, module `RustServer`: `parse_word_from_request` and the
  branch `main` runs for each connection.
- `python_server.dfy`, module `PythonServer`: `RequestHandler.do_GET` and its
  helpers. The handler uses the pointer capture as written (see Findings);
  the corrected capture is defined beside it, with what it would restore.
- `go_server.dfy`, module `GoServer`: `handler` and its helpers.
- `variants.dfy`, module `Variants`: where the three variants agree and where
  they differ.

Each handler method is proved to leave
`trace == old(trace) + Run(Plan(...), answer)`. The lemmas then prove what
`Run` of the plan does:
- which response is written;
- whether focus is given back;
- whether the pointer is restored;
- how failures cut the trace short.

The library calls the servers make are parameters of the model:
- URL parsing, query-pair decoding and percent-encoding (`Url::parse` with
  `query_pairs`, `urllib.parse`, `url.Parse` with `Query`, `urlencoding::encode`,
  `urllib.parse.quote`, `url.QueryEscape`);
- what the pointer query prints.

## Model

| member | source | states |
|---|---|---|
| Text.IsSpace | src/main.rs:27 | within ASCII, whitespace is tab, line feed, vertical tab, form feed, carriage return and space for every variant, and Python's `str.split()` adds U+001C..U+001F |
| Text.NonAsciiSpacesShared | src/main.rs:27 | above ASCII, Python's whitespace and the Unicode White_Space of Rust and Go are the same characters |
| Text.Fields | src/main.rs:27 | every token `split_whitespace` yields is non-empty and holds no whitespace |
| Text.WordCount | easydict_server.go:86 | no tokens exactly when the text is all whitespace; two or more exactly when whitespace separates two non-whitespace characters |
| Text.FieldsKeepText | src/main.rs:27 | joining the tokens back together gives exactly the non-whitespace characters of the text, in order |
| Text.NoFieldsIffBlank | easydict_server.go:86 | there are no tokens exactly when the text is all whitespace |
| Text.TwoFieldsIffGap | url_converter.py:27 | there are at least two tokens exactly when whitespace separates two non-whitespace characters |
| Text.FieldsIgnorePadding | url_converter.py:27 | whitespace added around a text never changes its tokens |
| Text.PaddedWordCount | src/main.rs:27 | one token padded with whitespace on both sides counts as one token |
| Text.Strip | url_converter.py:52 | `strip()` keeps one contiguous piece of the input, with only whitespace around it, and the piece neither starts nor ends with whitespace |
| Text.TrimStart | url_converter.py:52 | the removed prefix is all whitespace and what is left does not start with whitespace |
| Text.TrimEnd | url_converter.py:52 | the removed suffix is all whitespace and what is left does not end with whitespace |
| Text.StripPadded | url_converter.py:52 | stripping a text padded with whitespace gives the text back, if it has no whitespace at either end |
| Text.SplitOn | url_converter.py:52 | `split(sep)` gives at least one piece, and no piece holds the separator |
| Text.JoinSplitOn | url_converter.py:52 | joining the pieces of `split(sep)` with the separator gives the input back |
| Text.SplitOnJoin | url_converter.py:52 | splitting pieces joined with a separator they do not contain gives the pieces back |
| Query.FirstValue | src/main.rs:48-54 | None exactly when no pair is named `text`; otherwise the value of the first such pair |
| Query.DropBlank | url_converter.py:10 | membership: `parse_qs` keeps exactly the pairs whose value is not empty (their order is stated by the next two rows) |
| Query.DropBlankOne | url_converter.py:10 | a single pair is kept exactly when its value is not empty |
| Query.DropBlankAppend | url_converter.py:10 | dropping blanks distributes over concatenation, so the kept pairs keep their original order |
| Query.FirstFilled | url_converter.py:10-11 | None exactly when every `text` value is empty; otherwise the first non-empty one |
| Query.DropBlankThenFirst | url_converter.py:10-11 | dropping blank values and then taking the first `text` value is the same as taking the first non-empty `text` value |
| Desktop.RunIsPrefix | src/main.rs:20-41 | a handler cut short issues a prefix of its planned requests, and all of them when nothing ends it |
| Desktop.RunStopsAt | src/main.rs:24 | the trace stops right after the first step that panics or raises |
| Desktop.RunSameAborts | url_converter.py:70 | two failure patterns that end the handler at the same steps give the same trace |
| Desktop.CompletedRestoresFocus | easydict_server.go:81-91 | a lookup that no step stops switches back after every pin (shared by the Rust and Go lookups) |
| Desktop.CompletedLeavesPointer | easydict_server.go:80-95 | such a lookup never queries or moves the pointer |
| Desktop.Env.Call | easydict_server.go:28 | an external command appends the actions it asks for, and its outcome is the one the outside world gives for them |
| Desktop.Env.AskPointer | url_converter.py:51 | the pointer query is appended; when it succeeds, what it printed is the pointer report |
| Desktop.Env.Pause | src/main.rs:25 | a sleep is appended to the trace |
| Desktop.Env.Reply | src/main.rs:34-36 | the response (status, content type, body) is appended to the trace |
| RustServer.LineEnd | src/main.rs:46 | the first line feed's index, or the length: no line feed comes before it |
| RustServer.RequestTarget | src/main.rs:46 | missing exactly for an empty request or a first line of fewer than two tokens; otherwise a non-empty token without whitespace |
| RustServer.FirstLine | src/main.rs:46 | `lines().next()`: None exactly for the empty request; otherwise a prefix of the request holding no line feed |
| RustServer.ParseWord | src/main.rs:45-55 | None for the empty request and for a first line of fewer than two tokens; a word it returns is the value of the first `text` pair of the parsed target |
| RustServer.RequestTargetIsSecondToken | src/main.rs:46 | for a request line `method target rest`, with any run of whitespace other than a line feed after the method, the target is the second token, whatever the method, the version and the later lines |
| RustServer.ParseWordIsFirstText | src/main.rs:48-54 | with a parsed target, None exactly when no pair is named `text`; otherwise the first `text` value |
| RustServer.UnparsableTargetIsRejected | src/main.rs:47 | a target that `Url::parse` rejects gives None |
| RustServer.EmptyTextParses | src/main.rs:45-55 | a request for `/?text=` parses to the empty word |
| RustServer.TextPairParses | src/main.rs:48-51 | a target read as one `text` pair with an empty value gives the empty word |
| RustServer.Plan | src/main.rs:20-41 | every plan ends with the response step, the 400 exactly when no word was parsed; a lookup pins the window first |
| RustServer.EmptyWordIsAccepted | src/main.rs:20-36 | the empty word is looked up by the short path and answered 200 |
| RustServer.RecordCurrentWindow | src/main.rs:57-79 | issues the pin chord; panics exactly when osascript cannot be started |
| RustServer.HandleSpecialCases | src/main.rs:81-104 | issues the activate-and-press script; panics exactly when osascript cannot be started |
| RustServer.SwitchBackToPreviousWindow | src/main.rs:106-128 | issues the switch-back chord; panics exactly when osascript cannot be started |
| RustServer.SlowPathIfNeeded | src/main.rs:27-30 | the trace is the slow path's run, and it reports a panic exactly when that run is cut short |
| RustServer.OpenLookup | src/main.rs:22-25 | pins, opens the URL (`unwrap` panics on any error), sleeps 1 s; it reports a panic exactly when these are cut short |
| RustServer.FinishLookup | src/main.rs:32-36 | switches back, then answers 200 unless the switch-back panicked |
| RustServer.Lookup | src/main.rs:20-36 | the trace is the run of the lookup plan under the given outcomes |
| RustServer.HandleConnection | src/main.rs:19-41 | the trace is the run of the connection's plan: 400 for an unparsed request, otherwise the lookup |
| RustServer.BadRequestOnlyResponds | src/main.rs:37-41 | an unparsed request is answered 400 with "Missing query text." and nothing else is issued |
| RustServer.SlowPathIffGap | src/main.rs:27 | the slow path is taken exactly when whitespace separates two tokens of the word |
| RustServer.PaddedWordTakesShortPath | src/main.rs:27 | one token padded with whitespace takes the short path |
| RustServer.LookupWithoutPanic | src/main.rs:20-36 | when osascript always starts and the URL opens, every step is issued in order and focus is given back |
| RustServer.OpenFailureLeavesFocus | src/main.rs:24 | a failed URL open panics: only the pin and the open are issued, focus is not given back and no response is written |
| RustServer.RecordFailureStopsAtOnce | src/main.rs:74-78 | when osascript cannot be started for the pin chord, nothing else is issued |
| PythonServer.QueryText | url_converter.py:10-11 | "" exactly when every `text` value is empty; otherwise the first non-empty `text` value |
| PythonServer.CaptureFields | url_converter.py:52 | the code as written: at least one piece, and no piece holds a blank |
| PythonServer.CaptureFieldsKeepsComma | url_converter.py:52 | as written, the output "x, y" is captured as ["x,", "y"], so the first coordinate keeps the comma |
| PythonServer.StripReport | url_converter.py:52 | stripping the output "x, y\n" leaves "x, y" |
| PythonServer.StripLeadingBlank | url_converter.py:52 | stripping the second piece " y" of the corrected split gives "y" |
| PythonServer.CapturePointRoundTrip | url_converter.py:52 | the corrected capture gives exactly ["x", "y"] for the output "x, y\n" |
| PythonServer.AsWrittenMovesToComma | url_converter.py:52 | as written, a lookup whose pointer query prints "x, y" moves the pointer to "x," and "y", and never to `x`, `y` |
| PythonServer.CorrectedCaptureRestores | url_converter.py:52 | with the corrected capture, the same lookup moves the pointer back to exactly `x`, `y` |
| PythonServer.GetMousePosition | url_converter.py:39-52 | issues the pointer query; raises exactly on a failed or unstarted osascript; otherwise returns line 52's split of what it printed |
| PythonServer.RestoreStep | url_converter.py:125 | with two or more parts, a move to the first two, raising only when osascript cannot start; with fewer, IndexError whatever happens and nothing issued |
| PythonServer.RecordCurrentWindow | url_converter.py:54-70 | issues the pin chord; raises only when osascript cannot be started |
| PythonServer.HandleSpecialCases | url_converter.py:72-89 | issues the activate-and-press script; raises only when osascript cannot be started |
| PythonServer.SwitchBackToPreviousWindow | url_converter.py:91-107 | issues the switch-back chord; raises only when osascript cannot be started |
| PythonServer.RestoreMousePosition | url_converter.py:109-127 | moves the pointer to the first two parts; with fewer than two parts it raises IndexError and issues nothing |
| PythonServer.OpenLookup | url_converter.py:22-25 | pins, opens the URL (failure ignored), sleeps 1 s; it reports an exception exactly when these are cut short |
| PythonServer.SlowPathIfNeeded | url_converter.py:27-29 | the trace is the slow path's run, and it reports an exception exactly when that run is cut short |
| PythonServer.FinishLookup | url_converter.py:31-37 | switches back, restores the pointer, answers 200, stopping at the first exception |
| PythonServer.ContinueLookup | url_converter.py:22-37 | the trace is the run of everything after the capture |
| PythonServer.Lookup | url_converter.py:20-37 | the trace is the run of the lookup plan, pointer query first, with line 52's split of the report handed to the restore |
| PythonServer.DoGet | url_converter.py:8-37 | the trace is the run of `do_GET`'s plan: 400 for a blank word, otherwise the lookup |
| PythonServer.Plan | url_converter.py:8-37 | every plan ends with the response step, the 400 exactly for a blank word; a lookup queries the pointer first and hands line 52's split of the report to the restore step |
| PythonServer.BlankTextOnlyResponds | url_converter.py:13-18 | a blank word is answered 400 with "Missing query text." and nothing else is issued |
| PythonServer.CaptureComesFirst | url_converter.py:21 | the pointer query comes first, and when it fails nothing else is issued |
| PythonServer.RunBeforeRestore | url_converter.py:21-31 | when the capture succeeds and every osascript starts, every step up to the switch back is issued, whatever the scripts and the browser report |
| PythonServer.LookupWithoutRaise | url_converter.py:20-37 | under the same conditions the trace is complete; with fewer than two parts it stops after the switch back with no response |
| PythonServer.LookupRestores | url_converter.py:21-32 | a completed lookup whose restore moves the pointer to `x`, `y` switches back after every pin and follows every pointer query with that move |
| PythonServer.OnlySpawnFailuresMatter | url_converter.py:22-32 | after the capture, only commands that cannot be started change the trace |
| GoServer.Plan | easydict_server.go:70-96 | an unparsed URL issues nothing and ends the handler; otherwise the plan ends with the response step, the 400 exactly for a blank word, and a lookup pins the window first |
| GoServer.QueryGet | easydict_server.go:73 | "" exactly when there is no `text` pair or the first one is blank; otherwise the value of the first `text` pair |
| GoServer.RecordCurrentWindow | easydict_server.go:12-29 | issues the pin chord, ignoring its error |
| GoServer.HandleSpecialCases | easydict_server.go:31-49 | issues the activate-and-press script, ignoring its error |
| GoServer.SwitchBackToPreviousWindow | easydict_server.go:51-68 | issues the switch-back chord, ignoring its error |
| GoServer.Lookup | easydict_server.go:80-95 | issues pin, open, sleep 1 s, the slow path for two or more tokens, switch back and 200, in order |
| GoServer.Handler | easydict_server.go:70-96 | the trace is the run of the handler's plan for the re-parsed query |
| GoServer.LookupIgnoresAnswers | easydict_server.go:80-95 | however the commands end (given that they return), a lookup issues every step |
| GoServer.BlankTextOnlyResponds | easydict_server.go:75-78 | a blank word gets only a 400 plain-text "Missing query text.\n" |
| GoServer.UnparsedUrlIssuesNothing | easydict_server.go:71-72 | when `url.Parse` fails, the nil URL panics before anything is issued |
| GoServer.HandlerInvariants | easydict_server.go:70-96 | for every query and every outcome of commands that return, focus is given back and the pointer is untouched |
| Variants.SameWordWhenFirstFilled | src/main.rs:48-54 | when the first `text` value is non-empty, all three variants look up that value |
| Variants.EmptyValueDivergence | url_converter.py:10-13 | `?text=`: Rust looks up the empty word, Python and Go answer 400 |
| Variants.LaterValueDivergence | url_converter.py:10-11 | `?text=&text=foo`: Python looks up "foo", Rust looks up "", Go answers 400 |
| Variants.SeparatorDivergence | url_converter.py:27 | "a\U{1F}b" takes the slow path in Python only |
| Variants.RustMatchesGoWithoutFailures | easydict_server.go:80-95 | when every command succeeds, Rust and Go issue the same lookup trace |
| Variants.PythonExtendsGoWithoutFailures | url_converter.py:20-37 | when every command succeeds and both count the same tokens, Python issues Go's trace with the pointer query in front and the pointer move before the 200 |

## Left out

- External commands are assumed to return. None of the three programs puts a
  time-out on `Command::output()`, `check_output`, `subprocess.run`,
  `webbrowser.open` or Go's `Run()`, and one that never returns blocks the
  handler before the switch back and the response. Every property here is
  about handlers whose commands return.
- Sockets and HTTP framing are not modelled:
  - the Rust server's single 1024-byte read, its lossy UTF-8 decoding and the trailing NUL padding;
  - the request parsing of `BaseHTTPRequestHandler` and `net/http`.
  The Rust model takes the decoded request text as a parameter. The Python
  and Go models take the query's decoded pairs.
- A write or flush error on the connection is not modelled (Rust `unwrap` on
  lines 35-36 and 39-40). The response is recorded as issued.
- Response headers other than the content type are left out:
  - the status reason phrases;
  - `X-Content-Type-Options`, which `http.Error` adds;
  - Python's `Server` and `Date` headers.
- A Rust panic ends the whole server loop, not just the connection. The model
  stops at the end of the connection's trace and says nothing about later
  connections.
- URL parsing, query decoding and percent-encoding are parameters, because
  they are library code (`url`, `urlencoding`, `urllib.parse`, `net/url`).
  This includes Go's `r.URL.String()` re-serialisation.
- The AppleScript bodies are not interpreted. Each script is the key chord or
  activation it requests, and the pointer query is the text it prints.
- `webbrowser.open` and the `webbrowser` crate are not modelled beyond
  succeeding or failing.
- `time.sleep` and `sleep` are recorded as actions, without real time.
- Concurrent requests are not modelled (the Go server's goroutines and the
  single-threaded Rust and Python loops alike).
- A non-UTF-8 pointer report raises UnicodeDecodeError in Python
  (`result.decode('utf-8')`). This is not modelled, because the report is a
  string.
- Python's `run`, Go's `main` and the bind/accept loop of Rust's `main`
  (binding port 8080, printing the start message) are not modelled. The
  per-connection branch of Rust's `main` is `RustServer.HandleConnection`.

## Findings

| source | as written | input that shows it | evidently intended | confidence | as-written member | corrected member |
|---|---|---|---|---|---|---|
| url_converter.py:52 | the osascript output is stripped and split on single spaces | the AppleScript list `{123, 456}`, which osascript prints as "123, 456\n", is captured as ["123,", "456"], so `restore_mouse_position` builds `restoreMousePosition(123,, 456)` and the pointer is never moved back | split at the comma between the two coordinates and strip each one, giving ["123", "456"] | not executed | PythonServer.AsWrittenMovesToComma | PythonServer.CorrectedCaptureRestores |
