# greenlight: a Dafny model of the page layer and the browser session

greenlight drives a locally spawned Chromium through the Chrome DevTools
Protocol. This project models its two central files.

- **`pkg/page/page.go`**: `Page` and `Locator`, written only against the
  two-method `BrowserInterface`. Every element operation opens with the same
  poll loop: evaluate `document.querySelector(sel) !== null`, sleep 350 ms
  after an error or a `false`, and give up once more than 30 s have passed
  at the top of an attempt. Then it sends its commands and stops at the
  first failed send (except `TypeSequentially`, which ignores send errors).
- **`pkg/browser/browser.go`**: the `Browser` session. It covers the
  message-id counter, the lazy reconnect through `attachToPage`, the
  write-then-read loop that correlates a reply with its id, the choice of
  the first suitable page target, the launch arguments, `NewPage` and the
  early-returning teardown `RedLight`.

Modules, from the bottom up:

- `Basics`: `Option`, `Result` and a few sequence facts.
- `Json`: JSON values as Go's `encoding/json` decodes them into
  `interface{}` (numbers as `real`), and Go's `int(f)` truncation.
- `Capability`: `BrowserInterface` as a recording double, `Recorder`.
  - It answers the i-th command with the scripted reply `replies(i)`.
  - It records every command and every sleep.
  - Its clock is the sum of the sleeps taken.
  - `Chain` describes a run of sends that stops at the first refusal.
- `Commands`: the `Runtime.evaluate`, `Input.*`, `Page.*` and `Network.*`
  commands the page layer builds. The JavaScript in them is only a string.
- `Responses`: how the page layer takes apart `Runtime.evaluate` envelopes.
- `Typing`: the keystroke sequences of `Fill`, `TypeSequentially` and
  `TypeWithMistakes`. An idealised text field is provided to read them
  against.
- `Interaction`: the classes `Page` and `Locator`, as imperative methods
  over the `Recorder`.
- `Session`: the class `Browser`. Connections, processes, `GET /json`
  listings and websocket dials are values and scripted oracles. The
  teardown is described by a plan of steps and by the faults each step
  reports.

Behaviour of the code that the model keeps, though a reader might expect
otherwise:

- `RedLight` returns at the first failing step, and the later steps are not
  attempted. It is not a best-effort teardown that tries every step and
  reports the first error.
- `attachToPage` accepts a target with no `url` key at all, because a
  missing key reads as nil, which is not `""`.
- `TypeSequentially` ends the process through `log.Fatalf` on a timeout,
  and ignores send errors. The other element operations return a timeout
  error.
- A read error on the websocket is permanent. `conn` is never set back to
  nil after it, so the lazy reconnect never runs again. Every later
  `SendCommandWithResponse` on that session then fails, either at the write
  (typically, since the library's writes also fail on a broken socket) or,
  when the write still goes through, with the same read error. The model's
  writes do not fail after a read error, so it always shows the second.

Two places where the model departs from the code are deliberate, and both
are listed under Findings. First, `Interaction.Locator.InnerText` reads the
corrected two-level path; the code's one-level read is
`Responses.InnerTextAsWritten`. Second, `Session.Browser.RedLight`, through
`Session.Browser.StopProcess`, does not count the exit that its own kill
causes as a failure.

## Model

| member | source | states |
|---|---|---|
| Json.Trunc | pkg/page/page.go:344-345 | Go's `int(f)` truncates toward zero: the result is within one of `x`, on the side of zero |
| Capability.Recorder.constructor | pkg/page/page.go:14-17 | a fresh double with the given replies, no command sent and no sleep taken |
| Capability.Recorder.SendCommandWithoutResponse | pkg/page/page.go:15 | records the command as a non-awaiting call and returns the error of the scripted reply for its position; the clock does not move |
| Capability.Recorder.SendCommandWithResponse | pkg/page/page.go:16 | records the command as an awaiting call and returns the scripted reply for its position |
| Capability.Recorder.Sleep | pkg/page/page.go:268-288 | records one sleep, as the typing delays do (also at line 187, and the 350 ms poll sleeps); a negative duration counts as zero, as `time.Sleep` returns at once |
| Capability.Chain | pkg/page/page.go:43-58 | a run of n sends that stops at the first refusal: at most n are sent, all n when none is refused, and at least one when one is |
| Capability.ChainMeaning | pkg/page/page.go:97-122 | every reply before the last one sent was an answer; when the run stopped early, the last reply sent was the refusal it reports |
| Capability.ChainStops | pkg/page/page.go:97-122 | answers for the first i sends and a refusal at send i mean the run stops there, after i + 1 sends, with that refusal |
| Capability.ChainCompletes | pkg/page/page.go:97-122 | answers throughout mean the run sends everything and reports no error |
| Responses.ExistsValue | pkg/page/page.go:71-78 | `elementExists` succeeds exactly when `response["result"]["result"]["value"]` is a boolean, returns that boolean, and otherwise reports "unexpected response format" with the response |
| Responses.ProbeOutcome | pkg/page/page.go:66-78 | a send error is passed through unchanged; success requires an answer carrying a boolean at the two-level path |
| Responses.ProbeOutcomeFound | pkg/page/page.go:61-79 | the probe comes out `true` exactly on the replies that end a poll loop |
| Responses.HtmlValue | pkg/page/page.go:309-317 | `GetHtml` succeeds exactly when a string sits at the two-level path, returns it, and otherwise reports "unexpected response format" |
| Responses.StatusValue | pkg/page/page.go:342-350 | `GetHttpStatus` succeeds exactly when a number sits at the two-level path and returns it truncated toward zero; otherwise "unexpected response format" |
| Responses.InnerTextAsWritten | pkg/page/page.go:223-229 | as written, `InnerText` succeeds exactly when a string sits at the one-level path `response["result"]["value"]`; otherwise "unexpected response format for inner text" |
| Responses.InnerTextValue | pkg/page/page.go:223-229 | the corrected reading: success exactly when a string sits at the two-level path, with the same error otherwise |
| Responses.InnerTextAsWrittenRejectsEvaluateReply | pkg/page/page.go:223-229 | a well-formed `Runtime.evaluate` reply carrying a string is rejected by the as-written reading, while `GetHtml`'s reading of the same reply returns the string |
| Responses.InnerTextValueAcceptsEvaluateReply | pkg/page/page.go:212-229 | the corrected reading returns the string of a well-formed reply |
| Responses.InnerTextAgreesWithHtml | pkg/page/page.go:223-229 | the corrected reading accepts exactly the envelopes `GetHtml` accepts, with the same text |
| Typing.WrongLetter | pkg/page/page.go:261 | the mistaken letter `rand.Int31n(26) + 'a'` is in 'a'..'z' |
| Typing.Typed | pkg/page/page.go:183-186 | one `Input.insertText` per rune, in rune order, each carrying that rune |
| Typing.FillSteps | pkg/page/page.go:97-122 | the four commands of `Fill` once the element exists: the focus evaluation, `keyDown` "a" with modifiers 2, `keyDown` "Backspace", and one `Input.insertText` carrying the whole value |
| Typing.Keystrokes | pkg/page/page.go:260-286 | the commands for one rune: with a mistake drawn, an insertion of the wrong letter and the `rawKeyDown` Backspace first; then the insertion of the rune |
| Typing.MistypedFirst | pkg/page/page.go:259-289 | the commands for the first i runes, when every send succeeds: each rune's keystrokes, in rune order |
| Typing.Mistyped | pkg/page/page.go:259-289 | the commands `TypeWithMistakes` sends after the focus when every send succeeds: the keystrokes of all runes |
| Typing.MistypedFirstLength | pkg/page/page.go:259-289 | the first i runes take i commands plus two per mistake among them |
| Typing.MistypedLength | pkg/page/page.go:259-289 | n runes with k mistakes take n + 2k commands after the focus, 1 + n + 2k with it |
| Typing.MistypedFirstWithoutMistakes | pkg/page/page.go:259-289 | with no mistake among the first i draws, their commands are one insertion per rune |
| Typing.MistypedWithoutMistakes | pkg/page/page.go:183-186 | with no mistake drawn, `TypeWithMistakes` sends exactly the insertions `TypeSequentially` sends |
| Typing.MistypedGrows | pkg/page/page.go:259-289 | the commands for fewer runes are a prefix of the commands for more |
| Typing.KeystrokesAt | pkg/page/page.go:259-289 | rune i's keystrokes come right after the commands for the runes before it |
| Typing.MistypedAt | pkg/page/page.go:260-286 | rune i's insertion sits after i runes and two commands per earlier mistake; with a mistake it is preceded by a wrong letter in 'a'..'z' and a `rawKeyDown` Backspace with both virtual key codes 8 |
| Typing.EditsOfCommands | pkg/page/page.go:105-122 | on the idealised field, Ctrl+A selects everything, both Backspace events delete, an insertion appends its text and the focus changes nothing |
| Typing.ReplayAppend | pkg/page/page.go:97-122 | feeding two command sequences to the field is feeding the first, then the second |
| Typing.ReplayOne | pkg/page/page.go:97-122 | feeding one command is applying it |
| Typing.ReplayThree | pkg/page/page.go:97-122 | feeding three commands applies them in order |
| Typing.ReplayFill | pkg/page/page.go:97-122 | whatever the field held, `Fill`'s four commands leave exactly the value in it, unselected |
| Typing.ReplayThenInsert | pkg/page/page.go:184-186 | after commands that leave nothing selected, an insertion appends its rune to the text they left |
| Typing.ReplayTyped | pkg/page/page.go:183-188 | on a field with nothing selected, typing rune by rune leaves the field's text followed by the typed text, with nothing selected |
| Typing.ReplayKeystrokes | pkg/page/page.go:260-288 | on a field with nothing selected, one rune's keystrokes append that rune, mistake or not |
| Typing.ReplayThenKeystrokes | pkg/page/page.go:260-288 | after commands that leave nothing selected, one rune's keystrokes append that rune to the text they left |
| Typing.ReplayMistypedFirst | pkg/page/page.go:259-289 | on a field with nothing selected, the commands for the first i runes append those i runes |
| Typing.ReplayMistyped | pkg/page/page.go:259-289 | on a field with nothing selected, typing with mistakes leaves the field's text followed by the typed text, the same as typing without them: each wrong letter is erased at once |
| Interaction.MissedOneMore | pkg/page/page.go:91-95 | a further probe that does not find the element extends the run of misses |
| Interaction.Polled | pkg/page/page.go:86-95 | what a poll loop leaves: a found element was seen by the last probe, started within 30 s; a loop that gave up did so within one 350 ms interval past the deadline; every probe before the last (all of them, on a give-up) missed |
| Interaction.PolledOnHit | pkg/page/page.go:97 | a loop that finds the element on its last probe, within the deadline, has polled as specified |
| Interaction.PolledOnGiveUp | pkg/page/page.go:87-88 | a loop that sees more than 30 s elapsed, within one interval of the deadline, has polled as specified |
| Interaction.GiveUpAfterEightySixProbes | pkg/page/page.go:82-95 | a loop that never finds its element sends exactly 86 probes and sleeps 30 100 ms in all |
| Interaction.RuneExtends | pkg/page/page.go:259-289 | when a rune's keystrokes are refused, the whole typing run stops there with the right trace and sleeps; otherwise the run has got through them |
| Interaction.Page.constructor | pkg/page/page.go:28-30 | the page holds the capability it is given |
| Interaction.Page.Locator | pkg/page/page.go:32-37 | a fresh locator for this page and the selector |
| Interaction.Page.Goto | pkg/page/page.go:43-59 | sends `Page.enable`, `Network.enable` and `Page.navigate{url}` in order, stops at the first failure, and wraps that error with its step's context; no sleep |
| Interaction.Page.Refresh | pkg/page/page.go:320-325 | sends exactly one `Page.reload` and wraps its error |
| Interaction.Page.GetHtml | pkg/page/page.go:298-318 | sends one outer-HTML evaluation; a send error passes through unchanged, and an answer is read by `HtmlValue` |
| Interaction.Page.GetHttpStatus | pkg/page/page.go:327-351 | sends one navigation-timing evaluation; a send error is wrapped, and an answer is read by `StatusValue` |
| Interaction.Locator.constructor | pkg/page/page.go:33-36 | the locator holds its page and selector |
| Interaction.Locator.ElementExists | pkg/page/page.go:61-79 | sends one existence probe and returns `ProbeOutcome` of its reply, which is `Ok(true)` exactly when the reply ends a poll loop |
| Interaction.Locator.WaitForSelector | pkg/page/page.go:82-96 | errors and `false` only sleep 350 ms and retry; the loop ends on the first probe that finds the element within the deadline, or gives up within one interval past 30 s; the trace is that many probes and one sleep per miss |
| Interaction.Locator.Attempt | pkg/page/page.go:91-96 | one round of the poll loop: a probe, the hit decided by its reply, and a 350 ms sleep unless it hit |
| Interaction.Locator.Fill | pkg/page/page.go:81-127 | polls; on a timeout, the error naming the selector; once found, sends focus, Ctrl+A, Backspace and one insertion of the whole value, stopping at the first failed send and returning its error |
| Interaction.Locator.FillFound | pkg/page/page.go:97-122 | the four commands of `Fill` in order, stopping at the first failed send, with no sleep |
| Interaction.Locator.Click | pkg/page/page.go:129-160 | polls; on a timeout, the error naming the selector; once found, sends one click evaluation with `awaitPromise` through `SendCommandWithoutResponse`, not waiting for a reply, and wraps its error with the selector |
| Interaction.Locator.TypeSequentially | pkg/page/page.go:162-194 | polls; on a timeout, it aborts with the message naming the selector; once found, sends the focus and one insertion per rune in rune order whatever the replies, with a `delayMs` sleep after each |
| Interaction.Locator.InnerText | pkg/page/page.go:196-234 | polls; once found, sends one inner-text evaluation, wraps a send error with the selector, and reads an answer by the corrected `InnerTextValue` |
| Interaction.Locator.TypeWithMistakes | pkg/page/page.go:236-296 | polls; once found, sends the focus and each rune's keystrokes (with a mistake: a wrong letter and a Backspace first), with a sleep after each successful send past the focus, stopping at the first failed send |
| Interaction.Locator.TypeFoundWithMistakes | pkg/page/page.go:252-291 | the part of `TypeWithMistakes` after the element was found, stated against the whole planned command sequence |
| Interaction.Locator.TypeRuneAt | pkg/page/page.go:259-289 | one loop iteration within the whole typing run: a refusal ends the run where `Chain` says, and otherwise the run has got through the rune's keystrokes |
| Interaction.Locator.TypeRune | pkg/page/page.go:260-288 | one rune's keystrokes, each followed by a sleep, stopping at the first failed send |
| Interaction.Locator.Mistype | pkg/page/page.go:261-279 | a wrong letter, a sleep, the erasing Backspace, a sleep, stopping at the first failed send |
| Session.LaunchArgs | pkg/browser/browser.go:56-66 | exactly the five fixed entries in order, ending with the start URL, and a sixth `--headless=new` exactly when headless |
| Session.FirstSuitable | pkg/browser/browser.go:92-94 | the first target with `type` "page", `url` not `""` and a string `webSocketDebuggerUrl`; no earlier target qualifies |
| Session.Suitable | pkg/browser/browser.go:93-94 | the target filter: `type` is the string "page", `url` is not the string "" (a missing key passes) and `webSocketDebuggerUrl` is a string |
| Session.Attach | pkg/browser/browser.go:80-109 | one listing is consumed; on success the new open connection, with nothing written, is to the first suitable target's URL, which becomes the endpoint; with no suitable target, the result is "no suitable page found" with only the listing consumed; with a suitable target and an opened dial, the result is success, on a connection built from that dial, with the dial consumed; "no suitable page found" leaves connection, endpoint and dials unchanged; no failure changes the endpoint |
| Session.Reconnect | pkg/browser/browser.go:122-126 | an existing connection is kept as it is; without one, `attachToPage` runs, and success leaves a connection |
| Session.Write | pkg/browser/browser.go:128-130 | the write succeeds exactly on an open socket without a fault, and appends the frame |
| Session.Stop | pkg/browser/browser.go:132-146 | the read loop stops at the first read error or decoded frame whose numeric id truncates to the sent id; every earlier frame is discarded |
| Session.After | pkg/browser/browser.go:132-146 | what the read loop leaves on the connection: the frames after the matching one; after a read error, the error itself and everything after it, since the error is permanent; nothing once the frames ran out |
| Session.Heard | pkg/browser/browser.go:133-145 | what the read loop returns where it stops: the decoded frame carrying the id when it stopped at one, the read error with its reason when it stopped at one, and "unexpected EOF" when it ran out of frames; a success is always a decoded frame carrying the id |
| Session.ReadErrorPersists | pkg/browser/browser.go:133-136 | after a read error the connection still holds it: the next read loop, for any id, stops at once and reports the same error |
| Session.Plan | pkg/browser/browser.go:181-206 | the applicable teardown steps, ending with the cancel |
| Session.PlanShape | pkg/browser/browser.go:181-206 | the plan lists close, kill, wait, remove and cancel in that order, each present exactly when its resource is |
| Session.PlanOrdered | pkg/browser/browser.go:181-206 | the plan is in strictly increasing step order |
| Session.OrderedAppend | pkg/browser/browser.go:181-206 | two ordered runs split by a rank threshold make an ordered run |
| Session.Perform | pkg/browser/browser.go:181-206 | taking a plan step by step takes at most the plan, and a failure is a step taken |
| Session.PerformMeaning | pkg/browser/browser.go:181-206 | the steps taken are a prefix of the plan, all of it when nothing failed; every step before the last succeeded, and the error returned is the last step's |
| Session.PerformTakesPrefix | pkg/browser/browser.go:181-206 | the steps taken are a prefix of the plan, all of it without a failure |
| Session.PerformStopsAtFault | pkg/browser/browser.go:181-206 | the error returned is the last step's, and every earlier step succeeded |
| Session.PerformAppend | pkg/browser/browser.go:181-206 | taking two plans in a row is taking the first and, unless it failed, the second |
| Session.CancelOnlyLast | pkg/browser/browser.go:204 | in an ordered plan ending with the cancel, the cancel occurs only at the end |
| Session.OrderedPrefix | pkg/browser/browser.go:181-206 | a prefix of an ordered plan is ordered |
| Session.PerformCancelsIffClean | pkg/browser/browser.go:181-206 | taking an ordered plan that ends with the cancel reaches the cancel exactly when nothing failed, and keeps the order |
| Session.TakenCancelsIffClean | pkg/browser/browser.go:181-206 | the same for any teardown shaped as `PerformMeaning` says |
| Session.CancelReachedOnlyAtEnd | pkg/browser/browser.go:204 | a prefix of such a plan that holds the cancel is the whole plan |
| Session.StagedFollowsPlan | pkg/browser/browser.go:181-206 | the teardown as `RedLight` takes it, stage by stage, is the plan taken step by step up to the first failure |
| Session.CloseStagePerformed | pkg/browser/browser.go:182-186 | the closing stage is its planned step taken |
| Session.ProcessStagePerformed | pkg/browser/browser.go:188-196 | the process stage is its planned steps taken: a failed kill skips the wait |
| Session.DirStagePerformed | pkg/browser/browser.go:198-202 | the removal stage is its planned step taken |
| Session.PerformOne | pkg/browser/browser.go:181-206 | a one-step plan takes that step and reports its fault |
| Session.PerformTwo | pkg/browser/browser.go:188-196 | a two-step plan stops after the first step when it fails |
| Session.CancelExactlyWhenAllSucceeded | pkg/browser/browser.go:181-206 | the context is cancelled exactly when every applicable step succeeded, and the steps taken keep their order |
| Session.Staged | pkg/browser/browser.go:181-206 | the teardown as `RedLight` takes it: close, then kill and wait, then remove, each stage skipped when its resource is absent, with the first failing stage ending it and the cancel taken only when none failed; the `intended` flag selects whether the exit the kill causes counts as a failure (as written) or not (corrected) |
| Session.AsWrittenStopsAfterKill | pkg/browser/browser.go:188-196 | as written, tearing down a healthy session stops at `Wait` with "signal: killed": the directory is never removed and the context never cancelled |
| Session.IntendedCleansUp | pkg/browser/browser.go:181-206 | when the exit that the kill causes is not counted as a failure, a healthy session is torn down completely, with no error |
| Session.Browser.constructor | pkg/browser/browser.go:40-46 | the `Browser` literal: counter 0, no connection, no command, nothing written, and the id invariant holds |
| Session.Browser.Launch | pkg/browser/browser.go:55-78 | builds exactly `LaunchArgs`; a start error is reported with "failed to start browser: " and the connection state is untouched; otherwise the pid is recorded and `attachToPage` follows |
| Session.Browser.AttachToPage | pkg/browser/browser.go:80-109 | the loop over targets does what `Attach` describes |
| Session.Browser.Deliver | pkg/browser/browser.go:122-130 | reconnects when there is no connection; a failed reconnect writes nothing and is wrapped with "failed to reconnect ws: "; a failed write is wrapped with "failed to send ws message: "; only a successful write adds the frame to the history, which stays ascending |
| Session.Browser.Await | pkg/browser/browser.go:132-146 | reads frames until `Stop` and returns `Heard`; it consumes the frames it skipped and the matching frame, but leaves a read error at the head of the connection |
| Session.Browser.SendCommandWithoutResponse | pkg/browser/browser.go:149-172 | the counter goes up by exactly one and the frame carries the new value, even when the reconnect or the write fails; ids in the history stay ascending and never above the counter; the reconnect and write cases as in `Deliver` |
| Session.Browser.SendCommandWithResponse | pkg/browser/browser.go:110-147 | as `SendCommandWithoutResponse`; after a successful write, it returns the first frame carrying the new id, or the read error it stopped at, with its reason |
| Session.Browser.NewPage | pkg/browser/browser.go:174-179 | an error exactly when there is no connection, with the fixed message |
| Session.Browser.Disconnect | pkg/browser/browser.go:182-186 | closes an existing connection and reports its close error wrapped |
| Session.Browser.StopProcess | pkg/browser/browser.go:188-196 | kills a started process and waits for it, reporting a kill error wrapped, and the process's own exit error otherwise, except the exit the kill itself caused |
| Session.Browser.RemoveProfile | pkg/browser/browser.go:198-202 | removes a non-empty profile directory and reports a removal error wrapped |
| Session.Browser.RedLight | pkg/browser/browser.go:181-207 | takes the steps of `Staged` with the kill's own exit not counted as a failure; the connection ends closed, the directory is removed and the context cancelled exactly as those steps succeed |
| Session.GreenLight | pkg/browser/browser.go:36-53 | a new browser exactly when the process starts and the first attachment succeeds; it is then connected with counter 0; otherwise the launch error |

## Left out

- Real I/O is replaced by oracles: process start, kill and wait, `http.Get` and JSON decoding of `/json`, websocket dial, write and read, and `os.RemoveAll`. Each is a scripted outcome given to the model. The `Close` of the old connection inside `attachToPage` has its error ignored, as in the code.
- An exhausted script of inbound frames reads as the error "unexpected EOF", where a real socket would block. An exhausted script of listings or dials reads as "connection refused".
- Write and close errors of a closed socket are represented by the fixed text "use of closed network connection". The real texts depend on the websocket library.
- Session.Attach: the URL of `GET /json` and the port it is built from are not recorded, and the 1 s settle delay in `launch` is not modelled.
- Wall-clock time inside a send is not modelled: the page layer's clock advances only by its own sleeps, and `YellowLight` (a bare sleep) is not modelled.
- `sync.Mutex` around the counter is left out: the code is used sequentially, so the increment is treated as atomic.
- Session.Browser.SendCommandWithoutResponse: Go's `int` counter is modelled unbounded, so its wrap-around after 2^63 - 1 sends is left out.
- Json.Trunc: conversions of floats outside the range of `int`, NaN and infinities are left out; JSON numbers are exact reals here.
- `math/rand`: `rand.Float32() < 0.4` and `rand.Int31n(26)` are an injected sequence of draws, one per rune. The no-op seeding in `init` is not modelled.
- `log.Fatalf` in `TypeSequentially` is the result `Fatal(message)`, standing for a process that does not return.
- `os.TempDir`, `uuid` naming of the profile directory and `os.Getenv("DEBUG_PORT")` are parameters of the model.
- The context is modelled only by whether it was cancelled; `exec.CommandContext`'s kill on cancellation is not modelled.
- Session.Browser.NewPage returns the `Browser` itself as the handle: the model does not build a `Page` bound to the session, because the page layer is written against the recording double rather than against `Browser`.
- The JavaScript inside the expression strings is not interpreted; only the strings built from the selector are modelled.
- Typing.EditsOfCommands: the text field is an idealisation of what the keystrokes rely on (Ctrl+A selects, Backspace deletes, an insertion replaces the selection); it is not the browser's editing behaviour.
- Session.Browser.Await: `Conn.writeFault` is fixed when the socket is dialled, so a socket that breaks after some successful writes cannot be scripted; a read error does not make later writes fail either.
- Interaction.Locator.InnerText: it reads the corrected two-level path; the code's one-level read is `Responses.InnerTextAsWritten` (see Findings).
- Typing.Typed, Typing.Mistyped, Interaction.Locator.TypeSequentially, Interaction.Locator.TypeWithMistakes: Go's `range` over a string decodes UTF-8 and turns each invalid byte into U+FFFD; the model's `text` is already a sequence of characters, so text holding invalid UTF-8 cannot be expressed, and the per-rune commands are stated only for valid text.
- Session.Browser.RedLight: it models the corrected teardown (see Findings), and so does Session.Browser.StopProcess, whose contract is `ProcessStage(s, true)`; the as-written behaviour is `Session.Staged` with the kill's exit counted as a failure.

## Findings

| source | as written | input that shows it | evidently intended | confidence | as-written member | corrected member |
|---|---|---|---|---|---|---|
| pkg/page/page.go:223-229 | `InnerText` looks for a string at `response["result"]["value"]` | a well-formed reply `{"id": n, "result": {"result": {"type": "string", "value": "hi"}}}`, the shape `GetHtml` reads at lines 309-317 | read `response["result"]["result"]["value"]`, as the other evaluations do | not executed | Responses.InnerTextAsWrittenRejectsEvaluateReply | Responses.InnerTextValueAcceptsEvaluateReply |
| pkg/browser/browser.go:188-196 | `RedLight` returns the error of `Wait` after a successful `Kill` | a healthy session whose browser is still running: the kill makes `Wait` report "signal: killed" | treat the exit caused by the kill as success, then remove the profile directory and cancel the context | not executed | Session.AsWrittenStopsAfterKill | Session.IntendedCleansUp |

The second row has a consequence beyond `RedLight` itself. A healthy
session never reaches `os.RemoveAll` or `cancel`, so every session whose
browser is still running at the teardown leaks its profile directory. `Session.Browser.RedLight` implements the corrected
teardown. `Session.CancelExactlyWhenAllSucceeded` holds for both readings.
