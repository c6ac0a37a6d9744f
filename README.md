# FPP web control gateway: a Dafny model of its request layer

The gateway is a small Express server. It serves a touch control page and
forwards two kinds of POST request to a Falcon Player (FPP) lighting device
over the device's GET-based HTTP API:

- `POST /api/sequence/:name/start` stops the current sequence, then starts the named one.
- `POST /api/command-preset/:slot` triggers a command-preset slot. Slot `1` (fade out) also
  schedules a timer. When the timer fires, it stops the current sequence and triggers slot `3`.

This project models the decision logic of that layer and proves properties of it:

- the two path-parameter guards;
- the URLs each step sends, and their order;
- the early exit when an awaited call throws;
- how a device outcome becomes the public status and body;
- the timer follow-up, as a queue;
- the control page's eight-tile label padding and its `hashToHue` colour hash;
- the error middleware's defaults.

Modules, one file each:

- `Validation` (validation.dfy): the name guard `^[A-Za-z0-9._\s-]+$` and the slot guard `^[0-9]+$`.
  Each pattern is modelled as a greedy anchored matcher and proved equal to "non-empty, and every
  character in the class". `\s` is JavaScript's set: the ECMAScript WhiteSpace and LineTerminator
  code points (tab, LF, VT, FF, CR, space, U+00A0, U+1680, U+2000 to U+200A, U+2028, U+2029,
  U+202F, U+205F, U+3000, U+FEFF).
- `Device` (device.dfy): the device URLs, and the `Reply` of one awaited `fetch`. A reply is
  either a response (a status, and a body text that may be unreadable) or a thrown error (its
  name and message). The device is an oracle `(history, url) -> Reply`, so the answer may depend
  on every earlier call.
- `Responses` (responses.dfy): the public response for one device outcome. A 2xx status gives 200
  with the body text, or `OK` when the text is empty. Any other status gives 502
  `{error, status, body}`. A thrown error gives 504 when its name is `TimeoutError` or its message
  contains `abort` in any letter case, and 500 otherwise.
- `Handlers` (handlers.dfy): pure descriptions of each helper, each handler and the timer
  callback. Each gives the calls issued, the follow-ups queued and the response sent.
- `Gateway` (gateway.dfy): a class whose methods perform those steps. Every outbound call is
  appended to `trace`. Every scheduled timer waits in `pending` until `FireNextTimer` runs it.
  The handler and timer methods (`StartSequence`, `PostSequenceStart`, `PostCommandPreset`,
  `FireNextTimer`) are proved to agree with their functions in `Handlers`. The single-call
  helpers (`Fetch`, `StopCurrentSequence`, `SendCommandPreset`) are proved to append their
  `Device` URL and return the oracle's reply to it.
- `ControlPage` (control_page.dfy): the `/` route's label padding and the client's `hashToHue`.
  `hashToHue` is a loop over UTF-16 code units, proved equal to a fold reduced modulo 2^32. While
  `h < 2^32`, `h * 31 + unit` stays below 2^53, so the client's floating-point arithmetic is exact
  and `>>> 0` is exactly reduction modulo 2^32.
- `ErrorHandler` (error_handler.dfy): `err.status || 500` and `err.message || 'Internal Server Error'`.

`encodeURIComponent` is a parameter of the gateway (`encode`) and is never interpreted.
`config.FPPUrl` is a parameter too (`base`).

The configured tile entries in src/lib/config.ts are objects `{name, type}`, not strings, and the
page renders each one with `String(label)`. The model keeps that behaviour.
`ControlPage.RepositoryTilesAreRejected` proves what follows from it. Every one of the eight tiles
shows `[object Object]`. Tapping a tile posts that text as a sequence name. The start route
refuses that name with 400, because `[` is outside its character class, so none of the eight
sequence tiles ever reaches the device. The four command-preset tiles (Fade Out, Fade In, On,
Off) post their slot numbers and are unaffected.

Three facts about the code shape the model:

- The gateway has exactly two POST routes, the sequence start and the command preset
  (src/app.ts:248, src/app.ts:269). It has no playlist, stop-all or generic-command route, and
  no table of per-command URL suffixes.
- The start handler checks how the stop call ended only by whether it threw
  (src/app.ts:226). A non-2xx stop response does not prevent the start call. A thrown stop
  (a timeout or a network error) is rethrown before the start is sent.
- A thrown error counts as a timeout when its name is `TimeoutError`, and also when its message
  contains `abort` in any letter case (src/app.ts:265).

## Model

| member | source | states |
|---|---|---|
| Validation.ClassRunCharacterises | src/app.ts:251 | the greedy `[C]+` run covers exactly the prefix up to the first character outside the class |
| Validation.AnchoredPlusTestIff | src/app.ts:251 | `/^[C]+$/.test(s)` holds iff `s` is non-empty and every character is in `C` |
| Validation.ValidSequenceNameIff | src/app.ts:250-254 | a name is accepted iff it is non-empty and made only of letters, digits, `.`, `_`, `-` and JavaScript whitespace |
| Validation.ValidSlotIff | src/app.ts:271-275 | a slot is accepted iff it is non-empty and made only of ASCII decimal digits |
| Validation.EmptyCheckRedundant | src/app.ts:272 | the `!name` / `!slot` halves of the guards never change the verdict of the pattern |
| Device.StartAndStopUrlsDiffer | src/app.ts:216-233 | the start URL never equals the stop-current URL, whatever `encodeURIComponent` returns |
| Device.PresetUrlInjective | src/app.ts:235-244 | two preset slots reach the same URL iff they are the same slot string |
| Responses.MentionsAbortIff | src/app.ts:265 | the scan for `/abort/i` succeeds iff `abort` occurs somewhere in the message, ignoring ASCII case |
| Responses.ErrorToString | src/app.ts:266 | `String(err)` of an Error is empty iff both its name and its message are, and always ends with the message |
| Responses.ErrorMessage | src/app.ts:266 | the reported message is the error's message when non-empty, otherwise `String(err)`, which is then exactly its name |
| Responses.RespondTo | src/app.ts:256-266 | 200 iff the device answered 2xx, with the body text or `OK` when it is empty or unreadable; 502 iff it answered otherwise, carrying the upstream status and text; 504 or 500 for a thrown error by the timeout test, the body carrying the error message |
| Responses.TimeoutClassification | src/app.ts:263-266 | a thrown error yields 504 iff its name is `TimeoutError` or its message contains "abort" in any case |
| Responses.EmptyBodyLooksLikeOk | src/app.ts:257-262 | an empty, an unreadable and a literal `OK` 2xx body give the same public response |
| Responses.ResponseDeterminesReply | src/app.ts:256-262 | for non-empty device bodies, the public response determines the body text, whether the status was 2xx, and a non-2xx status |
| Handlers.StartSequenceEffect | src/app.ts:225-233 | `startSequence` sends stop-current first, then the start URL iff the stop did not throw; it yields the stop's error or the start's reply |
| Handlers.SequenceStartSpec | src/app.ts:248-268 | an invalid name gives 400 `Invalid sequence name` with no call; a valid one sends stop then start (start skipped only if stop threw), schedules nothing, and answers the last call's mapped outcome |
| Handlers.CommandPresetSpec | src/app.ts:269-301 | an invalid slot gives 400 `Invalid slot number` with no call; a valid one sends exactly the preset URL with the raw slot, answers its mapped outcome, and queues one follow-up iff the slot is `"1"` and the call did not throw |
| Handlers.FollowUpCalls | src/app.ts:281-285 | the timer sends stop-current, then slot 3 iff the stop did not throw |
| Handlers.FadeOutSendsThreeCalls | src/app.ts:278-285 | against a device that never throws, slot 1 and its timer send slot 1, stop-current and slot 3, in that order, whatever ran in between |
| Handlers.OnlySlotOneSchedules | src/app.ts:278-288 | any slot other than the exact string `"1"` schedules nothing |
| Handlers.StopPrecedesStart | src/app.ts:225-229 | where a start call appears in the start handler's calls, it is the second one and the first is stop-current |
| Gateway.Gateway.Fetch | src/app.ts:219-222 | one outbound GET: appends the URL to the trace and returns the device's reply to it |
| Gateway.Gateway.StopCurrentSequence | src/app.ts:216-223 | appends the stop-current URL and returns its reply |
| Gateway.Gateway.StartSequence | src/app.ts:225-233 | the trace grows by exactly the calls of `StartSequenceEffect`, and the reply is its reply |
| Gateway.Gateway.SendCommandPreset | src/app.ts:235-244 | appends the preset URL for the slot and returns its reply |
| Gateway.Gateway.PostSequenceStart | src/app.ts:248-268 | trace, pending queue and response move exactly as `SequenceStartSpec` says |
| Gateway.Gateway.PostCommandPreset | src/app.ts:269-301 | trace, pending queue and response move exactly as `CommandPresetSpec` says |
| Gateway.Gateway.FireNextTimer | src/app.ts:281-285 | with no pending timer nothing changes; otherwise the oldest is removed and the trace grows by its `FollowUpCalls` |
| Gateway.TwoFadeOuts | src/app.ts:278-285 | two slot-1 requests queue two follow-ups (no deduplication) and send slot 1 twice |
| ControlPage.PlaceholderLabel | src/app.ts:94 | the placeholder for tile `i` is `seq` followed by the digit of `i + 1` |
| ControlPage.Tiles | src/app.ts:92-94 | exactly eight tiles; tile `i` is the `i`-th configured entry iff it exists and is truthy, otherwise the placeholder `seq{i+1}`; a non-array configuration counts as empty |
| ControlPage.NotArrayGivesPlaceholders | src/app.ts:92 | a configuration that is not an array renders `seq1` ... `seq8` |
| ControlPage.ExtraLabelsIgnored | src/app.ts:94 | entries past the eighth never affect the tiles |
| ControlPage.PlaceholdersDistinct | src/app.ts:94 | the eight placeholders are pairwise different |
| ControlPage.RepositoryTileText | src/app.ts:94-99 | with the configured object entries, every one of the eight tiles reads `[object Object]` |
| ControlPage.ObjectTextIsInvalidName | src/app.ts:251 | `[object Object]` fails the sequence-name guard |
| ControlPage.RepositoryTilesAreRejected | src/app.ts:248-254 | posting the text of any configured tile is refused with 400 `Invalid sequence name`, with no device call and nothing scheduled |
| ControlPage.CharUnits | src/app.ts:148 | a character in the Basic Multilingual Plane is the one code unit equal to it; any other is a high surrogate then a low surrogate that decode back to it |
| ControlPage.Utf16 | src/app.ts:147 | a string has between one and two code units per character |
| ControlPage.Utf16Append | src/app.ts:147-148 | the code units of `a + b` are those of `a` followed by those of `b` |
| ControlPage.RollingHash | src/app.ts:146-149 | the folded hash always fits in 32 bits |
| ControlPage.HashToHue | src/app.ts:145-151 | the loop returns the 32-bit fold of the code units modulo 360, so the hue lies in [0, 360) |
| ErrorHandler.StatusOf | src/middlewares/errorHandler.ts:16 | the status is `err.status` when present and non-zero, otherwise 500; never 0 |
| ErrorHandler.MessageOf | src/middlewares/errorHandler.ts:17 | the message is `err.message` when non-empty, otherwise `Internal Server Error`; never empty |
| ErrorHandler.HandleError | src/middlewares/errorHandler.ts:16-24 | the body is `{error: {message, status}}` with the defaulted message, and the body's status equals the status passed to `res.status` |
| ErrorHandler.HandleErrorDeterminedByDefaults | src/middlewares/errorHandler.ts:16-24 | two errors get the same response iff their defaulted status and message agree |

## Left out

- CORS and request-logging middleware (src/app.ts:11-20): header plumbing only. Line 13 overrides line 12, so the origin is always `http://localhost:8080`.
- `GET /version` and the `/test` page: constant text.
- HTML, CSS and browser event handlers of both pages, except the arithmetic of `hashToHue`. Tile colours are constants: lightness 46, so the foreground is `#fff` and the pressed lightness is 36.
- `fetch` itself, `AbortSignal.timeout(5000)` and the 5000 ms delay of `setTimeout`: network and clock behaviour. A timeout appears only as a thrown error the device oracle may return. The moment a timer fires is chosen by whoever calls `FireNextTimer`.
- Interleaving: each handler and each timer callback runs as one atomic step. In the server, other requests can run between the awaited calls of one handler or of the follow-up.
- A follow-up whose stop call or slot-3 call throws returns a rejected promise that nothing handles (src/app.ts:283-284). The model stops that follow-up at a thrown stop and discards a thrown slot-3 call. What the Node process then does is outside the model.
- `encodeURIComponent`, and Express's decoding of path parameters: library behaviour. Encoding is an uninterpreted parameter, and route parameters are taken as already decoded.
- Thrown values that are not Error objects (a falsy `err`, or `String(err)` of a non-error), and a `status` of `NaN` in the error middleware: `fetch` and the middleware's callers produce neither.
- ErrorHandler.HandleError: does not model a `status` outside 100-999. Node refuses such a code when the response head is written, and Express then answers 500 itself. The middleware's callers produce no such status, so the model passes any non-zero status through.
- Logging in the handlers and in the error middleware (src/lib/logger.ts): console output with wall-clock timestamps.
- src/server.ts (starting the listener) and the environment parsing of src/lib/config.ts: process start-up. The base URL and the label list are parameters.
