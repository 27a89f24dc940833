# JARVIS: command dispatch and query validation, modelled in Dafny

The repository holds two small Python programs.

- **`jarvis.py`** is a desktop voice assistant. It waits until it hears the wake word "jarvis". Then it runs a command loop. Each utterance is lower-cased and sorted by substring tests into exit, open, close, time or a free-form question. "open …" and "close …" resolve their target against fixed tables of applications, websites and process names. Closing a YouTube tab falls back through three ranked strategies. The time is spoken as a 12-hour clock reading. A free-form question goes to a hosted text generator.
- **`app.py`** is a Flask service. Its `/process` endpoint checks a JSON request through a chain of early-return guards, forwards the trimmed query to the same kind of generator, and shapes the result into a status code and a JSON body. Around it sit an OPTIONS short-circuit, `/health`, and JSON 404 and 405 handlers.

The model keeps the decision logic and makes the world an input. Every side effect becomes an `Action` value: a launch, a URL, media playback, a process kill, a tab click, a key chord, speech, exit, or a question to the generator. What the world answers is passed in as data:

- listener results (`Recognition`);
- clock readings (`Clock`);
- generator outcomes (`Outcome`);
- how each desktop-automation call behaves (`Desktop`).

Modules:

| file | module | models |
|---|---|---|
| `common.dfy` | `Common` | `Option`, and the generator's `Outcome` |
| `text.dfy` | `Text` | Python's `str.isspace`, `strip`, `in`, `replace(k, "")`, `lower` |
| `time_format.dfy` | `TimeFormat` | `strftime("%I:%M %p")` and its inverse |
| `dispatch.dfy` | `Dispatch` | classification, target extraction, `open_software`, `close_software`, `generate_response` |
| `tabs.dfy` | `Tabs` | `close_youtube_tab`: the tab scan and the three tiers |
| `assistant.dfy` | `Assistant` | `listen_command`, `listen_for_wake_word`, `command_mode`, the entry point |
| `server.dfy` | `Server` | `process`, `before_request`, `not_found`, `method_not_allowed`, `health_check`, routing |

The loops of the source stay loops. `CloseYoutubeTab` walks the tab strip, `WaitForWakeWord` consumes listener results, and `CommandMode` consumes turns. Each is a method proved against a specification function (`TabClosing`, `Session`) or against a direct postcondition. The pure branching (`Classify`, `OpenSoftware`, `CloseSoftware`, `Process`, `Handle`) is written as functions. Lemmas state what they promise.

### Behaviour of the code worth knowing

- The media fallback of `open_software` tests containment (`'play' in software_name`, jarvis.py:91), not a prefix. So "replay it" plays "re it" (`Dispatch.ReplayIsPlayed`).
- For a truthy JSON payload that is not an object, the `query` guard (app.py:111-116) does not always give its 400 (`Server.NonObjectPayloads`):
  - A string containing "query", or a list holding the string "query", passes the `in` test. Indexing it with `'query'` then raises, and the catch-all handler (app.py:159-164) answers 500 "Internal server error".
  - For a number or `true`, the `in` test itself raises, which also gives a 500.
  - Other strings and lists get the 400.
- A body that parses to JSON `null` is reported as "Invalid JSON format", not "No data received". The silent parser's `None` and a decoded `null` cannot be told apart (app.py:93-102, `Server.UnusableBodies`).
- On success the service reports the model as `gemini-1.5-flash` (app.py:146). It configures `gemini-pro` (app.py:44). The model keeps the reported constant.

## Model

| member | source | states |
|---|---|---|
| `Text.Contains` | jarvis.py:183-193 | Python's `in` on strings; `Text.ContainsIffOccurs` ties it to "the keyword occurs at some position" |
| `Dispatch.Classify` | jarvis.py:182-200 | the command chosen for an utterance: Quit exactly for an exit phrase, and a query carries the utterance unchanged; `Dispatch.ClassifyPriority` gives the full priority order |
| `Dispatch.OpenSoftware` | jarvis.py:65-96 | every open is announced first and does at most one more thing; which thing is fixed by `OpenLaunchesApps`, `OpenWebsitesSecond`, `OpenPlaysMediaLast` and `OpenNotFound` |
| `Dispatch.CloseSoftware` | jarvis.py:138-155 | a close is an announcement (with at most a kill after it) or a hand-over to tab closing; `Dispatch.CloseSoftwareResolution` fixes which |
| `Tabs.TabClosing` | jarvis.py:98-136 | the three tiers composed, the first success ending the routine; characterised by `Tabs.TierOrder`, `Tabs.KillOnlyAsLastResort` and `Tabs.ClicksOnlyFirstYoutubeTab`, and implemented by `Tabs.CloseYoutubeTab` |
| `Assistant.Respond` | jarvis.py:182-200 | one utterance always has an effect, and a plain query first asks the generator the utterance itself; `RespondExits`, `RespondIsLocal` and `OnlyPlainQueriesAsk` say the rest |
| `Assistant.Session` | jarvis.py:175-200 | the effects of the command loop over a run of turns; characterised by `SessionExit`, `SessionStopsAtExit` and `NoSpeechIsInert`, and implemented by `Assistant.CommandMode` |
| `Server.Generated` | app.py:128-157 | shaping of the generator's outcome; characterised by `Server.GeneratedShapes` |
| `Server.Process` | app.py:81-164 | the guard chain of `/process`; characterised by `SuccessIff`, `AcceptedReachesGenerator`, `RejectedBeforeGenerator`, the guard lemmas and `ProcessShapes` |
| `Server.Handle` | app.py:66-185 | routing with the OPTIONS short-circuit and the 404/405 handlers; characterised by `Server.ResponseShapes` and `Server.FixedAnswers` |
| `Text.Strip` | jarvis.py:189 | the stripped target is never longer than its input and neither starts nor ends with white space |
| `Text.StripIsTrimmedSlice` | app.py:118 | `strip` returns a contiguous slice of the query, and everything it cut off on either side is white space |
| `Text.StripEmptyIffBlank` | app.py:118-119 | a query strips to the empty string exactly when it consists only of white space |
| `Text.ContainsIffOccurs` | jarvis.py:183 | the `in` test on strings holds exactly when the keyword occurs at some position |
| `Text.ReplaceAll` | jarvis.py:189 | deleting every occurrence of the keyword never lengthens the utterance |
| `Text.ReplaceAllChanges` | jarvis.py:192 | deletion leaves an utterance without the keyword unchanged, and otherwise shortens it by at least the keyword's length |
| `Text.ReplaceAllIdentityIff` | jarvis.py:92 | deleting "play" changes the name exactly when "play" occurs in it |
| `Text.Lower` | jarvis.py:42 | lower-casing keeps the length, maps each character on its own, and leaves no upper-case ASCII letter |
| `Text.LowerIdempotent` | jarvis.py:79 | lower-casing the already lower-cased target again changes nothing |
| `TimeFormat.Hour12` | jarvis.py:195 | the `%I` hour lies in 1..12 and agrees with the 24-hour hour modulo 12 |
| `TimeFormat.Format` | jarvis.py:195 | the time string is eight characters `HH:MM XM`: a two-digit hour in 01..12, the minute, and AM exactly when the hour is below 12 |
| `TimeFormat.ParseFormat` | jarvis.py:195 | every clock reading is recovered exactly from its spoken form |
| `TimeFormat.FormatParse` | jarvis.py:195 | every string the parser accepts is the rendering of the reading it parsed, so there is one spelling per reading |
| `Dispatch.Extract` | jarvis.py:188-192 | the open/close target is no longer than the utterance and has no leading or trailing white space |
| `Dispatch.ClassifyPriority` | jarvis.py:182-200 | exit words beat "open", which beats "close", which beats "time"; an utterance goes to the generator exactly when it holds none of them, and goes unchanged |
| `Dispatch.ThankYouWithSpaceIsAQuery` | jarvis.py:183 | "thank you" with a space is not an exit phrase and is sent to the generator |
| `Dispatch.ExtractAfterKeyword` | jarvis.py:188-189 | for "keyword rest", where rest is trimmed and free of the keyword, the target is exactly rest |
| `Dispatch.OpenNotepadClassified` | jarvis.py:188-190 | "open notepad" is an open command with target "notepad" |
| `Dispatch.OpenNotepadLaunches` | jarvis.py:67-87 | opening "notepad" announces it and launches `notepad.exe` without arguments |
| `Dispatch.OpenLaunchesApps` | jarvis.py:67-87 | a launch happens exactly for the four application names, with the table's path, and with the debugging-port argument for Edge only |
| `Dispatch.OnlyEdgeGetsDebugPort` | jarvis.py:83-87 | a launch carries an argument exactly when the name is "edge", and that argument is `--remote-debugging-port=9222` |
| `Dispatch.OpenWebsitesSecond` | jarvis.py:74-90 | a URL is opened exactly for a website name that is not also an application |
| `Dispatch.OpenPlaysMediaLast` | jarvis.py:91-94 | media plays exactly for names in neither table that contain "play" anywhere; the term is the name with every "play" deleted, stripped |
| `Dispatch.ReplayIsPlayed` | jarvis.py:91-94 | "replay it" plays "re it": the test is containment, not prefix |
| `Dispatch.OpenNotFound` | jarvis.py:95-96 | the not-found message is the whole response exactly when no table and no "play" applies |
| `Dispatch.OpenIsLocal` | jarvis.py:65-96 | opening never exits, never consults the generator and never touches tabs |
| `Dispatch.CloseSoftwareResolution` | jarvis.py:138-155 | a kill happens exactly for the four process names with the mapped image; otherwise tab closing exactly when "youtube" or "video" occurs; otherwise only the "Don't know how to close" message |
| `Dispatch.CloseIgnoresCase` | jarvis.py:147 | names are lower-cased before every lookup, so case does not change the outcome of open or close |
| `Dispatch.ReplyText` | jarvis.py:51-63 | the spoken answer is the generated text, or the apology prefix followed by the error message |
| `Dispatch.TimeAnnouncement` | jarvis.py:194-196 | the announcement is exactly "The time is " followed by an eight-character clock string that reads back as the current clock |
| `Tabs.ScanFindsFirstYoutubeTab` | jarvis.py:105-112 | tier 1 picks tab k exactly when k is the first tab whose lower-cased title contains "youtube" and every earlier title was readable |
| `Tabs.ScanFindsNothing` | jarvis.py:107-108 | tier 1 finds no tab exactly when every title was read and none mentions YouTube |
| `Tabs.TierOrder` | jarvis.py:98-136 | tier 1 succeeds only at the first YouTube tab when closing it works; tier 2 exactly when tier 1 did not; tier 3 exactly when neither did; the result is False only when tier 3 raises |
| `Tabs.KillOnlyAsLastResort` | jarvis.py:128-131 | Edge is killed exactly when tier 3 completes, and nothing else is ever killed |
| `Tabs.ClicksOnlyFirstYoutubeTab` | jarvis.py:107-110 | the only tab ever clicked is the first YouTube tab |
| `Tabs.TabClosingIsLocal` | jarvis.py:98-136 | tab closing never exits the assistant and never consults the generator |
| `Tabs.CloseYoutubeTab` | jarvis.py:98-136 | the loop over the tab strip and the tier fall-through return True exactly when the specification's tier is not Failed, with exactly the specification's effects |
| `Assistant.Listen` | jarvis.py:35-49 | the listener yields the transcript lower-cased, and the sentinel "none" on a timeout or recognition error |
| `Assistant.WaitForWakeWord` | jarvis.py:157-173 | the wake loop ignores timeouts, errors and other transcripts, and wakes exactly at the first transcript containing "jarvis", acknowledging once |
| `Assistant.HandleCommand` | jarvis.py:182-200 | one utterance produces exactly the dispatch specification's effects, with the tab-closing routine run when the close plan calls for it |
| `Assistant.CommandMode` | jarvis.py:175-200 | the command loop produces exactly the session's effects and ends exactly when some turn holds an exit phrase |
| `Assistant.Run` | jarvis.py:202-206 | the program greets, and runs the command session only after the wake word is heard |
| `Assistant.RespondIsLocal` | jarvis.py:187-196 | open, close and time commands never exit and never consult the generator |
| `Assistant.RespondExits` | jarvis.py:182-185 | an utterance causes Exit exactly when it holds "stop", "goodbye" or "thankyou", and then it only says farewell and exits |
| `Assistant.SessionExit` | jarvis.py:175-185 | the session exits exactly when some turn holds an exit phrase; then its last effects are the farewell and Exit, and Exit occurs nowhere earlier |
| `Assistant.SessionStopsAtExit` | jarvis.py:183-185 | turns after an exit phrase have no effect |
| `Assistant.NoSpeechIsInert` | jarvis.py:178-180 | a "none" result has no effect wherever it falls in the session |
| `Assistant.OnlyPlainQueriesAsk` | jarvis.py:197-200 | the generator is only asked the full utterance, and only when it holds none of the keywords |
| `Assistant.TimeIsSpoken` | jarvis.py:194-196 | a time command is answered by a single spoken line whose clock part reads back as the current time, without the generator |
| `Server.Failure` | app.py:86-124 | an error response carries the given status code, an `error` field with the message, and `status` "error" |
| `Server.Preflight` | app.py:66-70 | the OPTIONS answer is 200 with `status` "preflight" |
| `Server.Health` | app.py:180-185 | `/health` answers 200 with `status` "healthy" |
| `Server.AcceptedQuery` | app.py:104-124 | the query the generator receives is non-empty and has no leading or trailing white space |
| `Server.AcceptedReachesGenerator` | app.py:118-133 | an acceptable request reaches the generator with exactly its trimmed query, and the response is shaped from what the generator returned |
| `Server.RejectedBeforeGenerator` | app.py:86-124 | any other request is answered by a guard with an error document in 400/415/500, whatever the generator would have said |
| `Server.GeneratedShapes` | app.py:128-157 | a failure or empty text gives 500 "AI processing failed" with the error or the empty-response detail; anything else gives 200 success carrying the text |
| `Server.SuccessIff` | app.py:86-149 | the service answers 200 exactly when the query is acceptable and the generator returns non-empty text, and the response field is that text |
| `Server.ContentTypeFirst` | app.py:86-91 | a request not declared as JSON gets 415 "Content-Type must be application/json" whatever its body |
| `Server.UnusableBodies` | app.py:93-109 | an unparseable body or `null` gets 400 "Invalid JSON format"; any other falsy document gets 400 "No data received" |
| `Server.QueryFieldGuards` | app.py:111-124 | in an object, a missing or non-string `query` gets 400 "Valid query parameter is required", and a blank one gets 400 "Query cannot be empty" |
| `Server.NonObjectPayloads` | app.py:111-116 | a truthy payload that is not an object never reaches the generator; a number or boolean gets the catch-all 500 |
| `Server.ProcessShapes` | app.py:81-164 | `/process` answers only 200, 400, 415 or 500; every non-200 answer is an error document, and a 200 is a success |
| `Server.ResponseShapes` | app.py:66-178 | every non-200 answer of the service, 404 and 405 included, has an `error` field and `status` "error" |
| `Server.FixedAnswers` | app.py:66-185 | OPTIONS gets the preflight answer on every path, GET `/health` is always healthy, and unknown paths get 404 "Endpoint not found" |

## Left out

- Speech recognition, the microphone, ambient-noise calibration and text-to-speech are not modelled (jarvis.py:23-49). Listener results are an input sequence of `Recognition` values, and speech is the `Say` action. A failing `speak` is swallowed in the source and has no counterpart here.
- The hosted generator is not modelled, in either program. This covers its configuration, sampling parameters and timeout (jarvis.py:17-20, 51-63; app.py:40-64, 128-133). Each call is an `Outcome` given as input.
- OS automation is not modelled: `subprocess.Popen`, `os.system("taskkill …")`, `webbrowser`, `pywhatkit`, `pywinauto`, `pyautogui` and `time.sleep`. Each appears only as the `Action` it would perform. Only for the tab-closing steps is an exception an input (`Steps`, `Desktop`).
- `Dispatch.OpenSoftware` assumes that `subprocess.Popen`, `webbrowser.open` and `pywhatkit.playonyt` return (jarvis.py:85-94). For example, a missing executable path makes Popen raise. Nothing in `open_software` or `command_mode` catches that, so the exception ends the program. The model has no such path, and `Assistant.SessionExit` and `Assistant.CommandMode` hold under this assumption.
- `Dispatch.CloseSoftware` likewise assumes that `os.system` returns (jarvis.py:151). It reports failure through a return value the source ignores.
- `Tabs.ScanFindsFirstYoutubeTab`: the list tier 1 scans is an abstract input, the sequence of tabs as read. pywinauto's lookup at jarvis.py:105 (`child_window(control_type="TabItem").children()`) is not modelled: which element it matches, whose children are listed, and the error when several elements match. A failed lookup is the `NoEdgeWindow` case.
- `Tabs.TierOrder`: the trigger of the outer handler (jarvis.py:133-136) is the abstract flag `fallbackRaises`. In the source, tier 3's `speak` swallows its own errors and `os.system` reports failure through its return value. So that handler can fire only from something else, such as a `print` in an inner `except`. The model does not say which.
- `sys.exit` is the `Exit` action. The endless `while True` loops consume finite input sequences, and running out of input stands for the loop still waiting.
- The outer `while True` of the entry point is not modelled beyond one pass (jarvis.py:204-206). `command_mode` returns to it only by an uncaught exception, which ends the program, or not at all: `sys.exit` on an exit phrase ends the process. So a second pass never happens.
- Console printing and all logging are not modelled.
- Flask plumbing is not modelled: CORS configuration, `.env` loading, the startup check for the API key, the threaded server and its port or debug settings.
- The `after_request` headers (`X-Response-Time`, `Server`, `Date`) and the `processing_time` and `timestamp` body fields are wall-clock values. They are not part of the model. `/health` is modelled without its timestamp.
- `request.is_json` is a boolean flag. The parse of `get_json(force=True, silent=True)` is an `Option<Json>`. Byte-level decoding and media-type parsing are not modelled.
- JSON numbers are exact reals, so `NaN` and infinities, which Python's decoder accepts, are not represented.
- The catch-all 500 of `process` is modelled only where the model can name the exception: the `TypeError` raised on non-object payloads. Exceptions from logging or the framework are not modelled.
- `Text.Lower`: only ASCII letters are lower-cased. Python's `str.lower` also folds non-ASCII letters.
- `script.js` is not part of this model. It is browser code that forwards text to the service.
