# AI Doctor chatbot: the `/chat` exchange in Dafny

This project models both sides of the chat exchange of the AI Doctor chatbot and proves properties of each side. The two sides are the client's turn logic with its voice coordinator, and the server's intake state machine.

**The client** is the React component `Chatbot`. Its class `ChatClient.Chatbot` holds:
- the component state: `messages`, `input`, `stage`, `loading`, `ttsOn`, `voiceMode` and `voiceTranscript`;
- the module-level `recognition` and `silenceTimer` handles.

Each browser event is a method of the class:
- typing;
- submitting (`sendMessage`);
- the reply or the failure of a request;
- a recognition result;
- the clock reaching a timer's deadline;
- an utterance starting or ending;
- a recogniser ending;
- a scheduled callback running;
- the Stop button.

Recognition instances are a sequence of capture flags. `recognition` is the index of the instance it holds. `startListening` overwrites that handle without stopping the instance it held. Callbacks scheduled with `setTimeout` without a handle wait in a multiset until the browser runs them. Requests sent and not yet answered wait in `inFlight`. The pure rules are functions:
- the trimming, the numeric shortcuts and the choice of request key (module `Dialogue`);
- the silence debounce as a function on an event trace (module `SilenceTimer`).

**The server** has two parts:
- module `Intake` describes one `/chat` turn as a function from the session `get_session` hands out to the updated session and the response;
- class `IntakeServer.SessionStore` performs the same turn in place on the `SESSIONS` map, block by block, and is proved equal to that function.

Module `Exchange` joins the two sides. When client and server agree on the stage, every accepted input moves the dialogue on. After the final answer the two disagree, and the next typed text is ignored.

Strings are `seq<char>`. Client time is an integer number of milliseconds and server time is real seconds. Both are parameters.

## Model

| member | source | states |
|---|---|---|
| Text.Trim | client/src/components/Chatbot.jsx:82 | `trim` never lengthens a string; what it keeps is stated by `TrimSpec` |
| Text.TrimStartSpec | client/src/components/Chatbot.jsx:82 | dropping leading white space keeps a suffix, removes only white space and stops at the first other character |
| Text.TrimEndSpec | client/src/components/Chatbot.jsx:82 | dropping trailing white space keeps a prefix, removes only white space and stops at the last other character |
| Text.TrimSpec | client/src/components/Chatbot.jsx:82 | `trim` returns the contiguous slice between the leading and trailing white space; the result neither starts nor ends with white space, and everything dropped is white space |
| Text.TrimEmptyIffBlank | client/src/components/Chatbot.jsx:81 | `!raw.trim()` holds exactly when the input is empty or all white space |
| Text.TrimTrimmed | client/src/components/Chatbot.jsx:82 | a string that neither starts nor ends with white space is its own trim |
| Text.TrimIdempotent | client/src/components/Chatbot.jsx:46 | trimming twice (once in `onresult`, again in `sendMessage`) is trimming once |
| Text.LowerChar | server/app.py:109 | `lower` maps an ASCII capital to its small letter, 32 code points up, and leaves every other character |
| Text.Lower | server/app.py:109 | `lower` keeps the length and lower-cases character by character |
| Text.LowerIdempotent | server/app.py:109 | lower-casing twice is lower-casing once |
| Text.Contains | server/app.py:109 | Python's `part in text` holds exactly when `part` occurs at some index of `text` |
| Text.Without | client/src/components/Chatbot.jsx:29 | removing the asterisks never lengthens the text |
| Text.WithoutSpec | client/src/components/Chatbot.jsx:29 | `replace(/\*/g, "")` leaves no `*`, keeps every other character with its multiplicity, and changes nothing in a text without `*` |
| Text.WithoutAppend | client/src/components/Chatbot.jsx:29 | removing asterisks commutes with concatenation |
| Dialogue.Shortcut | client/src/components/Chatbot.jsx:84-88 | at `ask_mode`, 1, 2 and 3 become text, voice and both; every other text, and every text at another stage, is kept as it is |
| Dialogue.KeyFor | client/src/components/Chatbot.jsx:100-110 | `ask_mode`, `ask_location` and `ask_symptoms` each send their own key (`mode`, `location`, `symptoms`), and exactly the other stages, the server's "answer" included, send `message` |
| Dialogue.PayloadFor | client/src/components/Chatbot.jsx:99-110 | the body carries `user_id` and `tone`, exactly one stage-dependent key (the stage's), and the text under it |
| Dialogue.SentTextTrimmed | client/src/components/Chatbot.jsx:80-88 | the text of an accepted turn, after the shortcuts, is trimmed, non-empty and not blank |
| Dialogue.SentPayloadOutgoing | client/src/components/Chatbot.jsx:80-110 | every accepted turn sends a body with the client's id and exactly one key holding non-blank text |
| Dialogue.VoiceChosenIff | client/src/components/Chatbot.jsx:82-107 | voice mode is switched on exactly for 2, 3, voice or both (white space aside) at `ask_mode`, never at another stage |
| SilenceTimer.Arm | client/src/components/Chatbot.jsx:49-52 | a result arms a timer 2500 ms ahead carrying that result's text |
| SilenceTimer.Step | client/src/components/Chatbot.jsx:45-52 | a result replaces whatever timer is pending and finalizes nothing; a tick finalizes exactly when a timer is pending and due, hands over its text and leaves none pending; otherwise the timer stays |
| SilenceTimer.RunAppend | client/src/components/Chatbot.jsx:45-52 | running two stretches of events in turn is running their concatenation |
| SilenceTimer.NothingFinalizedWhileTalking | client/src/components/Chatbot.jsx:48-52 | while results keep coming before the deadline, nothing is sent and exactly one timer is pending, the latest result's |
| SilenceTimer.FinalizesLatestAfterSilence | client/src/components/Chatbot.jsx:45-52 | after such a burst, a tick sends the last result's text exactly when it is 2500 ms or more after that result, and nothing otherwise |
| ChatClient.Stopped | client/src/components/Chatbot.jsx:58 | `recognition.stop()` stops exactly the instance the handle holds and no other; with a null handle nothing changes |
| ChatClient.StoppedIdempotent | client/src/components/Chatbot.jsx:58 | stopping twice is stopping once |
| ChatClient.Chatbot.constructor | client/src/components/Chatbot.jsx:4-15 | the initial state: empty transcript and input, `ask_mode`, speech and voice off, no recogniser, no timer, the greeting request on its way |
| ChatClient.Chatbot.GreetingArrived | client/src/components/Chatbot.jsx:60-66 | the greeting reply sets the stage and replaces the transcript with the one bot entry |
| ChatClient.Chatbot.Type | client/src/components/Chatbot.jsx:189 | typing sets the input box |
| ChatClient.Chatbot.StopListening | client/src/components/Chatbot.jsx:58 | `stopListening` stops the instance the global handle holds, if any, and nothing else |
| ChatClient.Chatbot.StartListening | client/src/components/Chatbot.jsx:36-56 | without a recogniser nothing happens; otherwise a new capturing instance replaces the handle, and the old one keeps capturing if it was |
| ChatClient.Chatbot.Speak | client/src/components/Chatbot.jsx:26-34 | with speech off nothing changes; otherwise the current utterance is cancelled and the text without `*` is queued |
| ChatClient.Chatbot.ApplyShortcut | client/src/components/Chatbot.jsx:82-88 | the reassignments of `msg` compute the shortcut table |
| ChatClient.Chatbot.AppendUserEntry | client/src/components/Chatbot.jsx:90-94 | exactly one user entry is appended, with the microphone prefix exactly when spoken; a spoken turn also stops the current recogniser |
| ChatClient.Chatbot.BuildPayload | client/src/components/Chatbot.jsx:99-110 | the body built key by key is the one-key body of the stage; choosing voice or both turns voice and speech on and schedules the spoken greeting and a listening start |
| ChatClient.Chatbot.Enqueue | client/src/components/Chatbot.jsx:97-113 | the request goes out and `loading` is set while it is on its way |
| ChatClient.Chatbot.Dispatch | client/src/components/Chatbot.jsx:96-113 | the input box is cleared, `loading` set, the one-key body sent, and the voice effects applied as `BuildPayload` states |
| ChatClient.Chatbot.Send | client/src/components/Chatbot.jsx:90-113 | an accepted text appends one user entry, clears the input, sends the stage's body and applies the voice effects |
| ChatClient.Chatbot.Submit | client/src/components/Chatbot.jsx:79-113 | blank input changes nothing and sends nothing; any other input sends its trimmed, mapped text as `Send` states, and the state invariant is kept |
| ChatClient.Chatbot.ReplyArrived | client/src/components/Chatbot.jsx:113-122 | the reply sets the stage, appends one bot entry, is spoken when speech is on, schedules listening in voice mode, removes its request and clears `loading` |
| ChatClient.Chatbot.Settle | client/src/components/Chatbot.jsx:122 | a request that settled leaves `inFlight`, and `loading` is cleared whatever else is still on its way |
| ChatClient.Chatbot.ReplyFailed | client/src/components/Chatbot.jsx:118-122 | a failure appends exactly one "Server error." entry, keeps the stage, removes its request and clears `loading` |
| ChatClient.Chatbot.RecognitionResult | client/src/components/Chatbot.jsx:45-53 | a result shows the trimmed join of all segments and replaces the pending timer with one 2500 ms ahead carrying that text |
| ChatClient.Chatbot.AdvanceClock | client/src/components/Chatbot.jsx:49-52 | a due timer fires once: the transcript is cleared and its text submitted as spoken input; otherwise nothing is sent |
| ChatClient.Chatbot.StopPressed | client/src/components/Chatbot.jsx:174 | Stop turns voice mode off and stops the current recogniser, but leaves the silence timer, so a pending finalization still fires |
| ChatClient.Chatbot.UtteranceStarted | client/src/components/Chatbot.jsx:31 | an utterance starting to play is what stops capture |
| ChatClient.Chatbot.UtteranceEnded | client/src/components/Chatbot.jsx:32 | an utterance ending restarts listening only in voice mode |
| ChatClient.Chatbot.RecognitionEnded | client/src/components/Chatbot.jsx:55 | a recogniser stopping on its own stops only that instance |
| ChatClient.Chatbot.RunDeferred | client/src/components/Chatbot.jsx:105-117 | a scheduled callback runs once: a spoken text goes through `speak`, a listening start through `startListening` |
| ChatClient.ChooseVoice | client/src/components/Chatbot.jsx:100-117 | choosing voice with quick reply 2 turns voice mode on; once the reply arrives it is queued for speech, and a listening start is pending |
| ChatClient.CaptureDuringPlayback | client/src/components/Chatbot.jsx:26-34 | if the listening start runs after the reply starts playing, a recogniser captures while the reply is still playing |
| Intake.Lookup | server/app.py:51-57 | the stored session unless there is none or it is more than 1800 s old, else a fresh `ask_mode` session; the result is never expired |
| Intake.NeedsFor | server/app.py:130-197 | each flag is set exactly at its own stage, so a prompt at an intake stage sets exactly that stage's flag and the final answer sets none |
| Intake.AnyContained | server/app.py:109 | `any(w in text for w in words)` holds exactly when some word occurs in the text |
| Intake.Severe | server/app.py:108-109 | `severe` holds exactly when the lower-cased symptoms contain chest pain, blood, fainting or difficulty breathing |
| Intake.SevereIgnoresCase | server/app.py:108-109 | the severity test ignores the case of ASCII letters |
| Intake.HospitalsFor | server/app.py:186 | the list is non-empty exactly for the three known cities, matched on the lower-cased name, and is then the table's entry |
| Intake.HospitalsIgnoreCase | server/app.py:186 | the hospital lookup ignores the case of ASCII letters |
| Intake.ModeStep | server/app.py:118-120 | the mode block changes the session exactly when a non-empty mode arrives at `ask_mode`, and then records it and moves to `ask_location`; creation time, location and symptoms are kept |
| Intake.LocationStep | server/app.py:123-150 | the location block always answers; it moves to `ask_symptoms` exactly when a place was found for non-zero coordinates or a location was typed, recording the place name in preference to the typed location; otherwise it asks again with the session unchanged; only location and stage can change |
| Intake.SymptomsStep | server/app.py:153-155 | the symptoms block changes the session exactly when non-empty symptoms arrive at `ask_symptoms`, and then records them and moves to "answer"; creation time, mode and location are kept |
| Intake.PromptOrAnswer | server/app.py:157-197 | at `ask_mode` and `ask_symptoms` the turn asks again with the session as it is and the stage's own flag; at any other stage it gives the final answer |
| Intake.FinalAnswer | server/app.py:173-197 | the final answer raises, leaving the session, exactly when the location or the symptoms are missing; otherwise it stores `ask_mode`, returns "answer" and replies with the advice or the fixed fallback text |
| Intake.ModeBlock | server/app.py:118-163 | at `ask_mode`, every request without a non-empty mode gets the mode prompt and leaves the session unchanged; one with a mode records it and moves past mode selection |
| Intake.LocationPriority | server/app.py:123-150 | at `ask_location`, every request is answered by the location block: a place found for non-zero coordinates wins over a typed location, a typed location is recorded otherwise, and without either the stage stays and the session is unchanged |
| Intake.SymptomsBlock | server/app.py:153-197 | at `ask_symptoms`, a request without non-empty symptoms gets the symptoms prompt and changes nothing; one with symptoms records them and gets the final answer, with the session back at `ask_mode`, or raises when the location is missing |
| Intake.ModeStepKeeps | server/app.py:118-120 | the mode block keeps a stored session's invariant (a mode once past mode selection) and its creation time |
| Intake.LocationStepKeeps | server/app.py:123-150 | the location block keeps the invariant (a location while symptoms are awaited) and the creation time |
| Intake.LocationStepCoherent | server/app.py:123-150 | each response of the location block carries the flag of its stage, no advice data, and a stored stage equal to the returned one |
| Intake.FinalBlocksKeep | server/app.py:152-197 | after the location block, a stored session always gets an answer (the missing-key error cannot happen) and keeps the invariant |
| Intake.FinalBlocksCoherent | server/app.py:152-197 | the prompts carry their stage's flag and no advice data; the final answer stores `ask_mode`, has the recorded symptoms' severity as `escalate`, a case summary exactly when escalated, and the recorded city's hospitals |
| Intake.TurnSpec | server/app.py:114-197 | every turn on a stored session answers, keeps the invariant and the creation time, never leaves the session at "answer", and its response is coherent as above |
| Intake.TurnProgress | server/app.py:118-155 | from each intake stage a turn returns only that stage or a later one, and from `ask_mode` never the answer; leaving `ask_mode` needs a non-empty mode, reaching `ask_symptoms` needs a place found for the coordinates or a typed location, and reaching the answer needs non-empty symptoms |
| Intake.AnswerIff | server/app.py:153-155 | the final answer comes exactly from `ask_symptoms` with non-empty symptoms, which are recorded |
| Intake.MissingInputKeepsSession | server/app.py:114-170 | a turn returns its starting stage exactly when it leaves the session unchanged |
| Intake.IntakeWalk | server/app.py:114-197 | a fresh session given a mode, a city and symptoms answers on the third turn with that city's hospitals and those symptoms' severity, and is back at `ask_mode` |
| IntakeServer.SessionStore.constructor | server/app.py:47 | the store starts empty |
| IntakeServer.SessionStore.GetSession | server/app.py:51-57 | `get_session` returns `Lookup`'s session, stores it under the user id, and keeps every stored session valid |
| IntakeServer.SessionStore.Chat | server/app.py:114-197 | the in-place `chat` stores and returns exactly what `Turn` computes on `Lookup`'s session, and on a valid store it always answers and keeps the store valid |
| IntakeServer.SessionStore.LocationBlock | server/app.py:123-150 | the in-place location block stores and returns what `LocationStep` computes |
| IntakeServer.SessionStore.FinalBlocks | server/app.py:152-197 | the in-place symptoms block, prompts and final answer store and return what `PromptOrAnswer` computes, the missing-key error included |
| Exchange.AgreedStageAdvances | client/src/components/Chatbot.jsx:99-110 | when client and stored session agree on the stage, every accepted input moves the server one stage on and records the text under that stage's field |
| Exchange.TextAfterAnswerIgnored | client/src/components/Chatbot.jsx:110 | after the final answer the client's next text goes out as `message`, which the server does not read: it asks for the mode again and the session is unchanged |

## Left out

- ChatClient.Chatbot.UtteranceEnded: restarts listening when the current `voiceMode` is on. In the source the `onend` handler (Chatbot.jsx line 32) reads `voiceMode` from the render that called `speak`, and every such render shows the text screen. `sendMessage` and `sendLocation` are reached only from the text screen's input and quick replies (the voice screen offers only Stop, and the quick replies are hidden in voice mode), or from the silence timer. The silence timer calls the `sendMessage` of the text-screen render that chose voice. `voiceMode` is false in all of these renders, so the source never restarts listening on `onend`.
- ChatClient.Chatbot.ReplyArrived: reads the current `voiceMode` and `ttsOn`. In the source the handler reads the values of the text-screen render that sent the request. `voiceMode` is false there, so the source never schedules the 600 ms listening start of line 117. `ttsOn` is true there only when speech was turned on by an earlier choice of voice (Stop leaves it on), and only then is the reply spoken.
- ChatClient.Chatbot.AdvanceClock: submits with the current `stage`, `ttsOn` and `voiceMode`. In the source the timer calls the `sendMessage` of the render that chose voice, so every spoken turn is sent at the stage "ask_mode", under the `mode` key. The shortcut table applies to it, and a spoken "voice" or "both" chooses voice again. Unless the stored session is back at mode selection, the server does not read `mode` and repeats the prompt of its current stage, so spoken turns do not move the intake on.
- ChatClient.Chatbot.RunDeferred: the 500, 2000 and 600 ms delays are not modelled. A scheduled callback may run after any other event, in any order. The spoken greeting reads the current `ttsOn`. The source's `speak` in that callback reads the `ttsOn` of the render that chose voice, so the greeting is spoken only when speech was already on before that choice.
- ChatClient.ChooseVoice: holds when callbacks read the current state. In the source, on a fresh component, speech is off in the render that chose voice. So the greeting and the first reply are not spoken, and no listening start follows the reply. Only the 2000 ms start of line 106 runs.
- ChatClient.CaptureDuringPlayback: the scenario it starts from is built by `ChooseVoice`, which does not arise that way in the source. The overlap itself can arise there. When voice is chosen again after Stop, speech is already on, so the greeting (at 500 ms) and the reply are spoken. The 2000 ms listening start of line 106 can then begin capture while either is playing.
- ChatClient.Chatbot.Speak: `speechSynthesis.cancel()` is modelled as dropping the current utterance without delivering its `onend`.
- ChatClient.Chatbot.Enqueue: React applies the updates of one handler together, so `loading` is set after the request is recorded rather than before it as written.
- ChatClient.Chatbot.GreetingArrived: a failure of the greeting request is not modelled. The source does not catch it either, so it is an unhandled rejection with no state change.
- `sendLocation` and the geolocation path are not modelled on the client, because the position comes from a browser capability. The server side of that path (non-zero `lat` and `lon`, and the place name found for them) is modelled in `Intake.LocationStep`.
- client/src/api.js is not modelled, because it is a thin `fetch` wrapper. A request either answers with a stage and a reply or fails.
- JSX rendering, the quick-reply buttons and the styles are not modelled, because they are presentation. The quick replies enter only as the texts they submit.
- The `user_id` generation through `Math.random` and `localStorage` is not modelled. The id is a given string.
- The OpenWeatherMap and Gemini calls are not modelled. The place name for the coordinates and the stripped advice text (or `None` when the call raised) are inputs. The weather for the final answer only feeds the prompt, so it is not modelled.
- The prompt text sent to Gemini, the environment, the API keys and the FastAPI, CORS and pydantic wiring are not modelled, because they are plumbing.
- The server never reads a request's `message`. It reads `tone` only into the Gemini prompt, which is left out. So `ChatRequest` leaves both out.
- `lat` and `lon` are only tested for truthiness, so they are optional reals tested against zero.
- Text.Lower: lower-cases ASCII letters only, not the full Unicode case mapping of Python's `str.lower`.
- Intake.Lookup: `time.time()` is a real parameter, so floating-point rounding is not modelled.
- IntakeServer.SessionStore.Chat: concurrent requests for the same user are not modelled. FastAPI runs synchronous handlers on a thread pool, so two turns could interleave on one session.
