# BusGuardian AI: the chat turn protocol, in Dafny

BusGuardian AI is a demonstration web page that simulates the sensors of a bus
(engine, cabin and outside temperature, coolant level, ventilation quality,
camera observations) and lets the user talk to a language model about
overheating. This project models the part of the page that has behaviour of
its own:

- the **sensor record** and the simulation panel's handlers, each of which
  replaces exactly one field, with the panel's declared slider bounds and
  select options;
- the **message history** and the two **turns** that change it:
  - *analyze* appends a placeholder user message, asks the model for an
    analysis, and then either appends the formatted analysis or drops the
    last message;
  - *send* ignores blank text. Otherwise it appends the user's text, sends
    the model the text, the system prompt, the sensor string and the
    transcript, and then either appends the answer or drops the last message;
- the two **serialisers** handed to the model: the one-line sensor string and
  the `role: content` transcript joined by newlines;
- the **gates**: every panel control and the Analyze button are disabled
  while an analysis is pending, and the chat field is disabled while a reply
  is pending. The send button is also disabled while the text is blank. A
  disabled control delivers no event.

Files, one module each:

- `wrappers.dfy` (`Wrappers`): an `Option` type usable with `:-`.
- `text.dfy` (`Text`): JavaScript's `trim`, `join` and integer rendering,
  each with a partner: a characterisation of blank text, the concatenation
  laws of `join`, and a parser that inverts the rendering.
- `types.dfy` (`Types`): the record and message types; the string unions
  become enumerations with their exact texts.
- `sensor_panel.dfy` (`SensorPanel`): the panel's handlers as pure functions
  on the record.
- `chat_panel.dfy` (`ChatPanel`): the chat form, a class whose `input` field
  the form's events update.
- `page.dfy` (`Page`): the constants and serialisers, and the page state as
  the class `Home`. The system prompt and the welcome message are also held
  in constant fields of `Home`, which its methods use.

An `async` handler is split at its `await` into a start step and a finish
step. The start step returns the request the model is given. For the send
turn that request is an `AnswerCall`: the question, the system prompt, the
readings and the extended history. `AnswerInput` renders it as the call's
four strings, with the sensor string and the transcript. The finish step
takes the call's outcome (`Success(value)` or `Failure`) as a parameter.
`HandleAnalyze` and `HandleSendMessage` run the two steps back to back: they
model one turn with nothing in between and carry its net effect. The class
invariant `Home.Valid` states four things. Above the welcome message there
is at least one message per pending turn. The welcome message stays first,
so no rollback removes it. Message ids increase along the history. The
slider-controlled readings stay within their sliders' bounds.

## Model

| member | source | states |
|---|---|---|
| `Types.ParseVentilation` | src/lib/types.ts:5 | the ventilation union's texts and the enumeration correspond one to one: parsing a value's text gives that value, and whatever parses has that text |
| `Types.ParseCamera` | src/lib/types.ts:6 | the same one-to-one correspondence for the camera-observation union |
| `Text.TrimStartProperties` | src/app/page.tsx:84 | dropping leading whitespace leaves the suffix that starts at the first non-whitespace character; everything dropped is whitespace |
| `Text.TrimEndProperties` | src/app/page.tsx:84 | dropping trailing whitespace leaves the prefix that ends at the last non-whitespace character; everything dropped is whitespace |
| `Text.TrimProperties` | src/app/page.tsx:84 | `trim()` gives the empty string exactly when the text is all whitespace, and otherwise starts and ends with non-whitespace |
| `Text.JoinConcat` | src/app/page.tsx:94 | joining two non-empty lists puts exactly one separator between the two joined halves |
| `Text.JoinAppend` | src/app/page.tsx:94 | joining a list with one more part appends that part after one separator, or gives the part alone for an empty list |
| `Text.JoinAt` | src/app/page.tsx:94 | every part occurs in the joined string in its own place, with one separator on each side that has neighbours |
| `Text.NatToDecimalValue` | src/app/page.tsx:93 | a rendered natural number is a non-empty string of digits whose value is the number |
| `Text.NatRoundTrip` | src/app/page.tsx:93 | reading back a rendered natural number followed by a non-digit gives the number and the rest |
| `Text.IntRoundTrip` | src/app/page.tsx:93 | reading back a rendered integer, negative ones included, followed by a non-digit gives the integer and the rest |
| `SensorPanel.HandleSliderChange` | src/components/bus-guardian-ai/sensor-panel.tsx:21-23 | the named numeric field becomes the slider's first value; every other numeric field and both choice fields keep their values |
| `SensorPanel.HandleSelectChange` | src/components/bus-guardian-ai/sensor-panel.tsx:25-27 | the named choice field becomes the chosen text; the other choice field and every numeric field keep their values |
| `SensorPanel.HandleInputChange` | src/components/bus-guardian-ai/sensor-panel.tsx:29-31 | the named numeric field becomes the entered number; every other field keeps its value |
| `SensorPanel.OptionsMatchUnions` | src/components/bus-guardian-ai/sensor-panel.tsx:116-140 | the two selects offer exactly the texts of the ventilation and camera unions, each once |
| `SensorPanel.ChangesKeepSlidersInRange` | src/components/bus-guardian-ai/sensor-panel.tsx:49-101 | with the sliders' declared bounds and steps (engine 50..150 step 1, cabin 10..50 step 1, coolant 0..100 step 5), slider, select and outside-input changes keep every slider-controlled reading in range |
| `ChatPanel.SubmitEnabled` | src/components/bus-guardian-ai/chat-panel.tsx:113 | the send button is enabled exactly when no reply is pending and the text has a non-whitespace character |
| `ChatPanel.ChatForm.constructor` | src/components/bus-guardian-ai/chat-panel.tsx:28 | the field starts empty |
| `ChatPanel.ChatForm.Change` | src/components/bus-guardian-ai/chat-panel.tsx:106-110 | typing replaces the text, except while a reply is pending, when the field is disabled and keeps its text |
| `ChatPanel.ChatForm.Submit` | src/components/bus-guardian-ai/chat-panel.tsx:40-44 | when the send button is enabled the untrimmed text is forwarded and the field cleared; otherwise nothing is forwarded and the text stays |
| `Page.AnalysisContentSections` | src/app/page.tsx:59-65 | the analysis message opens with the `### Heat Status Analysis` heading and contains `**Analysis:** ` plus the analysis, followed later by `**Suggestions:** ` plus the suggestions |
| `Page.SensorStringRoundTrip` | src/app/page.tsx:93 | the sensor string loses nothing: all six readings can be read back from it |
| `Page.InitialSensorString` | src/app/page.tsx:30-37 | the default readings (engine 90, cabin 22, coolant 80, Good, No visible issues, outside 20) render as `Engine: 90°C, Cabin: 22°C, Coolant: 80%, Ventilation: Good, Outside: 20°C, Camera: No visible issues` |
| `Page.TranscriptAppend` | src/app/page.tsx:86-94 | the transcript of a history with one more message is the old transcript, a newline, and the new message's `role: content` line |
| `Page.AnswerInputContents` | src/app/page.tsx:93-101 | the call's input carries the question and the system prompt verbatim, a sensor string from which the readings read back exactly, and, for a history that is the earlier messages plus the question, the earlier transcript followed by a newline and `user: ` plus the question (the question's line alone when nothing came before) |
| `Page.TranscriptAt` | src/app/page.tsx:94 | the transcript lists every message as `role: content`, in order, separated by single newlines, with no separator at either end |
| `Page.Rollback` | src/app/page.tsx:77 | `slice(0, length - 1)` removes exactly the last entry and keeps the rest in order; an empty history stays empty |
| `Page.InitialSlidersInRange` | src/app/page.tsx:30-37 | the default readings lie within the bounds and on the steps of their sliders |
| `Page.Home.constructor` | src/app/page.tsx:30-48 | the page starts with the default readings, only the welcome message, nothing pending and the id counter at 1; its system prompt and welcome message are the source's texts, character for character |
| `Page.Home.SliderChange` | src/components/bus-guardian-ai/sensor-panel.tsx:49-101 | a slider change updates the record through the slider handler, except while an analysis is pending, when the slider is disabled and nothing changes |
| `Page.Home.SelectChange` | src/components/bus-guardian-ai/sensor-panel.tsx:103-142 | a select change updates the record through the select handler, except while an analysis is pending, when nothing changes |
| `Page.Home.OutsideInputChange` | src/components/bus-guardian-ai/sensor-panel.tsx:74-87 | an outside-temperature entry updates the record through the input handler, except while an analysis is pending, when nothing changes |
| `Page.Home.PressAnalyze` | src/app/page.tsx:50-58 | pressing Analyze while an analysis is pending does nothing; otherwise the panel flag is set, exactly one user placeholder `Analyzing current heat status...` is appended with the earlier history untouched, and the whole record is sent |
| `Page.Home.FinishAnalyze` | src/app/page.tsx:58-80 | on success exactly one assistant message with the formatted analysis is appended; on failure the last message is dropped; the panel flag is cleared either way |
| `Page.Home.HandleAnalyze` | src/app/page.tsx:50-81 | a whole analyze turn: on success the history is the old one plus the placeholder and the analysis (+2, old history a prefix) and two ids are used; on failure it equals the old history and the placeholder's id stays used; the panel flag ends cleared |
| `Page.Home.SendMessage` | src/app/page.tsx:83-101 | blank text (empty once trimmed) changes nothing and makes no call; otherwise the text is asked as a question, with the effect and request stated for `AskQuestion` |
| `Page.Home.AskQuestion` | src/app/page.tsx:85-101 | the flag is set, exactly one user message holding the untrimmed text and the next id is appended with the earlier history untouched, and the call is made with that text, the system prompt, the current readings and the new history |
| `Page.Home.FinishSend` | src/app/page.tsx:103-117 | on success exactly one assistant message holding the answer verbatim is appended; on failure the last message is dropped; the flag is cleared either way |
| `Page.Home.HandleSendMessage` | src/app/page.tsx:83-118 | a whole chat turn: blank text is a no-op without a call; otherwise the history grows by the question and the answer on success (+2, two ids used) and equals the old history on failure (one id used); the call is made with the text, the system prompt, the readings and the old history plus the question; the flag ends cleared |
| `Page.Home.SubmitChat` | src/app/page.tsx:143-147 | submitting the chat form sends exactly when the send button is enabled: one user message is appended, the call is made with the untrimmed text, the system prompt, the readings and the extended history, and the field is cleared; otherwise nothing changes |

## Left out

- The two language-model flows (`src/ai/flows/analyze-heat-status.ts`, `src/ai/flows/ai-answer-questions.ts`), their schemas and prompt templates: a call is modelled by the request it is given and by its outcome, a parameter. What the analysis schema does with the record's extra `outsideTemperature` key is library behaviour and is not modelled.
- Message ids: the source builds them from the clock and a random number. Here they come from a counter, so they are unique by construction. A rolled-back message's id is not reused, as a drawn clock-and-random id is not.
- Toasts, console logging, markdown rendering of messages, scrolling the chat to the bottom, the layout, and the static physics and summary sections: presentation only.
- Interleaving of the two turns: the start and finish steps may be called in any order the flags allow. The no-net-change and +2 properties are proved only for a turn run without interleaving (`HandleAnalyze`, `HandleSendMessage`). The send handler's reading of the rendered `messages` instead of the latest state (page.tsx:86-90) is modelled as reading the current state. With both turns pending, a rollback (page.tsx:77, page.tsx:114) drops whichever message is last, which may be the other turn's tentative message; a later success then appends its reply without the message it answers. The model allows exactly this and proves nothing about which message a turn's rollback removes.
- `Page.Home.SendMessage`: requires that no reply is pending. The handler does not check this itself; its only caller, the chat form, cannot submit while a reply is pending. `Page.Home.PressAnalyze` has no such requirement, because the disabled Analyze button is modelled as a press that does nothing.
- `SensorPanel.HandleInputChange`: takes the integer `Number(text)` denotes. JavaScript's parsing of the input's text (fractions, exponents, `NaN` for malformed text) is not modelled.
- Strings are sequences of characters. JavaScript strings are sequences of UTF-16 code units, so a text holding a lone surrogate has no counterpart here; trim, join and concatenation of well-formed text are unaffected.
- `Text.IntRoundTrip`: readings are integers, and JavaScript's rendering of non-integers and of magnitudes of 10^21 and above (exponent notation) is not modelled.
