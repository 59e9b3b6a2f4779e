/** The page's state and its two conversation turns.

    The page owns the sensor record, the message history and two pending
    flags: `isPanelLoading` while an analysis is awaited, `isLoading` while a
    reply to a chat question is awaited. Each turn appends a message
    tentatively, calls the language model, and then either commits the reply
    or rolls back by dropping the last message.

    The model itself is not part of this model: a call is represented by the
    request it is given (returned by the step that makes the call) and by its
    outcome (a parameter of the step that resumes after it). A turn is split
    at its `await` into a start step and a finish step; the whole turn, taken
    without interleaving, is a third method. */
module Page {
  import opened Wrappers
  import opened Text
  import opened Types
  import SensorPanel
  import ChatPanel

  /** The instructions sent with every chat question. */
  const SystemPrompt: string :=
    "You are an AI assistant for a project called 'AI-Based Bus Heat Energy Monitoring System.'\n"
    + "Your job is to answer ANY question related to this system. You must:\n"
    + "- Explain bus overheating using physics (conduction, convection, radiation).\n"
    + "- Use the given sensor data (engine temp, cabin temp, coolant level, ventilation quality, outside temp, and camera notes) to assess overheating.\n"
    + "- Diagnose likely causes such as low coolant, blocked ventilation, poor airflow, or very hot weather.\n"
    + "- Always give practical recommendations (slow down, stop bus, check coolant, open vents, improve airflow, etc.).\n"
    + "- Use clear, simple language suitable for school/college students.\n"
    + "- If the user asks about buses, heat, overheating, sensors, AI, physics, safety, fuel efficiency, or this project’s design, ALWAYS answer in detail.\n"
    + "- If the question is outside this topic, briefly answer only if you can relate it back to the Bus Heat Energy Monitoring System. Otherwise gently redirect the user back to this topic.\n"
    + "- Whenever possible, explicitly mention conduction, convection and radiation in your explanations, and connect them to what is happening in the bus."

  const WelcomeText: string :=
    "Welcome to the **BusGuardian AI**. "
    + "I can analyze bus heat data and answer your questions about this system. "
    + "Use the panel on the left to simulate sensor data and click \"Analyze Heat Status\", or ask me a question below."

  /** The placeholder the analyze turn shows while the analysis is awaited. */
  const AnalyzingText: string := "Analyzing current heat status..."

  const InitialSensors: SensorData := SensorData(
    engineTemperature := 90,
    cabinTemperature := 22,
    coolantLevel := 80,
    ventilationQuality := Good,
    cameraObservations := NoVisibleIssues,
    outsideTemperature := 20)

  const WelcomeMessage: Message := Message(0, Assistant, WelcomeText)

  /** How a call to the language model resolves: with its structured output,
      or with an error of any kind. */
  datatype Outcome<T> = Success(value: T) | Failure

  /** The structured output of the analysis call. */
  datatype HeatAnalysis = HeatAnalysis(analysis: string, suggestions: string)

  /** The structured input of the question-answering call. */
  datatype AnswerRequest = AnswerRequest(
    question: string,
    systemPrompt: string,
    sensorData: string,
    conversationHistory: string)

  /** What the send handler asks the question-answering call with: the
      question, the system prompt, the readings and the history that ends
      with the question. `AnswerInput` renders it as the call's input. */
  datatype AnswerCall = AnswerCall(
    question: string,
    systemPrompt: string,
    sensors: SensorData,
    history: seq<Message>)

  // ---------------------------------------------------------------------
  // The analysis message

  const AnalysisHeading: string := "### Heat Status Analysis"
  const AnalysisLabel: string := "**Analysis:** "
  const SuggestionsLabel: string := "**Suggestions:** "

  /** The markdown of the assistant message that reports an analysis: a
      heading, then the analysis, then the suggestions, each labelled, as the
      source's template literal lays them out. */
  function AnalysisContent(result: HeatAnalysis): string
  {
    "\n" + AnalysisHeading + "\n\n" + AnalysisLabel + result.analysis
    + "\n\n" + SuggestionsLabel + result.suggestions + "\n      "
  }

  /** `x` occurs in `s` at position `i`. */
  predicate OccursAt(s: string, x: string, i: int)
  {
    0 <= i && i + |x| <= |s| && s[i..i + |x|] == x
  }

  /** The analysis message opens with the heading, and holds, below it, the
      labelled analysis followed later by the labelled suggestions. */
  lemma AnalysisContentSections(result: HeatAnalysis)
    ensures OccursAt(AnalysisContent(result), AnalysisHeading, 1)
    ensures exists i, j ::
      1 + |AnalysisHeading| <= i
      && OccursAt(AnalysisContent(result), AnalysisLabel + result.analysis, i)
      && OccursAt(AnalysisContent(result), SuggestionsLabel + result.suggestions, j)
      && i + |AnalysisLabel + result.analysis| <= j
  {
    var a := AnalysisLabel + result.analysis;
    var s := SuggestionsLabel + result.suggestions;
    var front := "\n" + AnalysisHeading + "\n\n";
    var c := front + a + "\n\n" + s + "\n      ";
    assert c == AnalysisContent(result);
    assert c[1..1 + |AnalysisHeading|] == AnalysisHeading;
    var i := |front|;
    var j := i + |a| + 2;
    assert c[i..i + |a|] == a;
    assert c[j..j + |s|] == s;
    assert OccursAt(c, a, i) && OccursAt(c, s, j);
  }

  // ---------------------------------------------------------------------
  // The sensor string

  /** The sensor readings as the one line of text the chat call is given:
      `Engine: E°C, Cabin: C°C, Coolant: K%, Ventilation: V, Outside: O°C,
      Camera: M`. */
  function SensorString(s: SensorData): string
  {
    "Engine: " + (IntToDecimal(s.engineTemperature)
    + ("°C, Cabin: " + (IntToDecimal(s.cabinTemperature)
    + ("°C, Coolant: " + (IntToDecimal(s.coolantLevel)
    + ("%, Ventilation: " + (VentilationName(s.ventilationQuality)
    + (", Outside: " + (IntToDecimal(s.outsideTemperature)
    + ("°C, Camera: " + CameraName(s.cameraObservations)))))))))))
  }

  /** The rest of `s` after the prefix `p`, if `s` starts with `p`. */
  function StripPrefix(s: string, p: string): (r: Option<string>)
    ensures r.Some? ==> s == p + r.value
  {
    if |p| <= |s| && s[..|p|] == p then Some(s[|p|..]) else None
  }

  /** Reads `prefix` and then an integer at the start of `s`. */
  function ReadNumber(s: string, prefix: string): Option<(int, string)>
  {
    var r :- StripPrefix(s, prefix);
    ParseInt(r)
  }

  /** Reads `prefix` and then a ventilation value at the start of `s`. */
  function ReadVentilation(s: string, prefix: string): Option<(Ventilation, string)>
  {
    var r :- StripPrefix(s, prefix);
    if StripPrefix(r, "Good").Some? then Some((Good, StripPrefix(r, "Good").value))
    else if StripPrefix(r, "Moderate").Some? then Some((Moderate, StripPrefix(r, "Moderate").value))
    else if StripPrefix(r, "Poor").Some? then Some((Poor, StripPrefix(r, "Poor").value))
    else None
  }

  /** Reads `prefix` and then a camera observation that makes up the rest of
      `s`. */
  function ReadCamera(s: string, prefix: string): Option<Camera>
  {
    var r :- StripPrefix(s, prefix);
    ParseCamera(r)
  }

  /** Reads a sensor record back from its sensor string. */
  function ParseSensorString(s: string): Option<SensorData>
  {
    var engine :- ReadNumber(s, "Engine: ");
    var cabin :- ReadNumber(engine.1, "°C, Cabin: ");
    var coolant :- ReadNumber(cabin.1, "°C, Coolant: ");
    var ventilation :- ReadVentilation(coolant.1, "%, Ventilation: ");
    var outside :- ReadNumber(ventilation.1, ", Outside: ");
    var camera :- ReadCamera(outside.1, "°C, Camera: ");
    Some(SensorData(engine.0, cabin.0, coolant.0, ventilation.0, camera, outside.0))
  }

  lemma ReadNumberRoundTrip(prefix: string, n: int, rest: string)
    requires rest == [] || !IsDigit(rest[0])
    ensures ReadNumber(prefix + (IntToDecimal(n) + rest), prefix) == Some((n, rest))
  {
    var s := prefix + (IntToDecimal(n) + rest);
    assert StripPrefix(s, prefix) == Some(IntToDecimal(n) + rest);
    IntRoundTrip(n, rest);
  }

  lemma ReadVentilationRoundTrip(prefix: string, v: Ventilation, rest: string)
    ensures ReadVentilation(prefix + (VentilationName(v) + rest), prefix) == Some((v, rest))
  {
    var r := VentilationName(v) + rest;
    assert StripPrefix(prefix + r, prefix) == Some(r);
    match v
    case Good =>
    case Moderate => assert r[0] == 'M';
    case Poor => assert r[0] == 'P';
  }

  lemma ReadCameraRoundTrip(prefix: string, c: Camera)
    ensures ReadCamera(prefix + CameraName(c), prefix) == Some(c)
  {
  }

  /** The sensor string loses nothing: all six readings can be read back
      from it. */
  lemma SensorStringRoundTrip(s: SensorData)
    ensures ParseSensorString(SensorString(s)) == Some(s)
  {
    var t5 := "°C, Camera: " + CameraName(s.cameraObservations);
    var t3 := ", Outside: " + (IntToDecimal(s.outsideTemperature) + t5);
    var t1 := "%, Ventilation: " + (VentilationName(s.ventilationQuality) + t3);
    var u1 := "°C, Coolant: " + (IntToDecimal(s.coolantLevel) + t1);
    var v1 := "°C, Cabin: " + (IntToDecimal(s.cabinTemperature) + u1);
    ReadNumberRoundTrip("Engine: ", s.engineTemperature, v1);
    ReadNumberRoundTrip("°C, Cabin: ", s.cabinTemperature, u1);
    ReadNumberRoundTrip("°C, Coolant: ", s.coolantLevel, t1);
    ReadVentilationRoundTrip("%, Ventilation: ", s.ventilationQuality, t3);
    ReadNumberRoundTrip(", Outside: ", s.outsideTemperature, t5);
    ReadCameraRoundTrip("°C, Camera: ", s.cameraObservations);
  }

  // ---------------------------------------------------------------------
  // The transcript

  /** One message as a transcript line: `role: content`. */
  function Line(m: Message): string
  {
    RoleName(m.role) + ": " + m.content
  }

  /** The `role: content` line of each message, in order. */
  function Lines(ms: seq<Message>): seq<string>
  {
    seq(|ms|, i requires 0 <= i < |ms| => Line(ms[i]))
  }

  /** Message `i`'s line is line `i`. */
  lemma LinesAt(ms: seq<Message>)
    ensures |Lines(ms)| == |ms|
    ensures forall i {:trigger Lines(ms)[i]} :: 0 <= i < |ms| ==> Lines(ms)[i] == Line(ms[i])
  {
  }

  /** The conversation as the chat call is given it: the lines of the
      messages joined by newlines. */
  function Transcript(ms: seq<Message>): string
  {
    Join(Lines(ms), "\n")
  }

  /** Appending a message adds its line at the end of the transcript, after
      a newline unless the history was empty. */
  lemma TranscriptAppend(ms: seq<Message>, m: Message)
    ensures Transcript(ms + [m]) == if ms == [] then Line(m) else Transcript(ms) + "\n" + Line(m)
  {
    LinesAt(ms);
    LinesAt(ms + [m]);
    assert Lines(ms + [m]) == Lines(ms) + [Line(m)];
    JoinAppend(Lines(ms), Line(m), "\n");
  }

  /** The transcript lists every message, in order: message `i`'s line
      stands after the transcript of the messages before it and one newline,
      and before one newline and the transcript of the messages after it. */
  lemma TranscriptAt(ms: seq<Message>, i: nat)
    requires i < |ms|
    ensures Transcript(ms) ==
      Transcript(ms[..i]) + (if i == 0 then "" else "\n") + Line(ms[i])
      + (if i == |ms| - 1 then "" else "\n" + Transcript(ms[i + 1..]))
  {
    LinesAt(ms);
    LinesAt(ms[..i]);
    LinesAt(ms[i + 1..]);
    assert Lines(ms)[..i] == Lines(ms[..i]);
    assert Lines(ms)[i + 1..] == Lines(ms[i + 1..]);
    JoinAt(Lines(ms), i, "\n");
  }

  /** The input the question-answering call is given: the readings as the
      sensor string and the history as its transcript. */
  function AnswerInput(call: AnswerCall): AnswerRequest
  {
    AnswerRequest(call.question, call.systemPrompt, SensorString(call.sensors), Transcript(call.history))
  }

  /** What the input of a question's call carries: the question and the
      system prompt verbatim, a sensor string from which the readings read
      back exactly, and the earlier conversation's transcript followed by the
      question as a `user: ` line. */
  lemma AnswerInputContents(call: AnswerCall, earlier: seq<Message>, id: nat)
    requires call.history == earlier + [Message(id, User, call.question)]
    ensures AnswerInput(call).question == call.question
    ensures AnswerInput(call).systemPrompt == call.systemPrompt
    ensures ParseSensorString(AnswerInput(call).sensorData) == Some(call.sensors)
    ensures AnswerInput(call).conversationHistory ==
      if earlier == [] then "user: " + call.question
      else Transcript(earlier) + "\n" + "user: " + call.question
  {
    AnswerInputReadings(call);
    AnswerInputHistory(call, earlier, id);
  }

  lemma AnswerInputReadings(call: AnswerCall)
    ensures ParseSensorString(AnswerInput(call).sensorData) == Some(call.sensors)
  {
    SensorStringRoundTrip(call.sensors);
  }

  lemma AnswerInputHistory(call: AnswerCall, earlier: seq<Message>, id: nat)
    requires call.history == earlier + [Message(id, User, call.question)]
    ensures AnswerInput(call).conversationHistory ==
      if earlier == [] then "user: " + call.question
      else Transcript(earlier) + "\n" + "user: " + call.question
  {
    var m := Message(id, User, call.question);
    assert RoleName(User) + ": " == "user: ";
    assert Line(m) == "user: " + call.question;
    TranscriptAppend(earlier, m);
    assert AnswerInput(call).conversationHistory == Transcript(earlier + [m]);
  }

  // ---------------------------------------------------------------------
  // The history updates

  /** `prev.slice(0, prev.length - 1)`: the history without its last entry;
      the empty history stays empty. */
  function Rollback(h: seq<Message>): (r: seq<Message>)
    ensures h != [] ==> h == r + [h[|h| - 1]]
    ensures h == [] ==> r == []
  {
    if h == [] then [] else h[..|h| - 1]
  }

  /** The default readings are ones the sliders can show. */
  lemma InitialSlidersInRange()
    ensures SensorPanel.SlidersInRange(InitialSensors)
  {
  }

  // ---------------------------------------------------------------------
  // The page

  class Home {
    // The two long texts below are the module constants `SystemPrompt` and
    // `WelcomeMessage`, to which the constructor sets them. The methods refer
    // to these fields rather than to the constants so that the texts' many
    // characters stay out of the methods' proofs.

    /** The instructions the page sends with every question. */
    const systemPrompt: string
    /** The message the page opens with. */
    const welcome: Message

    var sensors: SensorData
    var messages: seq<Message>
    /** A reply to a chat question is awaited. */
    var isLoading: bool
    /** An analysis is awaited. */
    var isPanelLoading: bool
    /** The id the next new message gets. */
    var nextId: nat

    /** The number of turns awaiting the model. */
    ghost function Pending(): nat
      reads this
    {
      (if isLoading then 1 else 0) + (if isPanelLoading then 1 else 0)
    }

    /** The page's invariant: the sliders hold values they admit; above
        the welcome message there is at least one message per pending turn,
        so no rollback removes the welcome message (which message a rollback
        drops is whichever is last, not necessarily the turn's own); message
        ids increase along the history and are below `nextId`, so they are
        unique. */
    ghost predicate Valid()
      reads this
    {
      SensorPanel.SlidersInRange(sensors)
      && |messages| >= 1 + Pending()
      && messages[0] == welcome
      && (forall i, j :: 0 <= i < j < |messages| ==> messages[i].id < messages[j].id)
      && (forall i :: 0 <= i < |messages| ==> messages[i].id < nextId)
    }

    /** The page as first shown: the default readings, only the welcome
        message, nothing pending. */
    constructor ()
      ensures Valid()
      ensures systemPrompt == SystemPrompt && welcome == WelcomeMessage
      ensures sensors == InitialSensors && messages == [WelcomeMessage]
      ensures !isLoading && !isPanelLoading && nextId == 1
    {
      systemPrompt := SystemPrompt;
      welcome := WelcomeMessage;
      sensors := InitialSensors;
      messages := [WelcomeMessage];
      isLoading := false;
      isPanelLoading := false;
      nextId := 1;
      InitialSlidersInRange();
    }

    // The simulation panel's controls: each is disabled, and so delivers no
    // change, while an analysis is awaited.

    method SliderChange(slider: SensorPanel.Slider, value: seq<int>)
      requires Valid()
      requires |value| > 0 && slider.Admits(value[0])
      modifies this
      ensures Valid()
      ensures sensors == if old(isPanelLoading) then old(sensors)
                         else SensorPanel.HandleSliderChange(old(sensors), slider.Key(), value)
      ensures messages == old(messages) && nextId == old(nextId)
      ensures isLoading == old(isLoading) && isPanelLoading == old(isPanelLoading)
    {
      SensorPanel.ChangesKeepSlidersInRange(sensors);
      if !isPanelLoading {
        sensors := SensorPanel.HandleSliderChange(sensors, slider.Key(), value);
      }
    }

    method SelectChange(key: SensorPanel.ChoiceKey, value: string)
      requires Valid()
      requires value in SensorPanel.Options(key)
      modifies this
      ensures Valid()
      ensures sensors == if old(isPanelLoading) then old(sensors)
                         else SensorPanel.HandleSelectChange(old(sensors), key, value)
      ensures messages == old(messages) && nextId == old(nextId)
      ensures isLoading == old(isLoading) && isPanelLoading == old(isPanelLoading)
    {
      SensorPanel.ChangesKeepSlidersInRange(sensors);
      if !isPanelLoading {
        sensors := SensorPanel.HandleSelectChange(sensors, key, value);
      }
    }

    /** The outside temperature input, the panel's one number input. */
    method OutsideInputChange(number: int)
      requires Valid()
      modifies this
      ensures Valid()
      ensures sensors == if old(isPanelLoading) then old(sensors)
                         else SensorPanel.HandleInputChange(old(sensors), SensorPanel.OutsideTemperature, number)
      ensures messages == old(messages) && nextId == old(nextId)
      ensures isLoading == old(isLoading) && isPanelLoading == old(isPanelLoading)
    {
      SensorPanel.ChangesKeepSlidersInRange(sensors);
      if !isPanelLoading {
        sensors := SensorPanel.HandleInputChange(sensors, SensorPanel.OutsideTemperature, number);
      }
    }

    // The analyze turn

    /** Pressing Analyze: the button is disabled while an analysis is
        awaited. Otherwise the panel flag is set, the placeholder is appended
        to the history and the whole record is sent to the analysis call
        (`request`). */
    method PressAnalyze() returns (request: Option<SensorData>)
      requires Valid()
      modifies this
      ensures Valid() && isPanelLoading
      ensures old(isPanelLoading) ==> request == None && messages == old(messages) && nextId == old(nextId)
      ensures !old(isPanelLoading) ==>
        request == Some(old(sensors))
        && messages == old(messages) + [Message(old(nextId), User, AnalyzingText)]
        && nextId == old(nextId) + 1
      ensures sensors == old(sensors) && isLoading == old(isLoading)
    {
      if isPanelLoading {
        return None;
      }
      isPanelLoading := true;
      messages := messages + [Message(nextId, User, AnalyzingText)];
      nextId := nextId + 1;
      request := Some(sensors);
    }

    /** The analysis call resolves: a result is committed as one assistant
        message; an error drops the last message. Either way the panel flag
        is cleared. */
    method FinishAnalyze(outcome: Outcome<HeatAnalysis>)
      requires Valid() && isPanelLoading
      modifies this
      ensures Valid() && !isPanelLoading
      ensures outcome.Success? ==>
        messages == old(messages) + [Message(old(nextId), Assistant, AnalysisContent(outcome.value))]
        && nextId == old(nextId) + 1
      ensures outcome.Failure? ==> messages == Rollback(old(messages)) && nextId == old(nextId)
      ensures sensors == old(sensors) && isLoading == old(isLoading)
    {
      match outcome {
        case Success(result) =>
          messages := messages + [Message(nextId, Assistant, AnalysisContent(result))];
          nextId := nextId + 1;
        case Failure =>
          messages := Rollback(messages);
      }
      isPanelLoading := false;
    }

    /** A whole analyze turn with nothing in between: on success the history
        grows by the placeholder and the analysis, on failure it is as
        before; the panel flag ends cleared. */
    method HandleAnalyze(outcome: Outcome<HeatAnalysis>) returns (request: SensorData)
      requires Valid() && !isPanelLoading
      modifies this
      ensures Valid() && !isPanelLoading
      ensures request == old(sensors)
      ensures outcome.Success? ==>
        messages == old(messages) + [Message(old(nextId), User, AnalyzingText),
                                     Message(old(nextId) + 1, Assistant, AnalysisContent(outcome.value))]
        && nextId == old(nextId) + 2
      ensures outcome.Failure? ==> messages == old(messages) && nextId == old(nextId) + 1
      ensures sensors == old(sensors) && isLoading == old(isLoading)
    {
      var sent := PressAnalyze();
      request := sent.value;
      FinishAnalyze(outcome);
    }

    // The chat turn

    /** The send handler up to its call. Blank text (empty once trimmed) is
        ignored: nothing changes and no call is made. Otherwise the text is
        asked as a question. The handler is reached only from the send
        button, which is disabled while a reply is awaited. */
    method SendMessage(userMessage: string) returns (request: Option<AnswerCall>)
      requires Valid() && !isLoading
      modifies this
      ensures Valid()
      ensures IsBlank(userMessage) ==>
        request == None && !isLoading && messages == old(messages) && nextId == old(nextId)
      ensures !IsBlank(userMessage) ==>
        isLoading
        && messages == old(messages) + [Message(old(nextId), User, userMessage)]
        && nextId == old(nextId) + 1
        && request == Some(AnswerCall(userMessage, systemPrompt, old(sensors), messages))
      ensures sensors == old(sensors) && isPanelLoading == old(isPanelLoading)
    {
      if IsBlank(userMessage) {
        return None;
      }
      var asked := AskQuestion(userMessage);
      request := Some(asked);
    }

    /** Asking a question: the flag is set, the untrimmed text is appended
        as a user message, and the call is made with the untrimmed text, the
        system prompt, the readings and the extended history. */
    method AskQuestion(userMessage: string) returns (request: AnswerCall)
      requires Valid() && !isLoading
      modifies this
      ensures Valid() && isLoading
      ensures messages == old(messages) + [Message(old(nextId), User, userMessage)]
      ensures nextId == old(nextId) + 1
      ensures request == AnswerCall(userMessage, systemPrompt, old(sensors), messages)
      ensures sensors == old(sensors) && isPanelLoading == old(isPanelLoading)
    {
      isLoading := true;
      messages := messages + [Message(nextId, User, userMessage)];
      nextId := nextId + 1;
      request := AnswerCall(userMessage, systemPrompt, sensors, messages);
    }

    /** The chat call resolves: an answer is committed verbatim as one
        assistant message; an error drops the last message. Either way the
        flag is cleared. */
    method FinishSend(outcome: Outcome<string>)
      requires Valid() && isLoading
      modifies this
      ensures Valid() && !isLoading
      ensures outcome.Success? ==>
        messages == old(messages) + [Message(old(nextId), Assistant, outcome.value)]
        && nextId == old(nextId) + 1
      ensures outcome.Failure? ==> messages == Rollback(old(messages)) && nextId == old(nextId)
      ensures sensors == old(sensors) && isPanelLoading == old(isPanelLoading)
    {
      match outcome {
        case Success(answer) =>
          messages := messages + [Message(nextId, Assistant, answer)];
          nextId := nextId + 1;
        case Failure =>
          messages := Rollback(messages);
      }
      isLoading := false;
    }

    /** A whole chat turn with nothing in between: blank text changes
        nothing and makes no call; otherwise the history grows by the
        question and the answer on success and is as before on failure. The
        flag ends cleared. */
    method HandleSendMessage(userMessage: string, outcome: Outcome<string>) returns (request: Option<AnswerCall>)
      requires Valid() && !isLoading
      modifies this
      ensures Valid() && !isLoading
      ensures request.Some? <==> !IsBlank(userMessage)
      ensures IsBlank(userMessage) ==> messages == old(messages) && nextId == old(nextId)
      ensures !IsBlank(userMessage) && outcome.Failure? ==>
        messages == old(messages) && nextId == old(nextId) + 1
      ensures !IsBlank(userMessage) && outcome.Success? ==>
        messages == old(messages) + [Message(old(nextId), User, userMessage),
                                     Message(old(nextId) + 1, Assistant, outcome.value)]
        && nextId == old(nextId) + 2
      ensures request.Some? ==>
        request.value == AnswerCall(userMessage, systemPrompt, old(sensors),
                                    old(messages) + [Message(old(nextId), User, userMessage)])
      ensures sensors == old(sensors) && isPanelLoading == old(isPanelLoading)
    {
      request := SendMessage(userMessage);
      if request.Some? {
        FinishSend(outcome);
      }
    }

    /** The chat form is submitted: when its send button is enabled the
        text is forwarded to the send handler and the field is cleared. */
    method SubmitChat(form: ChatPanel.ChatForm) returns (request: Option<AnswerCall>)
      requires Valid()
      modifies this, form
      ensures Valid()
      ensures request.Some? <==> ChatPanel.SubmitEnabled(old(isLoading), old(form.input))
      ensures request.Some? ==>
        form.input == "" && isLoading
        && messages == old(messages) + [Message(old(nextId), User, old(form.input))]
        && nextId == old(nextId) + 1
        && request.value == AnswerCall(old(form.input), systemPrompt, old(sensors),
                                       old(messages) + [Message(old(nextId), User, old(form.input))])
      ensures request.None? ==>
        form.input == old(form.input) && messages == old(messages) && isLoading == old(isLoading)
        && nextId == old(nextId)
      ensures sensors == old(sensors) && isPanelLoading == old(isPanelLoading)
    {
      var forwarded := form.Submit(isLoading);
      if forwarded.Some? {
        request := SendMessage(forwarded.value);
      } else {
        request := None;
      }
    }
  }

  /** The default readings render as the sensor string the first question
      is sent with: `Engine: 90°C, Cabin: 22°C, Coolant: 80%, Ventilation:
      Good, Outside: 20°C, Camera: No visible issues`. */
  lemma InitialSensorString()
    ensures SensorString(InitialSensors) ==
      "Engine: " + ("90"
      + ("°C, Cabin: " + ("22"
      + ("°C, Coolant: " + ("80"
      + ("%, Ventilation: " + ("Good"
      + (", Outside: " + ("20"
      + ("°C, Camera: " + "No visible issues"))))))))))
  {
  }

  /** A first question on a fresh page: the call sees the default readings
      and a two-line transcript. */
  method QuestionScenario()
  {
    var home := new Home();
    var question := "Why is my bus overheating?";
    assert question[0] == 'W';
    var request := home.SendMessage(question);
    assert request.Some?;
    var input := AnswerInput(request.value);
    assert request.value.history == [WelcomeMessage] + [Message(1, User, question)];
    AnswerInputContents(request.value, [WelcomeMessage], 1);
    TranscriptAppend([], WelcomeMessage);
    assert [] + [WelcomeMessage] == [WelcomeMessage];
    assert input.sensorData == SensorString(InitialSensors);
    assert input.conversationHistory == Line(WelcomeMessage) + "\n" + "user: " + question;
  }

  /** The same question answered: the history ends with the question and
      the answer, and nothing is pending. */
  method AnsweredQuestionScenario()
  {
    var home := new Home();
    var question := "Why is my bus overheating?";
    assert question[0] == 'W';
    var request := home.HandleSendMessage(question, Success("Low coolant and blocked vents."));
    assert |home.messages| == 3 && home.messages[2].role == Assistant && !home.isLoading;
  }

  /** An analysis on a fresh page whose call fails: the history is back to
      the welcome message alone and the panel flag is cleared. */
  method FailedAnalysisScenario()
  {
    var home := new Home();
    var request := home.HandleAnalyze(Failure);
    assert request == InitialSensors;
    assert home.messages == [WelcomeMessage] && !home.isPanelLoading;
  }

  /** A whitespace-only question changes nothing and makes no call. */
  method BlankQuestionScenario()
  {
    var home := new Home();
    TrimProperties(" \t ");
    var request := home.HandleSendMessage(" \t ", Success("unused"));
    assert request == None;
    assert home.messages == [WelcomeMessage] && !home.isLoading;
  }
}
