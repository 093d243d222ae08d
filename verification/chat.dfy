/** The chat loop between the model and the tools.

    A script says how the provider, the quota and the tools behave at every step; the contracts
    hold for every script. The consumer is assumed to read the events to the end. */
module Chat {
  import opened Wrappers

  datatype Role = System | User | Assistant | Tool

  datatype ToolCall = ToolCall(id: string, name: string, arguments: string)

  datatype Message = Message(role: Role, content: string, toolCalls: seq<ToolCall>,
                             toolCallId: Option<string>, name: Option<string>)

  datatype UsageReport = UsageReport(prompt: nat, completion: nat)

  datatype Chunk = TextDelta(text: string) | CallChunk(call: ToolCall) | UsageChunk(report: UsageReport)

  /** The exceptions that can end a run. */
  datatype Fault = QuotaExceeded | Unavailable | LLMFailure | Timeout | Unexpected

  datatype Event =
    | TextEvent(text: string)
    | ToolEvent(tool: string, caption: string, arguments: string)
    | Done(model: string)
    | Error(message: string)
    | RunSummary(summary: Summary)

  datatype Summary = Summary(model: string, steps: nat, toolCalls: seq<(string, string)>, prompt: nat,
                             completion: nat, estimated: bool, done: bool, error: Option<string>)

  datatype StepResult = StepResult(text: string, calls: seq<ToolCall>, usage: Option<UsageReport>)

  /** What becomes of one tool call: refused before it runs, run (with a result or an exception),
      or an exception while it is prepared. */
  datatype ToolFate =
    | Rejected(result: string)
    | Prepared(caption: string, outcome: Result<string, Fault>)
    | PrepareFails(fault: Fault)

  /** One step: does the reservation fail, what does the model stream and does the stream break
      off after that, does settling fail, and the fate of each tool call. */
  datatype StepScript = StepScript(reserve: Option<Fault>, chunks: seq<Chunk>, broken: Option<Fault>,
                                   settle: Option<Fault>, tools: seq<ToolFate>)

  datatype Settings = Settings(maxSteps: nat, maxCallsPerStep: nat, completionReserve: nat)

  /** One request to the provider (in the last step tools are forbidden), what was reserved for
      it and, if it was settled, what it really used. */
  datatype Request = Request(messages: seq<Message>, final: bool, reserved: nat, actual: Option<nat>)

  const TOO_MANY_CALLS := "too many calls in one step"
  const NO_ANSWER_MESSAGE := "the model could not put an answer into words"

  function UserMessage(f: Fault): string {
    match f
    case QuotaExceeded => "quota exceeded"
    case Unavailable => "quota unavailable"
    case LLMFailure => "provider failed"
    case Timeout => "too slow"
    case Unexpected => "internal error"
  }

  // ---------------------------------------------------------------- accounting

  datatype StepTokens = StepTokens(prompt: nat, completion: nat, estimated: bool)

  function Total(t: StepTokens): nat { t.prompt + t.completion }

  /** Three characters a token, rounded up. */
  function EstimateTokens(chars: nat): nat { (chars + 2) / 3 }

  function CallChars(calls: seq<ToolCall>): nat {
    if calls == [] then 0
    else CallChars(calls[..|calls| - 1]) + |calls[|calls| - 1].arguments| + |calls[|calls| - 1].name|
  }

  function MessagesChars(messages: seq<Message>): nat {
    if messages == [] then 0
    else
      var m := messages[|messages| - 1];
      MessagesChars(messages[..|messages| - 1]) + |m.content| + CallChars(m.toolCalls)
  }

  function EstimateStepReservation(messages: seq<Message>, settings: Settings): nat {
    EstimateTokens(MessagesChars(messages)) + settings.completionReserve
  }

  /** What the provider reports, or else an estimate of input and output. */
  function TokensOf(messages: seq<Message>, result: StepResult): StepTokens {
    if result.usage.Some? then StepTokens(result.usage.value.prompt, result.usage.value.completion, false)
    else StepTokens(EstimateTokens(MessagesChars(messages)),
                    EstimateTokens(|result.text| + CallChars(result.calls)), true)
  }

  /** Without a report from the provider a step overruns its reservation exactly when its answer
      is longer than the reserve for answers. */
  lemma EstimatedStepOverruns(messages: seq<Message>, result: StepResult, settings: Settings)
    requires result.usage == None
    ensures Total(TokensOf(messages, result)) > EstimateStepReservation(messages, settings)
            <==> |result.text| + CallChars(result.calls) > 3 * settings.completionReserve
  {
  }

  /** Everything in messages, one after another. */
  function Written(messages: seq<Message>): string {
    if messages == [] then ""
    else
      var m := messages[|messages| - 1];
      Written(messages[..|messages| - 1]) + m.content + WrittenCalls(m.toolCalls)
  }

  function WrittenCalls(calls: seq<ToolCall>): string {
    if calls == [] then ""
    else WrittenCalls(calls[..|calls| - 1]) + calls[|calls| - 1].arguments + calls[|calls| - 1].name
  }

  lemma {:induction false} CharsOfCalls(calls: seq<ToolCall>)
    ensures CallChars(calls) == |WrittenCalls(calls)|
  {
    if calls != [] {
      CharsOfCalls(calls[..|calls| - 1]);
    }
  }

  lemma {:induction false} CharsWritten(messages: seq<Message>)
    ensures MessagesChars(messages) == |Written(messages)|
  {
    if messages != [] {
      CharsWritten(messages[..|messages| - 1]);
      CharsOfCalls(messages[|messages| - 1].toolCalls);
    }
  }

  /** n characters make so many tokens: three to a token, the last one perhaps not full. */
  predicate MakesTokens(n: nat, tokens: nat) {
    3 * tokens >= n && 3 * tokens < n + 3
  }

  lemma TokensAreUnique(n: nat, a: nat, b: nat)
    requires MakesTokens(n, a) && MakesTokens(n, b)
    ensures a == b
  {
  }

  /** Chunk i is the last usage report. */
  predicate LastReport(chunks: seq<Chunk>, i: int) {
    && 0 <= i < |chunks| && chunks[i].UsageChunk?
    && forall j :: i < j < |chunks| ==> !chunks[j].UsageChunk?
  }

  /** What a step costs: the last report of the provider, or else the length of what was sent and of
      what came back. */
  ghost predicate Costs(t: StepTokens, messages: seq<Message>, chunks: seq<Chunk>) {
    && (forall i :: LastReport(chunks, i) ==>
          t == StepTokens(chunks[i].report.prompt, chunks[i].report.completion, false))
    && ((forall i :: 0 <= i < |chunks| ==> !chunks[i].UsageChunk?) ==>
          && t.estimated && MakesTokens(|Written(messages)|, t.prompt)
          && MakesTokens(|TextOf(chunks)| + |WrittenCalls(CallsOf(chunks))|, t.completion))
  }

  lemma {:induction false} UsageIsLast(chunks: seq<Chunk>)
    ensures forall i :: LastReport(chunks, i) ==> UsageIn(chunks) == Some(chunks[i].report)
    ensures UsageIn(chunks) == None <==> forall i :: 0 <= i < |chunks| ==> !chunks[i].UsageChunk?
    ensures UsageIn(chunks).Some? ==> exists i :: LastReport(chunks, i)
  {
    if chunks != [] {
      var init := chunks[..|chunks| - 1];
      UsageIsLast(init);
      if !chunks[|chunks| - 1].UsageChunk? {
        forall i | LastReport(chunks, i) ensures LastReport(init, i) && init[i] == chunks[i] {
        }
        assert forall i :: 0 <= i < |init| ==> init[i] == chunks[i];
        if UsageIn(init).Some? {
          var i :| LastReport(init, i);
          assert LastReport(chunks, i);
        }
      } else {
        assert LastReport(chunks, |init|);
      }
    }
  }

  lemma TokensOfCosts(messages: seq<Message>, chunks: seq<Chunk>)
    ensures Costs(TokensOf(messages, Answer(chunks)), messages, chunks)
    ensures (exists c :: c in chunks && c.UsageChunk?) ==> exists i :: LastReport(chunks, i)
  {
    UsageIsLast(chunks);
    CharsWritten(messages);
    CharsOfCalls(CallsOf(chunks));
  }

  /** What is reserved: the length of what is sent, and the reserve for the answer. */
  lemma ReservationIs(messages: seq<Message>, settings: Settings)
    ensures EstimateStepReservation(messages, settings) >= settings.completionReserve
    ensures MakesTokens(|Written(messages)|, EstimateStepReservation(messages, settings) - settings.completionReserve)
  {
    CharsWritten(messages);
  }

  /** The reservation grows with the transcript. */
  lemma {:induction false} ReservationGrows(messages: seq<Message>, more: seq<Message>, settings: Settings)
    ensures EstimateStepReservation(messages, settings) <= EstimateStepReservation(messages + more, settings)
    ensures MessagesChars(messages) <= MessagesChars(messages + more)
  {
    if more == [] {
      assert messages + more == messages;
    } else {
      var init := more[..|more| - 1];
      assert (messages + more)[..|messages + more| - 1] == messages + init;
      ReservationGrows(messages, init, settings);
    }
  }

  // ---------------------------------------------------------------- one request

  function TextOf(chunks: seq<Chunk>): string {
    if chunks == [] then ""
    else
      var c := chunks[|chunks| - 1];
      TextOf(chunks[..|chunks| - 1]) + if c.TextDelta? then c.text else ""
  }

  function CallsOf(chunks: seq<Chunk>): seq<ToolCall> {
    if chunks == [] then []
    else
      var c := chunks[|chunks| - 1];
      CallsOf(chunks[..|chunks| - 1]) + if c.CallChunk? then [c.call] else []
  }

  /** The last report counts. */
  function UsageIn(chunks: seq<Chunk>): Option<UsageReport> {
    if chunks == [] then None
    else if chunks[|chunks| - 1].UsageChunk? then Some(chunks[|chunks| - 1].report)
    else UsageIn(chunks[..|chunks| - 1])
  }

  function Answer(chunks: seq<Chunk>): StepResult {
    StepResult(TextOf(chunks), CallsOf(chunks), UsageIn(chunks))
  }

  /** The text shown by events, joined. */
  function Shown(events: seq<Event>): string {
    if events == [] then ""
    else
      var e := events[|events| - 1];
      Shown(events[..|events| - 1]) + if e.TextEvent? then e.text else ""
  }

  predicate Streaming(e: Event) { e.TextEvent? || e.ToolEvent? }

  predicate OnlyStreaming(events: seq<Event>) {
    forall i :: 0 <= i < |events| ==> Streaming(events[i])
  }

  predicate Terminal(e: Event) { e.Done? || e.Error? }

  /** The text as it goes out. */
  function Deltas(chunks: seq<Chunk>): seq<Event> {
    if chunks == [] then []
    else
      var c := chunks[|chunks| - 1];
      Deltas(chunks[..|chunks| - 1]) + if c.TextDelta? then [TextEvent(c.text)] else []
  }

  lemma {:induction false} DeltasShow(chunks: seq<Chunk>)
    ensures Shown(Deltas(chunks)) == TextOf(chunks) && OnlyStreaming(Deltas(chunks))
  {
    if chunks != [] {
      DeltasShow(chunks[..|chunks| - 1]);
      var before, c := Deltas(chunks[..|chunks| - 1]), chunks[|chunks| - 1];
      if c.TextDelta? {
        assert (before + [TextEvent(c.text)])[..|before|] == before;
      } else {
        assert before + [] == before && TextOf(chunks[..|chunks| - 1]) + "" == TextOf(chunks[..|chunks| - 1]);
      }
    }
  }

  /** Streams one answer: the text goes out as it comes, and it is the text of the result. */
  method StreamStep(script: StepScript) returns (events: seq<Event>, result: Result<StepResult, Fault>)
    ensures events == Deltas(script.chunks)
    ensures result == if script.broken.Some? then Failure(script.broken.value) else Success(Answer(script.chunks))
  {
    events := [];
    var text: string, calls: seq<ToolCall>, usage: Option<UsageReport> := "", [], None;
    for i := 0 to |script.chunks|
      invariant events == Deltas(script.chunks[..i])
      invariant StepResult(text, calls, usage) == Answer(script.chunks[..i])
    {
      var chunk := script.chunks[i];
      assert script.chunks[..i + 1][..i] == script.chunks[..i];
      match chunk
      case TextDelta(t) =>
        text := text + t;
        events := events + [TextEvent(t)];
      case CallChunk(call) =>
        calls := calls + [call];
      case UsageChunk(report) =>
        usage := Some(report);
    }
    assert script.chunks[..|script.chunks|] == script.chunks;
    if script.broken.Some? {
      return events, Failure(script.broken.value);
    }
    result := Success(StepResult(text, calls, usage));
  }

  // ---------------------------------------------------------------- the tools

  /** `m` answers `call`. */
  predicate Answers(m: Message, call: ToolCall) {
    m.role == Tool && m.toolCallId == Some(call.id) && m.name == Some(call.name) && m.toolCalls == []
  }

  /** What a call that runs returns, unless it raises. */
  function Verdict(fate: ToolFate): Result<string, Fault> {
    match fate
    case PrepareFails(f) => Failure(f)
    case Rejected(r) => Success(r)
    case Prepared(_, outcome) => outcome
  }

  /** A script too short for the calls of a step says nothing of the rest: they are refused. */
  function Fate(tools: seq<ToolFate>, i: nat): ToolFate {
    if i < |tools| then tools[i] else Rejected("")
  }

  /** The first exception among the first `n` calls. */
  function FirstFault(tools: seq<ToolFate>, n: nat): Option<Fault> {
    if n == 0 then None
    else if FirstFault(tools, n - 1).Some? then FirstFault(tools, n - 1)
    else if Verdict(Fate(tools, n - 1)).Failure? then Some(Verdict(Fate(tools, n - 1)).error)
    else None
  }

  /** What the model is told about call `i` of a step. */
  function ToldAbout(tools: seq<ToolFate>, i: nat, settings: Settings): string {
    if i >= settings.maxCallsPerStep then TOO_MANY_CALLS
    else if Verdict(Fate(tools, i)).Success? then Verdict(Fate(tools, i)).value
    else ""
  }

  /** What the first n calls of a step show: one event for each call that is run, up to the first that
      raises. */
  function ToolEvents(calls: seq<ToolCall>, tools: seq<ToolFate>, n: nat): seq<Event>
    requires n <= |calls|
  {
    if n == 0 then []
    else if FirstFault(tools, n - 1).Some? || !Fate(tools, n - 1).Prepared? then ToolEvents(calls, tools, n - 1)
    else
      var call := calls[n - 1];
      ToolEvents(calls, tools, n - 1) + [ToolEvent(call.name, Fate(tools, n - 1).caption, call.arguments)]
  }

  lemma {:induction false} ToolEventsStay(calls: seq<ToolCall>, tools: seq<ToolFate>, n: nat, m: nat)
    requires n <= m <= |calls| && FirstFault(tools, n).Some?
    ensures ToolEvents(calls, tools, m) == ToolEvents(calls, tools, n)
  {
    if n < m {
      ToolEventsStay(calls, tools, n, m - 1);
      FirstFaultStays(tools, n, m - 1);
    }
  }

  lemma {:induction false} ToolEventsShowNothing(calls: seq<ToolCall>, tools: seq<ToolFate>, n: nat)
    requires n <= |calls|
    ensures Shown(ToolEvents(calls, tools, n)) == "" && OnlyStreaming(ToolEvents(calls, tools, n))
    ensures |ToolEvents(calls, tools, n)| <= n
  {
    if n > 0 {
      ToolEventsShowNothing(calls, tools, n - 1);
      var before, now := ToolEvents(calls, tools, n - 1), ToolEvents(calls, tools, n);
      if |now| > |before| {
        assert now[..|before|] == before;
      }
    }
  }

  function Least(a: nat, b: nat): nat { if a <= b then a else b }

  /** Runs the calls of a step in order; every call gets exactly one message, and a call over
      the limit gets one without running, so it cannot raise. */
  method RunToolCalls(calls: seq<ToolCall>, tools: seq<ToolFate>, settings: Settings)
    returns (events: seq<Event>, messages: seq<Message>, fault: Option<Fault>)
    ensures fault == FirstFault(tools, Least(|calls|, settings.maxCallsPerStep))
    ensures |messages| <= |calls| && (fault == None ==> |messages| == |calls|)
    ensures forall i :: 0 <= i < |messages| ==> Answers(messages[i], calls[i])
    ensures forall i :: 0 <= i < |messages| ==> messages[i].content == ToldAbout(tools, i, settings)
    ensures events == ToolEvents(calls, tools, Least(|calls|, settings.maxCallsPerStep))
  {
    events, messages, fault := [], [], None;
    ghost var limit := Least(|calls|, settings.maxCallsPerStep);
    for i := 0 to |calls|
      invariant |messages| == i && fault == None == FirstFault(tools, Least(i, settings.maxCallsPerStep))
      invariant forall j :: 0 <= j < i ==> Answers(messages[j], calls[j])
      invariant forall j :: 0 <= j < i ==> messages[j].content == ToldAbout(tools, j, settings)
      invariant events == ToolEvents(calls, tools, Least(i, settings.maxCallsPerStep))
    {
      var call := calls[i];
      var result: string;
      if i >= settings.maxCallsPerStep {
        result := TOO_MANY_CALLS;
      } else {
        match Fate(tools, i)
        case PrepareFails(f) =>
          FirstFaultStays(tools, i + 1, limit);
          ToolEventsStay(calls, tools, i + 1, limit);
          return events, messages, Some(f);
        case Rejected(r) =>
          result := r;
        case Prepared(caption, outcome) =>
          events := events + [ToolEvent(call.name, caption, call.arguments)];
          if outcome.Failure? {
            FirstFaultStays(tools, i + 1, limit);
            ToolEventsStay(calls, tools, i + 1, limit);
            return events, messages, Some(outcome.error);
          }
          result := outcome.value;
      }
      messages := messages + [Message(Tool, result, [], Some(call.id), Some(call.name))];
    }
  }

  lemma {:induction false} FirstFaultStays(tools: seq<ToolFate>, n: nat, m: nat)
    requires n <= m && FirstFault(tools, n).Some?
    ensures FirstFault(tools, m) == FirstFault(tools, n)
  {
    if n < m {
      FirstFaultStays(tools, n, m - 1);
    }
  }

  // ---------------------------------------------------------------- the transcript

  /** Rounds of one assistant message with calls, answered by one tool message per call in the
      order of the calls. */
  ghost predicate Rounds(messages: seq<Message>)
    decreases |messages|
  {
    messages == [] ||
    (var calls := messages[0].toolCalls;
     && messages[0].role == Assistant && calls != [] && |messages| > |calls|
     && (forall i :: 0 <= i < |calls| ==> Answers(messages[i + 1], calls[i]))
     && Rounds(messages[|calls| + 1..]))
  }

  lemma {:induction false} RoundsAppend(messages: seq<Message>, round: seq<Message>)
    requires Rounds(messages) && Rounds(round)
    ensures Rounds(messages + round)
    decreases |messages|
  {
    if messages == [] {
      assert messages + round == round;
    } else {
      var n := |messages[0].toolCalls| + 1;
      RoundsAppend(messages[n..], round);
      assert (messages + round)[n..] == messages[n..] + round;
      forall i | 0 <= i < n - 1 ensures Answers((messages + round)[i + 1], messages[0].toolCalls[i]) {
        assert (messages + round)[i + 1] == messages[i + 1];
      }
    }
  }

  /** What a step that goes on adds to the transcript. */
  function RoundOf(script: StepScript, settings: Settings): seq<Message> {
    var result := Answer(script.chunks);
    [Message(Assistant, result.text, result.calls, None, None)] +
    seq(|result.calls|, i requires 0 <= i < |result.calls| =>
      Message(Tool, ToldAbout(script.tools, i, settings), [],
              Some(result.calls[i].id), Some(result.calls[i].name)))
  }

  lemma IsRound(script: StepScript, settings: Settings, answers: seq<Message>)
    requires |answers| == |CallsOf(script.chunks)|
    requires forall i :: 0 <= i < |answers| ==> Answers(answers[i], CallsOf(script.chunks)[i])
    requires forall i :: 0 <= i < |answers| ==> answers[i].content == ToldAbout(script.tools, i, settings)
    ensures [Message(Assistant, TextOf(script.chunks), CallsOf(script.chunks), None, None)] + answers
            == RoundOf(script, settings)
  {
  }

  lemma RoundOfIsRounds(script: StepScript, settings: Settings)
    requires CallsOf(script.chunks) != []
    ensures Rounds(RoundOf(script, settings))
  {
    var round := RoundOf(script, settings);
    assert round[|round[0].toolCalls| + 1..] == [];
  }

  /** The transcript sent with request `k` (from 0). */
  function Transcript(prompt: seq<Message>, script: seq<StepScript>, settings: Settings, k: nat): seq<Message>
    requires k <= |script|
  {
    if k == 0 then prompt
    else Transcript(prompt, script, settings, k - 1) + RoundOf(script[k - 1], settings)
  }

  lemma RoundsExtend(prompt: seq<Message>, before: seq<Message>, round: seq<Message>)
    requires prompt <= before && Rounds(before[|prompt|..]) && Rounds(round)
    ensures prompt <= before + round && Rounds((before + round)[|prompt|..])
  {
    hide Rounds;
    RoundsAppend(before[|prompt|..], round);
    assert (before + round)[|prompt|..] == before[|prompt|..] + round;
  }

  /** At every request every earlier call has exactly one answer with its id, in call order. */
  lemma {:induction false} TranscriptWellFormed(prompt: seq<Message>, script: seq<StepScript>,
                                                settings: Settings, k: nat)
    requires k <= |script| && forall j :: 0 <= j < k ==> CallsOf(script[j].chunks) != []
    ensures prompt <= Transcript(prompt, script, settings, k)
    ensures Rounds(Transcript(prompt, script, settings, k)[|prompt|..])
  {
    if k == 0 {
      assert prompt[|prompt|..] == [];
    } else {
      hide RoundOf, CallsOf, Rounds;
      TranscriptWellFormed(prompt, script, settings, k - 1);
      var before, round := Transcript(prompt, script, settings, k - 1), RoundOf(script[k - 1], settings);
      RoundOfIsRounds(script[k - 1], settings);
      RoundsExtend(prompt, before, round);
    }
  }

  function Records(calls: seq<ToolCall>): seq<(string, string)> {
    seq(|calls|, i requires 0 <= i < |calls| => (calls[i].name, calls[i].arguments))
  }

  /** Does a step go on to its tools? */
  predicate GoesToTools(script: StepScript, final: bool) {
    AskFault(script) == None && CallsOf(script.chunks) != [] && !final
  }

  /** The calls of those of the first `n` steps that went on to their tools. */
  function Recorded(script: seq<StepScript>, n: nat): seq<(string, string)>
    requires n <= |script|
  {
    if n == 0 then []
    else
      Recorded(script, n - 1) +
      if GoesToTools(script[n - 1], n == |script|) then Records(CallsOf(script[n - 1].chunks)) else []
  }

  /** What a step shows. */
  function StepEvents(script: StepScript, settings: Settings, final: bool): seq<Event> {
    var calls := CallsOf(script.chunks);
    Deltas(script.chunks) +
    if GoesToTools(script, final) then ToolEvents(calls, script.tools, Least(|calls|, settings.maxCallsPerStep))
    else []
  }

  /** What the first `n` steps show. */
  function RunEvents(script: seq<StepScript>, settings: Settings, n: nat): seq<Event>
    requires n <= |script|
  {
    if n == 0 then []
    else RunEvents(script, settings, n - 1) + StepEvents(script[n - 1], settings, n == |script|)
  }

  lemma {:induction false} RunEventsShow(script: seq<StepScript>, settings: Settings, n: nat)
    requires n <= |script|
    ensures Shown(RunEvents(script, settings, n)) == Streamed(script, n)
    ensures OnlyStreaming(RunEvents(script, settings, n))
  {
    hide StepEvents, TextOf, Shown, OnlyStreaming;
    if n > 0 {
      RunEventsShow(script, settings, n - 1);
      StepShows(script[n - 1], settings, n == |script|);
      ShownAppend(RunEvents(script, settings, n - 1), StepEvents(script[n - 1], settings, n == |script|));
      BothStream(RunEvents(script, settings, n - 1), StepEvents(script[n - 1], settings, n == |script|));
    } else {
      NothingShown();
    }
  }

  lemma NothingShown()
    ensures Shown([]) == "" && OnlyStreaming([])
  {
  }

  lemma BothStream(a: seq<Event>, b: seq<Event>)
    requires OnlyStreaming(a) && OnlyStreaming(b)
    ensures OnlyStreaming(a + b)
  {
  }

  lemma StepShows(script: StepScript, settings: Settings, final: bool)
    ensures Shown(StepEvents(script, settings, final)) == TextOf(script.chunks)
    ensures OnlyStreaming(StepEvents(script, settings, final))
  {
    var calls := CallsOf(script.chunks);
    var n := Least(|calls|, settings.maxCallsPerStep);
    DeltasShow(script.chunks);
    ToolEventsShowNothing(calls, script.tools, n);
    hide Deltas, ToolEvents, TextOf, CallsOf;
    var texts, tools := Deltas(script.chunks), ToolEvents(calls, script.tools, n);
    ShownAppend(texts, tools);
    assert texts + [] == texts && Shown(texts) + "" == Shown(texts);
  }

  /** What the first `n` steps cost: those whose stream ended well. */
  function Spent(prompt: seq<Message>, script: seq<StepScript>, settings: Settings, n: nat): StepTokens
    requires n <= |script|
  {
    if n == 0 then StepTokens(0, 0, false)
    else
      var before := Spent(prompt, script, settings, n - 1);
      if script[n - 1].broken.Some? then before
      else
        var t := TokensOf(Transcript(prompt, script, settings, n - 1), Answer(script[n - 1].chunks));
        StepTokens(before.prompt + t.prompt, before.completion + t.completion, before.estimated || t.estimated)
  }

  /** All text the model streamed in its first `n` steps. */
  function Streamed(script: seq<StepScript>, n: nat): string
    requires n <= |script|
  {
    if n == 0 then "" else Streamed(script, n - 1) + TextOf(script[n - 1].chunks)
  }

  lemma {:induction false} ShownAppend(a: seq<Event>, b: seq<Event>)
    ensures Shown(a + b) == Shown(a) + Shown(b)
  {
    if b == [] {
      assert a + b == a;
    } else {
      ShownAppend(a, b[..|b| - 1]);
      assert (a + b)[..|a + b| - 1] == a + b[..|b| - 1];
    }
  }

  // ---------------------------------------------------------------- the loop

  class RunStats {
    const model: string
    var steps: nat
    var toolCalls: seq<(string, string)>
    var prompt: nat
    var completion: nat
    var estimated: bool

    constructor (model: string)
      ensures this.model == model && steps == 0 && toolCalls == [] && prompt == 0 && completion == 0 && !estimated
    {
      this.model, steps, toolCalls, prompt, completion, estimated := model, 0, [], 0, 0, false;
    }

    method AddStep(t: StepTokens)
      modifies this
      ensures prompt == old(prompt) + t.prompt && completion == old(completion) + t.completion
      ensures estimated == (old(estimated) || t.estimated)
      ensures steps == old(steps) && toolCalls == old(toolCalls)
    {
      prompt, completion, estimated := prompt + t.prompt, completion + t.completion, estimated || t.estimated;
    }

    method AddCalls(calls: seq<ToolCall>)
      modifies this
      ensures toolCalls == old(toolCalls) + Records(calls)
      ensures steps == old(steps) && prompt == old(prompt) && completion == old(completion)
      ensures estimated == old(estimated)
    {
      toolCalls := toolCalls + Records(calls);
    }
  }

  function Used(requests: seq<Request>): nat {
    if requests == [] then 0
    else Used(requests[..|requests| - 1]) + requests[|requests| - 1].actual.GetOr(0)
  }

  /** The request of step `k` (from 0), and what it was charged. */
  ghost predicate Accounted(r: Request, k: nat, prompt: seq<Message>, script: seq<StepScript>, settings: Settings)
    requires k < |script|
  {
    && r.messages == Transcript(prompt, script, settings, k)
    && (r.final <==> k + 1 == settings.maxSteps)
    && r.reserved == EstimateStepReservation(r.messages, settings)
    && (r.actual.Some? ==> r.actual.value == Total(TokensOf(r.messages, Answer(script[k].chunks))))
  }

  /** What goes wrong while the model is asked: at reserving, in the stream or at settling. */
  function AskFault(script: StepScript): Option<Fault> {
    if script.reserve.Some? then script.reserve
    else if script.broken.Some? then script.broken
    else script.settle
  }

  function ToolFault(script: StepScript, settings: Settings): Option<Fault> {
    FirstFault(script.tools, Least(|CallsOf(script.chunks)|, settings.maxCallsPerStep))
  }

  /** A step that was not the last: nothing went wrong and the model made calls. */
  ghost predicate Continues(r: Request, script: StepScript, settings: Settings) {
    && AskFault(script) == None && r.actual.Some? && CallsOf(script.chunks) != []
    && ToolFault(script, settings) == None
  }

  /** Why a run broke off after `n` requests: the next step could not reserve, or step `n` failed,
      at asking or in a tool (the last step runs no tools). */
  ghost predicate FailsWith(f: Fault, n: nat, script: seq<StepScript>, settings: Settings) {
    || (n < |script| && script[n].reserve == Some(f))
    || (0 < n <= |script| && script[n - 1].reserve == None && AskFault(script[n - 1]) == Some(f))
    || (0 < n < |script| && AskFault(script[n - 1]) == None && ToolFault(script[n - 1], settings) == Some(f))
  }

  /** The requests of a run, at any point of it. */
  ghost predicate AllAccounted(requests: seq<Request>, prompt: seq<Message>, script: seq<StepScript>,
                               settings: Settings) {
    && |requests| <= |script|
    && (forall k :: 0 <= k < |requests| ==> Accounted(requests[k], k, prompt, script, settings))
    && (forall k :: 0 <= k < |requests| - 1 ==> Continues(requests[k], script[k], settings))
  }

  /** Why a run that ended by itself after `n` steps did so. */
  ghost predicate EndsWith(e: Event, n: nat, model: string, script: seq<StepScript>, settings: Settings) {
    && 0 < n <= settings.maxSteps == |script| && AskFault(script[n - 1]) == None
    && (e.Done? <==> CallsOf(script[n - 1].chunks) == [] || TextOf(script[n - 1].chunks) != "")
    && (CallsOf(script[n - 1].chunks) != [] ==> n == settings.maxSteps)
    && (e.Error? ==> e.message == NO_ANSWER_MESSAGE) && (e.Done? ==> e.model == model)
  }

  lemma OneMore(requests: seq<Request>, r: Request, prompt: seq<Message>, script: seq<StepScript>, settings: Settings)
    requires AllAccounted(requests, prompt, script, settings) && |requests| < |script|
    requires requests != [] ==> Continues(requests[|requests| - 1], script[|requests| - 1], settings)
    requires Accounted(r, |requests|, prompt, script, settings)
    ensures AllAccounted(requests + [r], prompt, script, settings)
    ensures Used(requests + [r]) == Used(requests) + r.actual.GetOr(0)
  {
    hide Accounted, Continues;
    var more := requests + [r];
    assert more[..|requests|] == requests;
    forall k | 0 <= k < |requests| ensures more[k] == requests[k] {
    }
  }

  /** The text shown is the text of the first `n` steps. */
  ghost predicate ShowsSteps(events: seq<Event>, script: seq<StepScript>, n: nat) {
    n <= |script| && Shown(events) == Streamed(script, n)
  }

  lemma Beginning(prompt: seq<Message>, script: seq<StepScript>, settings: Settings)
    ensures RunEvents(script, settings, 0) == [] && Recorded(script, 0) == []
    ensures Spent(prompt, script, settings, 0) == StepTokens(0, 0, false)
    ensures AllAccounted([], prompt, script, settings) && Used([]) == 0
  {
  }

  /** Two events without text at the end of a run. */
  lemma LastShown(events: seq<Event>, e: Event, summary: Event, script: seq<StepScript>, settings: Settings, n: nat)
    requires n <= |script| && events == RunEvents(script, settings, n) && !e.TextEvent? && !summary.TextEvent?
    ensures ShowsSteps(events + [e] + [summary], script, n) && OnlyStreaming(events)
    ensures (events + [e] + [summary])[..|events|] == events
  {
    RunEventsShow(script, settings, n);
    var more, all := events + [e], events + [e] + [summary];
    assert more[..|events|] == events && all[..|more|] == more;
  }

  /** What the collected statistics are after n requests. */
  predicate Counted(stats: RunStats, n: nat, prompt: seq<Message>, script: seq<StepScript>, settings: Settings)
    requires n <= |script|
    reads stats
  {
    && stats.steps == n
    && StepTokens(stats.prompt, stats.completion, stats.estimated) == Spent(prompt, script, settings, n)
  }

  /** Every request a run makes shows whole rounds after the prompt. */
  lemma RequestsWellFormed(requests: seq<Request>, prompt: seq<Message>, script: seq<StepScript>, settings: Settings)
    requires AllAccounted(requests, prompt, script, settings)
    ensures forall k :: 0 <= k < |requests| ==>
              prompt <= requests[k].messages && Rounds(requests[k].messages[|prompt|..])
  {
    forall k | 0 <= k < |requests|
      ensures prompt <= requests[k].messages && Rounds(requests[k].messages[|prompt|..])
    {
      assert Accounted(requests[k], k, prompt, script, settings);
      forall j | 0 <= j < k ensures CallsOf(script[j].chunks) != [] {
        assert Continues(requests[j], script[j], settings);
      }
      TranscriptWellFormed(prompt, script, settings, k);
    }
  }

  /** Every charge is what the step cost and every reservation fits what was sent. */
  ghost predicate ChargedRight(requests: seq<Request>, script: seq<StepScript>, settings: Settings) {
    && |requests| <= |script|
    && forall k :: 0 <= k < |requests| ==>
         var r := requests[k];
         && Costs(TokensOf(r.messages, Answer(script[k].chunks)), r.messages, script[k].chunks)
         && (r.actual.Some? ==>
               exists t :: Costs(t, r.messages, script[k].chunks) && r.actual.value == t.prompt + t.completion)
         && r.reserved >= settings.completionReserve
         && MakesTokens(|Written(r.messages)|, r.reserved - settings.completionReserve)
  }

  lemma AllChargedRight(requests: seq<Request>, prompt: seq<Message>, script: seq<StepScript>, settings: Settings)
    requires AllAccounted(requests, prompt, script, settings)
    ensures ChargedRight(requests, script, settings)
  {
    hide Costs, Transcript, EstimateStepReservation, TokensOf, Continues, MakesTokens;
    forall k | 0 <= k < |requests|
      ensures
        var r := requests[k];
        && Costs(TokensOf(r.messages, Answer(script[k].chunks)), r.messages, script[k].chunks)
        && (r.actual.Some? ==>
              exists t :: Costs(t, r.messages, script[k].chunks) && r.actual.value == t.prompt + t.completion)
        && r.reserved >= settings.completionReserve
        && MakesTokens(|Written(r.messages)|, r.reserved - settings.completionReserve)
    {
      assert Accounted(requests[k], k, prompt, script, settings);
      TokensOfCosts(requests[k].messages, script[k].chunks);
      ReservationIs(requests[k].messages, settings);
    }
  }

  /** Reserves, asks the model and settles: the first half of a step. */
  method Ask(messages: seq<Message>, prompt: seq<Message>, script: seq<StepScript>, settings: Settings,
             stats: RunStats, before: seq<Request>)
    returns (events: seq<Event>, answer: Result<StepResult, Fault>, requests: seq<Request>)
    requires |before| < |script| == settings.maxSteps && AllAccounted(before, prompt, script, settings)
    requires before != [] ==> Continues(before[|before| - 1], script[|before| - 1], settings)
    requires messages == Transcript(prompt, script, settings, |before|)
    requires Counted(stats, |before|, prompt, script, settings) && stats.prompt + stats.completion == Used(before)
    modifies stats
    ensures before <= requests && |requests| <= |before| + 1 && AllAccounted(requests, prompt, script, settings)
    ensures events == if requests == before then [] else Deltas(script[|before|].chunks)
    ensures Counted(stats, |requests|, prompt, script, settings) && stats.prompt + stats.completion >= Used(requests)
    ensures answer.Success? ==>
              && |requests| == |before| + 1 && stats.prompt + stats.completion == Used(requests)
              && requests[|before|].actual.Some? && AskFault(script[|before|]) == None
              && answer.value == Answer(script[|before|].chunks)
    ensures answer.Failure? ==>
              && AskFault(script[|before|]) == Some(answer.error)
              && (requests == before <==> script[|before|].reserve.Some?)
    ensures stats.toolCalls == old(stats.toolCalls)
  {
    hide TextOf, CallsOf, UsageIn, TokensOf, EstimateStepReservation, Used, AllAccounted, Deltas,
         Transcript, Continues;
    var now := script[|before|];
    if now.reserve.Some? {
      return [], Failure(now.reserve.value), before;
    }
    stats.steps := |before| + 1;
    var reserved := EstimateStepReservation(messages, settings);
    var request := Request(messages, |before| + 1 == settings.maxSteps, reserved, None);
    OneMore(before, request, prompt, script, settings);
    requests := before + [request];
    events, answer := StreamStep(now);
    if answer.Failure? {
      return;
    }
    var tokens := TokensOf(messages, answer.value);
    stats.AddStep(tokens);
    if now.settle.Some? {
      answer := Failure(now.settle.value);
      return;
    }
    request := request.(actual := Some(Total(tokens)));
    OneMore(before, request, prompt, script, settings);
    requests := before + [request];
  }

  /** Runs the calls of an answer: the second half of a step that goes on. */
  method UseTools(result: StepResult, now: StepScript, settings: Settings, stats: RunStats)
    returns (events: seq<Event>, round: seq<Message>, fault: Option<Fault>)
    requires result == Answer(now.chunks)
    modifies stats
    ensures events == ToolEvents(result.calls, now.tools, Least(|result.calls|, settings.maxCallsPerStep))
    ensures fault == ToolFault(now, settings)
    ensures fault == None ==> round == RoundOf(now, settings)
    ensures stats.steps == old(stats.steps) && stats.estimated == old(stats.estimated)
    ensures stats.prompt == old(stats.prompt) && stats.completion == old(stats.completion)
    ensures stats.toolCalls == old(stats.toolCalls) + Records(result.calls)
  {
    hide Records, TextOf, CallsOf, UsageIn, ToolEvents, FirstFault, RoundOf, ToldAbout;
    stats.AddCalls(result.calls);
    var answers;
    events, answers, fault := RunToolCalls(result.calls, now.tools, settings);
    round := [Message(Assistant, result.text, result.calls, None, None)] + answers;
    if fault == None {
      IsRound(now, settings, answers);
    }
  }

  predicate Fresh(stats: RunStats)
    reads stats
  {
    stats.steps == 0 && stats.prompt == stats.completion == 0 && !stats.estimated && stats.toolCalls == []
  }

  /** A step that ends without going to its tools shows and records no more than its text. */
  lemma StepWithoutTools(script: seq<StepScript>, settings: Settings, n: nat)
    requires 0 < n <= |script| && !GoesToTools(script[n - 1], n == |script|)
    ensures RunEvents(script, settings, n) == RunEvents(script, settings, n - 1) + Deltas(script[n - 1].chunks)
    ensures Recorded(script, n) == Recorded(script, n - 1)
  {
  }

  lemma StepWithTools(script: seq<StepScript>, settings: Settings, n: nat)
    requires 0 < n <= |script| && GoesToTools(script[n - 1], n == |script|)
    ensures
      var calls := CallsOf(script[n - 1].chunks);
      && RunEvents(script, settings, n)
         == RunEvents(script, settings, n - 1) + Deltas(script[n - 1].chunks)
            + ToolEvents(calls, script[n - 1].tools, Least(|calls|, settings.maxCallsPerStep))
      && Recorded(script, n) == Recorded(script, n - 1) + Records(calls)
  {
  }

  /** The steps: ends with a terminal event as its last one, or with an exception. */
  method Steps(prompt: seq<Message>, script: seq<StepScript>, settings: Settings, stats: RunStats)
    returns (events: seq<Event>, last: Result<Event, Fault>, requests: seq<Request>)
    requires |script| == settings.maxSteps > 0 && Fresh(stats)
    modifies stats
    ensures |requests| <= |script| && AllAccounted(requests, prompt, script, settings)
    ensures Counted(stats, |requests|, prompt, script, settings) && stats.prompt + stats.completion >= Used(requests)
    ensures events == RunEvents(script, settings, |requests|)
    ensures last.Success? ==> Terminal(last.value) && EndsWith(last.value, |requests|, stats.model, script, settings)
    ensures last.Failure? ==> FailsWith(last.error, |requests|, script, settings)
    ensures stats.toolCalls == Recorded(script, |requests|)
  {
    hide TextOf, CallsOf, UsageIn, ToolFault, Used, AllAccounted, RoundOf, RunEvents, Recorded, Spent, Deltas,
         ToolEvents, Transcript;
    Beginning(prompt, script, settings);
    Unsent(prompt, script, settings);
    var messages := prompt;
    events, requests := [], [];
    for step := 1 to settings.maxSteps + 1
      invariant |requests| == step - 1 < settings.maxSteps && AllAccounted(requests, prompt, script, settings)
      invariant requests != [] ==> Continues(requests[step - 2], script[step - 2], settings)
      invariant Counted(stats, step - 1, prompt, script, settings) && stats.prompt + stats.completion == Used(requests)
      invariant messages == Transcript(prompt, script, settings, step - 1)
      invariant events == RunEvents(script, settings, step - 1)
      invariant stats.toolCalls == Recorded(script, step - 1)
    {
      var final := step == settings.maxSteps;
      var texts, answer;
      texts, answer, requests := Ask(messages, prompt, script, settings, stats, requests);
      events := events + texts;
      if answer.Failure? {
        if |requests| == step {
          StepWithoutTools(script, settings, step);
        }
        return events, Failure(answer.error), requests;
      }
      var result := answer.value;
      if result.calls == [] || final {
        StepWithoutTools(script, settings, step);
        var done := result.calls == [] || result.text != "";
        last := Success(if done then Done(stats.model) else Error(NO_ANSWER_MESSAGE));
        return events, last, requests;
      }
      var toolEvents, round, toolFault := UseTools(result, script[step - 1], settings, stats);
      StepWithTools(script, settings, step);
      events := events + toolEvents;
      if toolFault.Some? {
        return events, Failure(toolFault.value), requests;
      }
      NextTranscript(prompt, script, settings, step);
      messages := messages + round;
    }
  }

  lemma Unsent(prompt: seq<Message>, script: seq<StepScript>, settings: Settings)
    ensures Transcript(prompt, script, settings, 0) == prompt
  {
  }

  lemma NextTranscript(prompt: seq<Message>, script: seq<StepScript>, settings: Settings, n: nat)
    requires 0 < n <= |script|
    ensures Transcript(prompt, script, settings, n)
            == Transcript(prompt, script, settings, n - 1) + RoundOf(script[n - 1], settings)
  {
  }

  /** One run. Whatever the provider, the quota and the tools do: the text and tool calls as they come,
      exactly one Done or Error, then exactly one summary, and nothing after it. */
  method RunChat(prompt: seq<Message>, model: string, script: seq<StepScript>, settings: Settings)
    returns (events: seq<Event>, requests: seq<Request>)
    requires |script| == settings.maxSteps > 0
    ensures |events| >= 2 && events[|events| - 1].RunSummary? && Terminal(events[|events| - 2])
    ensures |requests| <= |script| && AllAccounted(requests, prompt, script, settings)
    ensures events[..|events| - 2] == RunEvents(script, settings, |requests|)
    ensures OnlyStreaming(events[..|events| - 2]) && ShowsSteps(events, script, |requests|)
    ensures forall k :: 0 <= k < |requests| ==>
              prompt <= requests[k].messages && Rounds(requests[k].messages[|prompt|..])
    ensures ChargedRight(requests, script, settings)
    ensures
      var s := events[|events| - 1].summary;
      && (s.done <==> events[|events| - 2].Done?)
      && (s.error.Some? <==> events[|events| - 2].Error?)
      && (s.error.Some? ==> s.error == Some(events[|events| - 2].message))
      && s.model == model && s.steps == |requests| && s.prompt + s.completion >= Used(requests)
      && StepTokens(s.prompt, s.completion, s.estimated) == Spent(prompt, script, settings, |requests|)
      && s.toolCalls == Recorded(script, |requests|)
    ensures events[|events| - 2].Done? ==> EndsWith(events[|events| - 2], |requests|, model, script, settings)
    ensures events[|events| - 2].Error? ==>
              || EndsWith(events[|events| - 2], |requests|, model, script, settings)
              || exists f :: FailsWith(f, |requests|, script, settings)
                             && events[|events| - 2].message == UserMessage(f)
  {
    hide AllAccounted, Rounds, FailsWith, ShowsSteps, Used, EndsWith, OnlyStreaming, RunEvents, ChargedRight, Spent,
         Recorded;
    var stats := new RunStats(model);
    Beginning(prompt, script, settings);
    var shown, last;
    shown, last, requests := Steps(prompt, script, settings, stats);
    var terminal := if last.Success? then last.value else Error(UserMessage(last.error));
    var error := if terminal.Error? then Some(terminal.message) else None;
    var summary := RunSummary(Summary(stats.model, stats.steps, stats.toolCalls, stats.prompt,
                                      stats.completion, stats.estimated, terminal.Done?, error));
    LastShown(shown, terminal, summary, script, settings, |requests|);
    events := shown + [terminal] + [summary];
    RequestsWellFormed(requests, prompt, script, settings);
    AllChargedRight(requests, prompt, script, settings);
  }
}
