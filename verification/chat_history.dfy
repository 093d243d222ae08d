/** The chat history a client sends and the check the server makes of it.

    The two sides do not agree on text: the client counts UTF-16 units and trims the white space of
    ECMAScript, the server counts code points and strips the white space of Python. */
module ChatHistory {
  import opened Wrappers

  datatype Role = User | Assistant

  datatype Message = Message(role: Role, content: string)

  datatype Limits = Limits(maxMessages: nat, maxMessageChars: nat, maxHistoryChars: nat)

  datatype Status = Streaming | Finished | Stopped

  datatype Entry = UserEntry(content: string) | AssistantEntry(content: string, status: Status)
                 | ErrorEntry(content: string)

  datatype ChatState = ChatState(entries: seq<Entry>, isStreaming: bool)

  const INITIAL := ChatState([], false)

  // ---------------------------------------------------------------- text

  /** White space to both sides. */
  predicate CommonSpace(c: char) {
    || '\U{0009}' <= c <= '\U{000D}' || c == ' ' || c == '\U{00A0}' || c == '\U{1680}'
    || '\U{2000}' <= c <= '\U{200A}' || c == '\U{2028}' || c == '\U{2029}' || c == '\U{202F}'
    || c == '\U{205F}' || c == '\U{3000}'
  }

  /** The separators FS, GS, RS, US and the next-line character: white space to Python only. */
  predicate Separator(c: char) {
    '\U{001C}' <= c <= '\U{001F}' || c == '\U{0085}'
  }

  /** What JavaScript's `trim` removes: the byte order mark too. */
  predicate ClientSpace(c: char) { CommonSpace(c) || c == '\U{FEFF}' }

  /** What Python's `strip` removes. */
  predicate ServerSpace(c: char) { CommonSpace(c) || Separator(c) }

  /** Where the ranges of white space begin and end, and from where on a character has two units. */
  lemma EdgesOfText()
    ensures forall c :: c == '\U{0009}' || c == '\U{000D}' || c == '\U{2000}' || c == '\U{200A}' ==> CommonSpace(c)
    ensures forall c :: c == '\U{0008}' || c == '\U{000E}' || c == '\U{200B}' || c == '\U{FEFF}' ==> !ServerSpace(c)
    ensures forall c :: c == '\U{001C}' || c == '\U{001F}' || c == '\U{0085}' ==> ServerSpace(c) && !ClientSpace(c)
    ensures forall c :: c == '\U{001B}' || c == '\U{200B}' ==> !ServerSpace(c) && !ClientSpace(c)
    ensures Units(['\U{FFFF}']) == 1 && Units(['\U{10000}']) == 2
  {
    assert ['\U{FFFF}'][1..] == "" && ['\U{10000}'][1..] == "";
  }

  predicate Blank(s: string, space: char -> bool) { forall i :: 0 <= i < |s| ==> space(s[i]) }

  function TrimStart(s: string, space: char -> bool): string {
    if s != "" && space(s[0]) then TrimStart(s[1..], space) else s
  }

  function TrimEnd(s: string, space: char -> bool): string {
    if s != "" && space(s[|s| - 1]) then TrimEnd(s[..|s| - 1], space) else s
  }

  function Trim(s: string, space: char -> bool): string { TrimEnd(TrimStart(s, space), space) }

  /** UTF-16 units: JavaScript's `length`. */
  function Units(s: string): nat {
    if s == "" then 0 else (if s[0] as int >= 0x10000 then 2 else 1) + Units(s[1..])
  }

  lemma {:induction false} UnitsAtLeastChars(s: string)
    ensures |s| <= Units(s)
  {
    if s != "" {
      UnitsAtLeastChars(s[1..]);
    }
  }

  /** `r` is `s` without the white space at its ends. */
  ghost predicate IsTrimmed(r: string, s: string, space: char -> bool) {
    && (exists a, b :: 0 <= a <= b <= |s| && r == s[a..b] && Blank(s[..a], space) && Blank(s[b..], space))
    && (r != "" ==> !space(r[0]) && !space(r[|r| - 1]))
  }

  lemma {:induction false} TrimEndCuts(s: string, space: char -> bool)
    ensures TrimEnd(s, space) <= s && Blank(s[|TrimEnd(s, space)|..], space)
  {
    var n := |s| - 1;
    if s != "" && space(s[n]) {
      TrimEndCuts(s[..n], space);
      var k := |TrimEnd(s, space)|;
      forall i | 0 <= i < |s[k..]| ensures space(s[k..][i]) {
        assert k + i < n ==> s[k..][i] == s[..n][k..][i];
      }
    }
  }

  lemma {:induction false} TrimStartCuts(s: string, space: char -> bool) returns (a: nat)
    ensures a <= |s| && TrimStart(s, space) == s[a..] && Blank(s[..a], space)
  {
    a := 0;
    if s != "" && space(s[0]) {
      var b := TrimStartCuts(s[1..], space);
      a := b + 1;
      assert s[1..][b..] == s[a..];
      forall i | 0 <= i < a ensures space(s[..a][i]) {
        assert i > 0 ==> s[..a][i] == s[1..][..b][i - 1];
      }
    }
  }

  lemma {:induction false} TrimEndBlank(s: string, space: char -> bool)
    ensures TrimEnd(s, space) <= s && (TrimEnd(s, space) == "" <==> Blank(s, space))
    ensures TrimEnd(s, space) != "" ==> !space(TrimEnd(s, space)[|TrimEnd(s, space)| - 1])
  {
    if s != "" && space(s[|s| - 1]) {
      TrimEndBlank(s[..|s| - 1], space);
    }
  }

  lemma {:induction false} TrimStartBlank(s: string, space: char -> bool)
    ensures Blank(TrimStart(s, space), space) <==> Blank(s, space)
    ensures TrimStart(s, space) != "" ==> !space(TrimStart(s, space)[0])
  {
    if s != "" && space(s[0]) {
      TrimStartBlank(s[1..], space);
    }
  }

  /** Trimming leaves nothing exactly of a blank text; what it leaves begins and ends with no
      white space. */
  lemma TrimLeaves(s: string, space: char -> bool)
    ensures Trim(s, space) == "" <==> Blank(s, space)
    ensures IsTrimmed(Trim(s, space), s, space)
  {
    TrimStartBlank(s, space);
    var start := TrimStart(s, space);
    TrimEndBlank(start, space);
    TrimEndCuts(start, space);
    var a := TrimStartCuts(s, space);
    var b := a + |Trim(s, space)|;
    assert Trim(s, space) == s[a..b];
    assert s[b..] == start[|Trim(s, space)|..];
  }

  // ---------------------------------------------------------------- the server

  datatype HistoryError = NoMessages | TooManyMessages | BlankMessage(number: nat) | LongMessage(number: nat)
                        | LongHistory | LastNotFromUser

  function TotalChars(messages: seq<Message>): nat {
    if messages == [] then 0 else |messages[0].content| + TotalChars(messages[1..])
  }

  predicate MessageOk(m: Message, limits: Limits) {
    !Blank(m.content, ServerSpace) && |m.content| <= limits.maxMessageChars
  }

  /** The complaint about the first bad message, the numbers starting at `number`. */
  function FirstBad(messages: seq<Message>, number: nat, limits: Limits): Option<HistoryError> {
    if messages == [] then None
    else if Trim(messages[0].content, ServerSpace) == "" then Some(BlankMessage(number))
    else if |messages[0].content| > limits.maxMessageChars then Some(LongMessage(number))
    else FirstBad(messages[1..], number + 1, limits)
  }

  function Stripped(messages: seq<Message>): seq<Message> {
    seq(|messages|, i requires 0 <= i < |messages| => messages[i].(content := Trim(messages[i].content, ServerSpace)))
  }

  function ValidateHistory(messages: seq<Message>, limits: Limits): Result<seq<Message>, HistoryError> {
    if messages == [] then Failure(NoMessages)
    else if |messages| > limits.maxMessages then Failure(TooManyMessages)
    else
      var bad := FirstBad(messages, 1, limits);
      if bad.Some? then Failure(bad.value)
      else if TotalChars(messages) > limits.maxHistoryChars then Failure(LongHistory)
      else if messages[|messages| - 1].role != User then Failure(LastNotFromUser)
      else Success(Stripped(messages))
  }

  lemma {:induction false} FirstBadFinds(messages: seq<Message>, number: nat, limits: Limits)
    ensures FirstBad(messages, number, limits) == None
            <==> forall i :: 0 <= i < |messages| ==> MessageOk(messages[i], limits)
    ensures forall e :: FirstBad(messages, number, limits) == Some(e) && (e.BlankMessage? || e.LongMessage?) ==>
              && number <= e.number < number + |messages| && !MessageOk(messages[e.number - number], limits)
    ensures forall e :: FirstBad(messages, number, limits) == Some(e) ==> e.BlankMessage? || e.LongMessage?
  {
    hide IsTrimmed, Trim;
    if messages != [] {
      TrimLeaves(messages[0].content, ServerSpace);
      FirstBadFinds(messages[1..], number + 1, limits);
    }
  }

  // ---------------------------------------------------------------- the client

  /** What the reducer of the chat window does. */
  datatype Action = UserSent(content: string) | AssistantStarted | Delta(text: string) | ToolCall | DoneAction
                  | Failed(message: string) | StoppedAction | Reset

  /** Applies `f` to the last streaming reply. */
  function MapLastAssistant(entries: seq<Entry>, f: Entry -> Entry): (r: seq<Entry>)
    ensures |r| == |entries|
  {
    if entries == [] then []
    else
      var n := |entries| - 1;
      if entries[n].AssistantEntry? && entries[n].status == Streaming then entries[n := f(entries[n])]
      else MapLastAssistant(entries[..n], f) + [entries[n]]
  }

  function WithoutEmptyReplies(entries: seq<Entry>): seq<Entry> {
    if entries == [] then []
    else
      var e := entries[|entries| - 1];
      WithoutEmptyReplies(entries[..|entries| - 1]) + if e.AssistantEntry? && e.content == "" then [] else [e]
  }

  function Said(text: string): Entry -> Entry {
    (e: Entry) => if e.AssistantEntry? then e.(content := e.content + text) else e
  }

  function Settled(status: Status): Entry -> Entry {
    (e: Entry) => if e.AssistantEntry? then e.(status := status) else e
  }

  function Reduce(s: ChatState, a: Action): ChatState {
    match a
    case UserSent(content) => s.(entries := s.entries + [UserEntry(content)])
    case AssistantStarted => ChatState(s.entries + [AssistantEntry("", Streaming)], true)
    case Delta(text) => s.(entries := MapLastAssistant(s.entries, Said(text)))
    case ToolCall => s
    case DoneAction => ChatState(MapLastAssistant(s.entries, Settled(Finished)), false)
    case Failed(message) =>
      ChatState(WithoutEmptyReplies(MapLastAssistant(s.entries, Settled(Stopped))) + [ErrorEntry(message)], false)
    case StoppedAction => ChatState(MapLastAssistant(s.entries, Settled(Stopped)), false)
    case Reset => INITIAL
  }

  /** The entries that count as history. */
  function History(entries: seq<Entry>): seq<Message> {
    if entries == [] then []
    else
      var e, before := entries[|entries| - 1], History(entries[..|entries| - 1]);
      if e.UserEntry? then before + [Message(User, e.content)]
      else if e.AssistantEntry? && e.status == Finished then before + [Message(Assistant, e.content)]
      else before
  }

  /** What counts: the user's messages and the replies that were finished. */
  predicate Counts(e: Entry) { e.UserEntry? || (e.AssistantEntry? && e.status == Finished) }

  function HowMany(entries: seq<Entry>): nat {
    if entries == [] then 0
    else HowMany(entries[..|entries| - 1]) + if Counts(entries[|entries| - 1]) then 1 else 0
  }

  /** Every entry that counts has its place in the history, in order, and nothing else has one. */
  lemma {:induction false} HistoryHas(entries: seq<Entry>)
    ensures |History(entries)| == HowMany(entries)
    ensures forall i :: 0 <= i < |entries| && Counts(entries[i]) ==>
              && HowMany(entries[..i]) < |History(entries)|
              && History(entries)[HowMany(entries[..i])]
                 == Message(if entries[i].UserEntry? then User else Assistant, entries[i].content)
  {
    if entries != [] {
      var n := |entries| - 1;
      var init := entries[..n];
      HistoryHas(init);
      forall i | 0 <= i < |entries| && Counts(entries[i])
        ensures HowMany(entries[..i]) < |History(entries)|
        ensures History(entries)[HowMany(entries[..i])]
                == Message(if entries[i].UserEntry? then User else Assistant, entries[i].content)
      {
        if i < n {
          assert entries[..i] == init[..i] && entries[i] == init[i];
        }
      }
    }
  }

  lemma {:induction false} HistoryAppend(a: seq<Entry>, b: seq<Entry>)
    ensures History(a + b) == History(a) + History(b)
  {
    if b == [] {
      assert a + b == a;
    } else {
      HistoryAppend(a, b[..|b| - 1]);
      assert (a + b)[..|a + b| - 1] == a + b[..|b| - 1];
    }
  }

  /** The text a reply is streamed in. */
  function Text(actions: seq<Action>): string {
    if actions == [] then ""
    else
      var last := actions[|actions| - 1];
      Text(actions[..|actions| - 1]) + if last.Delta? then last.text else ""
  }

  function ReduceAll(s: ChatState, actions: seq<Action>): ChatState {
    if actions == [] then s else Reduce(ReduceAll(s, actions[..|actions| - 1]), actions[|actions| - 1])
  }

  /** A reply that is streamed is the last entry and grows by what arrives, and nothing else changes. */
  lemma {:induction false} ReplyGrows(before: seq<Entry>, actions: seq<Action>)
    requires forall i :: 0 <= i < |actions| ==> actions[i].Delta? || actions[i].ToolCall?
    ensures ReduceAll(ChatState(before + [AssistantEntry("", Streaming)], true), actions)
            == ChatState(before + [AssistantEntry(Text(actions), Streaming)], true)
  {
    if actions != [] {
      var init, last := actions[..|actions| - 1], actions[|actions| - 1];
      ReplyGrows(before, init);
      if last.Delta? {
        LastReplyMapped(before, Text(init), Said(last.text));
      } else {
        assert Text(init) + "" == Text(init);
      }
    }
  }

  lemma LastReplyMapped(before: seq<Entry>, text: string, f: Entry -> Entry)
    ensures var e := AssistantEntry(text, Streaming); MapLastAssistant(before + [e], f) == before + [f(e)]
  {
  }

  lemma {:induction false} NothingEmpty(entries: seq<Entry>)
    requires forall e :: e in entries ==> !(e.AssistantEntry? && e.content == "")
    ensures WithoutEmptyReplies(entries) == entries
  {
    if entries != [] {
      var init, last := entries[..|entries| - 1], entries[|entries| - 1];
      NothingEmpty(init);
      assert last in entries;
    }
  }

  lemma EmptyReplyGoes(before: seq<Entry>, reply: string)
    requires forall e :: e in before ==> !(e.AssistantEntry? && e.content == "")
    ensures WithoutEmptyReplies(before + [AssistantEntry(reply, Stopped)])
            == before + if reply == "" then [] else [AssistantEntry(reply, Stopped)]
  {
    var all := before + [AssistantEntry(reply, Stopped)];
    assert all[..|all| - 1] == before;
    NothingEmpty(before);
  }

  /** One exchange, in whatever pieces the reply arrives: what the window shows after each of its three
      ends, and what of it counts as history. */
  lemma Exchange(before: seq<Entry>, content: string, actions: seq<Action>, error: string)
    requires forall i :: 0 <= i < |actions| ==> actions[i].Delta? || actions[i].ToolCall?
    requires forall e :: e in before ==> !(e.AssistantEntry? && e.content == "")
    ensures
      var asked := before + [UserEntry(content)];
      var s := ReduceAll(Reduce(Reduce(ChatState(before, false), UserSent(content)), AssistantStarted), actions);
      var reply := Text(actions);
      && Reduce(s, DoneAction) == ChatState(asked + [AssistantEntry(reply, Finished)], false)
      && Reduce(s, StoppedAction) == ChatState(asked + [AssistantEntry(reply, Stopped)], false)
      && Reduce(s, Failed(error)) ==
           ChatState(asked + (if reply == "" then [] else [AssistantEntry(reply, Stopped)]) + [ErrorEntry(error)],
                     false)
      && History(Reduce(s, DoneAction).entries) ==
           History(before) + [Message(User, content), Message(Assistant, reply)]
      && History(Reduce(s, StoppedAction).entries) == History(before) + [Message(User, content)]
  {
    hide History, ReduceAll, Text, MapLastAssistant, WithoutEmptyReplies;
    var asked, reply := before + [UserEntry(content)], Text(actions);
    ReplyGrows(asked, actions);
    LastReplyMapped(asked, reply, Settled(Finished));
    LastReplyMapped(asked, reply, Settled(Stopped));
    EmptyReplyGoes(asked, reply);
    HistoryOfExchange(before, content, AssistantEntry(reply, Finished));
    HistoryOfExchange(before, content, AssistantEntry(reply, Stopped));
  }

  lemma HistoryOfExchange(before: seq<Entry>, content: string, reply: Entry)
    requires reply.AssistantEntry?
    ensures History(before + [UserEntry(content)] + [reply]) == History(before) + [Message(User, content)] +
              if reply.status == Finished then [Message(Assistant, reply.content)] else []
  {
    var user := [UserEntry(content)];
    HistoryAppend(before, user);
    HistoryAppend(before + user, [reply]);
    assert user[..0] == [] && [reply][..0] == [] && History([]) == [];
  }

  /** JavaScript's `slice(-n)`; with n = 0 it is the whole. */
  function SliceLast(messages: seq<Message>, n: nat): seq<Message> {
    if n == 0 || |messages| <= n then messages else messages[|messages| - n..]
  }

  function TotalUnits(messages: seq<Message>): nat {
    if messages == [] then 0 else Units(messages[0].content) + TotalUnits(messages[1..])
  }

  predicate Fits(messages: seq<Message>, limits: Limits)
    requires messages != []
  {
    TotalUnits(messages) <= limits.maxHistoryChars && messages[0].role == User
  }

  /** `kept` is the longest end of `recent` that fits, or else the last message alone. */
  ghost predicate LongestFittingEnd(kept: seq<Message>, recent: seq<Message>, limits: Limits) {
    && 0 < |kept| <= |recent| && kept == recent[|recent| - |kept|..]
    && (Fits(kept, limits) || |kept| == 1)
    && forall j :: 0 <= j < |recent| - |kept| ==> !Fits(recent[j..], limits)
  }

  /** Said of the whole history: among its ends of at most `maxMessages` messages (any number, if that
      is 0) no longer one fits. */
  lemma LongestOfAll(kept: seq<Message>, history: seq<Message>, limits: Limits)
    requires history != [] && LongestFittingEnd(kept, SliceLast(history, limits.maxMessages), limits)
    ensures 0 < |kept| <= |history| && kept == history[|history| - |kept|..] && (Fits(kept, limits) || |kept| == 1)
    ensures limits.maxMessages == 0 || |kept| <= limits.maxMessages
    ensures forall k :: 0 <= k < |history| - |kept| ==>
              (limits.maxMessages == 0 || |history| - k <= limits.maxMessages) ==> !Fits(history[k..], limits)
  {
    hide Fits;
    var recent := SliceLast(history, limits.maxMessages);
    assert kept == history[|history| - |kept|..];
    forall k | 0 <= k < |history| - |kept| && (limits.maxMessages == 0 || |history| - k <= limits.maxMessages)
      ensures !Fits(history[k..], limits)
    {
      assert history[k..] == recent[|recent| + k - |history|..];
    }
  }

  /** The trimming loop. */
  method TrimHistory(history: seq<Message>, limits: Limits) returns (trimmed: seq<Message>)
    requires history != []
    ensures LongestFittingEnd(trimmed, SliceLast(history, limits.maxMessages), limits)
    ensures 0 < |trimmed| <= |history| && trimmed == history[|history| - |trimmed|..]
    ensures Fits(trimmed, limits) || |trimmed| == 1
    ensures limits.maxMessages == 0 || |trimmed| <= limits.maxMessages
    ensures forall k :: 0 <= k < |history| - |trimmed| ==>
              (limits.maxMessages == 0 || |history| - k <= limits.maxMessages) ==> !Fits(history[k..], limits)
  {
    trimmed := SliceLast(history, limits.maxMessages);
    var totalChars := TotalUnits(trimmed);
    ghost var recent, start := trimmed, 0;
    while |trimmed| > 1 && (totalChars > limits.maxHistoryChars || trimmed[0].role != User)
      invariant 0 <= start < |recent| && trimmed == recent[start..]
      invariant totalChars == TotalUnits(trimmed)
      invariant forall j :: 0 <= j < start ==> !Fits(recent[j..], limits)
      decreases |trimmed|
    {
      totalChars := totalChars - Units(trimmed[0].content);
      trimmed := trimmed[1..];
      start := start + 1;
    }
    LongestOfAll(trimmed, history, limits);
  }

  /** The text that would be sent: trimmed, not empty and not too long; otherwise none. */
  function Sendable(s: ChatState, text: string, limits: Limits): Option<string> {
    var content := Trim(text, ClientSpace);
    if s.isStreaming || content == "" || Units(content) > limits.maxMessageChars then None else Some(content)
  }

  /** The messages the new one is the last of, cut to their number. */
  function Recent(s: ChatState, content: string, limits: Limits): seq<Message> {
    SliceLast(History(s.entries) + [Message(User, content)], limits.maxMessages)
  }

  /** What is sent, if anything: the history so far and the new message, cut to the limits. */
  method Send(s: ChatState, text: string, limits: Limits) returns (request: Option<seq<Message>>, next: ChatState)
    ensures request.Some? <==> Sendable(s, text, limits).Some?
    ensures next == Live(s, Sending(text), limits)
    ensures request.Some? ==>
              LongestFittingEnd(request.value, Recent(s, Trim(text, ClientSpace), limits), limits)
  {
    var content := Trim(text, ClientSpace);
    if s.isStreaming || content == "" || Units(content) > limits.maxMessageChars {
      return None, s;
    }
    var history := History(s.entries) + [Message(User, content)];
    var trimmed := TrimHistory(history, limits);
    return Some(trimmed), Reduce(Reduce(s, UserSent(content)), AssistantStarted);
  }

  // ---------------------------------------------------------------- what the server says to it

  lemma {:induction false} LastAlone(messages: seq<Message>)
    requires messages != []
    ensures TotalChars(messages) <= TotalUnits(messages)
    ensures |messages| == 1 ==> TotalUnits(messages) == Units(messages[0].content)
  {
    UnitsAtLeastChars(messages[0].content);
    if |messages| > 1 {
      LastAlone(messages[1..]);
    } else {
      assert TotalUnits(messages[1..]) == 0;
    }
  }

  /** The end of the history ends with the new message and meets the limits on count, total length
      and last role. */
  lemma EndMeetsLimits(kept: seq<Message>, history: seq<Message>, content: string, limits: Limits)
    requires LongestFittingEnd(kept, SliceLast(history + [Message(User, content)], limits.maxMessages), limits)
    requires Units(content) <= limits.maxMessageChars <= limits.maxHistoryChars && limits.maxMessages > 0
    ensures |kept| <= limits.maxMessages && TotalChars(kept) <= limits.maxHistoryChars && kept[0].role == User
    ensures kept[|kept| - 1] == Message(User, content)
    ensures exists k :: 0 <= k <= |history| && kept == (history + [Message(User, content)])[k..]
  {
    hide TotalChars, TotalUnits, Units;
    var all := history + [Message(User, content)];
    assert kept == all[|all| - |kept|..];
    LastAlone(kept);
  }

  /** The server accepts what is sent exactly if no message in it is blank or too long; the other
      checks always pass. */
  lemma AcceptedIffMessagesOk(kept: seq<Message>, history: seq<Message>, content: string, limits: Limits)
    requires LongestFittingEnd(kept, SliceLast(history + [Message(User, content)], limits.maxMessages), limits)
    requires Units(content) <= limits.maxMessageChars <= limits.maxHistoryChars && limits.maxMessages > 0
    ensures ValidateHistory(kept, limits).Success? <==> forall i :: 0 <= i < |kept| ==> MessageOk(kept[i], limits)
    ensures ValidateHistory(kept, limits).Success? ==>
              var accepted := ValidateHistory(kept, limits).value;
              && |accepted| == |kept|
              && forall i :: 0 <= i < |kept| ==> accepted[i].role == kept[i].role
                                                 && IsTrimmed(accepted[i].content, kept[i].content, ServerSpace)
  {
    hide LongestFittingEnd, Trim;
    EndMeetsLimits(kept, history, content, limits);
    FirstBadFinds(kept, 1, limits);
    forall i | 0 <= i < |kept| ensures IsTrimmed(Trim(kept[i].content, ServerSpace), kept[i].content, ServerSpace) {
      TrimLeaves(kept[i].content, ServerSpace);
    }
  }

  /** What happens in the window: the user tries to send, or the reducer gets an action from the
      stream. */
  datatype Happening = Sending(text: string) | Streamed(action: Action)

  function Live(s: ChatState, h: Happening, limits: Limits): ChatState {
    match h
    case Sending(text) =>
      var content := Sendable(s, text, limits);
      if content.None? then s else Reduce(Reduce(s, UserSent(content.value)), AssistantStarted)
    case Streamed(a) => if a.UserSent? || a.AssistantStarted? then s else Reduce(s, a)
  }

  function Session(happenings: seq<Happening>, limits: Limits): ChatState {
    if happenings == [] then INITIAL
    else Live(Session(happenings[..|happenings| - 1], limits), happenings[|happenings| - 1], limits)
  }

  /** Not too long, and neither empty nor with white space of the client's at its ends. */
  predicate UserTextOk(s: string, limits: Limits) {
    s != "" && !ClientSpace(s[0]) && !ClientSpace(s[|s| - 1]) && Units(s) <= limits.maxMessageChars
  }

  predicate UserEntriesOk(entries: seq<Entry>, limits: Limits) {
    forall i :: 0 <= i < |entries| && entries[i].UserEntry? ==>
      UserTextOk(entries[i].content, limits)
  }

  ghost predicate KeepsUsers(f: Entry -> Entry) {
    forall e: Entry :: e.AssistantEntry? ==> f(e).AssistantEntry?
  }

  lemma {:induction false} MapKeepsUsers(entries: seq<Entry>, f: Entry -> Entry, limits: Limits)
    requires UserEntriesOk(entries, limits) && KeepsUsers(f)
    ensures UserEntriesOk(MapLastAssistant(entries, f), limits)
  {
    if entries != [] {
      MapKeepsUsers(entries[..|entries| - 1], f, limits);
    }
  }

  lemma {:induction false} FilterKeepsUsers(entries: seq<Entry>, limits: Limits)
    requires UserEntriesOk(entries, limits)
    ensures UserEntriesOk(WithoutEmptyReplies(entries), limits)
  {
    if entries != [] {
      FilterKeepsUsers(entries[..|entries| - 1], limits);
    }
  }

  lemma {:induction false} UsersStayOk(happenings: seq<Happening>, limits: Limits)
    ensures UserEntriesOk(Session(happenings, limits).entries, limits)
  {
    if happenings != [] {
      var s, h := Session(happenings[..|happenings| - 1], limits), happenings[|happenings| - 1];
      UsersStayOk(happenings[..|happenings| - 1], limits);
      match h
      case Sending(text) => TrimLeaves(text, ClientSpace);
      case Streamed(a) =>
        match a
        case Delta(text) => MapKeepsUsers(s.entries, Said(text), limits);
        case DoneAction => MapKeepsUsers(s.entries, Settled(Finished), limits);
        case StoppedAction => MapKeepsUsers(s.entries, Settled(Stopped), limits);
        case Failed(message) =>
          MapKeepsUsers(s.entries, Settled(Stopped), limits);
          FilterKeepsUsers(MapLastAssistant(s.entries, Settled(Stopped)), limits);
        case _ =>
    }
  }

  lemma {:induction false} HistoryUsersOk(entries: seq<Entry>, limits: Limits)
    requires UserEntriesOk(entries, limits)
    ensures forall i :: 0 <= i < |History(entries)| && History(entries)[i].role == User ==>
              UserTextOk(History(entries)[i].content, limits)
  {
    if entries != [] {
      HistoryUsersOk(entries[..|entries| - 1], limits);
    }
  }

  /** A message of the user's passes exactly if it is not white space throughout to the server.
      One that does not pass begins and ends with a separator. */
  lemma UserMessagePasses(content: string, limits: Limits)
    requires UserTextOk(content, limits)
    ensures MessageOk(Message(User, content), limits) <==> !Blank(content, ServerSpace)
    ensures Blank(content, ServerSpace) ==> Separator(content[0]) && Separator(content[|content| - 1])
  {
    UnitsAtLeastChars(content);
  }

  /** In any session the server accepts what the client sends exactly if every reply of the model
      in it is neither blank nor too long, and every message of the user's in it has a character
      that is not white space to the server. */
  lemma AcceptedIff(happenings: seq<Happening>, text: string, kept: seq<Message>, limits: Limits)
    requires
      var s := Session(happenings, limits);
      && Sendable(s, text, limits).Some?
      && LongestFittingEnd(kept, Recent(s, Trim(text, ClientSpace), limits), limits)
    requires limits.maxMessageChars <= limits.maxHistoryChars && limits.maxMessages > 0
    ensures ValidateHistory(kept, limits).Success? <==>
            forall i :: 0 <= i < |kept| ==>
              if kept[i].role == Assistant then MessageOk(kept[i], limits) else !Blank(kept[i].content, ServerSpace)
  {
    hide Session, Trim, SliceLast, UserEntriesOk, LongestFittingEnd, ValidateHistory, History, MessageOk, Blank, Units;
    var history := History(Session(happenings, limits).entries);
    var content := Trim(text, ClientSpace);
    UsersStayOk(happenings, limits);
    HistoryUsersOk(Session(happenings, limits).entries, limits);
    TrimLeaves(text, ClientSpace);
    AcceptedIffMessagesOk(kept, history, content, limits);
    EndMeetsLimits(kept, history, content, limits);
    UsersOfEnd(kept, history, Message(User, content), limits);
    forall i | 0 <= i < |kept| && kept[i].role == User
      ensures MessageOk(kept[i], limits) <==> !Blank(kept[i].content, ServerSpace)
    {
      UserMessagePasses(kept[i].content, limits);
    }
  }

  lemma UsersOfEnd(kept: seq<Message>, history: seq<Message>, last: Message, limits: Limits)
    requires UserTextOk(last.content, limits)
    requires forall i :: 0 <= i < |history| && history[i].role == User ==> UserTextOk(history[i].content, limits)
    requires exists k :: 0 <= k <= |history| && kept == (history + [last])[k..]
    ensures forall i :: 0 <= i < |kept| && kept[i].role == User ==> UserTextOk(kept[i].content, limits)
  {
    hide UserTextOk;
    var k :| 0 <= k <= |history| && kept == (history + [last])[k..];
    forall i | 0 <= i < |kept| && kept[i].role == User ensures UserTextOk(kept[i].content, limits) {
      assert kept[i] == (history + [last])[k + i];
    }
  }

  /** A lone file separator is a message to the client and blank to the server. */
  lemma SeparatorIsRefused()
    ensures
      var limits := Limits(10, 10, 100);
      var text := "\U{001C}";
      var request := [Message(User, text)];
      && Sendable(INITIAL, text, limits) == Some(text)
      && LongestFittingEnd(request, Recent(INITIAL, text, limits), limits)
      && ValidateHistory(request, limits) == Failure(BlankMessage(1))
  {
    var text := "\U{001C}";
    assert TrimStart(text, ClientSpace) == text && text[1..] == "";
    assert TrimStart(text, ServerSpace) == "";
    var request := [Message(User, text)];
    assert History([]) + request == request;
    assert request[0..] == request && request[1..] == [];
    assert TotalUnits(request) == 1;
  }

  /** An answer without text ends a run well, is kept, and makes the next request fail. */
  lemma EmptyReplyIsRefused()
    ensures
      var limits := Limits(10, 10, 100);
      var s := Session([Sending("a"), Streamed(DoneAction)], limits);
      var history := History(s.entries) + [Message(User, "b")];
      && !s.isStreaming && LongestFittingEnd(history, SliceLast(history, 10), limits)
      && ValidateHistory(history, limits) == Failure(BlankMessage(2))
  {
    hide History, Session, ValidateHistory, LongestFittingEnd;
    var limits := Limits(10, 10, 100);
    AfterEmptyReply(limits);
    EmptyInTheMiddle(limits);
    var s := Session([Sending("a"), Streamed(DoneAction)], limits);
    assert History(s.entries) + [Message(User, "b")]
        == [Message(User, "a"), Message(Assistant, ""), Message(User, "b")];
  }

  lemma EmptyInTheMiddle(limits: Limits)
    requires limits == Limits(10, 10, 100)
    ensures
      var history := [Message(User, "a"), Message(Assistant, ""), Message(User, "b")];
      && LongestFittingEnd(history, SliceLast(history, 10), limits)
      && ValidateHistory(history, limits) == Failure(BlankMessage(2))
  {
    hide Trim, Blank, ServerSpace, ClientSpace;
    var last := [Message(User, "b")];
    var two := [Message(Assistant, "")] + last;
    var history := [Message(User, "a")] + two;
    OneLetter("a");
    OneLetter("b");
    assert last[1..] == [] && two[1..] == last && history[1..] == two && history[0..] == history;
    assert TotalUnits(last) == 1 && TotalUnits(two) == 1 && TotalUnits(history) == 2;
    NothingIsBlank();
    assert FirstBad(two, 2, limits) == Some(BlankMessage(2));
    assert FirstBad(history, 1, limits) == Some(BlankMessage(2));
    assert history == [Message(User, "a"), Message(Assistant, ""), Message(User, "b")];
  }

  lemma NothingIsBlank()
    ensures Trim("", ServerSpace) == ""
  {
  }

  lemma OneLetter(s: string)
    requires |s| == 1 && 'a' <= s[0] <= 'z'
    ensures Trim(s, ClientSpace) == s && Trim(s, ServerSpace) == s && Units(s) == 1
  {
    assert TrimStart(s, ClientSpace) == s && TrimStart(s, ServerSpace) == s;
    assert s[1..] == "";
  }

  /** One exchange whose reply had no text. */
  lemma AfterEmptyReply(limits: Limits)
    requires limits.maxMessageChars > 0
    ensures
      var s := Session([Sending("a"), Streamed(DoneAction)], limits);
      !s.isStreaming && History(s.entries) == [Message(User, "a"), Message(Assistant, "")]
  {
    var first, both := [Sending("a")], [Sending("a"), Streamed(DoneAction)];
    assert both[..1] == first && first[..0] == [];
    OneLetter("a");
    assert Session([], limits) == INITIAL && Sendable(INITIAL, "a", limits) == Some("a");
    var s1 := Session(first, limits);
    assert s1 == Live(INITIAL, Sending("a"), limits);
    assert s1.entries == [UserEntry("a"), AssistantEntry("", Streaming)];
    var entries := Session(both, limits).entries;
    assert entries == [UserEntry("a"), AssistantEntry("", Finished)];
    assert entries[..1] == [UserEntry("a")] && entries[..1][..0] == [];
    assert History([]) == [] && History([UserEntry("a")]) == [Message(User, "a")];
  }
}
