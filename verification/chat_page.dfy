/** The chat page's conversation as a state machine. The page submits a
    message, appends the user's message and an empty assistant placeholder,
    posts the conversation, fills the placeholder with the streamed answer as
    it arrives, and settles when the stream ends, fails or is aborted. Clear
    empties the conversation and aborts a pending request. Rendering is not
    modelled; the events below are what reaches the page's handlers. */
module ChatPage {
  import opened Common
  import opened JsString

  datatype Role = User | Assistant

  datatype Message = Message(role: Role, content: string)

  /** The page's state: the conversation, the loading flag, the input box,
      whether a request's abort controller is held, and the text streamed so
      far for the pending request (the handler's `assistantContent`). */
  datatype ClientState = ClientState(
    messages: seq<Message>,
    isLoading: bool,
    input: string,
    inFlight: bool,
    streamed: string)

  /** What reaches the page. */
  datatype Event =
    | Type(text: string)          // the input box changed
    | Submit(content: string)     // `submitMessage(content)`, as the form's submit does with the input
    | Suggest(suggestion: string) // a prompt suggestion was clicked
    | NoBody                      // the response arrived without a body
    | Chunk(text: string)         // one decoded chunk was read from the body
    | Finish                      // the reader reported the end of the body
    | Fail(error: Thrown)         // the request or a read rejected
    | Clear                       // the Clear button was clicked

  /** What the page asks of the outside world: a POST to the chat endpoint
      with the given `messages`, or aborting the pending request. */
  datatype Effect = Post(messages: seq<Message>) | Abort

  datatype Step = Step(state: ClientState, effects: seq<Effect>)

  const ErrorReply: string := "Sorry, there was an error processing your request."

  /** The page when it loads. */
  const Initial: ClientState := ClientState([], false, "", false, "")

  /** The error the page throws itself when the response has no body. */
  const NoBodyError: Thrown := ErrorObj("Error", "No response body")

  function Last(ms: seq<Message>): Message
    requires ms != []
  {
    ms[|ms| - 1]
  }

  /** A rejection that comes from aborting the request. */
  predicate IsAbort(e: Thrown) {
    e.ErrorObj? && e.name == "AbortError"
  }

  /** `submitMessage`: ignored when the content is blank or a request is
      loading; otherwise it appends the user's message (untrimmed) and an empty
      assistant placeholder, clears the input, and posts the conversation as it
      was plus the user's message, never the placeholder. */
  function SubmitMessage(s: ClientState, content: string): (r: Step)
    ensures Blank(content) || s.isLoading ==> r == Step(s, [])
    ensures !Blank(content) && !s.isLoading ==>
              && r.state.messages == s.messages + [Message(User, content), Message(Assistant, "")]
              && r.state.input == ""
              && r.state.isLoading && r.state.inFlight && r.state.streamed == ""
              && r.effects == [Post(r.state.messages[..|r.state.messages| - 1])]
              && r.effects[0].messages == s.messages + [Message(User, content)]
  {
    if Trim(content) == "" || s.isLoading then Step(s, [])
    else
      var user := Message(User, content);
      var next := s.(
        messages := s.messages + [user] + [Message(Assistant, "")],
        isLoading := true,
        input := "",
        inFlight := true,
        streamed := "");
      assert next.messages[..|next.messages| - 1] == s.messages + [user];
      Step(next, [Post(s.messages + [user])])
  }

  /** One decoded chunk of the pending request: the streamed text grows by the
      chunk, and the last message, when it is the assistant's, is overwritten
      with all the text streamed so far; every earlier message is untouched.
      A chunk with no request pending changes nothing. */
  function ReceiveChunk(s: ClientState, text: string): (r: ClientState)
    ensures !s.inFlight ==> r == s
    ensures s.inFlight ==> r.streamed == s.streamed + text
    ensures |r.messages| == |s.messages|
    ensures forall i :: 0 <= i < |s.messages| - 1 ==> r.messages[i] == s.messages[i]
    ensures s.inFlight && s.messages != [] && Last(s.messages).role == Assistant ==>
              Last(r.messages) == Message(Assistant, s.streamed + text)
    ensures s.messages == [] || Last(s.messages).role != Assistant ==> r.messages == s.messages
    ensures r.isLoading == s.isLoading && r.input == s.input && r.inFlight == s.inFlight
  {
    if !s.inFlight then s
    else
      var streamed := s.streamed + text;
      if s.messages != [] && Last(s.messages).role == Assistant then
        s.(messages := s.messages[|s.messages| - 1 := Message(Assistant, streamed)], streamed := streamed)
      else
        s.(streamed := streamed)
  }

  /** The end of the pending request (`catch` and `finally`): a failure that is
      not an abort appends one more assistant message with the fixed error
      text, leaving the placeholder as it was; an abort or a normal end appends
      nothing. Either way the page stops loading and drops the controller. */
  function Settle(s: ClientState, failure: Option<Thrown>): (r: ClientState)
    requires s.inFlight
    ensures !r.isLoading && !r.inFlight && r.streamed == ""
    ensures r.input == s.input
    ensures failure.Some? && !IsAbort(failure.value) ==>
              r.messages == s.messages + [Message(Assistant, ErrorReply)]
    ensures failure.None? || IsAbort(failure.value) ==> r.messages == s.messages
  {
    var messages :=
      if failure.Some? && !IsAbort(failure.value) then s.messages + [Message(Assistant, ErrorReply)]
      else s.messages;
    s.(messages := messages, isLoading := false, inFlight := false, streamed := "")
  }

  /** `handleClearChat`: aborts the pending request, if any, and empties the
      conversation. Loading ends only when the aborted request settles. */
  function ClearChat(s: ClientState): (r: Step)
    ensures r.state.messages == []
    ensures r.effects == (if s.inFlight then [Abort] else [])
    ensures r.state.isLoading == s.isLoading && r.state.inFlight == s.inFlight
    ensures r.state.input == s.input && r.state.streamed == s.streamed
  {
    Step(s.(messages := []), if s.inFlight then [Abort] else [])
  }

  /** The page's reaction to one event. Typing changes only the input. A
      missing body is reported like any failure that is not an abort; a normal
      end and an abort settle without a message. Events of the pending request
      arrive only while one is pending, and change nothing otherwise. */
  function Next(s: ClientState, e: Event): (r: Step)
    ensures e.Type? ==> r == Step(s.(input := e.text), [])
    ensures !s.inFlight && (e.Chunk? || Ends(e)) ==> r == Step(s, [])
    ensures s.inFlight && e.Chunk? ==> r.state.streamed == s.streamed + e.text && r.state.inFlight
    ensures s.inFlight && Ends(e) ==> !r.state.isLoading && !r.state.inFlight && r.state.input == s.input
    ensures s.inFlight && Reported(e) ==> r.state.messages == s.messages + [Message(Assistant, ErrorReply)]
    ensures s.inFlight && Ends(e) && !Reported(e) ==> r.state.messages == s.messages
  {
    match e
    case Type(text) => Step(s.(input := text), [])
    case Submit(content) => SubmitMessage(s, content)
    case Suggest(suggestion) => SubmitMessage(s.(input := suggestion), suggestion)
    case Chunk(text) => Step(ReceiveChunk(s, text), [])
    case NoBody => Step(if s.inFlight then Settle(s, Some(NoBodyError)) else s, [])
    case Finish => Step(if s.inFlight then Settle(s, None) else s, [])
    case Fail(error) => Step(if s.inFlight then Settle(s, Some(error)) else s, [])
    case Clear => ClearChat(s)
  }

  /** Only a submission, a suggestion click and Clear reach the outside world:
      every other event asks for neither a POST nor an abort. */
  lemma QuietEvents(s: ClientState, e: Event)
    requires !(e.Submit? || e.Suggest? || e.Clear?)
    ensures Next(s, e).effects == []
  {
  }

  /** The state after a sequence of events, stepping with `next`, with
      every effect in order. */
  function Fold(next: (ClientState, Event) -> Step, s: ClientState, events: seq<Event>): Step
    decreases |events|
  {
    if events == [] then Step(s, [])
    else
      var first := next(s, events[0]);
      var rest := Fold(next, first.state, events[1..]);
      Step(rest.state, first.effects + rest.effects)
  }

  /** The page after a sequence of events, with every effect in order. */
  function Run(s: ClientState, events: seq<Event>): Step {
    Fold(Next, s, events)
  }

  /** The states the page keeps between events: it is loading exactly while it
      holds a controller; nothing is streamed when idle; and while a request is
      pending, the last message (unless Clear emptied the conversation) is the
      assistant's, holding everything streamed so far. */
  predicate Consistent(s: ClientState) {
    && s.isLoading == s.inFlight
    && (!s.inFlight ==> s.streamed == "")
    && (s.inFlight && s.messages != [] ==> Last(s.messages) == Message(Assistant, s.streamed))
  }

  /** Every event keeps the page consistent. */
  lemma NextConsistent(s: ClientState, e: Event)
    requires Consistent(s)
    ensures Consistent(Next(s, e).state)
  {
  }

  /** Any sequence of events keeps the page consistent; the page starts so. */
  lemma {:induction false} RunConsistent(s: ClientState, events: seq<Event>)
    requires Consistent(s)
    ensures Consistent(Run(s, events).state)
    decreases |events|
  {
    if events != [] {
      NextConsistent(s, events[0]);
      RunConsistent(Next(s, events[0]).state, events[1..]);
    }
  }

  /** From the page as it loads, every sequence of events leaves it
      consistent. */
  lemma LoadedPageConsistent(events: seq<Event>)
    ensures Consistent(Run(Initial, events).state)
  {
    RunConsistent(Initial, events);
  }

  /** Folding two sequences of events one after the other is folding their
      concatenation. */
  lemma {:induction false} FoldAppend(next: (ClientState, Event) -> Step, s: ClientState, xs: seq<Event>, ys: seq<Event>)
    ensures Fold(next, s, xs + ys) ==
              var a := Fold(next, s, xs);
              var b := Fold(next, a.state, ys);
              Step(b.state, a.effects + b.effects)
    decreases |xs|
  {
    if xs == [] {
      assert xs + ys == ys;
    } else {
      assert (xs + ys)[0] == xs[0];
      assert (xs + ys)[1..] == xs[1..] + ys;
      FoldAppend(next, next(s, xs[0]).state, xs[1..], ys);
    }
  }

  /** Running two sequences of events one after the other is running their
      concatenation. */
  lemma RunAppend(s: ClientState, xs: seq<Event>, ys: seq<Event>)
    ensures Run(s, xs + ys) ==
              var a := Run(s, xs);
              var b := Run(a.state, ys);
              Step(b.state, a.effects + b.effects)
  {
    FoldAppend(Next, s, xs, ys);
  }

  /** The events of a stream of decoded chunks. */
  function Chunks(ts: seq<string>): (es: seq<Event>)
    ensures |es| == |ts|
    ensures forall i :: 0 <= i < |ts| ==> es[i] == Chunk(ts[i])
  {
    if ts == [] then [] else [Chunk(ts[0])] + Chunks(ts[1..])
  }

  /** Streaming a sequence of chunks into a pending request overwrites the
      placeholder with everything streamed, in order, and touches nothing else. */
  lemma {:induction false} StreamFillsPlaceholder(s: ClientState, ts: seq<string>)
    requires Consistent(s) && s.inFlight && s.messages != []
    ensures Run(s, Chunks(ts)) == Step(
              s.(messages := s.messages[|s.messages| - 1 := Message(Assistant, s.streamed + Concat(ts))],
                 streamed := s.streamed + Concat(ts)),
              [])
    decreases |ts|
  {
    if ts == [] {
      assert s.streamed + Concat(ts) == s.streamed;
      assert s.messages[|s.messages| - 1 := Message(Assistant, s.streamed)] == s.messages;
    } else {
      var es := Chunks(ts);
      assert es[1..] == Chunks(ts[1..]);
      var t := Next(s, es[0]).state;
      assert t == ReceiveChunk(s, ts[0]);
      StreamFillsPlaceholder(t, ts[1..]);
      assert t.streamed + Concat(ts[1..]) == s.streamed + Concat(ts);
      assert t.messages[|t.messages| - 1 := Message(Assistant, t.streamed + Concat(ts[1..]))]
          == s.messages[|s.messages| - 1 := Message(Assistant, s.streamed + Concat(ts))];
    }
  }

  /** How a pending request ends. */
  predicate Ends(e: Event) {
    e.Finish? || e.NoBody? || e.Fail?
  }

  /** A failure the page reports to the user: one that is not an abort. */
  predicate Reported(e: Event) {
    e.NoBody? || (e.Fail? && !IsAbort(e.error))
  }

  /** The page while the answer to `content` is streaming, `text` received so far. */
  function Streaming(s: ClientState, content: string, text: string): ClientState {
    s.(messages := s.messages + [Message(User, content), Message(Assistant, text)],
       isLoading := true, input := "", inFlight := true, streamed := text)
  }

  /** A single event is one step. */
  lemma RunOne(s: ClientState, e: Event)
    ensures Run(s, [e]) == Next(s, e)
  {
    var first := Next(s, e);
    assert [e][1..] == [];
    assert Fold(Next, first.state, []) == Step(first.state, []);
    assert first.effects + [] == first.effects;
  }

  /** Submitting a non-blank message from an idle page and streaming chunks
      shows the user's message followed by everything streamed, in order, and
      posts once. */
  lemma SubmitAndStream(s: ClientState, content: string, ts: seq<string>)
    requires Consistent(s) && !s.isLoading && !Blank(content)
    ensures Run(s, [Submit(content)] + Chunks(ts)) ==
              Step(Streaming(s, content, Concat(ts)), [Post(s.messages + [Message(User, content)])])
  {
    var p := Streaming(s, content, "");
    SubmitFromIdle(s, content);
    StreamFillsPlaceholder(p, ts);
    StreamingOverwrite(s, content, Concat(ts));
    RunAppend(s, [Submit(content)], Chunks(ts));
  }

  /** Submitting a non-blank message from an idle page starts streaming
      with nothing received. */
  lemma SubmitFromIdle(s: ClientState, content: string)
    requires !s.isLoading && !Blank(content)
    ensures Run(s, [Submit(content)]) ==
              Step(Streaming(s, content, ""), [Post(s.messages + [Message(User, content)])])
  {
    RunOne(s, Submit(content));
    assert SubmitMessage(s, content).state == Streaming(s, content, "");
  }

  /** Overwriting the placeholder with `text` while streaming. */
  lemma StreamingOverwrite(s: ClientState, content: string, text: string)
    ensures
      var p := Streaming(s, content, "");
      p.(messages := p.messages[|p.messages| - 1 := Message(Assistant, "" + text)], streamed := "" + text)
        == Streaming(s, content, text)
  {
    assert "" + text == text;
    var p := Streaming(s, content, "");
    assert p.messages[|p.messages| - 1 := Message(Assistant, text)]
        == s.messages + [Message(User, content), Message(Assistant, text)];
  }

  /** One whole exchange from an idle page: submitting a non-blank message,
      streaming chunks and ending leaves the conversation as it was plus the
      user's message and the assistant's full answer, followed by the error
      text only when the end was a failure other than an abort. The page is
      idle again, the input empty, and the only effect is the one POST. */
  lemma Exchange(s: ClientState, content: string, ts: seq<string>, end: Event)
    requires Consistent(s) && !s.isLoading && !Blank(content) && Ends(end)
    ensures
      var r := Run(s, [Submit(content)] + Chunks(ts) + [end]);
      var answered := s.messages + [Message(User, content), Message(Assistant, Concat(ts))];
      && r.state.messages == answered + (if Reported(end) then [Message(Assistant, ErrorReply)] else [])
      && !r.state.isLoading && !r.state.inFlight && r.state.input == ""
      && r.effects == [Post(s.messages + [Message(User, content)])]
  {
    var pre := [Submit(content)] + Chunks(ts);
    var mid := Streaming(s, content, Concat(ts));
    var post := Post(s.messages + [Message(User, content)]);
    SubmitAndStream(s, content, ts);
    assert Run(s, pre) == Step(mid, [post]);
    RunAppend(s, pre, [end]);
    EndExchange(s, content, Concat(ts), end);
    var last := Run(mid, [end]);
    assert Run(s, pre + [end]) == Step(last.state, [post] + last.effects);
    assert [post] + last.effects == [post];
  }

  /** The event that ends a streaming exchange settles it: the page is idle,
      the answer stays, the error text follows only a reported failure, and
      nothing more is posted or aborted. */
  lemma EndExchange(s: ClientState, content: string, text: string, end: Event)
    requires Ends(end)
    ensures
      var r := Run(Streaming(s, content, text), [end]);
      && r.state.messages == s.messages + [Message(User, content), Message(Assistant, text)]
                               + (if Reported(end) then [Message(Assistant, ErrorReply)] else [])
      && !r.state.isLoading && !r.state.inFlight && r.state.input == ""
      && r.effects == []
  {
    var mid := Streaming(s, content, text);
    var answered := s.messages + [Message(User, content), Message(Assistant, text)];
    assert mid.messages == answered;
    RunOne(mid, end);
    match end
    case Finish =>
      assert Next(mid, end).state == Settle(mid, None);
    case NoBody =>
      assert Next(mid, end).state == Settle(mid, Some(NoBodyError));
    case Fail(error) =>
      assert Next(mid, end).state == Settle(mid, Some(error));
  }

  /** Clicking a suggestion is typing it into the input box and then
      submitting it: when the submission is ignored, the suggestion stays in
      the input box. */
  lemma SuggestIsTypeThenSubmit(s: ClientState, suggestion: string)
    ensures Next(s, Suggest(suggestion)) == Run(s, [Type(suggestion), Submit(suggestion)])
    ensures Blank(suggestion) || s.isLoading ==> Next(s, Suggest(suggestion)).state.input == suggestion
  {
    var typed := s.(input := suggestion);
    var submitted := SubmitMessage(typed, suggestion);
    assert Next(s, Suggest(suggestion)) == submitted;
    assert [Type(suggestion), Submit(suggestion)] == [Type(suggestion)] + [Submit(suggestion)];
    RunAppend(s, [Type(suggestion)], [Submit(suggestion)]);
    RunOne(s, Type(suggestion));
    assert Run(s, [Type(suggestion)]) == Step(typed, []);
    RunOne(typed, Submit(suggestion));
    assert Run(typed, [Submit(suggestion)]) == submitted;
    assert [] + submitted.effects == submitted.effects;
  }

  /** Clear while a request is pending, then the abort's rejection: the
      conversation is empty, the request is aborted, and the page is idle. */
  lemma ClearThenAbort(p: ClientState, abort: Thrown)
    requires p.inFlight && IsAbort(abort)
    ensures Run(p, [Clear, Fail(abort)]) ==
              Step(p.(messages := [], isLoading := false, inFlight := false, streamed := ""), [Abort])
  {
    var cleared := ClearChat(p).state;
    assert [Clear, Fail(abort)] == [Clear] + [Fail(abort)];
    RunAppend(p, [Clear], [Fail(abort)]);
    RunOne(p, Clear);
    RunOne(cleared, Fail(abort));
  }

  /** Clear during an exchange: the conversation ends empty, the pending
      request is aborted, its abort settles without any error message, and
      the page is idle again. */
  lemma ClearDuringExchange(s: ClientState, content: string, ts: seq<string>, abort: Thrown)
    requires Consistent(s) && !s.isLoading && !Blank(content) && IsAbort(abort)
    ensures
      var r := Run(s, [Submit(content)] + Chunks(ts) + [Clear, Fail(abort)]);
      && r.state.messages == []
      && !r.state.isLoading && !r.state.inFlight
      && r.effects == [Post(s.messages + [Message(User, content)]), Abort]
  {
    SubmitAndStream(s, content, ts);
    RunAppend(s, [Submit(content)] + Chunks(ts), [Clear, Fail(abort)]);
    ClearThenAbort(Streaming(s, content, Concat(ts)), abort);
  }
}
