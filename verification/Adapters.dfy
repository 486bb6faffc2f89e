/** How adapters turn the response of an agent into stream events (pkg/adapter). All of
    them read the body line by line in the same way; what a line means differs. LangGraph, the
    one that carries state from line to line, is written out. */
module Adapters {
  import opened Wrappers
  import opened Text
  import opened StreamEvents

  /** What an adapter does with one line, and the state it carries to the next. */
  datatype LineStep =
    | Skip(state: string)
    | Hand(event: Event, state: string)
    | Abort(event: Event)               // handed on, and the translation fails
    | Finish                            // the stream is complete

  // ---- LangGraph

  /** What the JSON library reads out of a data line. */
  datatype Json = Json(
    content: string -> string, hasDelta: string -> bool, delta: string -> string,
    value: string -> string, errorText: string -> string)

  datatype Line = Blank | EventName(name: string) | Data(data: string) | Other

  function Classify(raw: string): Line {
    var line := TrimSpace(raw);
    if line == "" then Blank
    else if "event:" <= line then EventName(TrimSpace(line[6..]))
    else if "data:" <= line then Data(TrimSpace(line[5..]))
    else Other
  }

  predicate IsDone(name: string, data: string) {
    data == "[DONE]" || name == "end"
  }

  function EventFor(json: Json, name: string, data: string): Event {
    if name in {"messages", "message", "token"} then TokenDelta(json.content(data))
    else if name in {"values", "updates", "steps", "step"} then StepProgress(name, json.value(data))
    else if json.hasDelta(data) then TokenDelta(json.delta(data))
    else StepProgress("progress", json.value(data))
  }

  /** The state is the event name in force. */
  function LangGraphStep(json: Json, agentId: string, name: string, line: Line): LineStep {
    match line
    case Blank => Skip("")
    case EventName(next) => Skip(next)
    case Other => Skip(name)
    case Data(data) =>
      if IsDone(name, data) then Finish
      else if name == "error" then Abort(TaskError(json.errorText(data), Some(agentId)))
      else Hand(EventFor(json, name, data), name)
  }

  // ---- Any adapter

  datatype Adapter =
    | LangGraph(json: Json)
    | OtherAdapter(other: (string, string, string) -> LineStep)    // agent id, state, line
  {
    function Step(agentId: string, state: string, raw: string): LineStep {
      match this
      case LangGraph(json) => LangGraphStep(json, agentId, state, Classify(raw))
      case OtherAdapter(other) => other(agentId, state, raw)
    }
  }

  predicate StepOk(s: LineStep) {
    && (s.Hand? ==> !s.event.Terminal() && !s.event.TaskStarted?)
    && (s.Abort? ==> s.event.TaskError?)
  }

  /** Lines stand for events that neither start nor complete a stream, and only an error that
      ends the translation is handed on as one. */
  ghost predicate WellBehaved(a: Adapter) {
    forall agentId: string, state: string, raw: string :: StepOk(a.Step(agentId, state, raw))
  }

  lemma LangGraphStepIsOk(json: Json, agentId: string, name: string, line: Line)
    ensures StepOk(LangGraphStep(json, agentId, name, line))
  {
  }

  lemma LangGraphIsWellBehaved(json: Json)
    ensures WellBehaved(LangGraph(json))
  {
    forall agentId: string, state: string, raw: string ensures StepOk(LangGraph(json).Step(agentId, state, raw)) {
      LangGraphStepIsOk(json, agentId, state, Classify(raw));
    }
  }

  /** `live(i)`: the attempt's context was live when line i was read. `pending(i)`: the scanner
      had met a read error by then, which it reports only when asked, and may hold back until
      it has handed out the lines it had buffered; i == |lines| is the end of the body. */
  datatype StreamResponse = StreamResponse(
    status: nat, body: string, lines: seq<string>, pending: nat -> bool, live: nat -> bool)

  /** After the scanner loop: completion, unless a read error is pending. */
  function Closing(r: StreamResponse, i: nat): seq<Event> {
    if r.pending(i) then [] else [TaskCompleted]
  }

  /** The events from line i on, up to the first line at which the context is done. */
  function Play(a: Adapter, agentId: string, r: StreamResponse, state: string, i: nat): seq<Event>
    requires i <= |r.lines|
    decreases |r.lines| - i
  {
    if i == |r.lines| then Closing(r, i)
    else if !r.live(i) then []
    else
      match a.Step(agentId, state, r.lines[i])
      case Skip(next) => Play(a, agentId, r, next, i + 1)
      case Hand(e, next) => [e] + Play(a, agentId, r, next, i + 1)
      case Abort(e) => [e]
      case Finish => Closing(r, i)
  }

  /** Everything that is handed on if no event is turned down. */
  function Script(a: Adapter, agentId: string, r: StreamResponse): seq<Event> {
    if r.status >= 400 then [TaskError(r.body, Some(agentId))]
    else [TaskStarted(agentId)] + Play(a, agentId, r, "", 0)
  }

  lemma {:induction false} PlayEndsOnce(a: Adapter, agentId: string, r: StreamResponse, state: string, i: nat, n: nat)
    requires WellBehaved(a) && i <= |r.lines| && n < |Play(a, agentId, r, state, i)|
    ensures var events := Play(a, agentId, r, state, i);
            && !events[n].TaskStarted?
            && (events[n].Terminal() ==> n == |events| - 1)
    decreases |r.lines| - i
  {
    if i < |r.lines| && r.live(i) {
      var step := a.Step(agentId, state, r.lines[i]);
      assert StepOk(step);
      match step
      case Skip(next) => PlayEndsOnce(a, agentId, r, next, i + 1, n);
      case Hand(_, next) =>
        if n > 0 {
          PlayEndsOnce(a, agentId, r, next, i + 1, n - 1);
        }
      case _ =>
    }
  }

  /** Only the last event of a script can be terminal, and only the first announces the start. */
  lemma ScriptEndsOnce(a: Adapter, agentId: string, r: StreamResponse, n: nat)
    requires WellBehaved(a) && n < |Script(a, agentId, r)|
    ensures var events := Script(a, agentId, r);
            && (events[n].TaskStarted? <==> n == 0 && r.status < 400)
            && (events[n].Terminal() ==> n == |events| - 1)
  {
    if r.status < 400 && n > 0 {
      PlayEndsOnce(a, agentId, r, "", 0, n - 1);
    }
  }

  // ---- Scripts, line by line

  /** The state after some lines, none of which ended the stream. */
  function StateAfter(a: Adapter, agentId: string, lines: seq<string>): string {
    if lines == [] then ""
    else
      var before := StateAfter(a, agentId, lines[..|lines| - 1]);
      match a.Step(agentId, before, lines[|lines| - 1])
      case Skip(next) => next
      case Hand(_, next) => next
      case _ => before
  }

  /** The events that some lines stand for. */
  function EventsOf(a: Adapter, agentId: string, lines: seq<string>): seq<Event> {
    if lines == [] then []
    else
      var front := lines[..|lines| - 1];
      var step := a.Step(agentId, StateAfter(a, agentId, front), lines[|lines| - 1]);
      if step.Hand? then EventsOf(a, agentId, front) + [step.event] else EventsOf(a, agentId, front)
  }

  predicate Ends(step: LineStep) {
    step.Abort? || step.Finish?
  }

  /** The translation reads past the first n lines: the context was live at each of them, and
      none ended the stream. */
  predicate ReadsPast(a: Adapter, agentId: string, r: StreamResponse, n: nat)
    requires n <= |r.lines|
  {
    n > 0 ==>
      && ReadsPast(a, agentId, r, n - 1) && r.live(n - 1)
      && !Ends(a.Step(agentId, StateAfter(a, agentId, r.lines[..n - 1]), r.lines[n - 1]))
  }

  function Adding(before: seq<Event>, step: LineStep): seq<Event> {
    if step.Hand? then before + [step.event] else before
  }

  /** Playing one line, after some events. */
  lemma PlayStep(a: Adapter, agentId: string, r: StreamResponse, state: string, i: nat, before: seq<Event>)
    requires i < |r.lines| && r.live(i) && !Ends(a.Step(agentId, state, r.lines[i]))
    ensures var step := a.Step(agentId, state, r.lines[i]);
            before + Play(a, agentId, r, state, i) == Adding(before, step) + Play(a, agentId, r, step.state, i + 1)
  {
    var step := a.Step(agentId, state, r.lines[i]);
    if step.Hand? {
      var rest := Play(a, agentId, r, step.state, i + 1);
      assert before + ([step.event] + rest) == before + [step.event] + rest;
    }
  }

  lemma OneMoreLine(a: Adapter, agentId: string, lines: seq<string>, n: nat)
    requires n < |lines| && !Ends(a.Step(agentId, StateAfter(a, agentId, lines[..n]), lines[n]))
    ensures var step := a.Step(agentId, StateAfter(a, agentId, lines[..n]), lines[n]);
            && StateAfter(a, agentId, lines[..n + 1]) == step.state
            && EventsOf(a, agentId, lines[..n + 1]) == Adding(EventsOf(a, agentId, lines[..n]), step)
  {
    assert lines[..n + 1][..n] == lines[..n];
  }

  lemma {:induction false} PlaySplits(a: Adapter, agentId: string, r: StreamResponse, n: nat)
    requires n <= |r.lines| && ReadsPast(a, agentId, r, n)
    ensures Play(a, agentId, r, "", 0)
            == EventsOf(a, agentId, r.lines[..n]) + Play(a, agentId, r, StateAfter(a, agentId, r.lines[..n]), n)
    decreases n
  {
    if n == 0 {
      assert r.lines[..n] == [];
    } else {
      PlaySplits(a, agentId, r, n - 1);
      var front := r.lines[..n - 1];
      PlayStep(a, agentId, r, StateAfter(a, agentId, front), n - 1, EventsOf(a, agentId, front));
      OneMoreLine(a, agentId, r.lines, n - 1);
    }
  }

  /** What a good response is worth, said line by line: an event for each line before the one
      where the translation stops, and then, unless it stopped because the context was done, the
      error of that line, or the completion unless a read error is pending. */
  lemma ScriptByLines(a: Adapter, agentId: string, r: StreamResponse, n: nat)
    requires r.status < 400 && n <= |r.lines| && ReadsPast(a, agentId, r, n)
    requires n < |r.lines| ==> !ReadsPast(a, agentId, r, n + 1)
    ensures var step := if n < |r.lines| then a.Step(agentId, StateAfter(a, agentId, r.lines[..n]), r.lines[n]) else Finish;
            Script(a, agentId, r) == [TaskStarted(agentId)] + EventsOf(a, agentId, r.lines[..n])
            + if n < |r.lines| && !r.live(n) then []
              else if step.Abort? then [step.event]
              else if r.pending(n) then [] else [TaskCompleted]
  {
    PlaySplits(a, agentId, r, n);
  }

  /** LangGraph's event name in force: the last one named since the last blank line. */
  function NameAfter(lines: seq<string>): string {
    if lines == [] then ""
    else
      match Classify(lines[|lines| - 1])
      case Blank => ""
      case EventName(name) => name
      case _ => NameAfter(lines[..|lines| - 1])
  }

  predicate SetsName(line: Line) {
    line.Blank? || line.EventName?
  }

  /** The name in force is the one in the last event line, if no blank line came since. */
  lemma {:induction false} NameInForce(lines: seq<string>, i: nat)
    requires i < |lines| && SetsName(Classify(lines[i]))
    requires forall j | i < j < |lines| :: !SetsName(Classify(lines[j]))
    ensures NameAfter(lines) == match Classify(lines[i]) case EventName(name) => name case _ => ""
    decreases |lines|
  {
    if i < |lines| - 1 {
      NameInForce(lines[..|lines| - 1], i);
    }
  }

  lemma {:induction false} NoNameInForce(lines: seq<string>)
    requires forall j | 0 <= j < |lines| :: !SetsName(Classify(lines[j]))
    ensures NameAfter(lines) == ""
  {
    if lines != [] {
      NoNameInForce(lines[..|lines| - 1]);
    }
  }

  lemma {:induction false} StateIsName(json: Json, agentId: string, lines: seq<string>)
    ensures StateAfter(LangGraph(json), agentId, lines) == NameAfter(lines)
  {
    if lines != [] {
      StateIsName(json, agentId, lines[..|lines| - 1]);
    }
  }

  /** WHAT A LINE STANDS FOR. A data line is told apart by the event name in force: message
      events become token deltas, state events step progress under that name, an error event
      ends the stream with an error, and a done marker or an end event with its completion. */
  lemma LangGraphLine(json: Json, agentId: string, lines: seq<string>, n: nat)
    requires n < |lines|
    ensures var a, name, line := LangGraph(json), NameAfter(lines[..n]), Classify(lines[n]);
            var before, after := EventsOf(a, agentId, lines[..n]), EventsOf(a, agentId, lines[..n + 1]);
            var step := a.Step(agentId, StateAfter(a, agentId, lines[..n]), lines[n]);
            if !line.Data? then after == before && !Ends(step)
            else if line.data == "[DONE]" || name == "end" then after == before && step.Finish?
            else if name == "error" then
              after == before && step == Abort(TaskError(json.errorText(line.data), Some(agentId)))
            else
              && !Ends(step)
              && after == before + [if name == "messages" || name == "message" || name == "token"
                                    then TokenDelta(json.content(line.data))
                                    else if name == "values" || name == "updates" || name == "steps" || name == "step"
                                    then StepProgress(name, json.value(line.data))
                                    else if json.hasDelta(line.data) then TokenDelta(json.delta(line.data))
                                    else StepProgress("progress", json.value(line.data))]
  {
    StateIsName(json, agentId, lines[..n]);
    assert lines[..n + 1][..n] == lines[..n];
  }

  lemma OneSpaceIsTrimmed(value: string)
    requires value != "" && Trimmed(value)
    ensures TrimSpace(" " + value) == value
  {
    TrimmedStaysTrimmed(value);
    assert (" " + value)[1..] == value;
  }

  /** A visible first character and a trimmed value leave nothing to trim. */
  lemma FieldIsTrimmed(field: string, value: string)
    requires field != "" && !IsSpace(field[0]) && value != "" && Trimmed(value)
    ensures TrimSpace(field + value) == field + value
  {
    var line := field + value;
    assert line[0] == field[0] && line[|line| - 1] == value[|value| - 1];
    TrimmedStaysTrimmed(line);
  }

  lemma EventFieldIsReadBack(value: string)
    requires value != "" && Trimmed(value)
    ensures Classify("event: " + value) == EventName(value)
  {
    var line := "event: " + value;
    FieldIsTrimmed("event: ", value);
    assert "event:" <= line && line[6..] == " " + value;
    OneSpaceIsTrimmed(value);
  }

  lemma DataFieldIsReadBack(value: string)
    requires value != "" && Trimmed(value)
    ensures Classify("data: " + value) == Data(value)
  {
    var line := "data: " + value;
    FieldIsTrimmed("data: ", value);
    assert "data:" <= line && line[0] != 'e' && line[5..] == " " + value;
    OneSpaceIsTrimmed(value);
  }

  /** A field of a server-sent event, as an agent writes it, is read back. */
  lemma FieldIsReadBack(value: string)
    requires value != "" && Trimmed(value)
    ensures Classify("event: " + value) == EventName(value)
    ensures Classify("data: " + value) == Data(value)
  {
    EventFieldIsReadBack(value);
    DataFieldIsReadBack(value);
  }

  /** What LangGraph writes for some messages. */
  function MessageLines(messages: seq<string>): seq<string> {
    ["event: messages"] + seq(|messages|, i requires 0 <= i < |messages| => "data: " + messages[i])
  }

  function Tokens(json: Json, messages: seq<string>): seq<Event> {
    seq(|messages|, i requires 0 <= i < |messages| => TokenDelta(json.content(messages[i])))
  }

  predicate IsMessage(s: string) {
    s != "" && Trimmed(s) && s != "[DONE]"
  }

  lemma DoneLine()
    ensures Classify("data: [DONE]") == Data("[DONE]")
  {
    assert "data: " + "[DONE]" == "data: [DONE]";
    FieldIsReadBack("[DONE]");
  }

  /** A stream that is closed properly by its last line, while the scanner holds back a read
      error: no completion is handed on. */
  lemma PendingErrorHidesCompletion(json: Json, agentId: string)
    ensures Script(LangGraph(json), agentId, StreamResponse(200, "", ["data: [DONE]"], i => true, i => true))
            == [TaskStarted(agentId)]
  {
    DoneLine();
    var r := StreamResponse(200, "", ["data: [DONE]"], i => true, i => true);
    assert Play(LangGraph(json), agentId, r, "", 0) == [];
  }

  /** The first k of some messages, written out, are read back as their tokens. */
  lemma {:induction false} MessagesAreRead(json: Json, agentId: string, r: StreamResponse, messages: seq<string>, k: nat)
    requires MessageLines(messages) <= r.lines && k <= |messages|
    requires forall i | 0 <= i < |messages| :: IsMessage(messages[i])
    requires forall i | 0 <= i <= |messages| :: r.live(i)
    ensures NameAfter(r.lines[..k + 1]) == "messages" && ReadsPast(LangGraph(json), agentId, r, k + 1)
    ensures EventsOf(LangGraph(json), agentId, r.lines[..k + 1]) == Tokens(json, messages[..k])
  {
    var a, lines := LangGraph(json), r.lines;
    LangGraphLine(json, agentId, lines, k);
    if k == 0 {
      FirstLineIsRead(lines[0]);
      FirstLineNames(lines);
    } else {
      MessagesAreRead(json, agentId, r, messages, k - 1);
      FieldIsReadBack(messages[k - 1]);
      assert lines[k] == MessageLines(messages)[k] == "data: " + messages[k - 1];
      NextName(lines, k);
      TokensGrow(json, messages, k - 1);
    }
  }

  lemma MessagesField(line: string, value: string)
    requires line == "event: " + value && value == "messages"
    ensures Classify(line) == EventName(value)
  {
    assert |value| == 8 && value[0] == 'm' && value[7] == 's';
    FieldIsReadBack(value);
  }

  lemma FirstLineIsRead(line: string)
    requires line == "event: messages"
    ensures Classify(line) == EventName("messages")
  {
    var value := line[7..];
    assert line[..7] == "event: " && value == "messages";
    MessagesField(line, value);
  }

  lemma FirstLineNames(lines: seq<string>)
    requires lines != [] && Classify(lines[0]) == EventName("messages")
    ensures NameAfter(lines[..1]) == "messages" && lines[..0] == []
  {
    var one := lines[..1];
    assert one[|one| - 1] == lines[0];
  }

  lemma NextName(lines: seq<string>, k: nat)
    requires k < |lines| && Classify(lines[k]).Data?
    ensures NameAfter(lines[..k + 1]) == NameAfter(lines[..k])
  {
    assert lines[..k + 1][..k] == lines[..k];
  }

  lemma TokensGrow(json: Json, messages: seq<string>, k: nat)
    requires k < |messages|
    ensures Tokens(json, messages[..k + 1]) == Tokens(json, messages[..k]) + [TokenDelta(json.content(messages[k]))]
  {
  }

  /** MESSAGES ARRIVE. Whatever messages LangGraph writes, the client is handed their tokens, one
      each and in order, between the start and the completion. */
  lemma MessageStream(json: Json, agentId: string, r: StreamResponse, messages: seq<string>)
    requires r.status < 400 && r.lines == MessageLines(messages) + ["data: [DONE]"]
    requires forall i | 0 <= i < |messages| :: IsMessage(messages[i])
    requires forall i | 0 <= i < |r.lines| :: r.live(i)
    ensures Script(LangGraph(json), agentId, r)
            == [TaskStarted(agentId)] + Tokens(json, messages)
               + if r.pending(|messages| + 1) then [] else [TaskCompleted]
  {
    var n := |messages| + 1;
    MessagesAreRead(json, agentId, r, messages, |messages|);
    assert messages[..|messages|] == messages;
    DoneLine();
    LangGraphLine(json, agentId, r.lines, n);
    ScriptByLines(LangGraph(json), agentId, r, n);
  }

  // ---- Translation

  predicate LastIsError(sent: seq<Event>) {
    sent != [] && sent[|sent| - 1].TaskError?
  }

  /** What the connection was handed is the beginning of what it would be handed in all, and
      from `from` on only the last event can have been turned down. Short of that it is all of
      it. The translation succeeds exactly when it completed and the client got that event. */
  ghost predicate Relayed(all: seq<Event>, accepts: nat -> bool, from: nat, sent: seq<Event>, failed: bool) {
    && from < |sent| && sent <= all
    && (forall i | from <= i < |sent| - 1 :: accepts(i))
    && (!failed <==> sent[|sent| - 1].TaskCompleted? && accepts(|sent| - 1))
    && (accepts(|sent| - 1) ==> sent == all)
  }

  /** In the middle: the rest is still to be handed on. */
  ghost predicate Underway(all: seq<Event>, accepts: nat -> bool, from: nat, sent: seq<Event>, rest: seq<Event>) {
    && all == sent + rest && from < |sent| && !sent[|sent| - 1].Terminal()
    && (forall i | from <= i < |sent| :: accepts(i))
  }

  lemma HandOn(all: seq<Event>, accepts: nat -> bool, from: nat, sent: seq<Event>, rest: seq<Event>, e: Event)
    requires Underway(all, accepts, from, sent, [e] + rest)
    ensures rest == [] && e.Terminal() ==> Relayed(all, accepts, from, sent + [e], !(e.TaskCompleted? && accepts(|sent|)))
    ensures !e.Terminal() && !accepts(|sent|) ==> Relayed(all, accepts, from, sent + [e], true)
    ensures !e.Terminal() && accepts(|sent|) ==> Underway(all, accepts, from, sent + [e], rest)
  {
    assert sent + ([e] + rest) == sent + [e] + rest;
  }

  lemma NothingLeft(all: seq<Event>, accepts: nat -> bool, from: nat, sent: seq<Event>)
    requires Underway(all, accepts, from, sent, [])
    ensures Relayed(all, accepts, from, sent, true)
  {
    assert sent + [] == sent;
  }

  /** The end of every translation: the completion, unless a read error is pending. */
  method Close(r: StreamResponse, i: nat, emitter: TrackingEmitter, ghost all: seq<Event>, ghost from: nat)
    returns (failed: bool)
    requires var sink := emitter.inner.inner; Underway(all, sink.accepts, from, sink.sent, Closing(r, i))
    requires emitter.hasEmitted
    modifies emitter, emitter.inner, emitter.inner.inner
    ensures emitter.hasEmitted && emitter.inner.errorEmitted == old(emitter.inner.errorEmitted)
    ensures var sink := emitter.inner.inner;
            Relayed(all, sink.accepts, from, sink.sent, failed) && !LastIsError(sink.sent)
  {
    ghost var sink := emitter.inner.inner;
    if r.pending(i) {
      NothingLeft(all, sink.accepts, from, sink.sent);
      return true;
    }
    assert [TaskCompleted] + [] == [TaskCompleted];
    HandOn(all, sink.accepts, from, sink.sent, [], TaskCompleted);
    var ok := emitter.Emit(TaskCompleted);
    return !ok;
  }

  /** What reading one more line does to a script that is underway. */
  ghost predicate AfterLine(all: seq<Event>, accepts: nat -> bool, from: nat, sent: seq<Event>,
                            a: Adapter, agentId: string, r: StreamResponse, step: LineStep, i: nat)
    requires i < |r.lines|
  {
    match step
    case Skip(next) => Underway(all, accepts, from, sent, Play(a, agentId, r, next, i + 1))
    case Finish => Underway(all, accepts, from, sent, Closing(r, i))
    case Abort(e) => e.TaskError? && Relayed(all, accepts, from, sent + [e], true)
    case Hand(e, next) =>
      && !e.TaskError?
      && if accepts(|sent|) then Underway(all, accepts, from, sent + [e], Play(a, agentId, r, next, i + 1))
         else Relayed(all, accepts, from, sent + [e], true)
  }

  lemma ReadOn(all: seq<Event>, accepts: nat -> bool, from: nat, sent: seq<Event>,
               a: Adapter, agentId: string, r: StreamResponse, state: string, i: nat)
    requires i < |r.lines| && r.live(i) && StepOk(a.Step(agentId, state, r.lines[i]))
    requires Underway(all, accepts, from, sent, Play(a, agentId, r, state, i))
    ensures AfterLine(all, accepts, from, sent, a, agentId, r, a.Step(agentId, state, r.lines[i]), i)
  {
    match a.Step(agentId, state, r.lines[i])
    case Hand(e, next) => HandOn(all, accepts, from, sent, Play(a, agentId, r, next, i + 1), e);
    case Abort(e) =>
      assert [e] + [] == [e];
      HandOn(all, accepts, from, sent, [], e);
    case _ =>
  }

  /** A context that is done leaves nothing to hand on. */
  lemma ContextIsDone(all: seq<Event>, accepts: nat -> bool, from: nat, sent: seq<Event>,
                      a: Adapter, agentId: string, r: StreamResponse, state: string, i: nat)
    requires i < |r.lines| && !r.live(i)
    requires Underway(all, accepts, from, sent, Play(a, agentId, r, state, i))
    ensures Relayed(all, accepts, from, sent, true)
  {
    NothingLeft(all, accepts, from, sent);
  }

  /** The switch over the event name of a LangGraph data line. */
  method EmitData(json: Json, agentId: string, name: string, data: string, emitter: TrackingEmitter) returns (failed: bool)
    requires !IsDone(name, data)
    modifies emitter, emitter.inner, emitter.inner.inner
    ensures emitter.hasEmitted
    ensures emitter.inner.inner.sent == old(emitter.inner.inner.sent) + [LangGraphStep(json, agentId, name, Data(data)).event]
    ensures emitter.inner.inner.sent == old(emitter.inner.inner.sent)
              + [if name == "error" then TaskError(json.errorText(data), Some(agentId))
                 else if name == "messages" || name == "message" || name == "token" then TokenDelta(json.content(data))
                 else if name == "values" || name == "updates" || name == "steps" || name == "step"
                 then StepProgress(name, json.value(data))
                 else if json.hasDelta(data) then TokenDelta(json.delta(data))
                 else StepProgress("progress", json.value(data))]
    ensures emitter.inner.errorEmitted <==> old(emitter.inner.errorEmitted) || name == "error"
    ensures failed <==> name == "error" || !emitter.inner.inner.accepts(|old(emitter.inner.inner.sent)|)
  {
    LangGraphStepIsOk(json, agentId, name, Data(data));
    match name {
      case "error" =>
        var _ := emitter.Emit(TaskError(json.errorText(data), Some(agentId)));
        return true;
      case _ =>
        var ok := emitter.Emit(EventFor(json, name, data));
        return !ok;
    }
  }

  /** What the scanner loop does after a line. */
  datatype Verdict = Continue(state: string) | Leave | Fail

  /** Where a verdict on line i leaves the translation. */
  ghost predicate Left(all: seq<Event>, accepts: nat -> bool, from: nat, sent: seq<Event>,
                       a: Adapter, agentId: string, r: StreamResponse, v: Verdict, i: nat)
    requires i < |r.lines|
  {
    match v
    case Continue(next) => Underway(all, accepts, from, sent, Play(a, agentId, r, next, i + 1))
    case Leave => Underway(all, accepts, from, sent, Closing(r, i))
    case Fail => Relayed(all, accepts, from, sent, true)
  }

  /** The body of LangGraph's scanner loop. */
  method TranslateLine(json: Json, agentId: string, r: StreamResponse, currentEvent: string, i: nat,
                       emitter: TrackingEmitter, ghost all: seq<Event>, ghost from: nat) returns (v: Verdict)
    requires emitter.hasEmitted && i < |r.lines|
    requires var sink := emitter.inner.inner;
             Underway(all, sink.accepts, from, sink.sent, Play(LangGraph(json), agentId, r, currentEvent, i))
    modifies emitter, emitter.inner, emitter.inner.inner
    ensures emitter.hasEmitted
    ensures var sink := emitter.inner.inner; Left(all, sink.accepts, from, sink.sent, LangGraph(json), agentId, r, v, i)
    ensures emitter.inner.errorEmitted <==>
              old(emitter.inner.errorEmitted) || (v.Fail? && LastIsError(emitter.inner.inner.sent))
  {
    ghost var sink, a := emitter.inner.inner, LangGraph(json);
    if !r.live(i) {
      ContextIsDone(all, sink.accepts, from, sink.sent, a, agentId, r, currentEvent, i);
      return Fail;
    }
    var line := Classify(r.lines[i]);
    LangGraphStepIsOk(json, agentId, currentEvent, line);
    ReadOn(all, sink.accepts, from, sink.sent, a, agentId, r, currentEvent, i);
    match line {
      case Blank =>
        return Continue("");
      case EventName(name) =>
        return Continue(name);
      case Other =>
        return Continue(currentEvent);
      case Data(data) =>
        if IsDone(currentEvent, data) {
          return Leave;
        }
        var failed := EmitData(json, agentId, currentEvent, data, emitter);
        return if failed then Fail else Continue(currentEvent);
    }
  }

  /** The body of the scanner loop of an adapter that is known by what it does with a line. */
  method TranslateLineBy(a: Adapter, agentId: string, r: StreamResponse, state: string, i: nat,
                         emitter: TrackingEmitter, ghost all: seq<Event>, ghost from: nat) returns (v: Verdict)
    requires WellBehaved(a) && emitter.hasEmitted && i < |r.lines|
    requires var sink := emitter.inner.inner;
             Underway(all, sink.accepts, from, sink.sent, Play(a, agentId, r, state, i))
    modifies emitter, emitter.inner, emitter.inner.inner
    ensures emitter.hasEmitted
    ensures var sink := emitter.inner.inner; Left(all, sink.accepts, from, sink.sent, a, agentId, r, v, i)
    ensures emitter.inner.errorEmitted <==>
              old(emitter.inner.errorEmitted) || (v.Fail? && LastIsError(emitter.inner.inner.sent))
  {
    ghost var sink := emitter.inner.inner;
    if !r.live(i) {
      ContextIsDone(all, sink.accepts, from, sink.sent, a, agentId, r, state, i);
      return Fail;
    }
    var step := a.Step(agentId, state, r.lines[i]);
    assert StepOk(step);
    ReadOn(all, sink.accepts, from, sink.sent, a, agentId, r, state, i);
    match step {
      case Skip(next) =>
        return Continue(next);
      case Hand(e, next) =>
        var ok := emitter.Emit(e);
        return if ok then Continue(next) else Fail;
      case Abort(e) =>
        var _ := emitter.Emit(e);
        return Fail;
      case Finish =>
        return Leave;
    }
  }

  /** The scanner loop, once the start was announced to the client. */
  method TranslateLines(a: Adapter, agentId: string, r: StreamResponse, emitter: TrackingEmitter,
                        ghost all: seq<Event>, ghost from: nat) returns (failed: bool)
    requires WellBehaved(a) && emitter.hasEmitted
    requires var sink := emitter.inner.inner;
             Underway(all, sink.accepts, from, sink.sent, Play(a, agentId, r, "", 0))
    modifies emitter, emitter.inner, emitter.inner.inner
    ensures emitter.hasEmitted
    ensures var sink := emitter.inner.inner;
            && Relayed(all, sink.accepts, from, sink.sent, failed)
            && (emitter.inner.errorEmitted <==> old(emitter.inner.errorEmitted) || LastIsError(sink.sent))
  {
    ghost var sink := emitter.inner.inner;
    var state := "";
    var i := 0;
    while i < |r.lines|
      invariant 0 <= i <= |r.lines| && emitter.hasEmitted
      invariant emitter.inner.errorEmitted == old(emitter.inner.errorEmitted)
      invariant Underway(all, sink.accepts, from, sink.sent, Play(a, agentId, r, state, i))
    {
      var v;
      match a {
        case LangGraph(json) => v := TranslateLine(json, agentId, r, state, i, emitter, all, from);
        case OtherAdapter(_) => v := TranslateLineBy(a, agentId, r, state, i, emitter, all, from);
      }
      match v {
        case Continue(next) =>
          state := next;
        case Leave =>
          break;
        case Fail =>
          return true;
      }
      i := i + 1;
    }
    failed := Close(r, i, emitter, all, from);
  }

  method TranslateStream(a: Adapter, agentId: string, r: StreamResponse, emitter: TrackingEmitter) returns (failed: bool)
    requires WellBehaved(a)
    modifies emitter, emitter.inner, emitter.inner.inner
    ensures emitter.hasEmitted
    ensures var sink := emitter.inner.inner;
            && Relayed(old(sink.sent) + Script(a, agentId, r), sink.accepts, |old(sink.sent)|, sink.sent, failed)
            && (emitter.inner.errorEmitted <==> old(emitter.inner.errorEmitted) || LastIsError(sink.sent))
    ensures var sink := emitter.inner.inner;
            if r.status >= 400 then failed && sink.sent == old(sink.sent) + [TaskError(r.body, Some(agentId))]
            else sink.sent[|old(sink.sent)|] == TaskStarted(agentId)
  {
    if r.status >= 400 {
      var _ := emitter.Emit(TaskError(r.body, Some(agentId)));
      return true;
    }
    ghost var before := emitter.inner.inner.sent;
    ghost var all := before + Script(a, agentId, r);
    var ok := emitter.Emit(TaskStarted(agentId));
    if !ok {
      return true;
    }
    failed := TranslateLines(a, agentId, r, emitter, all, |before|);
  }
}
