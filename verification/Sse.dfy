/**
 * Assembling a chat response from an event stream: once over the whole text, and once
 * incrementally over arriving pieces with a line buffer.
 */
module Sse {
  import opened Common
  import opened Text
  import opened ToolCalls

  // ---- Events, as the JSON getters see them ----

  datatype Usage = Usage(prompt: Option<i64>, completion: Option<i64>, total: Option<i64>)

  datatype Delta = Delta(role: Option<string>, content: Option<string>, reasoning: Option<string>,
                         toolCalls: Option<seq<ToolDelta>>)

  datatype Choice = Choice(delta: Option<Delta>, finishReason: Option<string>)

  datatype Event = Event(usage: Option<Usage>, error: bool, id: Option<string>, model: Option<string>,
                         choices: Option<seq<Choice>>)

  /** serde_json::from_str on the data of one line. */
  type Parser = string -> Option<Event>

  // ---- The accumulated response ----

  datatype Acc = Acc(hasData: bool, id: string, model: string, content: string, role: string,
                     finishReason: Option<string>, calls: Calls, prompt: i64, completion: i64, total: i64)

  const START := Acc(false, "", "", "", "assistant", None, map[], 0, 0, 0)

  datatype Progress = Reading(acc: Acc) | Failed(data: string)

  function AbsorbUsage(acc: Acc, usage: Option<Usage>): Acc {
    match usage
    case None => acc
    case Some(u) =>
      acc.(prompt := if u.prompt.Some? then u.prompt.value else acc.prompt,
           completion := if u.completion.Some? then u.completion.value else acc.completion,
           total := if u.total.Some? then u.total.value else acc.total)
  }

  function AbsorbDelta(acc: Acc, d: Delta): Acc {
    acc.(role := if d.role.Some? then d.role.value else acc.role,
         content := acc.content + OrEmpty(d.content),
         calls := if d.toolCalls.Some? then FoldDeltas(acc.calls, d.toolCalls.value) else acc.calls)
  }

  function AbsorbChoice(acc: Acc, c: Choice): Acc {
    var a := if c.delta.Some? then AbsorbDelta(acc, c.delta.value) else acc;
    a.(finishReason := if c.finishReason.Some? then c.finishReason else a.finishReason)
  }

  function AbsorbChoices(acc: Acc, choices: seq<Choice>): Acc {
    if choices == [] then acc
    else AbsorbChoice(AbsorbChoices(acc, choices[..|choices| - 1]), choices[|choices| - 1])
  }

  /** The effect of one event; an error event ends the assembly. */
  function AbsorbEvent(acc: Acc, e: Event, data: string): Progress {
    var a := AbsorbUsage(acc.(hasData := true), e.usage);
    if e.error then Failed(data)
    else
      var b := a.(id := if a.id == "" then OrEmpty(e.id) else a.id,
                  model := if a.model == "" then OrEmpty(e.model) else a.model);
      Reading(if e.choices.Some? then AbsorbChoices(b, e.choices.value) else b)
  }

  const PREFIX := "data: "

  /** The event on a line, if it carries one. */
  function LineEvent(line: string, parse: Parser): Option<(Event, string)> {
    var t := Trim(line);
    if !(PREFIX <= t) then None
    else
      var data := t[|PREFIX|..];
      if Trim(data) == "[DONE]" then None
      else match parse(data)
        case None => None
        case Some(e) => Some((e, data))
  }

  function AbsorbLine(acc: Acc, line: string, parse: Parser): Progress {
    match LineEvent(line, parse)
    case None => Reading(acc)
    case Some((e, data)) => AbsorbEvent(acc, e, data)
  }

  function AbsorbLines(p: Progress, lines: seq<string>, parse: Parser): Progress {
    if lines == [] then p
    else
      match AbsorbLines(p, lines[..|lines| - 1], parse)
      case Failed(data) => Failed(data)
      case Reading(acc) => AbsorbLine(acc, lines[|lines| - 1], parse)
  }

  // ---- The response ----

  const TOOL_MARKER := "<|tool_calls_section_begin|>"

  datatype Response = Response(id: string, model: string, role: string, content: Option<string>,
                               toolCalls: seq<ToolCall>, finishReason: Option<string>,
                               prompt: i64, completion: i64, total: i64)

  datatype Outcome =
    | Assembled(response: Response)
    | StreamError(data: string)
    | NoData
    | ReadFailed(error: string)

  /** Content up to a leaked tool-call marker, trimmed; None if nothing is left. */
  function CleanContent(content: string): Option<string> {
    var cut := Find(content, TOOL_MARKER);
    var kept := Trim(if cut.Some? then content[..cut.value] else content);
    if kept == "" then None else Some(kept)
  }

  function Finish(p: Progress): Outcome {
    match p
    case Failed(data) => StreamError(data)
    case Reading(acc) =>
      if !acc.hasData then NoData
      else
        Assembled(Response(
                    if acc.id == "" then "chatcmpl-stream" else acc.id,
                    if acc.model == "" then "unknown" else acc.model,
                    acc.role, CleanContent(acc.content), Ordered(acc.calls), acc.finishReason,
                    acc.prompt, acc.completion, acc.total))
  }

  // ---- Lines ----

  function StripCr(s: string): string {
    if s != [] && s[|s| - 1] == '\r' then s[..|s| - 1] else s
  }

  /** str::lines: split at newlines, drop a carriage return before each, keep an unfinished last line. */
  function Lines(text: string): seq<string> {
    if text == [] then []
    else match FindNewline(text)
      case None => [text]
      case Some(i) => [StripCr(text[..i])] + Lines(text[i + 1..])
  }

  /** The outcome of the whole text. */
  function Assembly(text: string, parse: Parser): Outcome {
    Finish(AbsorbLines(Reading(START), Lines(text), parse))
  }

  // ---- The reader over the whole text ----

  /** The nested loops over the choices of one event. */
  method AbsorbEventLoop(acc: Acc, e: Event, data: string) returns (p: Progress)
    ensures p == AbsorbEvent(acc, e, data)
  {
    var a := AbsorbUsage(acc.(hasData := true), e.usage);
    if e.error {
      return Failed(data);
    }
    if a.id == "" && e.id.Some? {
      a := a.(id := e.id.value);
    }
    if a.model == "" && e.model.Some? {
      a := a.(model := e.model.value);
    }
    if e.choices.None? {
      return Reading(a);
    }
    a := AbsorbChoicesLoop(a, e.choices.value);
    p := Reading(a);
  }

  method AbsorbChoicesLoop(start: Acc, choices: seq<Choice>) returns (acc: Acc)
    ensures acc == AbsorbChoices(start, choices)
  {
    hide FoldDeltas;
    acc := start;
    for k := 0 to |choices|
      invariant acc == AbsorbChoices(start, choices[..k])
    {
      var choice := choices[k];
      ghost var before := acc;
      if choice.delta.Some? {
        var d := choice.delta.value;
        if d.role.Some? {
          acc := acc.(role := d.role.value);
        }
        if d.content.Some? {
          acc := acc.(content := acc.content + d.content.value);
        }
        if d.toolCalls.Some? {
          var calls := AbsorbDeltas(acc.calls, d.toolCalls.value);
          acc := acc.(calls := calls);
        }
        assert before.content + "" == before.content;
      }
      if choice.finishReason.Some? {
        acc := acc.(finishReason := choice.finishReason);
      }
      assert acc == AbsorbChoice(before, choice);
      assert choices[..k + 1][..k] == choices[..k];
    }
    assert choices[..|choices|] == choices;
  }

  lemma {:induction false} FailureStays(p: Progress, lines: seq<string>, k: nat, parse: Parser)
    requires k <= |lines|
    requires AbsorbLines(p, lines[..k], parse).Failed?
    ensures AbsorbLines(p, lines, parse) == AbsorbLines(p, lines[..k], parse)
    decreases |lines|
  {
    if k == |lines| {
      assert lines[..k] == lines;
    } else {
      var init := lines[..|lines| - 1];
      assert init[..k] == lines[..k];
      FailureStays(p, init, k, parse);
    }
  }

  lemma AbsorbOneMore(p: Progress, lines: seq<string>, line: string, parse: Parser)
    requires AbsorbLines(p, lines, parse).Reading?
    ensures AbsorbLines(p, lines + [line], parse) == AbsorbLine(AbsorbLines(p, lines, parse).acc, line, parse)
  {
  }

  /** assemble_sse_response. */
  method AssembleSseResponse(text: string, parse: Parser) returns (outcome: Outcome)
    ensures outcome == Assembly(text, parse)
    ensures Explains(outcome, LinesEvents(Lines(text), parse))
  {
    hide AbsorbEvent, Finish, LinesEvents, Explains;
    var lines := Lines(text);
    OutcomeExplained(lines, parse);
    var acc := START;
    for k := 0 to |lines|
      invariant AbsorbLines(Reading(START), lines[..k], parse) == Reading(acc)
    {
      AbsorbOneMore(Reading(START), lines[..k], lines[k], parse);
      assert lines[..k + 1] == lines[..k] + [lines[k]];
      var line := Trim(lines[k]);
      if !(PREFIX <= line) {
        continue;
      }
      var data := line[|PREFIX|..];
      if Trim(data) == "[DONE]" {
        continue;
      }
      var event := parse(data);
      if event.None? {
        continue;
      }
      var p := AbsorbEventLoop(acc, event.value, data);
      if p.Failed? {
        FailureStays(Reading(START), lines, k + 1, parse);
        return Finish(p);
      }
      acc := p.acc;
    }
    assert lines[..|lines|] == lines;
    outcome := Finish(Reading(acc));
  }

  // ---- Complete lines ----

  /** Nothing, or text that ends in a newline. */
  predicate Terminated(text: string) {
    text == [] || text[|text| - 1] == '\n'
  }

  /** The text up to and including its last newline. */
  function CompletePart(text: string): (part: string)
    ensures part <= text && Terminated(part) && '\n' !in text[|part|..]
  {
    match FindNewline(text)
    case None => []
    case Some(i) =>
      var rest := CompletePart(text[i + 1..]);
      assert text == text[..i + 1] + text[i + 1..];
      assert text[i + 1 + |rest|..] == text[i + 1..][|rest|..];
      text[..i + 1] + rest
  }

  lemma FindNewlineAppend(p: string, q: string)
    requires p != [] && FindNewline(p).Some?
    ensures FindNewline(p + q) == FindNewline(p)
  {
    var i := FindNewline(p).value;
    assert (p + q)[..i] == p[..i];
    FirstNewlineAt(p + q, i);
  }

  lemma TerminatedHasNewline(p: string)
    requires Terminated(p) && p != []
    ensures FindNewline(p).Some? && Terminated(p[FindNewline(p).value + 1..])
  {
  }

  lemma LinesFirst(text: string, i: nat)
    requires FindNewline(text) == Some(i)
    ensures Lines(text) == [StripCr(text[..i])] + Lines(text[i + 1..])
  {
  }

  lemma LinesOfNothing()
    ensures Lines([]) == []
  {
  }

  /** Lines of text that is cut after a newline. */
  lemma {:induction false} LinesConcat(p: string, q: string)
    requires Terminated(p)
    ensures Lines(p + q) == Lines(p) + Lines(q)
    decreases |p|
  {
    hide Lines, FindNewline, StripCr;
    if p == [] {
      LinesOfNothing();
      assert p + q == q;
    } else {
      TerminatedHasNewline(p);
      FindNewlineAppend(p, q);
      var i := FindNewline(p).value;
      var rest := p[i + 1..];
      assert (p + q)[i + 1..] == rest + q;
      assert (p + q)[..i] == p[..i];
      LinesFirst(p, i);
      LinesFirst(p + q, i);
      LinesConcat(rest, q);
    }
  }

  lemma OneLine(line: string)
    requires '\n' !in line
    ensures Lines(line + "\n") == [StripCr(line)]
  {
  }

  lemma {:induction false} CompletePartOf(p: string, buf: string)
    requires Terminated(p) && '\n' !in buf
    ensures CompletePart(p + buf) == p
    decreases |p|
  {
    if p == [] {
      assert p + buf == buf;
    } else {
      TerminatedHasNewline(p);
      FindNewlineAppend(p, buf);
      var i := FindNewline(p).value;
      assert (p + buf)[i + 1..] == p[i + 1..] + buf;
      assert (p + buf)[..i + 1] == p[..i + 1];
      CompletePartOf(p[i + 1..], buf);
      assert p == p[..i + 1] + p[i + 1..];
    }
  }

  lemma TrimStripCr(line: string)
    ensures Trim(StripCr(line)) == Trim(line)
  {
    if line != [] && line[|line| - 1] == '\r' {
      var s := line[..|line| - 1];
      assert line == s + ['\r'];
      TrimIgnoresTrailing(s, '\r');
    }
  }

  // ---- The incremental reader ----

  /** One item of the byte stream: text, or a read error. */
  datatype Piece = Arrived(text: string) | Broken(error: string)

  /** The text that arrived before the first read error. */
  function Received(pieces: seq<Piece>): string {
    if pieces == [] || pieces[0].Broken? then [] else pieces[0].text + Received(pieces[1..])
  }

  function BrokenWith(pieces: seq<Piece>): Option<string> {
    if pieces == [] then None
    else if pieces[0].Broken? then Some(pieces[0].error)
    else BrokenWith(pieces[1..])
  }

  lemma {:induction false} ReceivedAppend(pieces: seq<Piece>, k: nat)
    requires k < |pieces| && BrokenWith(pieces[..k]).None?
    ensures pieces[k].Arrived? ==>
              Received(pieces[..k + 1]) == Received(pieces[..k]) + pieces[k].text && BrokenWith(pieces[..k + 1]).None?
    ensures pieces[k].Broken? ==>
              Received(pieces) == Received(pieces[..k]) && BrokenWith(pieces) == Some(pieces[k].error)
    ensures Received(pieces[..k]) <= Received(pieces)
  {
    if k == 0 {
      assert pieces[..1][1..] == [];
    } else {
      assert pieces[..k][1..] == pieces[1..][..k - 1];
      assert pieces[..k + 1][1..] == pieces[1..][..k];
      ReceivedAppend(pieces[1..], k - 1);
    }
  }

  /** What the incremental reader should return: the whole-text assembly of the complete lines. */
  function IncrementalOutcome(pieces: seq<Piece>, parse: Parser): Outcome {
    var p := AbsorbLines(Reading(START), Lines(CompletePart(Received(pieces))), parse);
    if p.Reading? && BrokenWith(pieces).Some? then ReadFailed(BrokenWith(pieces).value) else Finish(p)
  }

  /** Unless reading failed, the outcome is the one that the events of the complete lines call for. */
  predicate IncrementalExplained(outcome: Outcome, pieces: seq<Piece>, parse: Parser) {
    !outcome.ReadFailed? ==> Explains(outcome, LinesEvents(Lines(CompletePart(Received(pieces))), parse))
  }

  lemma IncrementalOutcomeExplained(pieces: seq<Piece>, parse: Parser)
    ensures IncrementalExplained(IncrementalOutcome(pieces, parse), pieces, parse)
  {
    hide AbsorbLines, Lines, CompletePart, Finish, LinesEvents, Explains;
    OutcomeExplained(Lines(CompletePart(Received(pieces))), parse);
  }

  /** The reasoning text on one line. */
  function ChoicesReasoning(choices: seq<Choice>): string {
    if choices == [] then ""
    else
      ChoicesReasoning(choices[..|choices| - 1]) +
      var d := choices[|choices| - 1].delta;
      if d.Some? then OrEmpty(d.value.reasoning) else ""
  }

  function LineReasoning(line: string, parse: Parser): string {
    match LineEvent(line, parse)
    case Some((e, _)) => if !e.error && e.choices.Some? then ChoicesReasoning(e.choices.value) else ""
    case None => ""
  }

  /** All reasoning up to the line that failed, if any. */
  function LinesReasoning(lines: seq<string>, parse: Parser): string {
    if lines == [] then "" else LinesReasoning(lines[..|lines| - 1], parse) + LineReasoning(lines[|lines| - 1], parse)
  }

  lemma ReasoningOneMore(lines: seq<string>, line: string, parse: Parser)
    ensures LinesReasoning(lines + [line], parse) == LinesReasoning(lines, parse) + LineReasoning(line, parse)
  {
  }

  method CollectReasoning(choices: seq<Choice>) returns (reasoning: string)
    ensures reasoning == ChoicesReasoning(choices)
  {
    reasoning := "";
    for k := 0 to |choices|
      invariant reasoning == ChoicesReasoning(choices[..k])
    {
      var d := choices[k].delta;
      if d.Some? && d.value.reasoning.Some? {
        reasoning := reasoning + d.value.reasoning.value;
      }
      assert choices[..k + 1][..k] == choices[..k];
      assert ChoicesReasoning(choices[..k]) + "" == ChoicesReasoning(choices[..k]);
    }
    assert choices[..|choices|] == choices;
  }

  /** One complete line of the incremental reader: its effect on the response and on the reasoning. */
  method ProcessLine(acc: Acc, raw: string, parse: Parser, reasoning: string) returns (p: Progress, more: string)
    ensures p == AbsorbLine(acc, StripCr(raw), parse)
    ensures more == reasoning + LineReasoning(StripCr(raw), parse)
  {
    hide AbsorbEvent, ChoicesReasoning;
    TrimStripCr(raw);
    var line := Trim(raw);
    assert reasoning + "" == reasoning;
    if !(PREFIX <= line) {
      return Reading(acc), reasoning;
    }
    var data := line[|PREFIX|..];
    if Trim(data) == "[DONE]" {
      return Reading(acc), reasoning;
    }
    var event := parse(data);
    if event.None? {
      return Reading(acc), reasoning;
    }
    p := AbsorbEventLoop(acc, event.value, data);
    more := reasoning;
    if !event.value.error && event.value.choices.Some? {
      var said := CollectReasoning(event.value.choices.value);
      more := more + said;
    }
  }

  /**
   * How far the incremental reader has come: `done` is the text of the lines it has consumed,
   * `buf` the rest of what it has received.
   */
  ghost predicate Consumed(received: string, done: string, buf: string, p: Progress, reasoning: string, parse: Parser) {
    && received == done + buf
    && Terminated(done)
    && p == AbsorbLines(Reading(START), Lines(done), parse)
    && reasoning == LinesReasoning(Lines(done), parse)
  }

  lemma ConsumeLine(received: string, done: string, buf: string, i: nat, acc: Acc, reasoning: string, parse: Parser)
    requires Consumed(received, done, buf, Reading(acc), reasoning, parse)
    requires FindNewline(buf) == Some(i)
    ensures var line := StripCr(buf[..i]);
            Consumed(received, done + buf[..i + 1], buf[i + 1..], AbsorbLine(acc, line, parse),
                     reasoning + LineReasoning(line, parse), parse)
  {
    hide AbsorbLine, LineReasoning, AbsorbLines, Lines, LinesReasoning, FindNewline, StripCr;
    var line := buf[..i];
    assert buf[..i + 1] == line + "\n";
    LinesConcat(done, line + "\n");
    OneLine(line);
    AbsorbOneMore(Reading(START), Lines(done), StripCr(line), parse);
    ReasoningOneMore(Lines(done), StripCr(line), parse);
    assert buf == buf[..i + 1] + buf[i + 1..];
    assert done + buf == done + buf[..i + 1] + buf[i + 1..];
  }

  /** The inner loop: consume every complete line of the buffer, stopping at an error event. */
  method DrainBuffer(ghost received: string, ghost done: string, start: string, acc: Acc, said: string, parse: Parser)
      returns (ghost done': string, buf: string, p: Progress, reasoning: string)
    requires Consumed(received, done, start, Reading(acc), said, parse)
    ensures Consumed(received, done', buf, p, reasoning, parse)
    ensures p.Reading? ==> '\n' !in buf
  {
    hide AbsorbLine, LineReasoning, Consumed;
    done', buf, p, reasoning := done, start, Reading(acc), said;
    while true
      invariant Consumed(received, done', buf, p, reasoning, parse)
      invariant p.Reading?
      decreases |buf|
    {
      var newline := FindNewline(buf);
      if newline.None? {
        return;
      }
      var i := newline.value;
      ConsumeLine(received, done', buf, i, p.acc, reasoning, parse);
      p, reasoning := ProcessLine(p.acc, buf[..i], parse, reasoning);
      done', buf := done' + buf[..i + 1], buf[i + 1..];
      if p.Failed? {
        return;
      }
    }
  }

  /** A failure among the lines consumed so far is the failure of all complete lines. */
  lemma FailedEarly(all: string, received: string, done: string, buf: string, p: Progress, reasoning: string, parse: Parser)
    requires Consumed(received, done, buf, p, reasoning, parse) && p.Failed?
    requires received <= all
    ensures AbsorbLines(Reading(START), Lines(CompletePart(all)), parse) == p
  {
    hide AbsorbLines, LinesReasoning, Lines, CompletePart;
    PrefixOfComplete(all, done);
    var rest := CompletePart(all)[|done|..];
    LinesConcat(done, rest);
    assert CompletePart(all) == done + rest;
    var lines := Lines(CompletePart(all));
    assert lines[..|Lines(done)|] == Lines(done);
    FailureStays(Reading(START), lines, |Lines(done)|, parse);
  }

  /** Terminated text is a prefix of all complete lines: nothing after those contains a newline. */
  lemma PrefixOfComplete(all: string, done: string)
    requires done <= all && Terminated(done)
    ensures done <= CompletePart(all)
  {
  }

  /**
   * The incremental reader of chat_completion_streaming_with_attempts. However the text is cut
   * into pieces, it returns what the whole-text assembly returns on the complete lines.
   */
  method ReadIncrementally(pieces: seq<Piece>, parse: Parser) returns (outcome: Outcome, reasoning: string)
    ensures outcome == IncrementalOutcome(pieces, parse)
    ensures BrokenWith(pieces).None? ==> outcome == Assembly(CompletePart(Received(pieces)), parse)
    ensures IncrementalExplained(outcome, pieces, parse)
    ensures outcome.Assembled? || outcome.NoData? ==>
              reasoning == LinesReasoning(Lines(CompletePart(Received(pieces))), parse)
  {
    hide AbsorbLines, LinesReasoning, Lines, CompletePart, Finish, IncrementalExplained;
    IncrementalOutcomeExplained(pieces, parse);
    var buf, p := "", Reading(START);
    ghost var done := "";
    reasoning := "";
    NothingConsumed(parse);
    for k := 0 to |pieces|
      invariant BrokenWith(pieces[..k]).None?
      invariant Consumed(Received(pieces[..k]), done, buf, p, reasoning, parse)
      invariant p.Reading? && '\n' !in buf
    {
      ReceivedAppend(pieces, k);
      if pieces[k].Broken? {
        CompletePartOf(done, buf);
        return ReadFailed(pieces[k].error), reasoning;
      }
      buf := buf + pieces[k].text;
      assert done + buf == Received(pieces[..k + 1]);
      done, buf, p, reasoning := DrainBuffer(Received(pieces[..k + 1]), done, buf, p.acc, reasoning, parse);
      if p.Failed? {
        if k + 1 < |pieces| {
          ReceivedAppend(pieces, k + 1);
        } else {
          assert pieces[..k + 1] == pieces;
        }
        FailedEarly(Received(pieces), Received(pieces[..k + 1]), done, buf, p, reasoning, parse);
        FailedOutcome(p);
        return StreamError(p.data), reasoning;
      }
    }
    assert pieces[..|pieces|] == pieces;
    CompletePartOf(done, buf);
    FinishedOutcome(p.acc);
    outcome := Finish(p);
  }

  lemma NothingConsumed(parse: Parser)
    ensures Consumed("", "", "", Reading(START), "", parse)
  {
  }

  lemma FailedOutcome(p: Progress)
    requires p.Failed?
    ensures Finish(p) == StreamError(p.data)
  {
  }

  lemma FinishedOutcome(acc: Acc)
    ensures !Finish(Reading(acc)).ReadFailed? && !Finish(Reading(acc)).StreamError?
  {
  }

  // ---- What a response carries, in terms of the events of the stream ----

  /** The events of the lines, in order. */
  function LinesEvents(lines: seq<string>, parse: Parser): seq<Event> {
    if lines == [] then []
    else
      LinesEvents(lines[..|lines| - 1], parse) +
      match LineEvent(lines[|lines| - 1], parse)
      case None => []
      case Some((e, _)) => [e]
  }

  function EventChoices(e: Event): seq<Choice> {
    if e.choices.Some? then e.choices.value else []
  }

  /** The choices of all events, in order. */
  function AllChoices(events: seq<Event>): seq<Choice> {
    if events == [] then [] else AllChoices(events[..|events| - 1]) + EventChoices(events[|events| - 1])
  }

  function DeltaContent(c: Choice): Option<string> {
    if c.delta.Some? then c.delta.value.content else None
  }

  function DeltaRole(c: Choice): Option<string> {
    if c.delta.Some? then c.delta.value.role else None
  }

  function Contents(cs: seq<Choice>): seq<Option<string>> {
    seq(|cs|, i requires 0 <= i < |cs| => DeltaContent(cs[i]))
  }

  function Roles(cs: seq<Choice>): seq<Option<string>> {
    seq(|cs|, i requires 0 <= i < |cs| => DeltaRole(cs[i]))
  }

  function FinishReasons(cs: seq<Choice>): seq<Option<string>> {
    seq(|cs|, i requires 0 <= i < |cs| => cs[i].finishReason)
  }

  function EventIds(events: seq<Event>): seq<Option<string>> {
    seq(|events|, i requires 0 <= i < |events| => events[i].id)
  }

  function EventModels(events: seq<Event>): seq<Option<string>> {
    seq(|events|, i requires 0 <= i < |events| => events[i].model)
  }

  function Figure(u: Option<Usage>, which: UsageFigure): Option<i64> {
    match u
    case None => None
    case Some(usage) =>
      match which
      case Prompt => usage.prompt
      case Completion => usage.completion
      case Total => usage.total
  }

  datatype UsageFigure = Prompt | Completion | Total

  function Figures(events: seq<Event>, which: UsageFigure): seq<Option<i64>> {
    seq(|events|, i requires 0 <= i < |events| => Figure(events[i].usage, which))
  }

  function LastSome<T>(values: seq<Option<T>>): Option<T> {
    if values == [] then None
    else if values[|values| - 1].Some? then values[|values| - 1]
    else LastSome(values[..|values| - 1])
  }

  predicate NoneAfter<T>(values: seq<Option<T>>, i: nat) {
    forall j | i < j < |values| :: values[j].None?
  }

  /** The last value that is present, or nothing if none is. */
  lemma {:induction false} LastSomeMeaning<T>(values: seq<Option<T>>)
    ensures LastSome(values).None? <==> forall v | v in values :: v.None?
    ensures LastSome(values).Some? ==> exists i | 0 <= i < |values| :: values[i] == LastSome(values) && NoneAfter(values, i)
  {
    if values != [] {
      var n := |values| - 1;
      LastSomeMeaning(values[..n]);
      assert values == values[..n] + [values[n]];
      if values[n].Some? {
        assert NoneAfter(values, n);
      } else if LastSome(values).Some? {
        var i :| 0 <= i < n && values[..n][i] == LastSome(values) && NoneAfter(values[..n], i);
        assert forall j | i < j < n :: values[j] == values[..n][j];
        assert NoneAfter(values, i);
      }
    }
  }

  function OrZero(n: Option<i64>): i64 {
    if n.Some? then n.value else 0
  }

  /** Content pieces joined; role and finish reason as last given; all tool-call deltas folded. */
  predicate CarriesChoices(acc: Acc, cs: seq<Choice>) {
    && acc.content == Joined(Contents(cs))
    && acc.role == LastPresent(Roles(cs), "assistant")
    && acc.finishReason == LastSome(FinishReasons(cs))
    && acc.calls == FoldDeltas(map[], ChoicesDeltas(cs))
  }

  /** First non-empty id and model; every usage figure as last given. */
  predicate CarriesHeader(acc: Acc, events: seq<Event>) {
    && acc.hasData == (events != [])
    && acc.id == FirstNonEmpty(EventIds(events)) && acc.model == FirstNonEmpty(EventModels(events))
    && acc.prompt == OrZero(LastSome(Figures(events, Prompt)))
    && acc.completion == OrZero(LastSome(Figures(events, Completion)))
    && acc.total == OrZero(LastSome(Figures(events, Total)))
  }

  lemma ContentAdded(cs: seq<Choice>, c: Choice)
    ensures Joined(Contents(cs + [c])) == Joined(Contents(cs)) + OrEmpty(DeltaContent(c))
  {
    hide Joined;
    assert Contents(cs + [c]) == Contents(cs) + [DeltaContent(c)];
    JoinedAppend(Contents(cs), DeltaContent(c));
  }

  lemma RoleAdded(cs: seq<Choice>, c: Choice, default: string)
    ensures LastPresent(Roles(cs + [c]), default) ==
            if DeltaRole(c).Some? then DeltaRole(c).value else LastPresent(Roles(cs), default)
  {
    assert Roles(cs + [c]) == Roles(cs) + [DeltaRole(c)];
    assert (Roles(cs) + [DeltaRole(c)])[..|cs|] == Roles(cs);
  }

  lemma FinishAdded(cs: seq<Choice>, c: Choice)
    ensures LastSome(FinishReasons(cs + [c])) ==
            if c.finishReason.Some? then c.finishReason else LastSome(FinishReasons(cs))
  {
    assert FinishReasons(cs + [c]) == FinishReasons(cs) + [c.finishReason];
    assert (FinishReasons(cs) + [c.finishReason])[..|cs|] == FinishReasons(cs);
  }

  lemma CallsAdded(cs: seq<Choice>, c: Choice)
    ensures FoldDeltas(map[], ChoicesDeltas(cs + [c])) ==
            FoldDeltas(FoldDeltas(map[], ChoicesDeltas(cs)),
                       if c.delta.Some? && c.delta.value.toolCalls.Some? then c.delta.value.toolCalls.value else [])
  {
    hide FoldDeltas;
    assert (cs + [c])[..|cs|] == cs;
    var tail := if c.delta.Some? && c.delta.value.toolCalls.Some? then c.delta.value.toolCalls.value else [];
    FoldDeltasConcat(map[], ChoicesDeltas(cs), tail);
  }

  lemma FoldNothing(calls: Calls)
    ensures FoldDeltas(calls, []) == calls
  {
  }

  lemma ChoiceCarried(acc: Acc, cs: seq<Choice>, c: Choice)
    requires CarriesChoices(acc, cs)
    ensures CarriesChoices(AbsorbChoice(acc, c), cs + [c])
  {
    hide FoldDeltas, Joined, LastPresent, LastSome, Contents, Roles, FinishReasons, ChoicesDeltas;
    CallsAdded(cs, c);
    FoldNothing(acc.calls);
    ContentAdded(cs, c);
    RoleAdded(cs, c, "assistant");
    FinishAdded(cs, c);
    assert acc.content + "" == acc.content;
  }

  lemma {:induction false} ChoicesCarried(acc: Acc, cs: seq<Choice>, more: seq<Choice>)
    requires CarriesChoices(acc, cs)
    ensures CarriesChoices(AbsorbChoices(acc, more), cs + more)
  {
    hide CarriesChoices, AbsorbChoice;
    if more == [] {
      assert cs + more == cs;
    } else {
      var n := |more| - 1;
      ChoicesCarried(acc, cs, more[..n]);
      ChoiceCarried(AbsorbChoices(acc, more[..n]), cs + more[..n], more[n]);
      assert cs + more == cs + more[..n] + [more[n]];
    }
  }

  predicate SameHeader(a: Acc, b: Acc) {
    && a.hasData == b.hasData && a.id == b.id && a.model == b.model
    && a.prompt == b.prompt && a.completion == b.completion && a.total == b.total
  }

  lemma {:induction false} ChoicesKeepHeader(acc: Acc, choices: seq<Choice>)
    ensures SameHeader(AbsorbChoices(acc, choices), acc)
  {
    hide FoldDeltas;
    if choices != [] {
      ChoicesKeepHeader(acc, choices[..|choices| - 1]);
    }
  }

  /** The effect of an event before its choices are looked at. */
  function AbsorbHeader(acc: Acc, e: Event): Acc {
    var a := AbsorbUsage(acc.(hasData := true), e.usage);
    a.(id := if a.id == "" then OrEmpty(e.id) else a.id, model := if a.model == "" then OrEmpty(e.model) else a.model)
  }

  lemma HeaderCarried(acc: Acc, events: seq<Event>, e: Event)
    requires CarriesHeader(acc, events)
    ensures CarriesHeader(AbsorbHeader(acc, e), events + [e])
  {
    var more := events + [e];
    assert EventIds(more) == EventIds(events) + [e.id];
    assert EventModels(more) == EventModels(events) + [e.model];
    FirstNonEmptyAppend(EventIds(events), e.id);
    FirstNonEmptyAppend(EventModels(events), e.model);
    forall which ensures LastSome(Figures(more, which)) ==
                         if Figure(e.usage, which).Some? then Figure(e.usage, which) else LastSome(Figures(events, which))
    {
      FigureAdded(events, e, which);
    }
  }

  lemma FigureAdded(events: seq<Event>, e: Event, which: UsageFigure)
    ensures LastSome(Figures(events + [e], which)) ==
            if Figure(e.usage, which).Some? then Figure(e.usage, which) else LastSome(Figures(events, which))
  {
    var figures := Figures(events, which);
    assert Figures(events + [e], which) == figures + [Figure(e.usage, which)];
    assert (figures + [Figure(e.usage, which)])[..|figures|] == figures;
  }

  lemma EventCarried(acc: Acc, events: seq<Event>, e: Event, data: string)
    requires !e.error && CarriesHeader(acc, events) && CarriesChoices(acc, AllChoices(events))
    ensures AbsorbEvent(acc, e, data).Reading?
    ensures CarriesHeader(AbsorbEvent(acc, e, data).acc, events + [e])
    ensures CarriesChoices(AbsorbEvent(acc, e, data).acc, AllChoices(events + [e]))
  {
    assert (events + [e])[..|events|] == events;
    HeaderCarried(acc, events, e);
    var a := AbsorbHeader(acc, e);
    hide FirstNonEmpty, LastSome, Joined, LastPresent, FoldDeltas, AbsorbChoice;
    ChoicesCarried(a, AllChoices(events), EventChoices(e));
    ChoicesKeepHeader(a, EventChoices(e));
  }

  /** Some event of the stream reports an error. */
  predicate ReportsError(events: seq<Event>) {
    exists e | e in events :: e.error
  }

  /** The fold fails exactly on an error event, and otherwise carries what the events say. */
  lemma {:induction false} StreamCarried(lines: seq<string>, parse: Parser)
    ensures var p, events := AbsorbLines(Reading(START), lines, parse), LinesEvents(lines, parse);
            && (p.Failed? <==> ReportsError(events))
            && (p.Reading? ==> CarriesHeader(p.acc, events) && CarriesChoices(p.acc, AllChoices(events)))
  {
    if lines != [] {
      hide LineEvent, CarriesHeader, CarriesChoices, AllChoices, AbsorbEvent;
      var n := |lines| - 1;
      StreamCarried(lines[..n], parse);
      var before, events := AbsorbLines(Reading(START), lines[..n], parse), LinesEvents(lines[..n], parse);
      match LineEvent(lines[n], parse) {
        case None =>
          assert LinesEvents(lines, parse) == events;
        case Some((e, data)) =>
          assert LinesEvents(lines, parse) == events + [e];
          if before.Reading? {
            ErrorEventData(before.acc, e, data);
            if !e.error {
              EventCarried(before.acc, events, e, data);
            }
          }
      }
    }
  }

  /** Line i carries the first error event, with this data. */
  predicate FirstError(lines: seq<string>, parse: Parser, i: nat, data: string) {
    && i < |lines| && LineEvent(lines[i], parse).Some?
    && LineEvent(lines[i], parse).value.0.error && LineEvent(lines[i], parse).value.1 == data
    && !ReportsError(LinesEvents(lines[..i], parse))
  }

  /** A failed assembly reports the data of the first error event. */
  lemma {:induction false} ErrorNamed(lines: seq<string>, parse: Parser) returns (i: nat)
    requires AbsorbLines(Reading(START), lines, parse).Failed?
    ensures FirstError(lines, parse, i, AbsorbLines(Reading(START), lines, parse).data)
  {
    hide LineEvent, LinesEvents, AbsorbEvent;
    i := |lines| - 1;
    StreamCarried(lines[..i], parse);
    if AbsorbLines(Reading(START), lines[..i], parse).Failed? {
      var n := i;
      i := ErrorNamed(lines[..n], parse);
      assert lines[..n][..i] == lines[..i];
    } else {
      var e := LineEvent(lines[i], parse);
      ErrorEventData(AbsorbLines(Reading(START), lines[..i], parse).acc, e.value.0, e.value.1);
    }
  }

  lemma ErrorEventData(acc: Acc, e: Event, data: string)
    ensures AbsorbEvent(acc, e, data) == Failed(data) <==> e.error
    ensures AbsorbEvent(acc, e, data).Failed? <==> e.error
  {
  }

  /** What a response says about the events it was assembled from. */
  predicate Describes(r: Response, events: seq<Event>) {
    var cs := AllChoices(events);
    && r.content == CleanContent(Joined(Contents(cs)))
    && r.role == LastPresent(Roles(cs), "assistant")
    && r.finishReason == LastSome(FinishReasons(cs))
    && r.toolCalls == Ordered(FoldDeltas(map[], ChoicesDeltas(cs)))
    && r.id == (if FirstNonEmpty(EventIds(events)) == "" then "chatcmpl-stream" else FirstNonEmpty(EventIds(events)))
    && r.model == (if FirstNonEmpty(EventModels(events)) == "" then "unknown" else FirstNonEmpty(EventModels(events)))
    && r.prompt == OrZero(LastSome(Figures(events, Prompt)))
    && r.completion == OrZero(LastSome(Figures(events, Completion)))
    && r.total == OrZero(LastSome(Figures(events, Total)))
  }

  /** Which outcome the events call for. */
  predicate Explains(outcome: Outcome, events: seq<Event>) {
    match outcome
    case Assembled(r) => events != [] && !ReportsError(events) && Describes(r, events)
    case StreamError(_) => ReportsError(events)
    case NoData => events == []
    case ReadFailed(_) => false
  }

  /** The outcome is the one the events call for, with the content, role, usage, id and model they give. */
  lemma OutcomeExplained(lines: seq<string>, parse: Parser)
    ensures Explains(Finish(AbsorbLines(Reading(START), lines, parse)), LinesEvents(lines, parse))
  {
    hide CleanContent, Joined, LastPresent, FirstNonEmpty, LastSome, AllChoices, Ordered, AbsorbLines, LinesEvents,
      ChoicesDeltas, FoldDeltas;
    StreamCarried(lines, parse);
  }

  /** The kept content has no blanks around it and stops before a leaked marker. */
  lemma CleanContentMeaning(content: string)
    ensures var clean := CleanContent(content);
            && (clean.Some? ==> clean.value != "" && Trimmed(clean.value) && Find(clean.value, TOOL_MARKER).None?)
            && (clean.None? ==> exists n | 0 <= n <= |content| ::
                                  Blank(content[..n]) && (n == |content| || TOOL_MARKER <= content[n..]))
  {
    hide Trim, Find, Blank, Trimmed;
    var cut := Find(content, TOOL_MARKER);
    var n := if cut.Some? then cut.value else |content|;
    assert content[..|content|] == content;
    var i, j := TrimMeaning(content[..n]);
    var kept := Trim(content[..n]);
    if m :| Find(kept, TOOL_MARKER) == Some(m) {
      PartOccurs(content, n, i, j, m);
    }
    if kept == "" {
      assert i == j;
      BlankParts(content[..n], i);
      assert content[..n][..i] == content[..i];
    }
  }

  lemma BlankParts(s: string, i: nat)
    requires i <= |s| && Blank(s[..i]) && Blank(s[i..])
    ensures Blank(s)
  {
    hide IsWhitespace;
    assert s == s[..i] + s[i..];
  }

  lemma PartOccurs(content: string, n: nat, i: nat, j: nat, m: nat)
    requires n <= |content| && i <= j <= n
    requires m <= j - i && TOOL_MARKER <= content[..n][i..j][m..]
    ensures i + m + |TOOL_MARKER| <= n && TOOL_MARKER <= content[i + m..]
  {
    assert content[..n][i..j][m..] == content[i + m..j];
    assert content[i + m..][..|TOOL_MARKER|] == content[i + m..j][..|TOOL_MARKER|];
  }

  // ---- A stream as a server writes it ----

  /** One event as a data line followed by an empty line. */
  function Framed(data: string): string {
    PREFIX + data + "\n\n"
  }

  function Stream(datas: seq<string>): string {
    if datas == [] then "" else Stream(datas[..|datas| - 1]) + Framed(datas[|datas| - 1])
  }

  /** JSON text on one line. */
  predicate OnOneLine(data: string) {
    data != "" && Trimmed(data) && '\n' !in data && data != "[DONE]"
  }

  function ParsedAll(datas: seq<string>, parse: Parser): seq<Event> {
    if datas == [] then []
    else
      ParsedAll(datas[..|datas| - 1], parse) +
      match parse(datas[|datas| - 1])
      case None => []
      case Some(e) => [e]
  }

  lemma {:induction false} LinesEventsConcat(a: seq<string>, b: seq<string>, parse: Parser)
    ensures LinesEvents(a + b, parse) == LinesEvents(a, parse) + LinesEvents(b, parse)
  {
    hide LineEvent;
    if b == [] {
      assert a + b == a;
    } else {
      var n := |b| - 1;
      assert (a + b)[..|a + b| - 1] == a + b[..n];
      LinesEventsConcat(a, b[..n], parse);
    }
  }

  lemma DataLine(data: string, parse: Parser)
    requires OnOneLine(data)
    ensures StripCr(PREFIX + data) == PREFIX + data
    ensures LineEvent(PREFIX + data, parse) == match parse(data) case None => None case Some(e) => Some((e, data))
  {
    var line := PREFIX + data;
    assert line[|line| - 1] == data[|data| - 1];
    assert Trimmed(line);
    TrimUnchanged(line);
    TrimUnchanged(data);
    assert line[|PREFIX|..] == data;
    hide Trim;
  }

  lemma FramedLines(data: string)
    requires OnOneLine(data)
    ensures Lines(Framed(data)) == [PREFIX + data, ""]
  {
    hide Lines, Trimmed, StripCr;
    var line := PREFIX + data;
    assert Framed(data) == (line + "\n") + "\n";
    LinesConcat(line + "\n", "\n");
    OneLine(line);
    OneLine("");
    assert "" + "\n" == "\n";
    DataLine(data, _ => None);
    assert StripCr("") == "" by {
      EmptyLine();
    }
  }

  lemma EmptyLine()
    ensures StripCr("") == ""
  {
  }

  lemma FramedEvents(data: string, parse: Parser)
    requires OnOneLine(data)
    ensures LinesEvents([PREFIX + data, ""], parse) == match parse(data) case None => [] case Some(e) => [e]
  {
    var lines := [PREFIX + data, ""];
    DataLine(data, parse);
    assert lines[..1] == [PREFIX + data] && lines[..1][..0] == [];
    assert LineEvent("", parse) == None;
    hide LineEvent;
    assert LinesEvents(lines[..1][..0], parse) == [];
    assert LinesEvents(lines[..1], parse) == match parse(data) case None => [] case Some(e) => [e];
  }

  /** Whatever a server writes event by event is read back as exactly those events, in order. */
  lemma {:induction false} StreamReadBack(datas: seq<string>, parse: Parser)
    requires forall d | d in datas :: OnOneLine(d)
    ensures Terminated(Stream(datas))
    ensures LinesEvents(Lines(Stream(datas)), parse) == ParsedAll(datas, parse)
  {
    hide Lines, LinesEvents, OnOneLine;
    if datas == [] {
      LinesOfNothing();
      NoLinesNoEvents(parse);
    } else {
      var n := |datas| - 1;
      StreamReadBack(datas[..n], parse);
      LinesConcat(Stream(datas[..n]), Framed(datas[n]));
      FramedLines(datas[n]);
      FramedEvents(datas[n], parse);
      LinesEventsConcat(Lines(Stream(datas[..n])), Lines(Framed(datas[n])), parse);
    }
  }

  lemma NoLinesNoEvents(parse: Parser)
    ensures LinesEvents([], parse) == []
  {
  }

  // ---- Reasoning never shows in the response ----

  function Quiet(e: Event): Event {
    if e.choices.None? then e else e.(choices := Some(QuietChoices(e.choices.value)))
  }

  function QuietChoice(c: Choice): Choice {
    if c.delta.None? then c else c.(delta := Some(c.delta.value.(reasoning := None)))
  }

  function QuietChoices(choices: seq<Choice>): (quiet: seq<Choice>)
    ensures |quiet| == |choices|
  {
    if choices == [] then [] else QuietChoices(choices[..|choices| - 1]) + [QuietChoice(choices[|choices| - 1])]
  }

  /** The parsers read the same events up to their reasoning. */
  ghost predicate SameButReasoning(p: Parser, q: Parser) {
    forall data :: match (p(data), q(data))
      case (None, None) => true
      case (Some(d), Some(e)) => Quiet(d) == Quiet(e)
      case _ => false
  }

  lemma {:induction false} QuietAbsorb(acc: Acc, choices: seq<Choice>)
    ensures AbsorbChoices(acc, QuietChoices(choices)) == AbsorbChoices(acc, choices)
  {
    if choices != [] {
      var n := |choices| - 1;
      QuietAbsorb(acc, choices[..n]);
      assert QuietChoices(choices)[..n] == QuietChoices(choices[..n]);
      hide FoldDeltas;
    }
  }

  lemma QuietEvent(acc: Acc, e: Event, data: string)
    ensures AbsorbEvent(acc, Quiet(e), data) == AbsorbEvent(acc, e, data)
  {
    if e.choices.Some? {
      var a := AbsorbUsage(acc.(hasData := true), e.usage);
      var b := a.(id := if a.id == "" then OrEmpty(e.id) else a.id,
                  model := if a.model == "" then OrEmpty(e.model) else a.model);
      QuietAbsorb(b, e.choices.value);
      hide AbsorbChoices, QuietChoices;
    }
  }

  lemma {:induction false} QuietLines(s: Progress, lines: seq<string>, p: Parser, q: Parser)
    requires SameButReasoning(p, q)
    ensures AbsorbLines(s, lines, p) == AbsorbLines(s, lines, q)
  {
    if lines != [] {
      var n := |lines| - 1;
      QuietLines(s, lines[..n], p, q);
      var before := AbsorbLines(s, lines[..n], p);
      if before.Reading? {
        QuietLine(before.acc, lines[n], p, q);
      }
      hide AbsorbLine;
    }
  }

  lemma QuietLine(acc: Acc, line: string, p: Parser, q: Parser)
    requires SameButReasoning(p, q)
    ensures AbsorbLine(acc, line, p) == AbsorbLine(acc, line, q)
  {
    hide AbsorbEvent, Quiet, Trim;
    var t := Trim(line);
    if PREFIX <= t {
      var data := t[|PREFIX|..];
      if p(data).Some? && q(data).Some? {
        QuietEvent(acc, p(data).value, data);
        QuietEvent(acc, q(data).value, data);
      }
    }
  }

  /** Streams that differ only in their reasoning deltas assemble to the same outcome. */
  lemma ReasoningIrrelevant(text: string, p: Parser, q: Parser)
    requires SameButReasoning(p, q)
    ensures Assembly(text, p) == Assembly(text, q)
  {
    QuietLines(Reading(START), Lines(text), p, q);
  }

  // ---- The tool calls of a whole stream ----

  function ChoicesDeltas(choices: seq<Choice>): seq<ToolDelta> {
    if choices == [] then []
    else
      ChoicesDeltas(choices[..|choices| - 1]) +
      var d := choices[|choices| - 1].delta;
      if d.Some? && d.value.toolCalls.Some? then d.value.toolCalls.value else []
  }

  /** The tool-call deltas of a line, in order. */
  function LineDeltas(line: string, parse: Parser): seq<ToolDelta> {
    match LineEvent(line, parse)
    case Some((e, _)) => if e.choices.Some? then ChoicesDeltas(e.choices.value) else []
    case None => []
  }

  function LinesDeltas(lines: seq<string>, parse: Parser): seq<ToolDelta> {
    if lines == [] then [] else LinesDeltas(lines[..|lines| - 1], parse) + LineDeltas(lines[|lines| - 1], parse)
  }

  lemma {:induction false} ChoicesCalls(acc: Acc, choices: seq<Choice>)
    ensures AbsorbChoices(acc, choices).calls == FoldDeltas(acc.calls, ChoicesDeltas(choices))
  {
    if choices != [] {
      var n := |choices| - 1;
      ChoicesCalls(acc, choices[..n]);
      var d := choices[n].delta;
      var tail := if d.Some? && d.value.toolCalls.Some? then d.value.toolCalls.value else [];
      FoldDeltasConcat(acc.calls, ChoicesDeltas(choices[..n]), tail);
    }
  }

  lemma LineCalls(acc: Acc, line: string, parse: Parser)
    requires AbsorbLine(acc, line, parse).Reading?
    ensures AbsorbLine(acc, line, parse).acc.calls == FoldDeltas(acc.calls, LineDeltas(line, parse))
  {
    hide Trim, AbsorbChoices, ChoicesDeltas;
    match LineEvent(line, parse) {
      case None =>
      case Some((e, data)) =>
        if e.choices.Some? {
          var a := AbsorbUsage(acc.(hasData := true), e.usage);
          var b := a.(id := if a.id == "" then OrEmpty(e.id) else a.id,
                      model := if a.model == "" then OrEmpty(e.model) else a.model);
          ChoicesCalls(b, e.choices.value);
        }
    }
  }

  /** The assembled calls are the fold of all deltas of the stream, so only their order per index matters. */
  lemma {:induction false} StreamCalls(lines: seq<string>, parse: Parser)
    requires AbsorbLines(Reading(START), lines, parse).Reading?
    ensures AbsorbLines(Reading(START), lines, parse).acc.calls == FoldDeltas(map[], LinesDeltas(lines, parse))
  {
    if lines != [] {
      hide AbsorbLine, LineDeltas;
      var n := |lines| - 1;
      StreamCalls(lines[..n], parse);
      var before := AbsorbLines(Reading(START), lines[..n], parse).acc;
      LineCalls(before, lines[n], parse);
      FoldDeltasConcat(map[], LinesDeltas(lines[..n], parse), LineDeltas(lines[n], parse));
    }
  }

  /** Two streams with the same deltas per index yield the same tool calls in their responses. */
  lemma SameCallsPerIndex(a: seq<string>, b: seq<string>, p: Parser, q: Parser)
    requires Finish(AbsorbLines(Reading(START), a, p)).Assembled?
    requires Finish(AbsorbLines(Reading(START), b, q)).Assembled?
    requires forall i :: At(LinesDeltas(a, p), i) == At(LinesDeltas(b, q), i)
    ensures Finish(AbsorbLines(Reading(START), a, p)).response.toolCalls
         == Finish(AbsorbLines(Reading(START), b, q)).response.toolCalls
  {
    hide AbsorbLines, LinesDeltas, FoldDeltas, At, Ordered, CleanContent;
    StreamCalls(a, p);
    StreamCalls(b, q);
    InterleavingIrrelevant(LinesDeltas(a, p), LinesDeltas(b, q));
  }
}
