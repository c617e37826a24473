/** The bounded tool-calling loop: message log, early exits, sticky provider and cost. */
module AgentLoop {
  import opened Common
  import opened Text
  import opened Breaker
  import opened Fallback

  const MAX_ROUNDS: nat := 5

  const TERMINAL_TOOL := "set_reminder"

  const INTERNAL_TOOL_ERROR :=
    "Sorry, we encountered an issue processing your request. Our team has been notified."

  datatype Call = Call(id: string, name: Option<string>, arguments: Option<string>)

  datatype Message =
    | Context(text: string)
    | Assistant(content: string, calls: seq<Call>)
    | Tool(callId: string, content: string)

  datatype FinishReason = Stop | Length | ContentFilter | Null | ToolCallsReason

  datatype Choice = Choice(finish: Option<FinishReason>, content: Option<string>, calls: Option<seq<Call>>)

  /** The choices of one model response. */
  type Response = seq<Choice>

  datatype Dispatched =
    | Answer(answer: string)
    | AnswerWithTask(answer: string, task: int)
    | EarlyReturn(message: string, item: Option<int>, status: nat)
    | SubscriptionRequired(message: string)
    | UnknownTool(message: string)
    | DispatchError(error: string)

  datatype RunError = System(reason: string) | Early(message: string, item: Option<int>, status: nat)

  const INTERNAL_SERVER_ERROR: nat := 500

  function TextOf(s: Option<string>): string {
    if s.Some? then s.value else ""
  }

  // ---- One round of tool calls ----

  /** What the user may see of a tool error. */
  function UserFacing(e: string): string {
    if Contains(e, "plan") || Contains(e, "feature") || Contains(e, "upgrade") || Contains(e, "Autopilot")
    then e else INTERNAL_TOOL_ERROR
  }

  /** The tools of one round: scripted answers by tool name, and the dispatcher's answer per call. */
  datatype Tools = Tools(mocks: Option<map<string, string>>, dispatch: nat -> Dispatched)

  predicate Mocked(tools: Tools, name: string) {
    tools.mocks.Some? && name in tools.mocks.value
  }

  /** The text recorded for call i, if it gets one. */
  function AnswerText(tools: Tools, calls: seq<Call>, i: nat): Option<string>
    requires i < |calls|
  {
    if calls[i].name.None? || calls[i].arguments.None? then None
    else if Mocked(tools, calls[i].name.value) then Some(tools.mocks.value[calls[i].name.value])
    else match tools.dispatch(i)
      case Answer(a) => Some(a)
      case AnswerWithTask(a, _) => Some(a)
      case SubscriptionRequired(m) => Some(m)
      case DispatchError(e) => Some(UserFacing(e))
      case EarlyReturn(_, _, _) => None
      case UnknownTool(_) => None
  }

  /** Call i is answered and ends the run at once. */
  predicate EndsRun(tools: Tools, calls: seq<Call>, i: nat)
    requires i < |calls|
  {
    && AnswerText(tools, calls, i).Some?
    && var name := calls[i].name.value;
    if Mocked(tools, name) || tools.dispatch(i).Answer? || tools.dispatch(i).DispatchError?
    then name == TERMINAL_TOOL
    else tools.dispatch(i).AnswerWithTask?
  }

  /** The item that call i created on the way. */
  function CreatedBy(tools: Tools, calls: seq<Call>, i: nat): Option<int>
    requires i < |calls|
  {
    if calls[i].name.Some? && !Mocked(tools, calls[i].name.value) && tools.dispatch(i).AnswerWithTask?
    then Some(tools.dispatch(i).task) else None
  }

  /** Call i gets no answer and stops the run with this error. */
  predicate RefusedWith(tools: Tools, calls: seq<Call>, i: nat, e: RunError)
    requires i < |calls|
  {
    && AnswerText(tools, calls, i).None?
    && match calls[i].name
       case None => e == System("Tool call missing function name")
       case Some(name) =>
         if calls[i].arguments.None? then e == System("Tool call " + name + " missing arguments")
         else match tools.dispatch(i)
           case EarlyReturn(message, item, status) => e == Early(message, item, status)
           case UnknownTool(message) => e == Early(message, None, INTERNAL_SERVER_ERROR)
           case _ => false
  }

  /** Every one of the first n calls was answered and none ended the run. */
  predicate Passed(tools: Tools, calls: seq<Call>, n: nat)
    requires n <= |calls|
  {
    forall i | 0 <= i < n :: AnswerText(tools, calls, i).Some? && !EndsRun(tools, calls, i)
  }

  /** The last of the first n calls that carries the id. */
  function LastWithId(calls: seq<Call>, n: nat, id: string): Option<nat>
    requires n <= |calls|
  {
    if n == 0 then None
    else if calls[n - 1].id == id then Some(n - 1)
    else LastWithId(calls, n - 1, id)
  }

  predicate AnswerAt(tools: Tools, calls: seq<Call>, n: nat, answers: map<string, string>, id: string)
    requires n <= |calls|
  {
    match LastWithId(calls, n, id)
    case None => id !in answers
    case Some(j) => j < n && id in answers && AnswerText(tools, calls, j) == Some(answers[id])
  }

  /** round_answers after the first n calls: per id, the answer of the last call that carries it. */
  ghost predicate AnswersOf(tools: Tools, calls: seq<Call>, n: nat, answers: map<string, string>)
    requires n <= |calls|
  {
    forall id :: AnswerAt(tools, calls, n, answers, id)
  }

  datatype RoundResult =
    | AllAnswered(answers: map<string, string>)
    | Finished(final: string, answers: map<string, string>, task: Option<int>)
    | Aborted(error: RunError)

  datatype CallResult = Answered(text: string) | EndedBy(text: string, task: Option<int>) | Refused(error: RunError)

  /** The handling of one tool call. */
  method ProcessCall(tools: Tools, calls: seq<Call>, i: nat) returns (r: CallResult)
    requires i < |calls|
    ensures r.Refused? <==> AnswerText(tools, calls, i).None?
    ensures r.EndedBy? <==> EndsRun(tools, calls, i)
    ensures !r.Refused? ==> AnswerText(tools, calls, i) == Some(r.text)
    ensures r.EndedBy? ==> r.task == CreatedBy(tools, calls, i)
    ensures r.Refused? ==> RefusedWith(tools, calls, i, r.error)
  {
    hide UserFacing;
    var call := calls[i];
    if call.name.None? {
      return Refused(System("Tool call missing function name"));
    }
    var name := call.name.value;
    if call.arguments.None? {
      return Refused(System("Tool call " + name + " missing arguments"));
    }
    if Mocked(tools, name) {
      var mock := tools.mocks.value[name];
      return if name == TERMINAL_TOOL then EndedBy(mock, None) else Answered(mock);
    }
    match tools.dispatch(i) {
      case Answer(answer) =>
        r := if name == TERMINAL_TOOL then EndedBy(answer, None) else Answered(answer);
      case AnswerWithTask(answer, task) =>
        r := EndedBy(answer, Some(task));
      case EarlyReturn(message, item, status) =>
        r := Refused(Early(message, item, status));
      case SubscriptionRequired(message) =>
        r := Answered(message);
      case UnknownTool(message) =>
        r := Refused(Early(message, None, INTERNAL_SERVER_ERROR));
      case DispatchError(e) =>
        var shown := UserFacing(e);
        r := if name == TERMINAL_TOOL then EndedBy(shown, None) else Answered(shown);
    }
  }

  lemma AnswersStep(tools: Tools, calls: seq<Call>, i: nat, answers: map<string, string>, text: string)
    requires i < |calls|
    requires AnswersOf(tools, calls, i, answers)
    requires AnswerText(tools, calls, i) == Some(text)
    ensures AnswersOf(tools, calls, i + 1, answers[calls[i].id := text])
  {
    hide AnswerText;
    var more := answers[calls[i].id := text];
    var n := i + 1;
    forall id ensures AnswerAt(tools, calls, n, more, id) {
      assert AnswerAt(tools, calls, i, answers, id);
    }
  }

  /** The run ended at call i with these answers and this created item. */
  ghost predicate EndedAt(tools: Tools, calls: seq<Call>, i: nat, final: string, answers: map<string, string>,
                          task: Option<int>)
  {
    && i < |calls| && Passed(tools, calls, i) && EndsRun(tools, calls, i) && task == CreatedBy(tools, calls, i)
    && AnswersOf(tools, calls, i + 1, answers) && AnswerText(tools, calls, i) == Some(final)
  }

  /** The run was refused at call i. */
  ghost predicate RefusedAt(tools: Tools, calls: seq<Call>, i: nat, e: RunError) {
    i < |calls| && Passed(tools, calls, i) && RefusedWith(tools, calls, i, e)
  }

  /** The loop over the tool calls of one round. */
  method ProcessCalls(tools: Tools, calls: seq<Call>) returns (r: RoundResult)
    ensures r.AllAnswered? ==> Passed(tools, calls, |calls|) && AnswersOf(tools, calls, |calls|, r.answers)
    ensures r.Finished? ==> exists i :: EndedAt(tools, calls, i, r.final, r.answers, r.task)
    ensures r.Aborted? ==> exists i :: RefusedAt(tools, calls, i, r.error)
  {
    hide AnswerText, EndsRun, AnswersOf, CreatedBy, RefusedWith;
    var answers: map<string, string> := map[];
    NoAnswersYet(tools, calls);
    for i := 0 to |calls|
      invariant Passed(tools, calls, i)
      invariant AnswersOf(tools, calls, i, answers)
    {
      var step := ProcessCall(tools, calls, i);
      match step {
        case Refused(e) =>
          assert RefusedAt(tools, calls, i, e);
          return Aborted(e);
        case EndedBy(text, task) =>
          AnswersStep(tools, calls, i, answers, text);
          answers := answers[calls[i].id := text];
          assert EndedAt(tools, calls, i, text, answers, task);
          return Finished(text, answers, task);
        case Answered(text) =>
          AnswersStep(tools, calls, i, answers, text);
          answers := answers[calls[i].id := text];
      }
    }
    r := AllAnswered(answers);
  }

  lemma NoAnswersYet(tools: Tools, calls: seq<Call>)
    ensures AnswersOf(tools, calls, 0, map[])
  {
  }

  // ---- The message log ----

  /** An assistant message with tool calls, one answer per call, and the round's answers by call id. */
  datatype Exchange = Exchange(content: string, calls: seq<Call>, answers: seq<string>, byId: map<string, string>)

  function ToolMessages(calls: seq<Call>, answers: seq<string>): (messages: seq<Message>)
    requires |answers| == |calls|
    ensures |messages| == |calls|
    ensures forall i | 0 <= i < |calls| :: messages[i] == Tool(calls[i].id, answers[i])
  {
    seq(|calls|, i requires 0 <= i < |calls| => Tool(calls[i].id, answers[i]))
  }

  /** Every call is answered, each by the text of the last call with its id. */
  ghost predicate Paired(tools: Tools, x: Exchange) {
    && x.calls != [] && |x.answers| == |x.calls|
    && AnswersOf(tools, x.calls, |x.calls|, x.byId)
    && forall i | 0 <= i < |x.calls| :: AnsweredByLast(tools, x, i)
  }

  predicate AnsweredByLast(tools: Tools, x: Exchange, i: nat)
    requires i < |x.calls| && |x.answers| == |x.calls|
  {
    match LastWithId(x.calls, |x.calls|, x.calls[i].id)
    case None => false
    case Some(j) => j < |x.calls| && AnswerText(tools, x.calls, j) == Some(x.answers[i])
  }

  lemma {:induction false} LastWithIdUnique(calls: seq<Call>, n: nat, i: nat)
    requires i < n <= |calls|
    requires forall j, k | 0 <= j < k < |calls| :: calls[j].id != calls[k].id
    ensures LastWithId(calls, n, calls[i].id) == Some(i)
    decreases n
  {
    if i < n - 1 {
      LastWithIdUnique(calls, n - 1, i);
    }
  }

  /** With distinct ids every call gets its own answer. */
  lemma OwnAnswer(tools: Tools, x: Exchange, i: nat)
    requires Paired(tools, x) && i < |x.calls|
    requires forall j, k | 0 <= j < k < |x.calls| :: x.calls[j].id != x.calls[k].id
    ensures AnswerText(tools, x.calls, i) == Some(x.answers[i])
  {
    hide AnswerText;
    assert AnsweredByLast(tools, x, i);
    LastWithIdUnique(x.calls, |x.calls|, i);
  }

  function Flatten(exchanges: seq<Exchange>): seq<Message>
    requires forall x | x in exchanges :: |x.answers| == |x.calls|
  {
    if exchanges == [] then []
    else
      var x := exchanges[|exchanges| - 1];
      Flatten(exchanges[..|exchanges| - 1]) + [Assistant(x.content, x.calls)] + ToolMessages(x.calls, x.answers)
  }

  /** The tool answers gathered over the exchanges; a later round overwrites an earlier one. */
  function Gathered(exchanges: seq<Exchange>): map<string, string> {
    if exchanges == [] then map[]
    else Gathered(exchanges[..|exchanges| - 1]) + exchanges[|exchanges| - 1].byId
  }

  lemma GatheredAppend(exchanges: seq<Exchange>, x: Exchange)
    ensures Gathered(exchanges + [x]) == Gathered(exchanges) + x.byId
  {
  }

  lemma {:induction false} LastWithIdFound(calls: seq<Call>, n: nat, i: nat)
    requires i < n <= |calls|
    ensures LastWithId(calls, n, calls[i].id).Some?
    decreases n
  {
    if i < n - 1 {
      LastWithIdFound(calls, n - 1, i);
    }
  }

  /** The loop that appends one tool message per call. */
  method AnswerCalls(tools: Tools, content: string, calls: seq<Call>, answers: map<string, string>, log: seq<Message>)
      returns (x: Exchange, more: seq<Message>)
    requires calls != [] && AnswersOf(tools, calls, |calls|, answers)
    ensures Paired(tools, x) && x.content == content && x.calls == calls && x.byId == answers
    ensures more == log + ToolMessages(calls, x.answers)
  {
    hide AnswerText;
    var texts: seq<string> := [];
    more := log;
    for i := 0 to |calls|
      invariant |texts| == i
      invariant more == log + seq(i, k requires 0 <= k < i => Tool(calls[k].id, texts[k]))
      invariant forall k | 0 <= k < i :: calls[k].id in answers && texts[k] == answers[calls[k].id]
    {
      LastWithIdFound(calls, |calls|, i);
      assert AnswerAt(tools, calls, |calls|, answers, calls[i].id);
      var answer := if calls[i].id in answers then answers[calls[i].id] else "";
      texts := texts + [answer];
      more := more + [Tool(calls[i].id, answer)];
    }
    x := Exchange(content, calls, texts, answers);
    forall i | 0 <= i < |calls| ensures AnsweredByLast(tools, x, i) {
      LastWithIdFound(calls, |calls|, i);
      assert AnswerAt(tools, calls, |calls|, answers, calls[i].id);
    }
  }

  // ---- The run ----

  datatype FailureMessages = FailureMessages(length: string, contentFilter: string, general: string)

  /**
   * Everything the loop does not decide: what each provider answers in each round, what other
   * requests do to the breaker before it, the clock, and the tools.
   */
  datatype Surroundings = Surroundings(
    mockResponse: Option<Response>,
    answers: nat -> Answers<Response>,
    interference: nat -> seq<Breaker.Event>,
    now: nat -> nat,
    failedAt: nat -> nat,
    tools: nat -> Tools)

  /** One call to the model: the request, the sticky provider before it, who was tried, and the cost. */
  datatype Round = Round(number: nat, request: seq<Message>, sticky: Option<Provider>, tried: seq<Provider>,
                         response: Option<Response>, cost: real)

  datatype Output = Output(final: string, fail: bool, toolAnswers: map<string, string>, log: seq<Message>,
                           task: Option<int>, active: Provider, sticky: Option<Provider>, cost: real)

  /** apply_provider_result. */
  function StickyAfter(sticky: Option<Provider>, result: ChatResult<Response>): Option<Provider> {
    if result.fallbackFrom.Some? || sticky.Some? then Some(result.provider) else sticky
  }

  /** The sticky provider a recorded round leaves behind. */
  function LeavesSticky(round: Round): Option<Provider> {
    if round.sticky.Some? || (round.response.Some? && round.tried == [Tinfoil, Near]) then Some(Near) else None
  }

  function TotalCost(rounds: seq<Round>): real {
    if rounds == [] then 0.0 else TotalCost(rounds[..|rounds| - 1]) + rounds[|rounds| - 1].cost
  }

  function LastSticky(rounds: seq<Round>): Option<Provider> {
    if rounds == [] then None else LeavesSticky(rounds[|rounds| - 1])
  }

  /** What is true of the k-th call to the model. */
  ghost predicate RoundOk(initial: seq<Message>, exchanges: seq<Exchange>, rounds: seq<Round>, k: nat)
    requires k < |rounds|
  {
    var round := rounds[k];
    && round.number <= |exchanges|
    && (forall x | x in exchanges :: |x.answers| == |x.calls|)
    && round.request == initial + Flatten(exchanges[..round.number])
    && round.sticky == LastSticky(rounds[..k])
    && (round.sticky == None || (round.sticky == Some(Near) && round.tried <= [Near]))
  }

  /** The response and the cost are what the last provider tried gave. */
  predicate RoundReplied(s: Surroundings, round: Round) {
    match round.response
    case None => round.cost == 0.0
    case Some(response) =>
      round.tried != [] && s.answers(round.number)(round.tried[|round.tried| - 1]) == Ok(Reply(response, round.cost))
  }

  /** How many responses come from a script instead of the model. */
  function Scripted(s: Surroundings): nat {
    if s.mockResponse.Some? then 1 else 0
  }

  /** The response of the n-th round of the loop. */
  function ResponseOf(s: Surroundings, rounds: seq<Round>, n: nat): Option<Response> {
    if n < Scripted(s) then s.mockResponse
    else if n - Scripted(s) < |rounds| then rounds[n - Scripted(s)].response
    else None
  }

  /** The n-th exchange is about the calls that the n-th response asked for. */
  predicate Asked(s: Surroundings, rounds: seq<Round>, n: nat, x: Exchange) {
    var response := ResponseOf(s, rounds, n);
    response.Some? && AsksFor(response.value, x.content, x.calls)
  }

  /** The invariant of a run: requests, pairing, sticky provider and cost. */
  ghost predicate RunOk(s: Surroundings, initial: seq<Message>, exchanges: seq<Exchange>, rounds: seq<Round>) {
    && (forall n | 0 <= n < |exchanges| :: Paired(s.tools(n), exchanges[n]) && Asked(s, rounds, n, exchanges[n]))
    && (forall k | 0 <= k < |rounds| :: rounds[k].number == k + Scripted(s))
    && (forall k | 0 <= k < |rounds| :: RoundOk(initial, exchanges, rounds, k) && RoundReplied(s, rounds[k]))
  }

  lemma PairedLengths(s: Surroundings, exchanges: seq<Exchange>)
    requires forall n | 0 <= n < |exchanges| :: Paired(s.tools(n), exchanges[n])
    ensures forall x | x in exchanges :: |x.answers| == |x.calls|
  {
  }

  lemma AskedStill(s: Surroundings, rounds: seq<Round>, round: Round, n: nat, x: Exchange)
    requires Asked(s, rounds, n, x)
    ensures Asked(s, rounds + [round], n, x)
  {
    hide AsksFor;
  }

  lemma RoundOkStill(initial: seq<Message>, exchanges: seq<Exchange>, rounds: seq<Round>, round: Round, k: nat)
    requires k < |rounds| && RoundOk(initial, exchanges, rounds, k)
    ensures RoundOk(initial, exchanges, rounds + [round], k)
  {
    hide Flatten, LastSticky;
    assert (rounds + [round])[..k] == rounds[..k];
  }

  lemma RoundOkLast(initial: seq<Message>, exchanges: seq<Exchange>, rounds: seq<Round>, round: Round)
    requires forall x | x in exchanges :: |x.answers| == |x.calls|
    requires round.number == |exchanges| && round.request == initial + Flatten(exchanges)
    requires round.sticky == LastSticky(rounds)
    requires round.sticky == None || (round.sticky == Some(Near) && round.tried <= [Near])
    ensures RoundOk(initial, exchanges, rounds + [round], |rounds|)
  {
    hide Flatten, LastSticky;
    assert (rounds + [round])[..|rounds|] == rounds;
    assert exchanges[..|exchanges|] == exchanges;
  }

  lemma TotalsAppend(rounds: seq<Round>, round: Round)
    ensures TotalCost(rounds + [round]) == TotalCost(rounds) + round.cost
    ensures LastSticky(rounds + [round]) == LeavesSticky(round)
  {
    assert (rounds + [round])[..|rounds|] == rounds;
  }

  /** One more call to the model keeps the invariant. */
  lemma RoundAdded(s: Surroundings, initial: seq<Message>, exchanges: seq<Exchange>, rounds: seq<Round>, round: Round)
    requires RunOk(s, initial, exchanges, rounds)
    requires forall x | x in exchanges :: |x.answers| == |x.calls|
    requires round.number == |exchanges| && round.request == initial + Flatten(exchanges)
    requires round.sticky == LastSticky(rounds)
    requires round.sticky == None || (round.sticky == Some(Near) && round.tried <= [Near])
    requires RoundReplied(s, round) && round.number == |rounds| + Scripted(s)
    ensures RunOk(s, initial, exchanges, rounds + [round])
    ensures TotalCost(rounds + [round]) == TotalCost(rounds) + round.cost
    ensures LastSticky(rounds + [round]) == LeavesSticky(round)
  {
    hide Paired, Flatten, RoundReplied, RoundOk, Asked, LeavesSticky, LastSticky, TotalCost, Scripted;
    TotalsAppend(rounds, round);
    var more := rounds + [round];
    forall n | 0 <= n < |exchanges| ensures Paired(s.tools(n), exchanges[n]) && Asked(s, more, n, exchanges[n]) {
      AskedStill(s, rounds, round, n, exchanges[n]);
    }
    forall k | 0 <= k < |more|
      ensures more[k].number == k + Scripted(s) && RoundOk(initial, exchanges, more, k) && RoundReplied(s, more[k])
    {
      if k < |rounds| {
        assert more[k] == rounds[k];
        RoundOkStill(initial, exchanges, rounds, round, k);
      } else {
        RoundOkLast(initial, exchanges, rounds, round);
      }
    }
  }

  lemma FlattenAppend(exchanges: seq<Exchange>, x: Exchange)
    requires forall y | y in exchanges + [x] :: |y.answers| == |y.calls|
    ensures forall y | y in exchanges :: |y.answers| == |y.calls|
    ensures x in exchanges + [x]
    ensures Flatten(exchanges + [x]) ==
            Flatten(exchanges) + [Assistant(x.content, x.calls)] + ToolMessages(x.calls, x.answers)
  {
  }

  lemma PairedMore(s: Surroundings, exchanges: seq<Exchange>, rounds: seq<Round>, x: Exchange)
    requires forall n | 0 <= n < |exchanges| :: Paired(s.tools(n), exchanges[n]) && Asked(s, rounds, n, exchanges[n])
    requires Paired(s.tools(|exchanges|), x) && Asked(s, rounds, |exchanges|, x)
    ensures var more := exchanges + [x];
            forall n | 0 <= n < |more| :: Paired(s.tools(n), more[n]) && Asked(s, rounds, n, more[n])
  {
    hide Paired, Asked;
    var more := exchanges + [x];
    forall n | 0 <= n < |more| ensures Paired(s.tools(n), more[n]) && Asked(s, rounds, n, more[n]) {
      if n < |exchanges| {
        assert Paired(s.tools(n), exchanges[n]);
      }
    }
  }

  /** One more exchange keeps the invariant. */
  lemma ExchangeAdded(s: Surroundings, initial: seq<Message>, exchanges: seq<Exchange>, rounds: seq<Round>, x: Exchange)
    requires RunOk(s, initial, exchanges, rounds)
    requires Paired(s.tools(|exchanges|), x) && Asked(s, rounds, |exchanges|, x)
    ensures RunOk(s, initial, exchanges + [x], rounds)
    ensures forall y | y in exchanges + [x] :: |y.answers| == |y.calls|
    ensures forall y | y in exchanges :: |y.answers| == |y.calls|
    ensures Flatten(exchanges + [x]) ==
            Flatten(exchanges) + [Assistant(x.content, x.calls)] + ToolMessages(x.calls, x.answers)
  {
    hide RoundOk, Paired, RoundReplied, Flatten, ToolMessages, Asked;
    var more := exchanges + [x];
    PairedMore(s, exchanges, rounds, x);
    PairedLengths(s, more);
    PairedLengths(s, exchanges);
    FlattenAppend(exchanges, x);
    forall k | 0 <= k < |rounds| ensures RoundOk(initial, more, rounds, k) && RoundReplied(s, rounds[k]) {
      RoundOkMore(initial, exchanges, x, rounds, k);
    }
  }

  lemma RoundOkMore(initial: seq<Message>, exchanges: seq<Exchange>, x: Exchange, rounds: seq<Round>, k: nat)
    requires k < |rounds| && RoundOk(initial, exchanges, rounds, k)
    requires forall y | y in exchanges + [x] :: |y.answers| == |y.calls|
    ensures RoundOk(initial, exchanges + [x], rounds, k)
  {
    hide Flatten, LastSticky;
    assert (exchanges + [x])[..rounds[k].number] == exchanges[..rounds[k].number];
  }

  // ---- Whom a round turns to ----

  /** What is known about the gateway when a run starts. */
  datatype Providers = Providers(configured: set<Provider>, config: Config, before: seq<Breaker.Event>)

  /** The providers a call turns to, one after another while they fail. */
  function Turns(g: Providers, sticky: Option<Provider>, history: seq<Breaker.Event>, now: nat): seq<Provider> {
    match sticky
    case Some(p) => if p in g.configured then [p] else []
    case None =>
      if Near !in g.configured then [Tinfoil]
      else if RecentRun(g.config, history, now) then [Near]
      else [Tinfoil, Near]
  }

  /** A call went through its turns up to the first answer, or failed because all of them did. */
  predicate WentThrough(turns: seq<Provider>, answers: Answers<Response>, tried: seq<Provider>, response: Option<Response>) {
    match response
    case None => tried == turns && forall p | p in turns :: answers(p).Err?
    case Some(r) =>
      && tried != [] && tried <= turns
      && (forall i | 0 <= i < |tried| - 1 :: answers(tried[i]).Err?)
      && answers(tried[|tried| - 1]).Ok? && answers(tried[|tried| - 1]).value.response == r
  }

  /** The breaker's history after a call that found it with this one. */
  function HistoryAfterCall(g: Providers, s: Surroundings, n: nat, sticky: Option<Provider>, history: seq<Breaker.Event>,
                            tried: seq<Provider>): seq<Breaker.Event>
  {
    history + (if sticky.None? && Near in g.configured then [Queried(s.now(n))] else [])
      + Recorded(s.answers(n), tried, s.failedAt(n))
  }

  /** The breaker's history after the rounds, with what other requests did in between. */
  function HistoryAfter(g: Providers, s: Surroundings, rounds: seq<Round>): seq<Breaker.Event> {
    if rounds == [] then g.before
    else
      var round := rounds[|rounds| - 1];
      HistoryAfterCall(g, s, round.number, round.sticky,
                       HistoryAfter(g, s, rounds[..|rounds| - 1]) + s.interference(round.number), round.tried)
  }

  /** Call k turned to the providers that its sticky provider and the breaker's history demand. */
  predicate CallOk(g: Providers, s: Surroundings, rounds: seq<Round>, k: nat)
    requires k < |rounds|
  {
    var round := rounds[k];
    var history := HistoryAfter(g, s, rounds[..k]) + s.interference(round.number);
    WentThrough(Turns(g, round.sticky, history, s.now(round.number)), s.answers(round.number), round.tried, round.response)
  }

  ghost predicate CallsOk(g: Providers, s: Surroundings, rounds: seq<Round>) {
    forall k | 0 <= k < |rounds| :: CallOk(g, s, rounds, k)
  }

  /** Without a sticky provider Tinfoil is asked first, unless NEAR stands in after a recent run of failures. */
  lemma FreshRoundAsksTinfoil(g: Providers, s: Surroundings, rounds: seq<Round>, k: nat)
    requires CallsOk(g, s, rounds) && k < |rounds| && rounds[k].sticky == None
    ensures rounds[k].tried != []
    ensures rounds[k].tried[0] == Tinfoil <==>
              !(Near in g.configured &&
                RecentRun(g.config, HistoryAfter(g, s, rounds[..k]) + s.interference(rounds[k].number), s.now(rounds[k].number)))
  {
    hide HistoryAfter, RecentRun;
    assert CallOk(g, s, rounds, k);
  }

  /** A round without a response means that every provider it could turn to failed. */
  lemma FailedRoundTriedAll(g: Providers, s: Surroundings, rounds: seq<Round>, k: nat)
    requires CallsOk(g, s, rounds) && k < |rounds| && rounds[k].sticky == None && rounds[k].response == None
    ensures var answers := s.answers(rounds[k].number);
            && (Near in g.configured ==> answers(Near).Err?)
            && (|| answers(Tinfoil).Err?
                || RecentRun(g.config, HistoryAfter(g, s, rounds[..k]) + s.interference(rounds[k].number),
                             s.now(rounds[k].number)))
  {
    hide HistoryAfter, RecentRun;
    assert CallOk(g, s, rounds, k);
    assert Near in [Near] && Tinfoil in [Tinfoil] && Tinfoil in [Tinfoil, Near] && Near in [Tinfoil, Near];
  }

  /** If Tinfoil fails and NEAR answers, the round has NEAR's answer and NEAR sticks. */
  lemma NearTakesOver(g: Providers, s: Surroundings, rounds: seq<Round>, k: nat)
    requires CallsOk(g, s, rounds) && k < |rounds| && rounds[k].sticky == None
    requires Near in g.configured && s.answers(rounds[k].number)(Tinfoil).Err? && s.answers(rounds[k].number)(Near).Ok?
    ensures rounds[k].response == Some(s.answers(rounds[k].number)(Near).value.response)
    ensures rounds[k].tried == [Tinfoil, Near] ==> LeavesSticky(rounds[k]) == Some(Near)
    ensures rounds[k].tried == [Near] <==>
              RecentRun(g.config, HistoryAfter(g, s, rounds[..k]) + s.interference(rounds[k].number), s.now(rounds[k].number))
  {
    hide HistoryAfter, RecentRun;
    assert CallOk(g, s, rounds, k);
    if rounds[k].response == None {
      FailedRoundTriedAll(g, s, rounds, k);
    }
  }

  lemma AttemptsAreTurns(g: Providers, sticky: Option<Provider>, history: seq<Breaker.Event>, now: nat)
    ensures Attempts(g.configured, ChatOptions(Tinfoil, sticky, true), IsOpen(After(g.config, history), now))
         == Turns(g, sticky, history, now)
  {
    hide RecentRun, After;
    OpenMeansRecentRun(g.config, history, now);
  }

  /** call_llm_round: one chat call with the sticky provider, after whatever others did to the breaker. */
  method CallModel(gateway: Gateway, s: Surroundings, n: nat, sticky: Option<Provider>, ghost g: Providers)
      returns (r: Result<ChatResult<Response>, ApiError>, tried: seq<Provider>)
    requires gateway.Valid() && gateway.configured == g.configured && gateway.breaker.config == g.config
    modifies gateway.breaker
    ensures gateway.Valid()
    ensures var history := old(gateway.breaker.history) + s.interference(n);
            && WentThrough(Turns(g, sticky, history, s.now(n)), s.answers(n), tried,
                           if r.Ok? then Some(r.value.response) else None)
            && gateway.breaker.history == HistoryAfterCall(g, s, n, sticky, history, tried)
    ensures sticky == Some(Near) ==> tried <= [Near]
    ensures r.Ok? && (sticky == None || sticky == Some(Near)) ==>
              StickyAfter(sticky, r.value) ==
              if sticky.Some? || tried == [Tinfoil, Near] then Some(Near) else None
    ensures r.Ok? ==> s.answers(n)(r.value.provider) == Ok(Reply(r.value.response, r.value.cost))
    ensures r.Ok? ==> tried != [] && r.value.provider == tried[|tried| - 1]
  {
    hide Recorded, RecentRun, After;
    gateway.breaker.Replay(s.interference(n));
    AttemptsAreTurns(g, sticky, gateway.breaker.history, s.now(n));
    r, tried := gateway.Chat(ChatOptions(Tinfoil, sticky, true), s.answers(n), s.now(n), s.failedAt(n));
  }

  const NO_CHOICES := System("AI provider returned no choices")
  const NO_TOOL_CALLS := System("No tool calls found in response despite tool_calls finish reason")
  const CHAT_FAILED := System("Failed to get chat completion")

  /** What one model response leads to. */
  datatype Handled =
    | Direct(final: string, fail: bool)
    | ToolEnd(final: string, content: string, calls: seq<Call>, answers: map<string, string>, task: Option<int>)
    | Again(content: string, calls: seq<Call>, answers: map<string, string>)
    | Broken(error: RunError)

  /** The response asks for these calls. */
  predicate AsksFor(response: Response, content: string, calls: seq<Call>) {
    && response != [] && response[0].finish == Some(ToolCallsReason)
    && response[0].calls == Some(calls) && calls != [] && content == TextOf(response[0].content)
  }

  ghost predicate Handles(tools: Tools, messages: FailureMessages, response: Response, h: Handled) {
    match h
    case Direct(final, fail) =>
      && response != []
      && (match response[0].finish
          case None => !fail && final == TextOf(response[0].content)
          case Some(Stop) => !fail && final == TextOf(response[0].content)
          case Some(Length) => fail && final == messages.length
          case Some(ContentFilter) => fail && final == messages.contentFilter
          case Some(Null) => fail && final == messages.general
          case Some(ToolCallsReason) => false)
    case ToolEnd(final, content, calls, answers, task) =>
      AsksFor(response, content, calls) && exists i :: EndedAt(tools, calls, i, final, answers, task)
    case Again(content, calls, answers) =>
      && AsksFor(response, content, calls)
      && Passed(tools, calls, |calls|) && AnswersOf(tools, calls, |calls|, answers)
    case Broken(e) =>
      || (response == [] && e == NO_CHOICES)
      || (response != [] && response[0].finish == Some(ToolCallsReason) &&
          match response[0].calls
          case None => e == NO_TOOL_CALLS
          case Some(calls) => if calls == [] then e == NO_TOOL_CALLS else exists i :: RefusedAt(tools, calls, i, e))
  }

  /** The body of a round once the response is there. */
  method HandleResponse(tools: Tools, messages: FailureMessages, response: Response) returns (h: Handled)
    ensures Handles(tools, messages, response, h)
  {
    hide Passed, AnswersOf, EndedAt, RefusedAt;
    if response == [] {
      return Broken(NO_CHOICES);
    }
    var choice := response[0];
    match choice.finish {
      case None => h := Direct(TextOf(choice.content), false);
      case Some(Stop) => h := Direct(TextOf(choice.content), false);
      case Some(Length) => h := Direct(messages.length, true);
      case Some(ContentFilter) => h := Direct(messages.contentFilter, true);
      case Some(Null) => h := Direct(messages.general, true);
      case Some(ToolCallsReason) =>
        if choice.calls.None? || choice.calls.value == [] {
          return Broken(NO_TOOL_CALLS);
        }
        var calls, content := choice.calls.value, TextOf(choice.content);
        var processed := ProcessCalls(tools, calls);
        match processed {
          case Aborted(e) => h := Broken(e);
          case Finished(text, answers, item) => h := ToolEnd(text, content, calls, answers, item);
          case AllAnswered(answers) => h := Again(content, calls, answers);
        }
    }
  }

  /** The response that the run ended on. */
  function LastResponse(s: Surroundings, rounds: seq<Round>): Option<Response> {
    if rounds == [] then s.mockResponse else rounds[|rounds| - 1].response
  }

  /** The run ended as its last response says. */
  ghost predicate EndsOn(s: Surroundings, messages: FailureMessages, n: nat, rounds: seq<Round>, h: Handled) {
    LastResponse(s, rounds).Some? && Handles(s.tools(n), messages, LastResponse(s, rounds).value, h)
  }

  const APOLOGY := "I was unable to process your request. Please try again."

  /** The final text is what was said; failing that, some tool answer; failing that, an apology. */
  predicate Says(said: string, out: Output) {
    if said != "" then out.final == said
    else if out.toolAnswers != map[] then out.final in out.toolAnswers.Values
    else out.final == APOLOGY
  }

  /** The provider that answered the last model call; Tinfoil if there was none. */
  function ActiveAfter(rounds: seq<Round>): Provider {
    if rounds == [] || rounds[|rounds| - 1].tried == [] then Tinfoil
    else rounds[|rounds| - 1].tried[|rounds[|rounds| - 1].tried| - 1]
  }

  /** After all rounds: nothing was said. Otherwise: what the last response led to. */
  ghost predicate Concluded(s: Surroundings, messages: FailureMessages, initial: seq<Message>,
                            exchanges: seq<Exchange>, rounds: seq<Round>, out: Output)
    requires forall x | x in exchanges :: |x.answers| == |x.calls|
  {
    || (|exchanges| == MAX_ROUNDS && EndsAs(initial, exchanges, out, Direct("", false)))
    || (exists h ::
          EndsOn(s, messages, |exchanges|, rounds, h) && (h.Direct? || h.ToolEnd?) && EndsAs(initial, exchanges, out, h))
  }

  /** The output of a run that ended with h after the exchanges. */
  predicate EndsAs(initial: seq<Message>, exchanges: seq<Exchange>, out: Output, h: Handled)
    requires h.Direct? || h.ToolEnd?
    requires forall x | x in exchanges :: |x.answers| == |x.calls|
  {
    && Says(h.final, out)
    && out.fail == (h.Direct? && h.fail)
    && out.task == (if h.ToolEnd? then h.task else None)
    && out.toolAnswers == Gathered(exchanges) + (if h.ToolEnd? then h.answers else map[])
    && out.log == initial + Flatten(exchanges) + (if h.ToolEnd? then [Assistant(h.content, h.calls)] else [])
  }

  /** What to say when no round produced a text: some tool answer, or an apology. */
  method FinalText(said: string, toolAnswers: map<string, string>) returns (final: string)
    ensures said != "" ==> final == said
    ensures final != "" || "" in toolAnswers.Values
    ensures said == "" && toolAnswers != map[] ==> final in toolAnswers.Values
    ensures said == "" && toolAnswers == map[] ==> final == APOLOGY
  {
    final := said;
    if final == "" && toolAnswers != map[] {
      var id :| id in toolAnswers;
      final := toolAnswers[id];
    } else if final == "" {
      final := APOLOGY;
    }
  }

  /** The output of a run that ended with h: all that was collected, and the final text. */
  method Conclude(ghost initial: seq<Message>, ghost exchanges: seq<Exchange>, ghost h: Handled, collected: Output)
      returns (out: Output)
    requires h.Direct? || h.ToolEnd?
    requires forall x | x in exchanges :: |x.answers| == |x.calls|
    requires collected.final == h.final && collected.fail == (h.Direct? && h.fail)
    requires collected.task == (if h.ToolEnd? then h.task else None)
    requires collected.toolAnswers == Gathered(exchanges) + (if h.ToolEnd? then h.answers else map[])
    requires collected.log == initial + Flatten(exchanges) + (if h.ToolEnd? then [Assistant(h.content, h.calls)] else [])
    ensures EndsAs(initial, exchanges, out, h) && out == collected.(final := out.final)
    ensures out.final != "" || "" in out.toolAnswers.Values
  {
    hide Gathered, Flatten;
    var final := FinalText(collected.final, collected.toolAnswers);
    out := collected.(final := final);
  }

  lemma CallAdded(g: Providers, s: Surroundings, rounds: seq<Round>, round: Round)
    requires CallsOk(g, s, rounds)
    requires var history := HistoryAfter(g, s, rounds) + s.interference(round.number);
             WentThrough(Turns(g, round.sticky, history, s.now(round.number)), s.answers(round.number), round.tried, round.response)
    ensures CallsOk(g, s, rounds + [round])
    ensures HistoryAfter(g, s, rounds + [round]) ==
            HistoryAfterCall(g, s, round.number, round.sticky, HistoryAfter(g, s, rounds) + s.interference(round.number), round.tried)
  {
    hide WentThrough, Turns, HistoryAfterCall;
    var more := rounds + [round];
    assert more[..|rounds|] == rounds;
    forall k | 0 <= k < |more| ensures CallOk(g, s, more, k) {
      if k < |rounds| {
        assert CallOk(g, s, rounds, k);
        assert more[..k] == rounds[..k];
      }
    }
  }

  /** The start of a round: the scripted response, or a call to the model; None if the call failed. */
  method NextResponse(gateway: Gateway, s: Surroundings, ghost initial: seq<Message>, ghost exchanges: seq<Exchange>,
                      rounds: seq<Round>, n: nat, log: seq<Message>, active: Provider, sticky: Option<Provider>, cost: real,
                      ghost g: Providers)
      returns (response: Option<Response>, rounds': seq<Round>, active': Provider, sticky': Option<Provider>, cost': real)
    requires gateway.Valid()
    requires RunOk(s, initial, exchanges, rounds)
    requires forall x | x in exchanges :: |x.answers| == |x.calls|
    requires n == |exchanges| && log == initial + Flatten(exchanges)
    requires |rounds| == if n == 0 then 0 else n - Scripted(s)
    requires sticky == LastSticky(rounds) && cost == TotalCost(rounds)
    requires sticky == None || sticky == Some(Near)
    requires active == ActiveAfter(rounds)
    requires gateway.configured == g.configured && gateway.breaker.config == g.config
    requires CallsOk(g, s, rounds) && gateway.breaker.history == HistoryAfter(g, s, rounds)
    modifies gateway.breaker
    ensures gateway.Valid()
    ensures CallsOk(g, s, rounds') && gateway.breaker.history == HistoryAfter(g, s, rounds')
    ensures response.Some? ==> active' == ActiveAfter(rounds')
    ensures RunOk(s, initial, exchanges, rounds') && |rounds'| == n + 1 - Scripted(s)
    ensures sticky' == LastSticky(rounds') && cost' == TotalCost(rounds')
    ensures sticky' == None || sticky' == Some(Near)
    ensures response.Some? ==> response == LastResponse(s, rounds') == ResponseOf(s, rounds', n)
    ensures response.None? ==> rounds' != [] && rounds'[|rounds'| - 1].response.None?
  {
    hide RunOk, Flatten, StickyAfter, LeavesSticky, TotalCost, LastSticky, CallsOk, HistoryAfter, WentThrough, Turns,
      HistoryAfterCall;
    rounds', active', sticky', cost' := rounds, active, sticky, cost;
    if n == 0 && s.mockResponse.Some? {
      return s.mockResponse, rounds', active', sticky', cost';
    }
    var chat, tried := CallModel(gateway, s, n, sticky, g);
    response := if chat.Ok? then Some(chat.value.response) else None;
    var round := Round(n, log, sticky, tried, response, if chat.Ok? then chat.value.cost else 0.0);
    RoundAdded(s, initial, exchanges, rounds, round);
    CallAdded(g, s, rounds, round);
    LeavesStickyMeaning(round);
    rounds' := rounds + [round];
    cost' := cost + round.cost;
    sticky' := LeavesSticky(round);
    if chat.Ok? {
      active', sticky' := chat.value.provider, StickyAfter(sticky, chat.value);
    }
  }

  /**
   * run_agent_loop. In every request each tool-call message is followed at once by one answer
   * per call; the sticky provider is unset or NEAR and never changes once set; the reported
   * cost is the sum over the model calls; the run ends the way its last response says.
   */
  method RunAgentLoop(gateway: Gateway, s: Surroundings, initial: seq<Message>, messages: FailureMessages)
      returns (r: Result<Output, RunError>, exchanges: seq<Exchange>, rounds: seq<Round>)
    requires gateway.Valid()
    modifies gateway.breaker
    ensures gateway.Valid()
    ensures RunOk(s, initial, exchanges, rounds)
    ensures CallsOk(Providers(gateway.configured, gateway.breaker.config, old(gateway.breaker.history)), s, rounds)
    ensures gateway.breaker.history ==
            HistoryAfter(Providers(gateway.configured, gateway.breaker.config, old(gateway.breaker.history)), s, rounds)
    ensures forall x | x in exchanges :: |x.answers| == |x.calls|
    ensures |exchanges| <= |rounds| + Scripted(s) <= |exchanges| + 1 && |exchanges| <= MAX_ROUNDS
    ensures |rounds| <= MAX_ROUNDS
    ensures r.Ok? ==> Concluded(s, messages, initial, exchanges, rounds, r.value)
    ensures r.Ok? ==> r.value.sticky == LastSticky(rounds) && r.value.cost == TotalCost(rounds)
    ensures r.Ok? ==> r.value.active == ActiveAfter(rounds)
    ensures r.Ok? ==> r.value.final != "" || "" in r.value.toolAnswers.Values
    ensures r.Err? ==> || (rounds != [] && rounds[|rounds| - 1].response.None? && r.error == CHAT_FAILED)
                       || EndsOn(s, messages, |exchanges|, rounds, Broken(r.error))
  {
    hide RunOk, Paired, Flatten, AnswersOf, Passed, StickyAfter, LeavesSticky, TotalCost, LastSticky, Handles, Concluded,
      Gathered, ActiveAfter, EndsAs, CallsOk, HistoryAfter;
    ghost var g := Providers(gateway.configured, gateway.breaker.config, gateway.breaker.history);
    var active, sticky: Option<Provider>, fail := Tinfoil, None, false;
    var toolAnswers: map<string, string>, task: Option<int> := map[], None;
    var log, final, cost := initial, "", 0.0;
    exchanges, rounds := [], [];
    NothingRun(s, initial, g);
    ghost var ending := Direct("", false);
    ghost var said := false;
    for n := 0 to MAX_ROUNDS
      invariant gateway.Valid()
      invariant RunOk(s, initial, exchanges, rounds)
      invariant CallsOk(g, s, rounds) && gateway.breaker.history == HistoryAfter(g, s, rounds)
      invariant |exchanges| == n && |rounds| == if n == 0 then 0 else n - Scripted(s)
      invariant forall x | x in exchanges :: |x.answers| == |x.calls|
      invariant log == initial + Flatten(exchanges)
      invariant sticky == LastSticky(rounds) && cost == TotalCost(rounds)
      invariant sticky == None || sticky == Some(Near)
      invariant active == ActiveAfter(rounds) && toolAnswers == Gathered(exchanges)
      invariant final == "" && !fail && task == None && ending == Direct("", false) && !said
    {
      var next: Option<Response>;
      next, rounds, active, sticky, cost :=
        NextResponse(gateway, s, initial, exchanges, rounds, n, log, active, sticky, cost, g);
      if next.None? {
        return Err(CHAT_FAILED), exchanges, rounds;
      }
      var response := next.value;
      var handled := HandleResponse(s.tools(n), messages, response);
      match handled {
        case Broken(e) =>
          return Err(e), exchanges, rounds;
        case Direct(text, failed) =>
          final, fail, ending, said := text, failed, handled, true;
          break;
        case ToolEnd(text, content, calls, answers, item) =>
          log := log + [Assistant(content, calls)];
          final, task, ending, said := text, item, handled, true;
          toolAnswers := toolAnswers + answers;
          break;
        case Again(content, calls, answers) =>
          HandledAgain(s.tools(n), messages, response, handled);
          log := log + [Assistant(content, calls)];
          var x, more := AnswerCalls(s.tools(n), content, calls, answers, log);
          ExchangeAdded(s, initial, exchanges, rounds, x);
          GatheredAppend(exchanges, x);
          log := more;
          exchanges := exchanges + [x];
          toolAnswers := toolAnswers + answers;
      }
    }
    var out := Conclude(initial, exchanges, ending, Output(final, fail, toolAnswers, log, task, active, sticky, cost));
    r := Ok(out);
    if said {
      ConcludedBy(s, messages, initial, exchanges, rounds, r.value, ending);
    } else {
      ConcludedExhausted(s, messages, initial, exchanges, rounds, r.value);
    }
  }

  lemma HandledAgain(tools: Tools, messages: FailureMessages, response: Response, h: Handled)
    requires Handles(tools, messages, response, h) && h.Again?
    ensures AsksFor(response, h.content, h.calls) && h.calls != [] && AnswersOf(tools, h.calls, |h.calls|, h.answers)
  {
  }

  lemma ConcludedBy(s: Surroundings, messages: FailureMessages, initial: seq<Message>,
                    exchanges: seq<Exchange>, rounds: seq<Round>, out: Output, h: Handled)
    requires forall x | x in exchanges :: |x.answers| == |x.calls|
    requires EndsOn(s, messages, |exchanges|, rounds, h)
    requires h.Direct? || h.ToolEnd?
    requires EndsAs(initial, exchanges, out, h)
    ensures Concluded(s, messages, initial, exchanges, rounds, out)
  {
  }

  lemma ConcludedExhausted(s: Surroundings, messages: FailureMessages, initial: seq<Message>,
                           exchanges: seq<Exchange>, rounds: seq<Round>, out: Output)
    requires forall x | x in exchanges :: |x.answers| == |x.calls|
    requires |exchanges| == MAX_ROUNDS && EndsAs(initial, exchanges, out, Direct("", false))
    ensures Concluded(s, messages, initial, exchanges, rounds, out)
  {
  }

  lemma LeavesStickyMeaning(round: Round)
    ensures LeavesSticky(round) ==
            if round.sticky.Some? || (round.response.Some? && round.tried == [Tinfoil, Near]) then Some(Near) else None
  {
  }

  lemma NothingRun(s: Surroundings, initial: seq<Message>, g: Providers)
    ensures CallsOk(g, s, []) && HistoryAfter(g, s, []) == g.before
    ensures RunOk(s, initial, [], []) && LastSticky([]) == None && TotalCost([]) == 0.0
    ensures Flatten([]) == [] && initial + [] == initial && Gathered([]) == map[] && ActiveAfter([]) == Tinfoil
  {
  }

  /** Once a round starts with a sticky provider, every later round does, and tries nobody but NEAR. */
  lemma {:induction false} StickyForever(s: Surroundings, initial: seq<Message>, exchanges: seq<Exchange>, rounds: seq<Round>,
                                         j: nat, k: nat)
    requires RunOk(s, initial, exchanges, rounds)
    requires j <= k < |rounds|
    requires rounds[j].sticky.Some?
    ensures rounds[k].sticky == Some(Near) && rounds[k].tried <= [Near]
    decreases k - j
  {
    hide Paired, Flatten;
    assert RoundOk(initial, exchanges, rounds, k);
    if j < k {
      StickyForever(s, initial, exchanges, rounds, j, k - 1);
      assert rounds[..k][k - 1] == rounds[k - 1];
    }
  }
}
