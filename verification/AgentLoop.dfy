/** The agent loop over the pipeline [tools, inference], as functions of the conversation and of
    the moment of cancellation. Time counts how often the cancellation token has been looked at:
    the token is found cancelled at every look from `cancelAt` on. Messages sent out get fresh
    ids, which matter only inside an accumulator and are left out elsewhere. */
module AgentLoop {
  import opened Wrappers
  import opened Messages
  import opened ToolThinking
  import opened ToolCalls
  import opened Characters

  // ---------- the surroundings ----------

  datatype Event = Chunk(item: Item) | Broken(kind: int)

  /** What the provider answers: an error, or a stream that may break off. */
  datatype Reply = Refused(kind: int) | Opened(events: seq<Event>)

  /** The tools and their names are stable; listing them may fail; the provider may answer any
      conversation in any way. */
  datatype World = World(
    tools: set<string>,
    listing: nat -> bool,
    provider: seq<Message> -> Reply,
    cancelAt: nat)

  // ---------- reading a conversation ----------

  predicate IsKickoff(m: Message) {
    m.role.User? && m.userVisible && !HasToolResponse(m.content)
  }

  /** Where the current turn starts, or -1. */
  function Kickoff(conversation: seq<Message>): (k: int)
    ensures -1 <= k < |conversation|
  {
    if conversation == [] then -1
    else if IsKickoff(conversation[|conversation| - 1]) then |conversation| - 1
    else Kickoff(conversation[..|conversation| - 1])
  }

  function Turn(conversation: seq<Message>): seq<Content>
    requires Kickoff(conversation) >= 0
  {
    Contents(conversation[Kickoff(conversation)..])
  }

  predicate HasError(content: seq<Content>) {
    exists i :: 0 <= i < |content| && content[i].Error?
  }

  predicate TrailingError(conversation: seq<Message>) {
    conversation != [] && HasError(conversation[|conversation| - 1].content)
  }

  predicate ForAgent(c: Content) {
    match c
    case Text(_, audience) => audience.None? || Assistant in audience.value
    case Other(_, audience) => audience.None? || Assistant in audience.value
    case _ => true
  }

  /** What the provider may see of a message; of an earlier turn, only answered requests. */
  function Shown(content: seq<Content>, current: bool, answered: set<string>): seq<Content> {
    if content == [] then []
    else
      var init, c := content[..|content| - 1], content[|content| - 1];
      if ForAgent(c) && (current || !c.ToolRequest? || c.id in answered) then Shown(init, current, answered) + [c]
      else Shown(init, current, answered)
  }

  function View(conversation: seq<Message>, start: int, answered: set<string>): seq<Message> {
    if conversation == [] then []
    else
      var init, m := conversation[..|conversation| - 1], conversation[|conversation| - 1];
      var content := Shown(m.content, start <= |init|, answered);
      if m.agentVisible && content != [] then View(init, start, answered) + [m.(content := content)]
      else View(init, start, answered)
  }

  function MessagesForProvider(conversation: seq<Message>, start: int): seq<Message> {
    View(conversation, start, AnswerSet(Contents(conversation)))
  }

  predicate EndsWithProviderTurn(messages: seq<Message>) {
    messages != [] && messages[|messages| - 1].role.User?
  }

  /** Whether an inference would be made next. */
  predicate Applies(conversation: seq<Message>) {
    Kickoff(conversation) >= 0 && !TrailingError(conversation)
    && EndsWithProviderTurn(MessagesForProvider(conversation, Kickoff(conversation)))
  }

  // ---------- running tools ----------

  datatype Outcome = NotApplicable | Applied(messages: seq<Message>, handsBack: bool) | Failed

  /** An outcome, the time it was reached, and the ids of the tool calls that were started. */
  datatype Done = Done(outcome: Outcome, time: nat, started: seq<string>)

  function FromUser(content: seq<Content>): Message {
    Message(User, None, content, true, true, false, false)
  }

  function FromAssistant(content: seq<Content>): Message {
    Message(Assistant, None, content, true, true, false, false)
  }

  datatype Tally = Tally(responses: seq<Content>, started: seq<string>, cancelled: bool, time: nat)

  /** One request answered; once cancelled, nothing is started and the token not looked at again. */
  function Answer(tally: Tally, request: Content, cancelAt: nat): Tally
    requires request.ToolRequest?
  {
    var interrupted := tally.responses + [ToolResponse(request.id, Interrupted)];
    if tally.cancelled then tally.(responses := interrupted)
    else if tally.time >= cancelAt then
      tally.(responses := interrupted, cancelled := true, time := tally.time + 1)
    else if request.call.Malformed? then
      tally.(responses := tally.responses + [ToolResponse(request.id, BadArguments)], time := tally.time + 1)
    else if tally.time + 1 >= cancelAt then
      tally.(responses := interrupted, cancelled := true, time := tally.time + 2)
    else
      var started := tally.started + [request.id];
      if tally.time + 2 >= cancelAt then Tally(interrupted, started, true, tally.time + 3)
      else Tally(tally.responses + [ToolResponse(request.id, Output)], started, false, tally.time + 3)
  }

  function AnswerAll(requests: seq<Content>, cancelAt: nat, time: nat): Tally {
    if requests == [] then Tally([], [], false, time)
    else
      var before, r := AnswerAll(requests[..|requests| - 1], cancelAt, time), requests[|requests| - 1];
      if r.ToolRequest? then Answer(before, r, cancelAt) else before
  }

  function RunTools(w: World, conversation: seq<Message>, time: nat): Done {
    if Kickoff(conversation) < 0 then Done(Failed, time, [])
    else
      var pending := Pending(Turn(conversation));
      if pending == [] then Done(NotApplicable, time, [])
      else if time >= w.cancelAt then
        Done(Applied([FromUser(Responses(IdsOf(pending), Interrupted))], false), time + 1, [])
      else if !w.listing(time) then Done(Failed, time + 1, [])
      else
        var chosen := Dispatchable(pending, w.tools);
        if chosen == [] then Done(NotApplicable, time + 1, [])
        else
          var tally := AnswerAll(chosen, w.cancelAt, time + 1);
          Done(Applied([FromUser(tally.responses)], false), tally.time, tally.started)
  }

  // ---------- inference ----------

  datatype Ending = Exhausted | Cut | BrokeOff(kind: int)

  datatype Reception = Reception(items: seq<Item>, ending: Ending, time: nat)

  /** The chunks received before the stream ends, breaks off or is cut by cancellation. */
  function Receive(events: seq<Event>, received: seq<Item>, cancelAt: nat, time: nat): Reception
    decreases |events|
  {
    if time >= cancelAt then Reception(received, Cut, time + 1)
    else if events == [] then Reception(received, Exhausted, time + 1)
    else if events[0].Broken? then Reception(received, BrokeOff(events[0].kind), time + 1)
    else Receive(events[1..], received + [events[0].item], cancelAt, time + 1)
  }

  predicate SaysNothing(c: Content) {
    match c
    case Text(text, _) => Blank(text)
    case Thinking(thinking, _) => Blank(thinking)
    case _ => false
  }

  predicate AllSilent(content: seq<Content>) {
    forall i :: 0 <= i < |content| ==> SaysNothing(content[i])
  }

  predicate LimitReached(messages: seq<Message>) {
    exists i :: 0 <= i < |messages| && messages[i].limitReached
  }

  /** The message that answers everything outstanding, if anything is. */
  function Closing(turn: seq<Content>): seq<Message> {
    if Unanswered(turn) == [] then [] else [FromUser(Responses(Unanswered(turn), NotExecuted))]
  }

  function ErrorMessage(kind: int): Message {
    FromAssistant([Error(kind)])
  }

  function EmptyResponse(): Message {
    FromAssistant([Text("The model returned an empty response. Please resend your message to continue.", None)])
  }

  function Infer(w: World, conversation: seq<Message>, time: nat): Done
    requires Kickoff(conversation) >= 0
  {
    if !Applies(conversation) then Done(NotApplicable, time, [])
    else
      match w.provider(conversation)
      case Refused(kind) => Done(Applied([ErrorMessage(kind)], false), time, [])
      case Opened(events) =>
        Finish(conversation, Receive(events, [], w.cancelAt, time), w.cancelAt)
  }

  /** The accumulator, closed if cancellation is seen by the end of the stream. */
  function Filled(turn: seq<Content>, r: Reception, cancelAt: nat): seq<Message> {
    var accumulator := Collect(r.items).messages;
    if r.ending.Cut? || r.time >= cancelAt then accumulator + Closing(turn + Contents(accumulator))
    else accumulator
  }

  predicate IsEmptyResponse(messages: seq<Message>, ending: Ending) {
    !ending.Cut? && !LimitReached(messages) && AllSilent(Contents(messages))
  }

  function Finish(conversation: seq<Message>, r: Reception, cancelAt: nat): Done
    requires Kickoff(conversation) >= 0
  {
    if r.ending.BrokeOff? then
      Done(Applied(Collect(r.items).messages + [ErrorMessage(r.ending.kind)], false), r.time, [])
    else
      var time := if r.ending.Cut? then r.time else r.time + 1;
      var messages := Filled(Turn(conversation), r, cancelAt);
      if IsEmptyResponse(messages, r.ending) then Done(Applied([EmptyResponse()], true), time, [])
      else Done(Applied(messages, false), time, [])
  }

  /** What cancelling makes of an inference's result. */
  function CancelInference(conversation: seq<Message>, outcome: Outcome): Outcome {
    if !outcome.NotApplicable? then outcome
    else if Kickoff(conversation) < 0 then Failed
    else if Closing(Turn(conversation)) == [] then NotApplicable
    else Applied(Closing(Turn(conversation)), false)
  }

  // ---------- a step, and a run ----------

  function ToolStep(w: World, conversation: seq<Message>, time: nat): Done {
    var tools := ToolPhase(w, conversation, time);
    if tools.outcome.Failed? then tools else Settle(tools, w.cancelAt)
  }

  function ToolPhase(w: World, conversation: seq<Message>, time: nat): Done {
    if time >= w.cancelAt then Done(NotApplicable, time + 1, []) else RunTools(w, conversation, time + 1)
  }

  /** Applied at a moment seen as cancelled, a result handsBack to the client. */
  function Settle(done: Done, cancelAt: nat): Done {
    match done.outcome
    case Applied(messages, handsBack) =>
      Done(Applied(messages, handsBack || done.time >= cancelAt), done.time + 1, done.started)
    case _ => done.(time := done.time + 1)
  }

  function InferencePhase(w: World, conversation: seq<Message>, time: nat): Done {
    if time >= w.cancelAt then AfterInference(w, conversation, Done(NotApplicable, time + 1, []))
    else if !Applies(conversation) then Done(NotApplicable, time + 1, [])
    else if time + 1 >= w.cancelAt then Done(NotApplicable, time + 2, [])
    else if !w.listing(time + 1) then Done(Failed, time + 2, [])
    else if time + 2 >= w.cancelAt then Done(NotApplicable, time + 3, [])
    else InferAndSettle(w, conversation, time + 3)
  }

  function InferAndSettle(w: World, conversation: seq<Message>, time: nat): Done
    requires Kickoff(conversation) >= 0
  {
    AfterInference(w, conversation, Infer(w, conversation, time))
  }

  function AfterInference(w: World, conversation: seq<Message>, done: Done): Done {
    if done.outcome.Failed? then done
    else if done.time >= w.cancelAt then
      Settle(done.(outcome := CancelInference(conversation, done.outcome)), w.cancelAt)
    else Settle(done, w.cancelAt)
  }

  function Step(w: World, conversation: seq<Message>, time: nat): Done {
    var tools := ToolStep(w, conversation, time);
    if tools.outcome.NotApplicable? then InferencePhase(w, conversation, tools.time) else tools
  }

  datatype End = Running | Stopped | Yielded | Errored

  /** A run: how it ended, how many of its steps began cancelled, and the calls it started. */
  datatype Trace = Trace(conversation: seq<Message>, end: End, time: nat, late: nat, started: seq<string>)

  function StepOf(w: World): (seq<Message>, nat) -> Done {
    (conversation: seq<Message>, time: nat) => Step(w, conversation, time)
  }

  lemma StepOfAt(w: World, conversation: seq<Message>, time: nat)
    ensures StepOf(w)(conversation, time) == Step(w, conversation, time)
  {
  }

  /** A run of at most n steps. */
  function RunSteps(
    step: (seq<Message>, nat) -> Done, cancelAt: nat, conversation: seq<Message>, time: nat, n: nat): Trace
    decreases n
  {
    if n == 0 then Trace(conversation, Running, time, 0, [])
    else
      var done := step(conversation, time);
      var late := if time >= cancelAt then 1 else 0;
      match done.outcome
      case Failed => Trace(conversation, Errored, done.time, late, done.started)
      case NotApplicable => Trace(conversation, Stopped, done.time, late, done.started)
      case Applied(messages, handsBack) =>
        if handsBack then Trace(conversation + messages, Yielded, done.time, late, done.started)
        else
          var rest := RunSteps(step, cancelAt, conversation + messages, done.time, n - 1);
          rest.(late := rest.late + late, started := done.started + rest.started)
  }

  function Run(w: World, conversation: seq<Message>, time: nat, n: nat): Trace {
    RunSteps(StepOf(w), w.cancelAt, conversation, time, n)
  }
}
