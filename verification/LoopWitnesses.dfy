/** Runs of the agent loop that show how far its guarantees reach: one for each look at which a
    cancellation leaves a request open, and one that answers a request twice. */
module LoopWitnesses {
  import opened Wrappers
  import opened Messages
  import opened ToolThinking
  import opened ToolCalls
  import opened ReceivedCalls
  import opened AgentLoop
  import opened LoopSafety
  import opened LoopAnswers
  import opened LoopEnds

  // ---------- the setting ----------

  function Kick(): seq<Message> {
    [FromUser([Text("go", None)])]
  }

  /** A call of a tool that is there. */
  function Y(): Content {
    ToolRequest("y", Call("here"), false)
  }

  /** One that the provider made itself, or of a tool that is not there. */
  function X(external: bool): Content {
    ToolRequest("x", Call("gone"), external)
  }

  function Asks(content: seq<Content>): Event {
    Chunk(Item(FromAssistant(content), 1))
  }

  /** A request message as the accumulator keeps it. */
  function Asked(content: seq<Content>): Message {
    FromAssistant(content).(hasInference := true, id := Some(1))
  }

  /** Answers the kickoff with one reply, and anything later with another. */
  function Script(first: Reply, later: Reply): seq<Message> -> Reply {
    (conversation: seq<Message>) => if |conversation| == 1 then first else later
  }

  function Listing(): nat -> bool {
    (time: nat) => true
  }

  function Scripted(first: Reply, later: Reply, cancelAt: nat): World {
    World({"here"}, Listing(), Script(first, later), cancelAt)
  }

  function Answered(): Message {
    FromUser([ToolResponse("y", Output)])
  }

  /** After the provider asked, and after tools answered what they could. */
  function AfterAsking(external: bool): seq<Message> {
    Kick() + [Asked([X(external), Y()])]
  }

  function AfterAnswering(external: bool): seq<Message> {
    AfterAsking(external) + [Answered()]
  }

  // ---------- what the conversations hold ----------

  lemma KickApplies()
    ensures Kickoff(Kick()) == 0 && Turn(Kick()) == [Text("go", None)] && Applies(Kick())
  {
    var m := Kick()[0];
    var c := m.content[0];
    assert Kick()[..0] == [] && Kick()[0..] == Kick() && m.content[..0] == [];
    OneMessage(m);
    assert !HasToolResponse(m.content);
    assert !HasError(m.content);
    assert ForAgent(c);
    var answered := AnswerSet(Contents(Kick()));
    assert Shown([], true, answered) == [];
    assert Shown(m.content, true, answered) == [c];
    assert View([], 0, answered) == [];
  }

  lemma Goes()
    ensures var turn := [Text("go", None)];
            Answers(turn) == [] && RequestIds(turn) == {} && forall answered :: PendingFrom(turn, answered) == []
  {
    assert [Text("go", None)][..0] == [];
  }

  lemma OneRequest(request: Content, answered: set<string>)
    requires request.ToolRequest?
    ensures Answers([request]) == [] && RequestIds([request]) == {request.id}
    ensures PendingFrom([request], answered) == if Outstanding(request, answered) then [request] else []
    ensures Unseen([request], {}) == [request]
  {
    assert [request][..0] == [];
    assert Unseen([], {}) == [] && RequestIds([]) == {};
  }

  /** Two requests with different ids. */
  lemma TwoRequests(a: Content, b: Content, answered: set<string>)
    requires a.ToolRequest? && b.ToolRequest? && a.id != b.id
    ensures Answers([a, b]) == [] && RequestIds([a, b]) == {a.id, b.id}
    ensures PendingFrom([a, b], answered) == PendingFrom([a], answered) + PendingFrom([b], answered)
    ensures Unseen([a, b], {}) == [a, b]
  {
    assert [a, b] == [a] + [b];
    OneRequest(a, answered);
    OneRequest(b, answered);
    AnswersConcat([a], [b]);
    RequestIdsConcat([a], [b]);
    PendingConcat([a], [b], answered);
    FirstRequestsStay([a], b);
  }

  lemma OneResponse(id: string, answered: set<string>)
    ensures var content := [ToolResponse(id, Output)];
            Answers(content) == [id] && RequestIds(content) == {} && PendingFrom(content, answered) == []
            && HasToolResponse(content)
  {
    var content := [ToolResponse(id, Output)];
    assert content[..0] == [] && Answers([]) == [] && RequestIds([]) == {} && PendingFrom([], answered) == [];
    assert content[0].ToolResponse?;
  }

  lemma SetOf(ids: seq<string>, id: string)
    ensures ids == [] ==> (set i | i in ids) == {}
    ensures ids == [id] ==> (set i | i in ids) == {id}
  {
  }

  lemma TurnAfterAsking(external: bool)
    ensures var c, turn := AfterAsking(external), [Text("go", None)] + [X(external), Y()];
            Kickoff(c) == 0 && Turn(c) == turn && Answers(turn) == [] && RequestIds(turn) == {"x", "y"}
            && Pending(turn) == (if external then [Y()] else [X(external), Y()])
  {
    hide Answers, RequestIds, PendingFrom, Contents, Kickoff, Turn;
    var asked, turn := [X(external), Y()], [Text("go", None)] + [X(external), Y()];
    KickApplies();
    TurnGrows(Kick(), [Asked(asked)]);
    OneMessage(Asked(asked));
    Goes();
    TwoRequests(X(external), Y(), {});
    OneRequest(X(external), {});
    OneRequest(Y(), {});
    AnswersConcat([Text("go", None)], asked);
    RequestIdsConcat([Text("go", None)], asked);
    PendingConcat([Text("go", None)], asked, {});
    SetOf(Answers(turn), "");
  }

  lemma TurnAfterAnswering(external: bool)
    ensures var c, turn := AfterAnswering(external), Turn(AfterAsking(external)) + [ToolResponse("y", Output)];
            Kickoff(c) == 0 && Kickoff(AfterAsking(external)) == 0 && Turn(c) == turn
            && Answers(turn) == ["y"] && RequestIds(turn) == {"x", "y"}
            && Pending(turn) == (if external then [] else [X(external)])
  {
    hide Answers, RequestIds, PendingFrom, Contents, Kickoff, Turn;
    var asked, answer := [Text("go", None)] + [X(external), Y()], [ToolResponse("y", Output)];
    TurnAfterAsking(external);
    OneResponse("y", {"y"});
    TurnGrows(AfterAsking(external), [Answered()]);
    OneMessage(Answered());
    Goes();
    TwoRequests(X(external), Y(), {"y"});
    OneRequest(X(external), {"y"});
    OneRequest(Y(), {"y"});
    AnswersConcat(asked, answer);
    RequestIdsConcat(asked, answer);
    PendingConcat([Text("go", None)], [X(external), Y()], {"y"});
    PendingConcat(asked, answer, {"y"});
    SetOf(Answers(asked + answer), "y");
  }

  lemma OnlyYRuns(external: bool)
    ensures Dispatchable([Y()], {"here"}) == [Y()]
    ensures Dispatchable([X(external)], {"here"}) == [] && Dispatchable([X(external), Y()], {"here"}) == [Y()]
    ensures IdsOf([Y()]) == ["y"] && IdsOf([X(external)]) == ["x"]
  {
    var x, y := X(external), Y();
    NothingDispatchable();
    IdsSnoc([], x);
    IdsSnoc([], y);
    WhoRuns(external);
    hide Dispatchable, IdsOf, Runnable;
    DispatchableSnoc([], x, {"here"});
    DispatchableSnoc([], y, {"here"});
    DispatchableSnoc([x], y, {"here"});
    assert [] + [x] == [x] && [] + [y] == [y] && [x] + [y] == [x, y];
  }

  lemma WhoRuns(external: bool)
    ensures Runnable(Y(), {"here"}) && !Runnable(X(external), {"here"})
  {
    assert |"here"| == 4 && |"gone"| == 4 && "here"[0] != "gone"[0];
  }

  lemma NothingDispatchable()
    ensures Dispatchable([], {"here"}) == [] && IdsOf([]) == []
  {
  }

  lemma DispatchableSnoc(pending: seq<Content>, c: Content, tools: set<string>)
    ensures Dispatchable(pending + [c], tools) ==
            if Runnable(c, tools) then Dispatchable(pending, tools) + [c] else Dispatchable(pending, tools)
  {
    assert (pending + [c])[..|pending|] == pending;
  }

  /** Behind a tool response an inference applies. */
  lemma ResponseApplies(before: seq<Message>, m: Message)
    requires Kickoff(before + [m]) >= 0 && m.role.User? && m.agentVisible
    requires |m.content| == 1 && m.content[0].ToolResponse?
    ensures Applies(before + [m])
  {
    var conversation, k, c := before + [m], Kickoff(before + [m]), m.content[0];
    var answered := AnswerSet(Contents(conversation));
    assert conversation[..|conversation| - 1] == before;
    assert m.content == [c] && m.content[..0] == [];
    assert ForAgent(c);
    assert Shown([], k <= |before|, answered) == [];
    assert Shown(m.content, k <= |before|, answered) == [c];
    assert !HasError(m.content);
  }

  // ---------- steps ----------

  lemma CarriesItself(chunk: Message)
    requires HasToolRequest(chunk.content) && !HasThinking(chunk.content)
    ensures Cleared([], chunk) == [] && Carrying([], chunk) == chunk
  {
    hide HasThinking, HasToolRequest;
    assert StripEach([], chunk.role) == [] && NonEmpty([]) == [] && Prior([], chunk.role) == [];
    var k := FirstRequest(chunk.content);
    assert chunk.content[..k] + [] + chunk.content[k..] == chunk.content;
  }

  /** A stream that asks for these leaves one message in the accumulator. */
  lemma Collected(content: seq<Content>)
    requires HasToolRequest(content) && !HasThinking(content) && Unseen(content, {}) == content
    ensures Collect([Item(FromAssistant(content), 1)]).messages == [Asked(content)]
  {
    var item := Item(FromAssistant(content), 1);
    assert content != [];
    hide HasThinking, HasToolRequest, Cleared, Carrying, Unseen, RequestIds;
    assert [item][..0] == [];
    assert Collect([]) == Intake([], {});
    var chunk := Arriving(item, {});
    CarriesItself(chunk);
    assert [] + [Asked(content)] == [Asked(content)];
  }

  lemma RequestIsNotSilent(content: seq<Content>)
    requires HasToolRequest(content)
    ensures !IsEmptyResponse([Asked(content)], Exhausted)
  {
    OneMessage(Asked(content));
    var i :| 0 <= i < |content| && content[i].ToolRequest?;
    assert !SaysNothing(content[i]);
  }

  lemma ReceivesOne(content: seq<Content>, more: seq<Event>, cancelAt: nat, time: nat)
    requires time < cancelAt
    ensures Receive([Asks(content)] + more, [], cancelAt, time) ==
            Receive(more, [Item(FromAssistant(content), 1)], cancelAt, time + 1)
  {
    var events := [Asks(content)] + more;
    assert events[1..] == more && events[0] == Asks(content);
    assert [] + [Item(FromAssistant(content), 1)] == [Item(FromAssistant(content), 1)];
  }

  lemma FinishesAsking(conversation: seq<Message>, r: Reception, cancelAt: nat, content: seq<Content>)
    requires Kickoff(conversation) >= 0 && HasToolRequest(content)
    requires r.ending == Exhausted && r.time < cancelAt && Collect(r.items).messages == [Asked(content)]
    ensures Finish(conversation, r, cancelAt) == Done(Applied([Asked(content)], false), r.time + 1, [])
  {
    hide Collect, Kickoff, HasToolRequest, IsEmptyResponse;
    RequestIsNotSilent(content);
  }

  lemma AskingInference(w: World, conversation: seq<Message>, time: nat, content: seq<Content>)
    requires Applies(conversation) && w.provider(conversation) == Opened([Asks(content)]) && time + 2 < w.cancelAt
    requires HasToolRequest(content) && !HasThinking(content) && Unseen(content, {}) == content
    ensures Infer(w, conversation, time) == Done(Applied([Asked(content)], false), time + 3, [])
  {
    hide Collect, Finish, Unseen, HasToolRequest, HasThinking, EndsWithProviderTurn, TrailingError;
    var item := Item(FromAssistant(content), 1);
    Collected(content);
    ReceivesOne(content, [], w.cancelAt, time);
    assert [Asks(content)] + [] == [Asks(content)];
    assert Receive([], [item], w.cancelAt, time + 1) == Reception([item], Exhausted, time + 2);
    FinishesAsking(conversation, Reception([item], Exhausted, time + 2), w.cancelAt, content);
  }

  /** A step whose tools do not apply and whose inference asks for these. */
  lemma AskingStep(w: World, conversation: seq<Message>, time: nat, content: seq<Content>, idle: nat)
    requires Applies(conversation) && w.provider(conversation) == Opened([Asks(content)])
    requires RunTools(w, conversation, time + 1) == Done(NotApplicable, idle, []) && w.listing(idle + 2)
    requires time < idle && idle + 6 < w.cancelAt
    requires HasToolRequest(content) && !HasThinking(content) && Unseen(content, {}) == content
    ensures Step(w, conversation, time) ==
            Done(Applied([Asked(content)], idle + 7 >= w.cancelAt), idle + 8, [])
  {
    hide RunTools, Applies, Infer, HasToolRequest, HasThinking, Unseen;
    AskingInference(w, conversation, idle + 4, content);
    StepAfterTools(w, conversation, time);
  }

  lemma AnsweringStep(w: World, external: bool, time: nat)
    requires w.tools == {"here"} && w.listing(time + 1) && time + 4 < w.cancelAt
    ensures Step(w, AfterAsking(external), time) == Done(Applied([Answered()], time + 5 >= w.cancelAt), time + 6, ["y"])
  {
    hide Kickoff, Turn, Pending, Dispatchable, InferencePhase;
    var c := AfterAsking(external);
    TurnAfterAsking(external);
    OnlyYRuns(external);
    AnswersY(w.cancelAt, time + 2);
    assert RunTools(w, c, time + 1) == Done(Applied([Answered()], false), time + 5, ["y"]);
    StepAfterTools(w, c, time);
  }

  lemma AnswersY(cancelAt: nat, time: nat)
    requires time + 2 < cancelAt
    ensures AnswerAll([Y()], cancelAt, time) == Tally([ToolResponse("y", Output)], ["y"], false, time + 3)
  {
    assert [Y()][..0] == [];
    assert AnswerAll([], cancelAt, time) == Tally([], [], false, time);
    assert [] + [ToolResponse("y", Output)] == [ToolResponse("y", Output)] && [] + ["y"] == ["y"];
  }

  // ---------- runs, step by step ----------

  lemma RunGoesOn(w: World, conversation: seq<Message>, time: nat, n: nat)
    requires n > 0
    ensures var done, trace := Step(w, conversation, time), Run(w, conversation, time, n);
            match done.outcome
            case Failed => trace.end == Errored
            case NotApplicable => trace.end == Stopped && trace.conversation == conversation
            case Applied(messages, handsBack) =>
              if handsBack then trace.end == Yielded && trace.conversation == conversation + messages
              else trace.end == Run(w, conversation + messages, done.time, n - 1).end
                   && trace.conversation == Run(w, conversation + messages, done.time, n - 1).conversation
  {
    StepOfAt(w, conversation, time);
    hide Step, StepOf;
  }

  ghost predicate Uncancelled(w: World, first: seq<Content>, until: nat) {
    w.tools == {"here"} && (forall t :: w.listing(t)) && until < w.cancelAt
    && w.provider(Kick()) == Opened([Asks(first)])
  }

  lemma KickIsIdle(w: World)
    ensures RunTools(w, Kick(), 1) == Done(NotApplicable, 1, [])
  {
    KickApplies();
    Goes();
  }

  lemma AskingIsPlain(external: bool)
    ensures var content := [X(external), Y()];
            HasToolRequest(content) && !HasThinking(content) && Unseen(content, {}) == content
  {
    TwoRequests(X(external), Y(), {});
    assert [X(external), Y()][0].ToolRequest?;
  }

  /** Kickoff, a request that stays open, and the answer to another. */
  lemma RunToAsking(w: World, external: bool, n: nat)
    requires Uncancelled(w, [X(external), Y()], 8) && n > 0
    ensures Run(w, Kick(), 0, n).end == Run(w, AfterAsking(external), 9, n - 1).end
    ensures Run(w, Kick(), 0, n).conversation == Run(w, AfterAsking(external), 9, n - 1).conversation
  {
    hide RunTools, Applies, Unseen, HasThinking, HasToolRequest, Run, Step, X, Y;
    KickApplies();
    KickIsIdle(w);
    AskingIsPlain(external);
    AskingStep(w, Kick(), 0, [X(external), Y()], 1);
    RunGoesOn(w, Kick(), 0, n);
  }

  lemma RunToAnswering(w: World, external: bool, n: nat)
    requires Uncancelled(w, [X(external), Y()], 14) && n > 1
    ensures Run(w, Kick(), 0, n).end == Run(w, AfterAnswering(external), 15, n - 2).end
    ensures Run(w, Kick(), 0, n).conversation == Run(w, AfterAnswering(external), 15, n - 2).conversation
  {
    hide Run, Step, AfterAsking;
    RunToAsking(w, external, n);
    AnsweringStep(w, external, 9);
    RunGoesOn(w, AfterAsking(external), 9, n - 1);
  }

  // ---------- cancellations that leave a request open ----------

  predicate EndsOpen(w: World, conversation: seq<Message>, time: nat, n: nat) {
    var trace := Run(w, conversation, time, n);
    (trace.end.Stopped? || trace.end.Yielded?) && Kickoff(trace.conversation) >= 0 && !Closed(trace.conversation)
  }

  /** When the last step finds the cancellation at a look that does not close the turn. */
  lemma LastStepLeavesOpen(w: World, conversation: seq<Message>, time: nat, n: nat)
    requires WellBehaved(w) && Kickoff(conversation) >= 0 && n > 0
    requires time < w.cancelAt < Step(w, conversation, time).time && !ClosingLook(w, conversation, time)
    requires !Step(w, conversation, time).outcome.Failed?
    ensures EndsOpen(w, conversation, time, n)
  {
    hide Step, ClosingLook, Closed, Run, Kickoff;
    StepClosesExactly(w, conversation, time);
    StepFollows(w, conversation, time);
    RunGoesOn(w, conversation, time, n);
  }

  lemma XStaysOpen(external: bool)
    ensures var asking, answering := Turn(AfterAsking(external)), Turn(AfterAnswering(external));
            Kickoff(AfterAsking(external)) >= 0 && Kickoff(AfterAnswering(external)) >= 0
            && "x" in Unanswered(asking) && Unanswered(answering) != [] && !Covers(asking, ["y"])
  {
    TurnAfterAsking(external);
    TurnAfterAnswering(external);
    var asking, answering := Turn(AfterAsking(external)), Turn(AfterAnswering(external));
    OpenIdsExactly(asking, AnswerSet(asking));
    OpenIdsExactly(answering, AnswerSet(answering));
    assert "x" in Unanswered(answering);
  }

  lemma ScriptBehaves(first: Reply, later: Reply, cancelAt: nat)
    requires Behaves(first) && Behaves(later)
    ensures WellBehaved(Scripted(first, later, cancelAt))
  {
  }

  function Requests(external: bool): Reply {
    Opened([Asks([X(external), Y()])])
  }

  lemma RequestsBehave(external: bool, later: Reply, cancelAt: nat)
    requires Behaves(later)
    ensures WellBehaved(Scripted(Requests(external), later, cancelAt))
  {
    TwoRequests(X(external), Y(), {});
    hide X, Y;
    ScriptBehaves(Requests(external), later, cancelAt);
  }

  lemma ListingLook(w: World)
    requires w.tools == {"here"} && w.cancelAt == 10
    ensures var c, done := AfterAsking(true), Step(w, AfterAsking(true), 9);
            done.time == 12 && done.outcome.Applied? && Kickoff(c) >= 0 && !ClosingLook(w, c, 9)
  {
    hide Kickoff, Turn, Pending, Dispatchable, Covers, PhaseCloses, InferencePhase, Unanswered, X, Y;
    var c := AfterAsking(true);
    XStaysOpen(true);
    TurnAfterAsking(true);
    OnlyYRuns(true);
    StepAfterTools(w, c, 9);
    assert Choice(w, Turn(c), 10) == [Y()];
  }

  /** Found while tools are listed: everything pending is answered, an external request is not. */
  lemma ListingLeavesExternalOpen(later: Reply, n: nat)
    requires Behaves(later) && n > 1
    ensures WellBehaved(Scripted(Requests(true), later, 10))
    ensures EndsOpen(Scripted(Requests(true), later, 10), Kick(), 0, n)
  {
    hide Run, Step, ClosingLook, WellBehaved, Kickoff, Closed;
    var w, c := Scripted(Requests(true), later, 10), AfterAsking(true);
    RequestsBehave(true, later, 10);
    ListingLook(w);
    LastStepLeavesOpen(w, c, 9, n - 1);
    RunToAsking(w, true, n);
  }

  lemma DispatchLook(w: World)
    requires w.tools == {"here"} && w.listing(10) && w.cancelAt == 12
    ensures var c, done := AfterAsking(false), Step(w, AfterAsking(false), 9);
            done.time == 14 && done.outcome.Applied? && Kickoff(c) >= 0 && !ClosingLook(w, c, 9)
  {
    hide Kickoff, Turn, Pending, Dispatchable, Covers, PhaseCloses, InferencePhase, Unanswered;
    var c := AfterAsking(false);
    XStaysOpen(false);
    TurnAfterAsking(false);
    OnlyYRuns(false);
    DispatchTime();
    hide AnswerAll;
    StepAfterTools(w, c, 9);
    assert Choice(w, Turn(c), 10) == [Y()];
  }

  lemma DispatchTime()
    ensures AnswerAll([Y()], 12, 11).time == 13
  {
    assert [Y()][..0] == [] && AnswerAll([], 12, 11) == Tally([], [], false, 11);
  }

  /** Found while calls are dispatched: what can be dispatched is answered, a call of a tool that
      is not there is not. */
  lemma DispatchLeavesUnavailableOpen(later: Reply, n: nat)
    requires Behaves(later) && n > 1
    ensures WellBehaved(Scripted(Requests(false), later, 12))
    ensures EndsOpen(Scripted(Requests(false), later, 12), Kick(), 0, n)
  {
    hide Run, Step, ClosingLook, WellBehaved, Kickoff, Closed;
    var w, c := Scripted(Requests(false), later, 12), AfterAsking(false);
    RequestsBehave(false, later, 12);
    DispatchLook(w);
    LastStepLeavesOpen(w, c, 9, n - 1);
    RunToAsking(w, false, n);
  }

  lemma ThirdStepIsIdle(w: World, external: bool)
    requires w.tools == {"here"} && (forall t :: w.listing(t)) && w.cancelAt > 16
    ensures RunTools(w, AfterAnswering(external), 16) == Done(NotApplicable, if external then 16 else 17, [])
    ensures Applies(AfterAnswering(external)) && Kickoff(AfterAnswering(external)) == 0
    ensures Pending(Turn(AfterAnswering(external))) == (if external then [] else [X(external)])
    ensures Choice(w, Turn(AfterAnswering(external)), 16) == []
  {
    TurnAfterAnswering(external);
    OnlyYRuns(external);
    NothingDispatchable();
    ResponseApplies(AfterAsking(external), Answered());
  }

  /** Found while tools are gathered for the next inference: the run stops as it stands. */
  lemma GatheringLeavesOpen(later: Reply, n: nat)
    requires Behaves(later) && n > 2
    ensures WellBehaved(Scripted(Requests(false), later, 19))
    ensures EndsOpen(Scripted(Requests(false), later, 19), Kick(), 0, n)
  {
    var w, c := Scripted(Requests(false), later, 19), AfterAnswering(false);
    RequestsBehave(false, later, 19);
    XStaysOpen(false);
    ThirdStepIsIdle(w, false);
    hide Run, RunTools, Kickoff, Turn, Pending, Choice, Applies, WellBehaved, Closed, Unanswered, InferAndSettle;
    StepAfterTools(w, c, 15);
    LastStepLeavesOpen(w, c, 15, n - 2);
    RunToAnswering(w, false, n);
  }

  /** Found by the machine after the provider refused: nothing is closed. */
  lemma RefusalLeavesOpen(kind: int, n: nat)
    requires n > 2
    ensures WellBehaved(Scripted(Requests(false), Refused(kind), 21))
    ensures EndsOpen(Scripted(Requests(false), Refused(kind), 21), Kick(), 0, n)
  {
    var w, c := Scripted(Requests(false), Refused(kind), 21), AfterAnswering(false);
    RequestsBehave(false, Refused(kind), 21);
    XStaysOpen(false);
    ThirdStepIsIdle(w, false);
    assert |c| == 3;
    hide Run, RunTools, Kickoff, Turn, Pending, Choice, Applies, WellBehaved, Closed, Unanswered;
    StepAfterTools(w, c, 15);
    assert Step(w, c, 15).outcome.Applied? && Step(w, c, 15).time == 22;
    LastStepLeavesOpen(w, c, 15, n - 2);
    RunToAnswering(w, false, n);
  }

  lemma StreamedOne(content: seq<Content>)
    ensures Streamed([Item(FromAssistant(content), 1)]) == content
  {
    assert [Item(FromAssistant(content), 1)][..0] == [];
    assert Streamed([]) == [] && [] + content == content;
  }

  lemma AsksNewly(external: bool)
    ensures !AsksNothingNew(Turn(Kick()), [Item(FromAssistant([X(external), Y()]), 1)])
  {
    KickApplies();
    Goes();
    StreamedOne([X(external), Y()]);
    TwoRequests(X(external), Y(), {});
    SetOf(Answers(Turn(Kick())), "");
    assert "x" in RequestIds(Streamed([Item(FromAssistant([X(external), Y()]), 1)]));
  }

  lemma LateLook(w: World)
    requires w.provider(Kick()) == Requests(false) && w.cancelAt == 8 && (forall t :: w.listing(t))
    ensures Step(w, Kick(), 0).outcome.Applied? && Step(w, Kick(), 0).time == 9 && !ClosingLook(w, Kick(), 0)
  {
    hide RunTools, Applies, HasToolRequest, HasThinking, Unseen, AsksNothingNew, X, Y;
    KickApplies();
    KickIsIdle(w);
    AskingIsPlain(false);
    AskingStep(w, Kick(), 0, [X(false), Y()], 1);
    AsksNewly(false);
    ReceivesOne([X(false), Y()], [], 8, 5);
    assert [Asks([X(false), Y()])] + [] == [Asks([X(false), Y()])];
    assert Receive([], [Item(FromAssistant([X(false), Y()]), 1)], 8, 6).time == 7;
    Goes();
    hide Step;
  }

  /** Found by the machine after the stream: the requests of the stream stay open. */
  lemma LateCancellationLeavesOpen(later: Reply, n: nat)
    requires Behaves(later) && n > 0
    ensures WellBehaved(Scripted(Requests(false), later, 8))
    ensures EndsOpen(Scripted(Requests(false), later, 8), Kick(), 0, n)
  {
    KickApplies();
    hide Run, Step, ClosingLook, WellBehaved, Kickoff, Closed, Applies;
    RequestsBehave(false, later, 8);
    LateLook(Scripted(Requests(false), later, 8));
    LastStepLeavesOpen(Scripted(Requests(false), later, 8), Kick(), 0, n);
  }

  function BrokenReply(kind: int): Reply {
    Opened([Asks([X(false), Y()])] + [Broken(kind)])
  }

  lemma BrokenLook(w: World, kind: int)
    requires w.provider(Kick()) == BrokenReply(kind) && w.cancelAt == 7 && (forall t :: w.listing(t))
    ensures Step(w, Kick(), 0).outcome.Applied? && Step(w, Kick(), 0).time == 8 && !ClosingLook(w, Kick(), 0)
  {
    hide RunTools, Applies, AsksNothingNew, X, Y, Collect;
    var item := Item(FromAssistant([X(false), Y()]), 1);
    KickApplies();
    KickIsIdle(w);
    Goes();
    AsksNewly(false);
    ReceivesOne([X(false), Y()], [Broken(kind)], 7, 5);
    assert Receive([Broken(kind)], [item], 7, 6) == Reception([item], BrokeOff(kind), 7);
    assert Infer(w, Kick(), 5).outcome.Applied? && Infer(w, Kick(), 5).time == 7;
    hide Infer, Receive;
    StepAfterTools(w, Kick(), 0);
  }

  /** Found by the machine after a stream that broke off: its requests stay open. */
  lemma BrokenStreamLeavesOpen(kind: int, later: Reply, n: nat)
    requires Behaves(later) && n > 0
    ensures WellBehaved(Scripted(BrokenReply(kind), later, 7))
    ensures EndsOpen(Scripted(BrokenReply(kind), later, 7), Kick(), 0, n)
  {
    KickApplies();
    TwoRequests(X(false), Y(), {});
    ScriptBehaves(BrokenReply(kind), later, 7);
    hide Run, Step, ClosingLook, WellBehaved, Kickoff, Closed, Applies;
    BrokenLook(Scripted(BrokenReply(kind), later, 7), kind);
    LastStepLeavesOpen(Scripted(BrokenReply(kind), later, 7), Kick(), 0, n);
  }

  // ---------- an id that is answered twice ----------

  function Again(): Reply {
    Opened([Asks([X(false)])])
  }

  function AfterReuse(): seq<Message> {
    AfterAnswering(false) + [Asked([X(false)])]
  }

  lemma TurnAfterReuse()
    ensures var turn := Turn(AfterAnswering(false)) + [X(false)];
            Kickoff(AfterAnswering(false)) == 0 && Kickoff(AfterReuse()) == 0 && Turn(AfterReuse()) == turn
            && Answers(turn) == ["y"] && IdsOf(Pending(turn)) == ["x", "x"]
  {
    hide Answers, RequestIds, PendingFrom, Contents, Kickoff, Turn;
    TurnAfterAnswering(false);
    var x, before := X(false), Turn(AfterAnswering(false));
    TurnGrows(AfterAnswering(false), [Asked([x])]);
    OneMessage(Asked([x]));
    OneRequest(x, {"y"});
    AnswersConcat(before, [x]);
    PendingConcat(before, [x], {"y"});
    SetOf(Answers(before), "y");
    SetOf(Answers(before + [x]), "y");
    assert ["y"] + [] == ["y"];
    OnlyYRuns(false);
    IdsConcat([x], [x]);
    assert ["x"] + ["x"] == ["x", "x"];
  }

  lemma LastStepAnswersTwice(w: World)
    requires w.cancelAt == 26
    ensures Step(w, AfterReuse(), 25).outcome == Applied([FromUser(Responses(["x", "x"], Interrupted))], true)
  {
    hide Kickoff, Turn, Pending, InferencePhase, Responses;
    TurnAfterReuse();
    assert IdsOf([]) == [];
    hide IdsOf;
    StepAfterTools(w, AfterReuse(), 25);
  }

  lemma AskingAgainBehaves()
    ensures WellBehaved(Scripted(Requests(false), Again(), 26))
  {
    OneRequest(X(false), {});
    RequestsBehave(false, Again(), 26);
  }

  /** The provider asks for X, which stays open, and Y, which is answered; then it asks for X again,
      and tools are cancelled while they are listed. */
  lemma ReusedIdIsAnsweredTwice(n: nat)
    requires n > 3
    ensures var w := Scripted(Requests(false), Again(), 26);
            var trace := Run(w, Kick(), 0, n);
            WellBehaved(w) && trace.end.Yielded? && Kickoff(trace.conversation) >= 0
            && Answers(Turn(trace.conversation)) == ["y", "x", "x"]
  {
    var w := Scripted(Requests(false), Again(), 26);
    AskingAgainBehaves();
    ReuseStep(w);
    LastStepAnswersTwice(w);
    hide Run, Step, WellBehaved, Kickoff, Turn, Answers, X, Y, AfterReuse, AfterAnswering, Scripted, Requests, Again;
    RunToAnswering(w, false, n);
    RunGoesOn(w, AfterAnswering(false), 15, n - 2);
    RunGoesOn(w, AfterReuse(), 25, n - 3);
    TwiceAnswered();
  }

  lemma ReuseStep(w: World)
    requires w == Scripted(Requests(false), Again(), 26)
    ensures Step(w, AfterAnswering(false), 15) == Done(Applied([Asked([X(false)])], false), 25, [])
    ensures AfterAnswering(false) + [Asked([X(false)])] == AfterReuse()
  {
    var x := X(false);
    ThirdStepIsIdle(w, false);
    OneRequest(x, {});
    assert [x][0].ToolRequest? && !HasThinking([x]);
    assert |AfterAnswering(false)| == 3;
    hide RunTools, Applies, HasToolRequest, HasThinking, Unseen, X, Y, AfterAnswering;
    AskingStep(w, AfterAnswering(false), 15, [x], 17);
  }

  lemma TwiceAnswered()
    ensures var c := AfterReuse() + [FromUser(Responses(["x", "x"], Interrupted))];
            Kickoff(c) >= 0 && Answers(Turn(c)) == ["y", "x", "x"]
  {
    var content := Responses(["x", "x"], Interrupted);
    TurnAfterReuse();
    ResponsesAnswer(["x", "x"], Interrupted);
    AnswersFromUser(content);
    hide Answers, RequestIds, PendingFrom, Kickoff, Turn, Responses;
    TurnGrows(AfterReuse(), [FromUser(content)]);
    OneMessage(FromUser(content));
    AnswersConcat(Turn(AfterReuse()), content);
    assert ["y"] + ["x", "x"] == ["y", "x", "x"];
  }
}
