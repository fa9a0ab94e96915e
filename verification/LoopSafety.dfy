/** What every run of the agent loop keeps: one answer for each request, nothing dispatchable left
    behind, and an orderly end after cancellation. */
module LoopSafety {
  import opened Wrappers
  import opened Messages
  import opened ToolThinking
  import opened ToolCalls
  import opened ReceivedCalls
  import opened AgentLoop

  // ---------- the turn only grows ----------

  predicate NoKickoff(messages: seq<Message>) {
    forall i :: 0 <= i < |messages| ==> !IsKickoff(messages[i])
  }

  lemma {:induction false} KickoffStays(conversation: seq<Message>, more: seq<Message>)
    requires NoKickoff(more)
    ensures Kickoff(conversation + more) == Kickoff(conversation)
  {
    if more == [] {
      assert conversation + more == conversation;
    } else {
      var init, m := more[..|more| - 1], more[|more| - 1];
      KickoffStays(conversation, init);
      assert conversation + more == (conversation + init) + [m];
      assert (conversation + more)[..|conversation + more| - 1] == conversation + init;
      assert !IsKickoff(more[|more| - 1]);
    }
  }

  lemma TurnGrows(conversation: seq<Message>, more: seq<Message>)
    requires Kickoff(conversation) >= 0 && NoKickoff(more)
    ensures Kickoff(conversation + more) == Kickoff(conversation)
    ensures Turn(conversation + more) == Turn(conversation) + Contents(more)
  {
    KickoffStays(conversation, more);
    var k := Kickoff(conversation);
    assert (conversation + more)[k..] == conversation[k..] + more;
    ContentsConcat(conversation[k..], more);
  }

  lemma OneMessage(m: Message)
    ensures Contents([m]) == m.content
  {
    assert [m][..0] == [];
    assert Contents([]) == [];
  }

  // ---------- answering ----------

  predicate AllResponses(content: seq<Content>) {
    forall i :: 0 <= i < |content| ==> content[i].ToolResponse?
  }

  lemma {:induction false} ResponsesAskNothing(content: seq<Content>, answered: set<string>)
    requires AllResponses(content)
    ensures RequestIds(content) == {} && PendingFrom(content, answered) == [] && |Answers(content)| == |content|
  {
    if content != [] {
      ResponsesAskNothing(content[..|content| - 1], answered);
    }
  }

  predicate AllRequests(content: seq<Content>) {
    forall i :: 0 <= i < |content| ==> content[i].ToolRequest?
  }

  lemma {:induction false} PendingAreRequests(content: seq<Content>, answered: set<string>)
    ensures AllRequests(PendingFrom(content, answered))
  {
    if content != [] {
      PendingAreRequests(content[..|content| - 1], answered);
    }
  }

  lemma {:induction false} DispatchableAreRequests(pending: seq<Content>, tools: set<string>)
    ensures AllRequests(Dispatchable(pending, tools))
  {
    if pending != [] {
      DispatchableAreRequests(pending[..|pending| - 1], tools);
    }
  }

  lemma AnswersSnoc(content: seq<Content>, id: string, outcome: Messages.Outcome)
    ensures Answers(content + [ToolResponse(id, outcome)]) == Answers(content) + [id]
  {
    assert (content + [ToolResponse(id, outcome)])[..|content|] == content;
  }

  lemma AnswerAppends(tally: Tally, request: Content, cancelAt: nat)
    requires request.ToolRequest?
    ensures var n, after := |tally.responses|, Answer(tally, request, cancelAt).responses;
            |after| == n + 1 && after[n].ToolResponse?
            && after == tally.responses + [ToolResponse(request.id, after[n].outcome)]
  {
  }

  lemma OneMoreAnswer(tally: Tally, request: Content, cancelAt: nat)
    requires request.ToolRequest? && AllResponses(tally.responses)
    ensures var after := Answer(tally, request, cancelAt);
            AllResponses(after.responses) && Answers(after.responses) == Answers(tally.responses) + [request.id]
  {
    AnswerAppends(tally, request, cancelAt);
    AnswersSnoc(tally.responses, request.id,
                Answer(tally, request, cancelAt).responses[|tally.responses|].outcome);
  }

  /** Whatever is cancelled when, every request is answered, in order. */
  lemma {:induction false} AllAreAnswered(requests: seq<Content>, cancelAt: nat, time: nat)
    requires AllRequests(requests)
    ensures var tally := AnswerAll(requests, cancelAt, time);
            AllResponses(tally.responses) && Answers(tally.responses) == IdsOf(requests)
    ensures |IdsOf(requests)| == |requests|
  {
    if requests != [] {
      var init := requests[..|requests| - 1];
      AllAreAnswered(init, cancelAt, time);
      OneMoreAnswer(AnswerAll(init, cancelAt, time), requests[|requests| - 1], cancelAt);
    }
  }

  lemma {:induction false} AnswersFromUser(content: seq<Content>)
    requires Answers(content) != []
    ensures HasToolResponse(content)
  {
    var last := |content| - 1;
    if !content[last].ToolResponse? {
      AnswersFromUser(content[..last]);
      var i :| 0 <= i < last && content[..last][i].ToolResponse?;
      assert content[i].ToolResponse?;
    }
  }

  /** The message appended to answer these ids. */
  predicate AnswersExactly(messages: seq<Message>, ids: seq<string>) {
    |messages| == 1 && messages[0].role.User? && AllResponses(messages[0].content)
    && Answers(messages[0].content) == ids && ids != []
  }

  /** When tools apply, they answer all pending requests, or all dispatchable ones; when they do
      not, nothing is dispatchable or the token was found cancelled. */
  lemma ToolsAnswer(w: World, conversation: seq<Message>, time: nat)
    requires Kickoff(conversation) >= 0
    ensures var done, pending := RunTools(w, conversation, time), Pending(Turn(conversation));
            match done.outcome
            case Applied(messages, handsBack) =>
              !handsBack
              && AnswersExactly(messages, IdsOf(if time >= w.cancelAt then pending else Dispatchable(pending, w.tools)))
            case NotApplicable => Dispatchable(pending, w.tools) == []
            case Failed => true
    ensures RunTools(w, conversation, time).time >= time
  {
    var turn := Turn(conversation);
    var pending := Pending(turn);
    var chosen := Dispatchable(pending, w.tools);
    PendingAreRequests(turn, AnswerSet(turn));
    DispatchableAreRequests(pending, w.tools);
    AllAreAnswered(pending, w.cancelAt, time);
    AllAreAnswered(chosen, w.cancelAt, time + 1);
    ResponsesAnswer(IdsOf(pending), Interrupted);
    TimePasses(chosen, w.cancelAt, time + 1);
  }

  lemma {:induction false} TimePasses(requests: seq<Content>, cancelAt: nat, time: nat)
    ensures AnswerAll(requests, cancelAt, time).time >= time
  {
    if requests != [] {
      TimePasses(requests[..|requests| - 1], cancelAt, time);
    }
  }

  // ---------- what a stream may bring ----------

  /** The provider speaks as the assistant and answers no tool call. */
  predicate Proper(item: Item) {
    item.message.role.Assistant? && Answers(item.message.content) == []
  }

  predicate Behaves(reply: Reply) {
    reply.Opened? ==>
      forall i :: 0 <= i < |reply.events| && reply.events[i].Chunk? ==> Proper(reply.events[i].item)
  }

  ghost predicate WellBehaved(w: World) {
    forall conversation :: Behaves(w.provider(conversation))
  }

  predicate AllProper(items: seq<Item>) {
    forall i :: 0 <= i < |items| ==> Proper(items[i])
  }

  /** A chunk that reuses no id of a pending request. */
  predicate Fresh(item: Item, turn: seq<Content>) {
    forall id :: id in RequestIds(item.message.content) ==> id !in IdsOf(Pending(turn))
  }

  predicate AllFresh(items: seq<Item>, turn: seq<Content>) {
    forall i :: 0 <= i < |items| ==> Fresh(items[i], turn)
  }

  predicate FreshReply(reply: Reply, turn: seq<Content>) {
    reply.Opened? ==>
      forall i :: 0 <= i < |reply.events| && reply.events[i].Chunk? ==> Fresh(reply.events[i].item, turn)
  }

  lemma {:induction false} ReceivedIsProper(
    events: seq<Event>, received: seq<Item>, cancelAt: nat, time: nat, turn: seq<Content>)
    requires AllProper(received)
    requires forall i :: 0 <= i < |events| && events[i].Chunk? ==> Proper(events[i].item)
    ensures AllProper(Receive(events, received, cancelAt, time).items)
    ensures AllFresh(received, turn) && FreshReply(Opened(events), turn) ==>
              AllFresh(Receive(events, received, cancelAt, time).items, turn)
    decreases |events|
  {
    if time < cancelAt && events != [] && events[0].Chunk? {
      ReceivedIsProper(events[1..], received + [events[0].item], cancelAt, time + 1, turn);
    }
  }

  lemma {:induction false} ReceivingTakesTime(events: seq<Event>, received: seq<Item>, cancelAt: nat, time: nat)
    ensures Receive(events, received, cancelAt, time).time > time
    decreases |events|
  {
    if time < cancelAt && events != [] && events[0].Chunk? {
      ReceivingTakesTime(events[1..], received + [events[0].item], cancelAt, time + 1);
    }
  }

  lemma {:induction false} StreamedProperly(items: seq<Item>)
    requires AllProper(items)
    ensures Answers(Streamed(items)) == []
  {
    if items != [] {
      var init, m := items[..|items| - 1], items[|items| - 1].message;
      StreamedProperly(init);
      AnswersConcat(Streamed(init), m.content);
    }
  }

  lemma {:induction false} StreamedFreshly(items: seq<Item>, turn: seq<Content>)
    requires AllFresh(items, turn)
    ensures forall id :: id in RequestIds(Streamed(items)) ==> id !in IdsOf(Pending(turn))
  {
    if items != [] {
      var init, m := items[..|items| - 1], items[|items| - 1].message;
      StreamedFreshly(init, turn);
      RequestIdsConcat(Streamed(init), m.content);
    }
  }

  // ---------- one step ----------

  /** The messages a step appends leave the kickoff in place, answer nobody twice unless `ids`
      repeat one, and leave pending ids distinct if the provider reused none. */
  predicate Extends(turn: seq<Content>, messages: seq<Message>, ids: seq<string>, newIds: bool) {
    NoKickoff(messages)
    && (Distinct(Answers(turn + Contents(messages))) <==> Distinct(Answers(turn)) && Distinct(ids))
    && (newIds && PendingDistinct(turn) ==> PendingDistinct(turn + Contents(messages)))
  }

  /** An accumulator answers nobody, and holds each id it requests once. */
  lemma AccumulatorExtends(items: seq<Item>, turn: seq<Content>)
    requires AllProper(items)
    ensures Extends(turn, Collect(items).messages, [], AllFresh(items, turn))
  {
    var received := Contents(Collect(items).messages);
    StreamsSettle(items, Assistant);
    StreamedProperly(items);
    StreamedCalls(items);
    PendingNotAnswered(received, {});
    AnsweringOnceExactly(turn, received);
    if AllFresh(items, turn) && PendingDistinct(turn) {
      StreamedFreshly(items, turn);
      ReceivingKeepsPending(turn, received);
    }
  }

  lemma AnswersExtend(turn: seq<Content>, messages: seq<Message>, ids: seq<string>)
    requires AnswersExactly(messages, ids)
    requires forall id :: id in ids ==> id !in AnswerSet(turn)
    ensures Extends(turn, messages, ids, true)
  {
    var content := messages[0].content;
    assert messages == [messages[0]];
    OneMessage(messages[0]);
    AnswersFromUser(content);
    forall answered
      ensures PendingFrom(content, answered) == []
    {
      ResponsesAskNothing(content, answered);
    }
    AnsweringOnceExactly(turn, content);
    if PendingDistinct(turn) {
      AnsweringKeepsPending(turn, content);
    }
  }

  lemma ClosingExtends(turn: seq<Content>)
    ensures Extends(turn, Closing(turn), [], true)
    ensures Unanswered(turn + Contents(Closing(turn))) == []
  {
    hide PendingFrom, RequestIds, OpenIds, Answers;
    var ids := Unanswered(turn);
    if ids == [] {
      assert turn + Contents(Closing(turn)) == turn;
    } else {
      var content := Responses(ids, NotExecuted);
      ResponsesAnswer(ids, NotExecuted);
      AnswersFromUser(content);
      OneMessage(FromUser(content));
      ClosingLeavesNothing(turn);
      NoneIsDistinct();
    }
  }

  lemma NoneIsDistinct()
    ensures Distinct(IdsOf([])) && Distinct([])
  {
  }

  lemma PlainMessageExtends(turn: seq<Content>, m: Message)
    requires m.role.Assistant? && |m.content| == 1 && !Speaks(m.content[0])
    ensures Extends(turn, [m], [], true)
    ensures Pending(turn + Contents([m])) == Pending(turn)
  {
    var c := m.content[0];
    assert m.content == [c] && [c][..0] == [];
    OneMessage(m);
    assert Answers([c]) == Answers([]) == [];
    assert PendingFrom([c], AnswerSet(turn)) == PendingFrom([], AnswerSet(turn)) == [];
    AnswersConcat(turn, [c]);
    PendingConcat(turn, [c], AnswerSet(turn));
    assert Answers(turn) + [] == Answers(turn);
    assert Pending(turn) + [] == Pending(turn);
  }

  lemma BothExtend(turn: seq<Content>, a: seq<Message>, b: seq<Message>, newIds: bool)
    requires Extends(turn, a, [], newIds) && Extends(turn + Contents(a), b, [], true)
    ensures Extends(turn, a + b, [], newIds)
    ensures turn + Contents(a + b) == (turn + Contents(a)) + Contents(b)
  {
    ContentsConcat(a, b);
    Assoc(turn, Contents(a), Contents(b));
  }

  /** The requests tools choose to answer: all that are pending if the token is found cancelled
      while tools are listed, the dispatchable ones otherwise. */
  function Choice(w: World, turn: seq<Content>, time: nat): seq<Content> {
    if time >= w.cancelAt then Pending(turn) else Dispatchable(Pending(turn), w.tools)
  }

  /** Running tools answers nobody twice exactly when the chosen requests have distinct ids. */
  lemma ToolsAnswerOnceExactly(w: World, conversation: seq<Message>, time: nat)
    requires Kickoff(conversation) >= 0
    ensures var done, turn := RunTools(w, conversation, time), Turn(conversation);
            done.outcome.Applied? ==>
              Extends(turn, done.outcome.messages, IdsOf(Choice(w, turn, time)), true)
              && (Distinct(Answers(turn + Contents(done.outcome.messages)))
                  <==> Distinct(Answers(turn)) && Distinct(IdsOf(Choice(w, turn, time))))
  {
    var turn := Turn(conversation);
    var pending, done := Pending(turn), RunTools(w, conversation, time);
    ToolsAnswer(w, conversation, time);
    PendingNotAnswered(turn, AnswerSet(turn));
    DispatchableIds(pending, w.tools);
    if done.outcome.Applied? {
      AnswersExtend(turn, done.outcome.messages, IdsOf(Choice(w, turn, time)));
    }
  }

  lemma FinishExtends(conversation: seq<Message>, r: Reception, cancelAt: nat)
    requires Kickoff(conversation) >= 0 && AllProper(r.items)
    ensures var done, turn := Finish(conversation, r, cancelAt), Turn(conversation);
            done.outcome.Applied? && done.time >= r.time
            && Extends(turn, done.outcome.messages, [], AllFresh(r.items, turn))
  {
    AccumulatorExtends(r.items, Turn(conversation));
    AccumulatorEnds(Turn(conversation), Collect(r.items).messages, r.ending, AllFresh(r.items, Turn(conversation)));
  }

  /** Every way an accumulator is finished. */
  lemma AccumulatorEnds(turn: seq<Content>, acc: seq<Message>, ending: Ending, newIds: bool)
    requires Extends(turn, acc, [], newIds)
    ensures ending.BrokeOff? ==> Extends(turn, acc + [ErrorMessage(ending.kind)], [], newIds)
    ensures Extends(turn, acc + Closing(turn + Contents(acc)), [], newIds)
    ensures Extends(turn, [EmptyResponse()], [], true)
  {
    var now := turn + Contents(acc);
    if ending.BrokeOff? {
      PlainMessageExtends(now, ErrorMessage(ending.kind));
      BothExtend(turn, acc, [ErrorMessage(ending.kind)], newIds);
    }
    ClosingExtends(now);
    BothExtend(turn, acc, Closing(now), newIds);
    PlainMessageExtends(turn, EmptyResponse());
  }

  /** What an inference leaves: no answers but those that close the turn. */
  predicate InferenceKeeps(w: World, conversation: seq<Message>, done: Done)
    requires Kickoff(conversation) >= 0
  {
    var turn := Turn(conversation);
    done.outcome.Applied? ==> Extends(turn, done.outcome.messages, [], FreshReply(w.provider(conversation), turn))
  }

  lemma InferenceExtends(w: World, conversation: seq<Message>, time: nat)
    requires Kickoff(conversation) >= 0 && Behaves(w.provider(conversation))
    ensures var done := Infer(w, conversation, time);
            !done.outcome.Failed? && done.time >= time && InferenceKeeps(w, conversation, done)
  {
    if Applies(conversation) {
      var turn := Turn(conversation);
      match w.provider(conversation)
      case Refused(kind) =>
        PlainMessageExtends(turn, ErrorMessage(kind));
      case Opened(events) =>
        ReceivedIsProper(events, [], w.cancelAt, time, turn);
        ReceivingTakesTime(events, [], w.cancelAt, time);
        FinishExtends(conversation, Receive(events, [], w.cancelAt, time), w.cancelAt);
    }
  }

  lemma CancellingExtends(w: World, conversation: seq<Message>, done: Done)
    requires Kickoff(conversation) >= 0 && InferenceKeeps(w, conversation, done)
    ensures var after := AfterInference(w, conversation, done);
            after.time >= done.time && InferenceKeeps(w, conversation, after)
  {
    ClosingExtends(Turn(conversation));
    SettleKeeps(done, w.cancelAt);
    SettleKeeps(done.(outcome := CancelInference(conversation, done.outcome)), w.cancelAt);
  }

  lemma AfterInferExtends(w: World, conversation: seq<Message>, time: nat)
    requires Kickoff(conversation) >= 0 && Behaves(w.provider(conversation))
    ensures var done := InferAndSettle(w, conversation, time);
            done.time >= time && InferenceKeeps(w, conversation, done)
  {
    InferenceExtends(w, conversation, time);
    hide Infer, AfterInference, InferenceKeeps;
    CancellingExtends(w, conversation, Infer(w, conversation, time));
  }

  lemma InferencePhaseExtends(w: World, conversation: seq<Message>, time: nat)
    requires Kickoff(conversation) >= 0 && Behaves(w.provider(conversation))
    ensures var done := InferencePhase(w, conversation, time);
            done.time > time && InferenceKeeps(w, conversation, done)
  {
    hide InferAndSettle, AfterInference;
    if time >= w.cancelAt {
      CancellingExtends(w, conversation, Done(NotApplicable, time + 1, []));
    } else if Applies(conversation) {
      AfterInferExtends(w, conversation, time + 3);
    }
  }

  lemma SettleKeeps(done: Done, cancelAt: nat)
    ensures var settled := Settle(done, cancelAt);
            settled.time >= done.time
            && (settled.outcome.Applied? <==> done.outcome.Applied?)
            && (settled.outcome.Failed? <==> done.outcome.Failed?)
            && (done.outcome.Applied? ==> settled.outcome.messages == done.outcome.messages)
  {
  }

  /** The ids tools answer in the step that begins now; none if the token is found cancelled at
      once, if tools cannot be listed, or if no request is chosen. */
  function Picked(w: World, conversation: seq<Message>, time: nat): seq<string> {
    if Kickoff(conversation) < 0 || time >= w.cancelAt || (time + 1 < w.cancelAt && !w.listing(time + 1)) then []
    else IdsOf(Choice(w, Turn(conversation), time + 1))
  }

  lemma ToolPhaseExtends(w: World, conversation: seq<Message>, time: nat)
    requires Kickoff(conversation) >= 0
    ensures var done := ToolPhase(w, conversation, time);
            done.time > time
            && (done.outcome.Applied? ==>
                  Extends(Turn(conversation), done.outcome.messages, Picked(w, conversation, time), true))
            && (!done.outcome.Applied? ==> Picked(w, conversation, time) == [])
  {
    ToolsAnswerOnceExactly(w, conversation, time + 1);
    ToolsAnswer(w, conversation, time + 1);
    assert IdsOf([]) == [];
  }

  /** A step answers nobody twice exactly when the requests its tools choose have distinct ids. */
  lemma StepAnswersOnceExactly(w: World, conversation: seq<Message>, time: nat)
    requires Kickoff(conversation) >= 0 && Behaves(w.provider(conversation))
    ensures var done, turn := Step(w, conversation, time), Turn(conversation);
            done.outcome.Applied? ==>
              Extends(turn, done.outcome.messages, Picked(w, conversation, time),
                      FreshReply(w.provider(conversation), turn))
    ensures Step(w, conversation, time).time > time
    ensures !Step(w, conversation, time).outcome.Applied? ==> Picked(w, conversation, time) == []
  {
    var tools := ToolPhase(w, conversation, time);
    ToolPhaseExtends(w, conversation, time);
    SettleKeeps(tools, w.cancelAt);
    InferencePhaseExtends(w, conversation, ToolStep(w, conversation, time).time);
    hide InferencePhase, ToolPhase, Picked, FreshReply, Distinct, PendingDistinct;
  }

  // ---------- whole runs ----------

  /** The conversation only grows, and its turn still begins where it began. */
  predicate Follows(before: seq<Message>, after: seq<Message>) {
    before <= after && Kickoff(after) == Kickoff(before)
  }

  predicate KeepsTurn(conversation: seq<Message>, done: Done) {
    Kickoff(conversation) >= 0 && done.outcome.Applied? ==>
      Follows(conversation, conversation + done.outcome.messages)
  }

  ghost predicate StepsKeepTurn(step: (seq<Message>, nat) -> Done) {
    forall conversation, time :: KeepsTurn(conversation, step(conversation, time))
  }

  lemma StepFollows(w: World, conversation: seq<Message>, time: nat)
    requires WellBehaved(w)
    ensures KeepsTurn(conversation, Step(w, conversation, time))
  {
    var done := Step(w, conversation, time);
    if Kickoff(conversation) >= 0 && done.outcome.Applied? {
      StepAnswersOnceExactly(w, conversation, time);
      TurnGrows(conversation, done.outcome.messages);
    }
  }

  lemma AllStepsFollow(w: World)
    requires WellBehaved(w)
    ensures StepsKeepTurn(StepOf(w))
  {
    forall conversation, time
      ensures KeepsTurn(conversation, StepOf(w)(conversation, time))
    {
      StepOfAt(w, conversation, time);
      StepFollows(w, conversation, time);
    }
  }

  /** A run only appends, and keeps the start of the turn. */
  lemma {:induction false} RunFollows(
    step: (seq<Message>, nat) -> Done, cancelAt: nat, conversation: seq<Message>, time: nat, n: nat)
    requires StepsKeepTurn(step) && Kickoff(conversation) >= 0
    ensures Follows(conversation, RunSteps(step, cancelAt, conversation, time, n).conversation)
    decreases n
  {
    if n > 0 {
      var done := step(conversation, time);
      assert KeepsTurn(conversation, done);
      if done.outcome.Applied? && !done.outcome.handsBack {
        RunFollows(step, cancelAt, conversation + done.outcome.messages, done.time, n - 1);
      }
    }
  }

  /** Every step of the run begins where `holds`. */
  ghost predicate AlongRun(
    step: (seq<Message>, nat) -> Done, holds: (seq<Message>, nat) -> bool, conversation: seq<Message>,
    time: nat, n: nat)
    decreases n
  {
    n == 0
    || (holds(conversation, time)
        && (var done := step(conversation, time);
            done.outcome.Applied? && !done.outcome.handsBack ==>
              AlongRun(step, holds, conversation + done.outcome.messages, done.time, n - 1)))
  }
}
