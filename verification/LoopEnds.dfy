/** How runs of the agent loop end: what is left when nothing was cancelled, which endings close
    every request, and which requests the provider is shown. */
module LoopEnds {
  import opened Wrappers
  import opened Messages
  import opened ToolThinking
  import opened ToolCalls
  import opened ReceivedCalls
  import opened AgentLoop
  import opened LoopSafety

  // ---------- without cancellation ----------

  lemma StepLeaves(w: World, conversation: seq<Message>, time: nat)
    requires Kickoff(conversation) >= 0 && Behaves(w.provider(conversation))
    requires Step(w, conversation, time).time <= w.cancelAt
    ensures var outcome := Step(w, conversation, time).outcome;
            var idle := Dispatchable(Pending(Turn(conversation)), w.tools);
            (outcome.NotApplicable? ==> idle == [])
            && (outcome.Applied? && outcome.handsBack ==> idle == [] && outcome.messages == [EmptyResponse()])
  {
    var tools := ToolPhase(w, conversation, time);
    ToolPhaseExtends(w, conversation, time);
    ToolsAnswer(w, conversation, time + 1);
    SettleKeeps(tools, w.cancelAt);
    hide Picked, Distinct, PendingDistinct;
    var next := ToolStep(w, conversation, time).time;
    InferencePhaseExtends(w, conversation, next);
    if tools.outcome.NotApplicable? && InferencePhase(w, conversation, next).outcome.Applied? {
      InferenceLeaves(w, conversation, next);
    }
  }

  lemma InferenceLeaves(w: World, conversation: seq<Message>, time: nat)
    requires Kickoff(conversation) >= 0 && Behaves(w.provider(conversation))
    requires InferencePhase(w, conversation, time).time <= w.cancelAt
    ensures var outcome := InferencePhase(w, conversation, time).outcome;
            outcome.Applied? && outcome.handsBack ==> outcome.messages == [EmptyResponse()]
  {
    InferencePhaseExtends(w, conversation, time);
    if Applies(conversation) {
      InferenceExtends(w, conversation, time + 3);
      CancellingTakesTime(w, conversation, Infer(w, conversation, time + 3));
    }
  }

  lemma CancellingTakesTime(w: World, conversation: seq<Message>, done: Done)
    ensures var after := AfterInference(w, conversation, done);
            after.outcome.Applied? && after.time <= w.cancelAt ==>
              done.time < w.cancelAt && after.outcome == done.outcome
  {
  }

  /** No pending request of the turn names an available tool or has malformed arguments. */
  predicate Idle(w: World, conversation: seq<Message>) {
    Kickoff(conversation) >= 0 && Dispatchable(Pending(Turn(conversation)), w.tools) == []
  }

  lemma EndsIdle(w: World, conversation: seq<Message>, time: nat)
    requires WellBehaved(w) && Kickoff(conversation) >= 0
    requires Step(w, conversation, time).time <= w.cancelAt
    ensures var outcome := Step(w, conversation, time).outcome;
            (outcome.NotApplicable? ==> Idle(w, conversation))
            && (outcome.Applied? && outcome.handsBack ==> Idle(w, conversation + outcome.messages))
  {
    StepLeaves(w, conversation, time);
    TurnGrows(conversation, [EmptyResponse()]);
    PlainMessageExtends(Turn(conversation), EmptyResponse());
  }

  predicate LeavesIdle(w: World, conversation: seq<Message>, done: Done) {
    Kickoff(conversation) >= 0 && done.time <= w.cancelAt ==>
      (done.outcome.NotApplicable? ==> Idle(w, conversation))
      && (done.outcome.Applied? && done.outcome.handsBack ==> Idle(w, conversation + done.outcome.messages))
  }

  ghost predicate StepsLeaveIdle(w: World, step: (seq<Message>, nat) -> Done) {
    forall conversation, time :: LeavesIdle(w, conversation, step(conversation, time))
  }

  lemma {:induction false} RunLeavesIdle(
    w: World, step: (seq<Message>, nat) -> Done, conversation: seq<Message>, time: nat, n: nat)
    requires StepsKeepTurn(step) && StepsLeaveIdle(w, step) && Kickoff(conversation) >= 0
    requires RunSteps(step, w.cancelAt, conversation, time, n).time <= w.cancelAt
    ensures var trace := RunSteps(step, w.cancelAt, conversation, time, n);
            trace.end.Stopped? || trace.end.Yielded? ==> Idle(w, trace.conversation)
    decreases n
  {
    if n > 0 {
      var done := step(conversation, time);
      assert KeepsTurn(conversation, done) && LeavesIdle(w, conversation, done);
      if done.outcome.Applied? && !done.outcome.handsBack {
        RunLeavesIdle(w, step, conversation + done.outcome.messages, done.time, n - 1);
      }
    }
  }

  /** When a run that was never found cancelled stops, no pending request of the turn names an
      available tool or has malformed arguments. */
  lemma NothingDispatchableIsLeft(w: World, conversation: seq<Message>, time: nat, n: nat)
    requires WellBehaved(w) && Kickoff(conversation) >= 0
    requires Run(w, conversation, time, n).time <= w.cancelAt
    requires Run(w, conversation, time, n).end.Stopped? || Run(w, conversation, time, n).end.Yielded?
    ensures var final := Run(w, conversation, time, n).conversation;
            Kickoff(final) >= 0 && Dispatchable(Pending(Turn(final)), w.tools) == []
  {
    AllStepsFollow(w);
    forall c, t
      ensures LeavesIdle(w, c, StepOf(w)(c, t))
    {
      StepOfAt(w, c, t);
      if Kickoff(c) >= 0 && Step(w, c, t).time <= w.cancelAt {
        EndsIdle(w, c, t);
      }
    }
    RunLeavesIdle(w, StepOf(w), conversation, time, n);
  }

  // ---------- a step that begins cancelled ----------

  /** A step that begins cancelled asks neither the tools nor the provider: it answers what is
      outstanding, if anything is, and hands back. */
  lemma CancelledStep(w: World, conversation: seq<Message>, time: nat)
    requires time >= w.cancelAt
    ensures Step(w, conversation, time).started == []
    ensures Step(w, conversation, time).outcome ==
            if Kickoff(conversation) < 0 then Failed
            else if Unanswered(Turn(conversation)) == [] then NotApplicable
            else Applied([FromUser(Responses(Unanswered(Turn(conversation)), NotExecuted))], true)
  {
  }

  /** Every request of the turn is answered. */
  predicate Closed(conversation: seq<Message>) {
    Kickoff(conversation) >= 0 && Unanswered(Turn(conversation)) == []
  }

  lemma CancelledStepCloses(w: World, conversation: seq<Message>, time: nat)
    requires time >= w.cancelAt && Kickoff(conversation) >= 0
    ensures var outcome := Step(w, conversation, time).outcome;
            !outcome.Failed?
            && (outcome.NotApplicable? ==> Unanswered(Turn(conversation)) == [])
            && (outcome.Applied? ==> outcome.handsBack && Closed(conversation + outcome.messages))
  {
    CancelledStep(w, conversation, time);
    ClosingExtends(Turn(conversation));
    TurnGrows(conversation, Closing(Turn(conversation)));
  }

  /** What a step that begins cancelled does. */
  predicate ClosesTurn(conversation: seq<Message>, done: Done) {
    Kickoff(conversation) >= 0 ==>
      done.started == [] && !done.outcome.Failed?
      && (done.outcome.NotApplicable? ==> Closed(conversation))
      && (done.outcome.Applied? ==> done.outcome.handsBack && Closed(conversation + done.outcome.messages))
  }

  ghost predicate LateStepsClose(step: (seq<Message>, nat) -> Done, cancelAt: nat) {
    forall conversation, time :: time >= cancelAt ==> ClosesTurn(conversation, step(conversation, time))
  }

  lemma {:induction false} OneLateStep(
    step: (seq<Message>, nat) -> Done, cancelAt: nat, conversation: seq<Message>, time: nat, n: nat)
    requires StepsKeepTurn(step) && LateStepsClose(step, cancelAt) && Kickoff(conversation) >= 0
    ensures var trace := RunSteps(step, cancelAt, conversation, time, n);
            trace.late <= 1
            && (trace.late == 1 ==> (trace.end.Stopped? || trace.end.Yielded?) && Closed(trace.conversation))
    decreases n
  {
    if n > 0 {
      var done := step(conversation, time);
      assert KeepsTurn(conversation, done);
      if time < cancelAt && done.outcome.Applied? && !done.outcome.handsBack {
        OneLateStep(step, cancelAt, conversation + done.outcome.messages, done.time, n - 1);
      }
    }
  }

  lemma LateStepsAllClose(w: World)
    ensures LateStepsClose(StepOf(w), w.cancelAt)
  {
    forall c, t | t >= w.cancelAt
      ensures ClosesTurn(c, StepOf(w)(c, t))
    {
      StepOfAt(w, c, t);
      CancelledStep(w, c, t);
      if Kickoff(c) >= 0 {
        CancelledStepCloses(w, c, t);
      }
    }
  }

  /** After cancellation at most one step begins, and if one does, the run ends with every
      request of the turn answered. */
  lemma OneStepAfterCancellation(w: World, conversation: seq<Message>, time: nat, n: nat)
    requires WellBehaved(w) && Kickoff(conversation) >= 0
    ensures var trace := Run(w, conversation, time, n);
            trace.late <= 1
            && (trace.late == 1 ==> (trace.end.Stopped? || trace.end.Yielded?) && Closed(trace.conversation))
  {
    AllStepsFollow(w);
    LateStepsAllClose(w);
    hide StepOf, StepsKeepTurn, LateStepsClose, WellBehaved, Closed;
    OneLateStep(StepOf(w), w.cancelAt, conversation, time, n);
  }

  // ---------- which inferences close the turn ----------

  lemma {:induction false} SilentAsksNothing(content: seq<Content>)
    requires AllSilent(content)
    ensures RequestIds(content) == {} && Answers(content) == []
  {
    if content != [] {
      SilentAsksNothing(content[..|content| - 1]);
      assert SaysNothing(content[|content| - 1]);
    }
  }

  lemma ClosedWithout(turn: seq<Content>, m: Message)
    requires m.role.Assistant? && |m.content| == 1 && !Speaks(m.content[0])
    ensures Unanswered(turn + Contents([m])) == [] <==> RequestIds(turn) <= AnswerSet(turn)
  {
    var c := m.content[0];
    assert m.content == [c] && [c][..0] == [];
    OneMessage(m);
    assert Answers([c]) == Answers([]) == [] && RequestIds([c]) == RequestIds([]) == {};
    AnswersConcat(turn, [c]);
    RequestIdsConcat(turn, [c]);
    NothingUnanswered(turn + [c]);
  }

  lemma ClosedWith(turn: seq<Content>, items: seq<Item>)
    requires AllProper(items)
    ensures Unanswered(turn + Contents(Collect(items).messages)) == []
            <==> RequestIds(turn) + RequestIds(Streamed(items)) <= AnswerSet(turn)
  {
    var received := Contents(Collect(items).messages);
    StreamedProperly(items);
    StreamedCalls(items);
    AnswersConcat(turn, received);
    RequestIdsConcat(turn, received);
    NothingUnanswered(turn + received);
  }

  /** The stream asks for nothing that is not answered, and nothing else was outstanding. */
  predicate AsksNothingNew(turn: seq<Content>, items: seq<Item>) {
    RequestIds(turn) + RequestIds(Streamed(items)) <= AnswerSet(turn)
  }

  lemma FilledCloses(turn: seq<Content>, r: Reception, cancelAt: nat)
    requires AllProper(r.items)
    ensures Unanswered(turn + Contents(Filled(turn, r, cancelAt))) == []
            <==> r.ending.Cut? || r.time >= cancelAt || AsksNothingNew(turn, r.items)
  {
    var acc := Collect(r.items).messages;
    var now := turn + Contents(acc);
    if r.ending.Cut? || r.time >= cancelAt {
      ContentsConcat(acc, Closing(now));
      Assoc(turn, Contents(acc), Contents(Closing(now)));
      ClosingExtends(now);
    } else {
      ClosedWith(turn, r.items);
    }
  }

  /** If all it leaves is the remark that nothing came, the accumulator asked for nothing. */
  lemma EmptyCloses(turn: seq<Content>, filled: seq<Message>)
    requires AllSilent(Contents(filled))
    ensures Unanswered(turn + Contents([EmptyResponse()])) == [] <==> RequestIds(turn) <= AnswerSet(turn)
    ensures Unanswered(turn + Contents(filled)) == [] <==> RequestIds(turn) <= AnswerSet(turn)
  {
    var content := Contents(filled);
    SilentAsksNothing(content);
    AnswersConcat(turn, content);
    RequestIdsConcat(turn, content);
    NothingUnanswered(turn + content);
    ClosedWithout(turn, EmptyResponse());
  }

  /** After a stream that did not break off, every request of the turn is answered exactly when
      cancellation was seen by then, or nothing was outstanding and the stream asked for nothing
      new.  A cancellation seen only later may end the run with requests open. */
  lemma InferenceClosesExactly(conversation: seq<Message>, r: Reception, cancelAt: nat)
    requires Kickoff(conversation) >= 0 && AllProper(r.items)
    requires !r.ending.BrokeOff?
    ensures var done := Finish(conversation, r, cancelAt);
            done.outcome.Applied?
            && (Closed(conversation + done.outcome.messages)
                <==> r.ending.Cut? || r.time >= cancelAt || AsksNothingNew(Turn(conversation), r.items))
  {
    var turn := Turn(conversation);
    var filled, done := Filled(turn, r, cancelAt), Finish(conversation, r, cancelAt);
    FinishExtends(conversation, r, cancelAt);
    TurnGrows(conversation, done.outcome.messages);
    FilledCloses(turn, r, cancelAt);
    if IsEmptyResponse(filled, r.ending) {
      EmptyCloses(turn, filled);
    }
  }

  // ---------- a cancellation found inside the last step ----------

  /** Every request without an answer is among these. */
  predicate Covers(turn: seq<Content>, ids: seq<string>) {
    forall id :: id in Unanswered(turn) ==> id in ids
  }

  lemma ToolsCloseExactly(w: World, conversation: seq<Message>, time: nat)
    requires Kickoff(conversation) >= 0 && RunTools(w, conversation, time).outcome.Applied?
    ensures Closed(conversation + RunTools(w, conversation, time).outcome.messages)
            <==> Covers(Turn(conversation), IdsOf(Choice(w, Turn(conversation), time)))
  {
    var turn, messages := Turn(conversation), RunTools(w, conversation, time).outcome.messages;
    ToolsAnswer(w, conversation, time);
    ToolsAnswerOnceExactly(w, conversation, time);
    TurnGrows(conversation, messages);
    AnswersClose(turn, messages, IdsOf(Choice(w, turn, time)));
  }

  lemma AnswersClose(turn: seq<Content>, messages: seq<Message>, ids: seq<string>)
    requires AnswersExactly(messages, ids)
    ensures Unanswered(turn + Contents(messages)) == [] <==> Covers(turn, ids)
  {
    var content := messages[0].content;
    assert messages == [messages[0]];
    OneMessage(messages[0]);
    ResponsesAskNothing(content, {});
    AnswersConcat(turn, content);
    RequestIdsConcat(turn, content);
    NothingUnanswered(turn + content);
    OpenIdsExactly(turn, AnswerSet(turn));
  }

  /** Whether an inference that begins now leaves every request answered: its stream ends with the
      cancellation seen, or nothing was outstanding and nothing new was asked for. */
  predicate InferenceCloses(w: World, conversation: seq<Message>, time: nat)
    requires Kickoff(conversation) >= 0
  {
    var turn := Turn(conversation);
    match w.provider(conversation)
    case Refused(_) => Unanswered(turn) == []
    case Opened(events) =>
      var r := Receive(events, [], w.cancelAt, time);
      AsksNothingNew(turn, r.items) || (!r.ending.BrokeOff? && (r.ending.Cut? || r.time >= w.cancelAt))
  }

  lemma BrokenCloses(conversation: seq<Message>, items: seq<Item>, kind: int)
    requires Kickoff(conversation) >= 0 && AllProper(items)
    ensures var messages := Collect(items).messages + [ErrorMessage(kind)];
            NoKickoff(messages)
            && (Unanswered(Turn(conversation) + Contents(messages)) == []
                <==> AsksNothingNew(Turn(conversation), items))
  {
    var turn, acc, error := Turn(conversation), Collect(items).messages, ErrorMessage(kind);
    AccumulatorExtends(items, turn);
    ContentsConcat(acc, [error]);
    Assoc(turn, Contents(acc), Contents([error]));
    ClosedWithout(turn + Contents(acc), error);
    ClosedWith(turn, items);
    NothingUnanswered(turn + Contents(acc));
  }

  lemma FinishClosesExactly(conversation: seq<Message>, r: Reception, cancelAt: nat)
    requires Kickoff(conversation) >= 0 && AllProper(r.items)
    ensures var done := Finish(conversation, r, cancelAt);
            done.outcome.Applied?
            && (Closed(conversation + done.outcome.messages)
                <==> AsksNothingNew(Turn(conversation), r.items)
                     || (!r.ending.BrokeOff? && (r.ending.Cut? || r.time >= cancelAt)))
  {
    if r.ending.BrokeOff? {
      var messages := Collect(r.items).messages + [ErrorMessage(r.ending.kind)];
      BrokenCloses(conversation, r.items, r.ending.kind);
      assert Finish(conversation, r, cancelAt).outcome == Applied(messages, false);
      hide Collect, AsksNothingNew, Unanswered, Finish;
      TurnGrows(conversation, messages);
    } else {
      hide Finish, AsksNothingNew, Closed;
      InferenceClosesExactly(conversation, r, cancelAt);
    }
  }

  lemma InferClosesExactly(w: World, conversation: seq<Message>, time: nat)
    requires Applies(conversation) && Behaves(w.provider(conversation))
    ensures var done := Infer(w, conversation, time);
            done.outcome.Applied?
            && (Closed(conversation + done.outcome.messages) <==> InferenceCloses(w, conversation, time))
  {
    var turn := Turn(conversation);
    match w.provider(conversation)
    case Refused(kind) =>
      ClosedWithout(turn, ErrorMessage(kind));
      NothingUnanswered(turn);
      TurnGrows(conversation, [ErrorMessage(kind)]);
    case Opened(events) =>
      ReceivedIsProper(events, [], w.cancelAt, time, turn);
      hide Receive, Finish, AsksNothingNew, Closed;
      FinishClosesExactly(conversation, Receive(events, [], w.cancelAt, time), w.cancelAt);
  }

  /** The same for the inference's part of a step: a cancellation found before it closes the turn,
      one found while tools are gathered leaves it as it is. */
  predicate PhaseCloses(w: World, conversation: seq<Message>, time: nat)
    requires Kickoff(conversation) >= 0
  {
    if time >= w.cancelAt then true
    else if !Applies(conversation) || time + 2 >= w.cancelAt then Unanswered(Turn(conversation)) == []
    else InferenceCloses(w, conversation, time + 3)
  }

  /** How a step ended that found the token cancelled. */
  predicate EndsBy(closes: bool, conversation: seq<Message>, done: Done) {
    (done.outcome.NotApplicable? ==> (Closed(conversation) <==> closes))
    && (done.outcome.Applied? ==>
          done.outcome.handsBack && (Closed(conversation + done.outcome.messages) <==> closes))
  }

  lemma SettledEnds(w: World, conversation: seq<Message>, done: Done, closes: bool)
    requires done.outcome.Applied? && AfterInference(w, conversation, done).time > w.cancelAt
    requires Closed(conversation + done.outcome.messages) <==> closes
    ensures EndsBy(closes, conversation, AfterInference(w, conversation, done))
  {
  }

  lemma CancelledBeforeInference(w: World, conversation: seq<Message>, time: nat)
    requires Kickoff(conversation) >= 0 && time >= w.cancelAt
    ensures EndsBy(true, conversation, AfterInference(w, conversation, Done(NotApplicable, time, [])))
  {
    ClosingExtends(Turn(conversation));
    TurnGrows(conversation, Closing(Turn(conversation)));
  }

  lemma PhaseClosesExactly(w: World, conversation: seq<Message>, time: nat)
    requires Kickoff(conversation) >= 0 && Behaves(w.provider(conversation))
    requires InferencePhase(w, conversation, time).time > w.cancelAt
    ensures EndsBy(PhaseCloses(w, conversation, time), conversation, InferencePhase(w, conversation, time))
  {
    hide AfterInference, Infer, InferenceCloses, Behaves;
    if time >= w.cancelAt {
      CancelledBeforeInference(w, conversation, time + 1);
    } else if Applies(conversation) && time + 2 < w.cancelAt && w.listing(time + 1) {
      InferClosesExactly(w, conversation, time + 3);
      SettledEnds(w, conversation, Infer(w, conversation, time + 3), InferenceCloses(w, conversation, time + 3));
    }
  }

  /** Whether a step that begins uncancelled and finds the token cancelled leaves every request
      of its turn answered, by the look that finds it:
      - while tools are listed: if all that is open is pending, so that nothing external is;
      - while calls are dispatched, or behind them: if all that is open is dispatchable;
      - behind tools that did not apply, or before the inference: always;
      - while tools are gathered for the inference: if nothing was open;
      - while the stream is received, or behind it: if the stream did not break off, or nothing was
        open and it asked for nothing;
      - by the machine behind the inference: if nothing was open and it asked for nothing. */
  predicate ClosingLook(w: World, conversation: seq<Message>, time: nat) {
    Kickoff(conversation) >= 0
    && (var turn := Turn(conversation);
        var pending := Pending(turn);
        if pending != [] && Choice(w, turn, time + 1) != [] then Covers(turn, IdsOf(Choice(w, turn, time + 1)))
        else PhaseCloses(w, conversation, if pending == [] then time + 2 else time + 3))
  }

  /** What the step makes of its tools. */
  lemma StepAfterTools(w: World, conversation: seq<Message>, time: nat)
    requires time < w.cancelAt
    ensures var tools, done := RunTools(w, conversation, time + 1), Step(w, conversation, time);
            (tools.outcome.Failed? ==> done == tools)
            && (tools.outcome.NotApplicable? ==> done == InferencePhase(w, conversation, tools.time + 1))
            && (tools.outcome.Applied? ==>
                  done == Done(Applied(tools.outcome.messages, tools.outcome.handsBack || tools.time >= w.cancelAt),
                               tools.time + 1, tools.started))
  {
    hide RunTools, InferencePhase;
  }

  lemma ToolTimes(w: World, conversation: seq<Message>, time: nat)
    requires Kickoff(conversation) >= 0
    ensures var done, turn := RunTools(w, conversation, time), Turn(conversation);
            (done.outcome.NotApplicable? ==>
               done.time == (if Pending(turn) == [] then time else time + 1)
               && (Pending(turn) == [] || Choice(w, turn, time) == []))
            && (done.outcome.Applied? ==> Pending(turn) != [] && Choice(w, turn, time) != [])
  {
  }

  lemma StepClosesExactly(w: World, conversation: seq<Message>, time: nat)
    requires Kickoff(conversation) >= 0 && Behaves(w.provider(conversation))
    requires time < w.cancelAt < Step(w, conversation, time).time
    ensures EndsBy(ClosingLook(w, conversation, time), conversation, Step(w, conversation, time))
  {
    hide RunTools, InferencePhase, Step, Behaves, PhaseCloses, Choice, Covers, Closed, Kickoff, Pending, Turn;
    var tools := RunTools(w, conversation, time + 1);
    StepAfterTools(w, conversation, time);
    ToolTimes(w, conversation, time + 1);
    if tools.outcome.Applied? {
      ToolsCloseExactly(w, conversation, time + 1);
      assert EndsBy(Covers(Turn(conversation), IdsOf(Choice(w, Turn(conversation), time + 1))), conversation,
                    Step(w, conversation, time));
    } else if tools.outcome.NotApplicable? {
      PhaseClosesExactly(w, conversation, tools.time + 1);
    }
  }

  /** The conversation and the time at which a step began. */
  datatype Start = Start(conversation: seq<Message>, time: nat)

  /** Where the last step of a run began. */
  function LastStart(step: (seq<Message>, nat) -> Done, conversation: seq<Message>, time: nat, n: nat): Start
    decreases n
  {
    var done := step(conversation, time);
    if n > 1 && done.outcome.Applied? && !done.outcome.handsBack then
      LastStart(step, conversation + done.outcome.messages, done.time, n - 1)
    else Start(conversation, time)
  }

  /** The same of any step function. */
  predicate FoundEnds(closes: bool, conversation: seq<Message>, time: nat, done: Done, cancelAt: nat) {
    Kickoff(conversation) >= 0 && time < cancelAt < done.time ==> EndsBy(closes, conversation, done)
  }

  ghost predicate StepsEndBy(
    step: (seq<Message>, nat) -> Done, closes: (seq<Message>, nat) -> bool, cancelAt: nat)
  {
    forall conversation, time ::
      FoundEnds(closes(conversation, time), conversation, time, step(conversation, time), cancelAt)
  }

  lemma {:induction false} RunEndsBy(step: (seq<Message>, nat) -> Done, closes: (seq<Message>, nat) -> bool,
                                     cancelAt: nat, conversation: seq<Message>, time: nat, n: nat)
    requires StepsKeepTurn(step) && StepsEndBy(step, closes, cancelAt) && LateStepsClose(step, cancelAt)
    requires Kickoff(conversation) >= 0
    ensures var trace, last := RunSteps(step, cancelAt, conversation, time, n), LastStart(step, conversation, time, n);
            (trace.end.Stopped? || trace.end.Yielded?) && trace.time > cancelAt ==>
              (Closed(trace.conversation) <==> trace.late == 1 || closes(last.conversation, last.time))
    decreases n
  {
    hide Closed;
    if n > 0 {
      var done := step(conversation, time);
      assert KeepsTurn(conversation, done);
      assert FoundEnds(closes(conversation, time), conversation, time, done, cancelAt);
      assert time >= cancelAt ==> ClosesTurn(conversation, done);
      if done.outcome.Applied? && !done.outcome.handsBack && n > 1 {
        RunEndsBy(step, closes, cancelAt, conversation + done.outcome.messages, done.time, n - 1);
      }
    }
  }

  function ClosingLookOf(w: World): (seq<Message>, nat) -> bool {
    (conversation: seq<Message>, time: nat) => ClosingLook(w, conversation, time)
  }

  lemma ClosingLookOfAt(w: World, conversation: seq<Message>, time: nat)
    ensures ClosingLookOf(w)(conversation, time) == ClosingLook(w, conversation, time)
  {
  }

  /** A run that ends after some look found the token cancelled leaves every request of the turn
      answered exactly when a step began after the cancellation, or the look inside its last step
      that found it is one that closes the turn. */
  lemma CancelledRunClosesExactly(w: World, conversation: seq<Message>, time: nat, n: nat)
    requires WellBehaved(w) && Kickoff(conversation) >= 0
    requires Run(w, conversation, time, n).end.Stopped? || Run(w, conversation, time, n).end.Yielded?
    requires Run(w, conversation, time, n).time > w.cancelAt
    ensures var trace, last := Run(w, conversation, time, n), LastStart(StepOf(w), conversation, time, n);
            Closed(trace.conversation) <==> trace.late == 1 || ClosingLook(w, last.conversation, last.time)
  {
    AllStepsFollow(w);
    LateStepsAllClose(w);
    forall c: seq<Message>, t: nat
      ensures FoundEnds(ClosingLookOf(w)(c, t), c, t, StepOf(w)(c, t), w.cancelAt)
    {
      StepOfAt(w, c, t);
      ClosingLookOfAt(w, c, t);
      hide StepOf, ClosingLookOf, Step, ClosingLook;
      if Kickoff(c) >= 0 && t < w.cancelAt < Step(w, c, t).time {
        StepClosesExactly(w, c, t);
      }
    }
    var last := LastStart(StepOf(w), conversation, time, n);
    ClosingLookOfAt(w, last.conversation, last.time);
    hide StepOf, ClosingLookOf, ClosingLook, LastStart, StepsKeepTurn, LateStepsClose, WellBehaved;
    RunEndsBy(StepOf(w), ClosingLookOf(w), w.cancelAt, conversation, time, n);
  }

  // ---------- what tools report ----------

  /** What a response says when nothing was cancelled. */
  function Verdict(request: Content): Messages.Outcome
    requires request.ToolRequest?
  {
    if request.call.Malformed? then BadArguments else Output
  }

  /** Each response is for its own request and gives its verdict or says it was interrupted; from
      the first interruption on all are, and there is one exactly when cancellation was seen. */
  lemma {:induction false} ReportsAreTrue(requests: seq<Content>, cancelAt: nat, time: nat)
    requires AllRequests(requests)
    ensures var tally := AnswerAll(requests, cancelAt, time);
            |tally.responses| == |requests|
            && (forall i :: 0 <= i < |requests| ==>
                  tally.responses[i] == ToolResponse(requests[i].id, Interrupted)
                  || tally.responses[i] == ToolResponse(requests[i].id, Verdict(requests[i])))
            && (forall i, j :: 0 <= i < j < |requests| && tally.responses[i].outcome.Interrupted? ==>
                  tally.responses[j].outcome.Interrupted?)
            && (tally.cancelled <==> exists i :: 0 <= i < |requests| && tally.responses[i].outcome.Interrupted?)
  {
    if requests != [] {
      var init, r := requests[..|requests| - 1], requests[|requests| - 1];
      ReportsAreTrue(init, cancelAt, time);
      var before, after := AnswerAll(init, cancelAt, time), AnswerAll(requests, cancelAt, time);
      forall i | 0 <= i < |init|
        ensures requests[i] == init[i] && after.responses[i] == before.responses[i]
      {
      }
      if before.cancelled {
        var i :| 0 <= i < |init| && before.responses[i].outcome.Interrupted?;
        assert after.responses[i].outcome.Interrupted?;
      }
      if after.cancelled {
        assert after.responses[|init|].outcome.Interrupted?;
      }
    }
  }

  lemma {:induction false} CancellationIsSeen(requests: seq<Content>, cancelAt: nat, time: nat)
    requires AllRequests(requests) && requests != []
    ensures var tally := AnswerAll(requests, cancelAt, time);
            tally.cancelled <==> tally.time > cancelAt
  {
    var init, r := requests[..|requests| - 1], requests[|requests| - 1];
    if init != [] {
      CancellationIsSeen(init, cancelAt, time);
    }
  }

  predicate OutputsStarted(tally: Tally) {
    forall c :: c in tally.responses && c.ToolResponse? && c.outcome.Output? ==> c.answers in tally.started
  }

  /** An output is only reported for a call that was started. */
  lemma {:induction false} OutputsWereStarted(requests: seq<Content>, cancelAt: nat, time: nat)
    ensures OutputsStarted(AnswerAll(requests, cancelAt, time))
  {
    if requests != [] {
      OutputsWereStarted(requests[..|requests| - 1], cancelAt, time);
    }
  }

  // ---------- what the provider is shown ----------

  lemma {:induction false} ShownRequests(content: seq<Content>, current: bool, answered: set<string>)
    ensures RequestIds(Shown(content, current, answered)) ==
            if current then RequestIds(content) else RequestIds(content) * answered
  {
    if content != [] {
      var init, c := content[..|content| - 1], content[|content| - 1];
      ShownRequests(init, current, answered);
      var shown := Shown(init, current, answered);
      assert (shown + [c])[..|shown|] == shown;
    }
  }

  /** Everything said in messages the agent may see. */
  function Heard(messages: seq<Message>): seq<Content> {
    if messages == [] then []
    else
      var init, m := messages[..|messages| - 1], messages[|messages| - 1];
      if m.agentVisible then Heard(init) + m.content else Heard(init)
  }

  lemma RequestsSnoc(a: seq<Message>, m: Message)
    ensures RequestIds(Contents(a + [m])) == RequestIds(Contents(a)) + RequestIds(m.content)
  {
    assert (a + [m])[..|a|] == a;
    RequestIdsConcat(Contents(a), m.content);
  }

  lemma HeardSnoc(a: seq<Message>, m: Message)
    ensures RequestIds(Heard(a + [m])) ==
            if m.agentVisible then RequestIds(Heard(a)) + RequestIds(m.content) else RequestIds(Heard(a))
  {
    assert (a + [m])[..|a|] == a;
    RequestIdsConcat(Heard(a), m.content);
  }

  lemma ViewSnoc(init: seq<Message>, m: Message, start: int, answered: set<string>)
    ensures RequestIds(Contents(View(init + [m], start, answered))) ==
            if !m.agentVisible then RequestIds(Contents(View(init, start, answered)))
            else RequestIds(Contents(View(init, start, answered)))
                 + (if start <= |init| then RequestIds(m.content) else RequestIds(m.content) * answered)
  {
    var all := init + [m];
    assert all[..|init|] == init && all[|init|] == m;
    var content := Shown(m.content, start <= |init|, answered);
    ShownRequests(m.content, start <= |init|, answered);
    RequestsSnoc(View(init, start, answered), m.(content := content));
  }

  lemma {:induction false} EarlierShown(conversation: seq<Message>, start: int, answered: set<string>)
    requires |conversation| <= start
    ensures RequestIds(Contents(View(conversation, start, answered))) == RequestIds(Heard(conversation)) * answered
  {
    if conversation != [] {
      var init, m := conversation[..|conversation| - 1], conversation[|conversation| - 1];
      assert conversation == init + [m];
      EarlierShown(init, start, answered);
      ViewSnoc(init, m, start, answered);
      HeardSnoc(init, m);
    }
  }

  /** Of earlier turns the provider sees only answered requests, of the current turn all of them. */
  lemma {:induction false} RequestsShown(earlier: seq<Message>, current: seq<Message>, answered: set<string>)
    ensures RequestIds(Contents(View(earlier + current, |earlier|, answered))) ==
            RequestIds(Heard(earlier)) * answered + RequestIds(Heard(current))
    decreases |current|
  {
    if current == [] {
      assert earlier + current == earlier;
      EarlierShown(earlier, |earlier|, answered);
    } else {
      var init, m := current[..|current| - 1], current[|current| - 1];
      assert current == init + [m] && earlier + current == (earlier + init) + [m];
      RequestsShown(earlier, init, answered);
      ViewSnoc(earlier + init, m, |earlier|, answered);
      HeardSnoc(init, m);
    }
  }
}
