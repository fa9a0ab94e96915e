/** Over whole runs of the agent loop: who is answered twice, and which calls are started twice. */
module LoopAnswers {
  import opened Messages
  import opened ToolThinking
  import opened ToolCalls
  import opened AgentLoop
  import opened LoopSafety

  // ---------- one answer for each request ----------

  function PicksOnce(w: World): (seq<Message>, nat) -> bool {
    (conversation: seq<Message>, time: nat) => Distinct(Picked(w, conversation, time))
  }

  lemma PicksOnceAt(w: World, conversation: seq<Message>, time: nat)
    ensures PicksOnce(w)(conversation, time) == Distinct(Picked(w, conversation, time))
  {
  }

  predicate AnswersOnce(conversation: seq<Message>) {
    Kickoff(conversation) >= 0 && Distinct(Answers(Turn(conversation)))
  }

  /** What a step does to the answers. */
  predicate AnswersBy(holds: bool, conversation: seq<Message>, done: Done) {
    Kickoff(conversation) >= 0 && done.outcome.Applied? ==>
      (AnswersOnce(conversation + done.outcome.messages) <==> AnswersOnce(conversation) && holds)
  }

  ghost predicate StepsAnswerBy(step: (seq<Message>, nat) -> Done, holds: (seq<Message>, nat) -> bool) {
    forall conversation, time ::
      AnswersBy(holds(conversation, time), conversation, step(conversation, time))
      && (!step(conversation, time).outcome.Applied? && Kickoff(conversation) >= 0 ==> holds(conversation, time))
  }

  lemma {:induction false} RunAnswersBy(step: (seq<Message>, nat) -> Done, holds: (seq<Message>, nat) -> bool,
                                        cancelAt: nat, conversation: seq<Message>, time: nat, n: nat)
    requires StepsKeepTurn(step) && StepsAnswerBy(step, holds) && Kickoff(conversation) >= 0
    ensures AnswersOnce(RunSteps(step, cancelAt, conversation, time, n).conversation)
            <==> AnswersOnce(conversation) && AlongRun(step, holds, conversation, time, n)
    decreases n
  {
    hide AnswersOnce;
    if n > 0 {
      var done := step(conversation, time);
      assert KeepsTurn(conversation, done) && AnswersBy(holds(conversation, time), conversation, done);
      if done.outcome.Applied? && !done.outcome.handsBack {
        RunAnswersBy(step, holds, cancelAt, conversation + done.outcome.messages, done.time, n - 1);
      }
    }
  }

  lemma StepAnswersBy(w: World, conversation: seq<Message>, time: nat)
    requires WellBehaved(w) && Kickoff(conversation) >= 0
    ensures var done, holds := Step(w, conversation, time), Distinct(Picked(w, conversation, time));
            AnswersBy(holds, conversation, done) && (!done.outcome.Applied? ==> holds)
  {
    var done := Step(w, conversation, time);
    StepAnswersOnceExactly(w, conversation, time);
    hide Step, Picked;
    if done.outcome.Applied? {
      TurnGrows(conversation, done.outcome.messages);
    }
  }

  lemma AllStepsAnswerBy(w: World)
    requires WellBehaved(w)
    ensures StepsAnswerBy(StepOf(w), PicksOnce(w))
  {
    forall conversation, time
      ensures AnswersBy(PicksOnce(w)(conversation, time), conversation, StepOf(w)(conversation, time))
      ensures !StepOf(w)(conversation, time).outcome.Applied? && Kickoff(conversation) >= 0 ==>
                PicksOnce(w)(conversation, time)
    {
      StepOfAt(w, conversation, time);
      PicksOnceAt(w, conversation, time);
      hide StepOf, PicksOnce, Step, Picked;
      if Kickoff(conversation) >= 0 {
        StepAnswersBy(w, conversation, time);
      }
    }
  }

  predicate AllDiffer(ids: seq<string>) {
    forall i, j :: 0 <= i < j < |ids| ==> ids[i] != ids[j]
  }

  /** Over every run, whenever it is cancelled, no request of the turn gets two answers exactly
      when none had, and each step begins where the pending requests that its tools choose have
      distinct ids. */
  lemma OneAnswerExactly(w: World, conversation: seq<Message>, time: nat, n: nat)
    requires WellBehaved(w) && Kickoff(conversation) >= 0
    ensures var final := Run(w, conversation, time, n).conversation;
            conversation <= final && Kickoff(final) == Kickoff(conversation)
            && (AllDiffer(Answers(Turn(final)))
                <==> AllDiffer(Answers(Turn(conversation))) && AlongRun(StepOf(w), PicksOnce(w), conversation, time, n))
  {
    AllStepsFollow(w);
    AllStepsAnswerBy(w);
    hide StepOf, PicksOnce, StepsKeepTurn, StepsAnswerBy;
    RunFollows(StepOf(w), w.cancelAt, conversation, time, n);
    RunAnswersBy(StepOf(w), PicksOnce(w), w.cancelAt, conversation, time, n);
    DistinctMeans(Answers(Turn(conversation)));
    DistinctMeans(Answers(Turn(Run(w, conversation, time, n).conversation)));
  }

  // ---------- each call is started once ----------

  /** How often the token is looked at for these requests, unless it is found cancelled. */
  function Looks(requests: seq<Content>): nat {
    if requests == [] then 0
    else
      var r := requests[|requests| - 1];
      Looks(requests[..|requests| - 1]) + (if !r.ToolRequest? then 0 else if r.call.Malformed? then 1 else 3)
  }

  /** The requests whose calls are started: well-formed ones reached before cancellation. */
  function Launched(requests: seq<Content>, cancelAt: nat, time: nat): seq<Content> {
    if requests == [] then []
    else
      var init, r := requests[..|requests| - 1], requests[|requests| - 1];
      if r.ToolRequest? && !r.call.Malformed? && time + Looks(init) + 1 < cancelAt then
        Launched(init, cancelAt, time) + [r]
      else Launched(init, cancelAt, time)
  }

  lemma OneMoreStart(tally: Tally, r: Content, cancelAt: nat)
    requires r.ToolRequest?
    ensures var after, cost := Answer(tally, r, cancelAt), if r.call.Malformed? then 1 else 3;
            after.started == (if !tally.cancelled && !r.call.Malformed? && tally.time + 1 < cancelAt
                              then tally.started + [r.id] else tally.started)
            && (after.cancelled ==> tally.cancelled || tally.time + cost >= cancelAt)
            && (!after.cancelled ==> !tally.cancelled && after.time == tally.time + cost)
  {
  }

  lemma {:induction false} StartedExactly(requests: seq<Content>, cancelAt: nat, time: nat)
    requires AllRequests(requests)
    ensures var tally := AnswerAll(requests, cancelAt, time);
            tally.started == IdsOf(Launched(requests, cancelAt, time))
            && (tally.cancelled ==> time + Looks(requests) >= cancelAt)
            && (!tally.cancelled ==> tally.time == time + Looks(requests))
  {
    if requests != [] {
      var init, r := requests[..|requests| - 1], requests[|requests| - 1];
      StartedExactly(init, cancelAt, time);
      OneMoreStart(AnswerAll(init, cancelAt, time), r, cancelAt);
      IdsSnoc(Launched(init, cancelAt, time), r);
      hide IdsOf, Answer;
    }
  }

  lemma {:induction false} LaunchedAreAsked(requests: seq<Content>, cancelAt: nat, time: nat)
    ensures forall id :: id in IdsOf(Launched(requests, cancelAt, time)) ==> id in IdsOf(requests)
    ensures Distinct(IdsOf(requests)) ==> Distinct(IdsOf(Launched(requests, cancelAt, time)))
  {
    hide Distinct, Looks;
    if requests != [] {
      var init, r := requests[..|requests| - 1], requests[|requests| - 1];
      LaunchedAreAsked(init, cancelAt, time);
      assert requests == init + [r];
      if r.ToolRequest? {
        IdsSnoc(init, r);
        IdsSnoc(Launched(init, cancelAt, time), r);
        DistinctSnoc(IdsOf(init), r.id);
        DistinctSnoc(IdsOf(Launched(init, cancelAt, time)), r.id);
      }
    }
  }

  /** The calls started by the step that begins now. */
  function Launches(w: World, conversation: seq<Message>, time: nat): seq<string> {
    if Kickoff(conversation) < 0 || time + 1 >= w.cancelAt || !w.listing(time + 1) then []
    else IdsOf(Launched(Dispatchable(Pending(Turn(conversation)), w.tools), w.cancelAt, time + 2))
  }

  function StartsOnce(w: World): (seq<Message>, nat) -> bool {
    (conversation: seq<Message>, time: nat) => Distinct(Launches(w, conversation, time))
  }

  lemma StartsOnceAt(w: World, conversation: seq<Message>, time: nat)
    ensures StartsOnce(w)(conversation, time) == Distinct(Launches(w, conversation, time))
  {
  }

  lemma ToolsStart(w: World, conversation: seq<Message>, time: nat)
    requires Kickoff(conversation) >= 0
    ensures ToolPhase(w, conversation, time).started == Launches(w, conversation, time)
    ensures Launches(w, conversation, time) != [] ==> ToolPhase(w, conversation, time).outcome.Applied?
    ensures forall id :: id in Launches(w, conversation, time) ==>
              id in Picked(w, conversation, time) && id !in AnswerSet(Turn(conversation))
  {
    var turn := Turn(conversation);
    var pending := Pending(turn);
    var chosen := Dispatchable(pending, w.tools);
    DispatchableAreRequests(pending, w.tools);
    StartedExactly(chosen, w.cancelAt, time + 2);
    LaunchedAreAsked(chosen, w.cancelAt, time + 2);
    DispatchableIds(pending, w.tools);
    PendingNotAnswered(turn, AnswerSet(turn));
    assert IdsOf([]) == [];
  }

  lemma InferenceStartsNothing(w: World, conversation: seq<Message>, time: nat)
    ensures InferencePhase(w, conversation, time).started == []
  {
  }

  /** A step starts these calls: none that was answered, and all of them are answered in it. */
  predicate StartsBy(ids: seq<string>, conversation: seq<Message>, done: Done) {
    Kickoff(conversation) >= 0 ==>
      done.started == ids
      && (forall id :: id in ids ==> id !in AnswerSet(Turn(conversation)))
      && (ids != [] ==>
            done.outcome.Applied? && Kickoff(conversation + done.outcome.messages) >= 0
            && forall id :: id in ids ==> id in AnswerSet(Turn(conversation + done.outcome.messages)))
  }

  lemma ToolsAnswerPicked(w: World, conversation: seq<Message>, time: nat)
    requires Kickoff(conversation) >= 0 && ToolPhase(w, conversation, time).outcome.Applied?
    ensures var messages := ToolPhase(w, conversation, time).outcome.messages;
            Kickoff(conversation + messages) >= 0
            && forall id :: id in Picked(w, conversation, time) ==> id in AnswerSet(Turn(conversation + messages))
  {
    var messages := ToolPhase(w, conversation, time).outcome.messages;
    ToolsAnswer(w, conversation, time + 1);
    ToolPhaseExtends(w, conversation, time);
    TurnGrows(conversation, messages);
    assert messages == [messages[0]];
    OneMessage(messages[0]);
    AnswersConcat(Turn(conversation), messages[0].content);
  }

  lemma StepStartsBy(w: World, conversation: seq<Message>, time: nat)
    ensures StartsBy(Launches(w, conversation, time), conversation, Step(w, conversation, time))
  {
    if Kickoff(conversation) >= 0 {
      var tools := ToolPhase(w, conversation, time);
      ToolsStart(w, conversation, time);
      InferenceStartsNothing(w, conversation, ToolStep(w, conversation, time).time);
      if tools.outcome.Applied? {
        ToolsAnswerPicked(w, conversation, time);
      }
      hide ToolPhase, InferencePhase, Launches, Picked, AnswerSet;
      SettleKeeps(tools, w.cancelAt);
    }
  }

  ghost predicate StepsStartBy(
    step: (seq<Message>, nat) -> Done, once: (seq<Message>, nat) -> bool, ids: (seq<Message>, nat) -> seq<string>)
  {
    forall conversation, time ::
      StartsBy(ids(conversation, time), conversation, step(conversation, time))
      && (once(conversation, time) <==> Distinct(ids(conversation, time)))
  }

  lemma FollowersAnswerMore(before: seq<Message>, after: seq<Message>)
    requires Kickoff(before) >= 0 && Follows(before, after)
    ensures AnswerSet(Turn(before)) <= AnswerSet(Turn(after))
  {
    var k := Kickoff(before);
    var more := after[|before|..];
    assert after[k..] == before[k..] + more;
    ContentsConcat(before[k..], more);
    AnswersConcat(Contents(before[k..]), Contents(more));
  }

  lemma {:induction false} RunStartsBy(
    step: (seq<Message>, nat) -> Done, once: (seq<Message>, nat) -> bool, ids: (seq<Message>, nat) -> seq<string>,
    cancelAt: nat, conversation: seq<Message>, time: nat, n: nat)
    requires StepsKeepTurn(step) && StepsStartBy(step, once, ids) && Kickoff(conversation) >= 0
    ensures var started := RunSteps(step, cancelAt, conversation, time, n).started;
            (Distinct(started) <==> AlongRun(step, once, conversation, time, n))
            && forall id :: id in started ==> id !in AnswerSet(Turn(conversation))
    decreases n
  {
    if n > 0 {
      var done := step(conversation, time);
      assert KeepsTurn(conversation, done) && StartsBy(ids(conversation, time), conversation, done);
      if done.outcome.Applied? && !done.outcome.handsBack {
        var next := conversation + done.outcome.messages;
        FollowersAnswerMore(conversation, next);
        RunStartsBy(step, once, ids, cancelAt, next, done.time, n - 1);
        hide Distinct, Turn, AnswerSet;
        DistinctConcat(done.started, RunSteps(step, cancelAt, next, done.time, n - 1).started);
      }
    } else {
      assert Distinct([]);
    }
  }

  function LaunchesOf(w: World): (seq<Message>, nat) -> seq<string> {
    (conversation: seq<Message>, time: nat) => Launches(w, conversation, time)
  }

  lemma LaunchesOfAt(w: World, conversation: seq<Message>, time: nat)
    ensures LaunchesOf(w)(conversation, time) == Launches(w, conversation, time)
  {
  }

  /** Over every run, whenever it is cancelled, no call of a request answered before is started,
      and no call is started twice exactly when each step begins where the requests it comes to
      start have distinct ids. */
  lemma CallsStartOnceExactly(w: World, conversation: seq<Message>, time: nat, n: nat)
    requires WellBehaved(w) && Kickoff(conversation) >= 0
    ensures var started := Run(w, conversation, time, n).started;
            (AllDiffer(started) <==> AlongRun(StepOf(w), StartsOnce(w), conversation, time, n))
            && forall id :: id in started ==> id !in AnswerSet(Turn(conversation))
  {
    AllStepsFollow(w);
    forall c, t
      ensures StartsBy(LaunchesOf(w)(c, t), c, StepOf(w)(c, t))
      ensures StartsOnce(w)(c, t) <==> Distinct(LaunchesOf(w)(c, t))
    {
      StepOfAt(w, c, t);
      StartsOnceAt(w, c, t);
      LaunchesOfAt(w, c, t);
      StepStartsBy(w, c, t);
    }
    hide StepOf, StartsOnce, LaunchesOf, StepsKeepTurn;
    RunStartsBy(StepOf(w), StartsOnce(w), LaunchesOf(w), w.cancelAt, conversation, time, n);
    DistinctMeans(Run(w, conversation, time, n).started);
  }

  // ---------- a provider that reuses no pending id ----------

  /** No reply reuses the id of a request that is pending. */
  ghost predicate NoReuse(w: World) {
    forall conversation :: Kickoff(conversation) >= 0 ==> FreshReply(w.provider(conversation), Turn(conversation))
  }

  lemma PendingDistinctIsEnough(w: World, conversation: seq<Message>, time: nat)
    requires Kickoff(conversation) >= 0 && PendingDistinct(Turn(conversation))
    ensures Distinct(Picked(w, conversation, time)) && Distinct(Launches(w, conversation, time))
  {
    var pending := Pending(Turn(conversation));
    DispatchableIds(pending, w.tools);
    LaunchedAreAsked(Dispatchable(pending, w.tools), w.cancelAt, time + 2);
    assert Distinct([]);
  }

  predicate KeepsPending(holds: bool, conversation: seq<Message>, done: Done) {
    Kickoff(conversation) >= 0 && PendingDistinct(Turn(conversation)) ==>
      holds
      && (done.outcome.Applied? ==>
            Kickoff(conversation + done.outcome.messages) >= 0
            && PendingDistinct(Turn(conversation + done.outcome.messages)))
  }

  ghost predicate StepsKeepPending(step: (seq<Message>, nat) -> Done, holds: (seq<Message>, nat) -> bool) {
    forall conversation, time ::
      KeepsPending(holds(conversation, time), conversation, step(conversation, time))
  }

  lemma {:induction false} RunStaysDistinct(
    step: (seq<Message>, nat) -> Done, holds: (seq<Message>, nat) -> bool, conversation: seq<Message>,
    time: nat, n: nat)
    requires StepsKeepPending(step, holds) && Kickoff(conversation) >= 0 && PendingDistinct(Turn(conversation))
    ensures AlongRun(step, holds, conversation, time, n)
    decreases n
  {
    hide PendingDistinct;
    if n > 0 {
      var done := step(conversation, time);
      assert KeepsPending(holds(conversation, time), conversation, done);
      if done.outcome.Applied? && !done.outcome.handsBack {
        RunStaysDistinct(step, holds, conversation + done.outcome.messages, done.time, n - 1);
      }
    }
  }

  lemma StepKeepsPending(w: World, conversation: seq<Message>, time: nat)
    requires WellBehaved(w) && NoReuse(w)
    ensures KeepsPending(PicksOnce(w)(conversation, time), conversation, StepOf(w)(conversation, time))
    ensures KeepsPending(StartsOnce(w)(conversation, time), conversation, StepOf(w)(conversation, time))
  {
    StepOfAt(w, conversation, time);
    PicksOnceAt(w, conversation, time);
    StartsOnceAt(w, conversation, time);
    hide StepOf, PicksOnce, StartsOnce, Picked, Launches, PendingDistinct, Step;
    if Kickoff(conversation) >= 0 && PendingDistinct(Turn(conversation)) {
      PendingDistinctIsEnough(w, conversation, time);
      StepAnswersOnceExactly(w, conversation, time);
      var done := Step(w, conversation, time);
      if done.outcome.Applied? {
        TurnGrows(conversation, done.outcome.messages);
      }
    }
  }

  /** If the provider reuses no pending id, and none repeats at the start, each request gets at
      most one answer and no call is started twice. */
  lemma NoReuseIsEnough(w: World, conversation: seq<Message>, time: nat, n: nat)
    requires WellBehaved(w) && NoReuse(w) && AnswersOnce(conversation) && PendingDistinct(Turn(conversation))
    ensures var trace := Run(w, conversation, time, n);
            Kickoff(trace.conversation) >= 0 && AllDiffer(Answers(Turn(trace.conversation))) && AllDiffer(trace.started)
  {
    forall c, t
      ensures KeepsPending(PicksOnce(w)(c, t), c, StepOf(w)(c, t))
      ensures KeepsPending(StartsOnce(w)(c, t), c, StepOf(w)(c, t))
    {
      StepKeepsPending(w, c, t);
    }
    hide StepOf, PicksOnce, StartsOnce, PendingDistinct, WellBehaved;
    RunStaysDistinct(StepOf(w), PicksOnce(w), conversation, time, n);
    RunStaysDistinct(StepOf(w), StartsOnce(w), conversation, time, n);
    OneAnswerExactly(w, conversation, time, n);
    CallsStartOnceExactly(w, conversation, time, n);
    DistinctMeans(Answers(Turn(conversation)));
  }
}
