/** The agent loop as the program runs it, one look at the cancellation token at a time. */
module AgentMachine {
  import opened Wrappers
  import opened Messages
  import opened ToolThinking
  import opened StreamLoop
  import opened ToolCalls
  import opened AgentLoop

  /** The answers a cancelled turn still owes, gathered in one pass over its requests. */
  method CancellationResponse(turn: seq<Content>) returns (response: seq<Message>)
    ensures response == Closing(turn)
  {
    ghost var all := AnswerSet(turn);
    var answered := AnswerSet(turn);
    var requested: set<string> := {};
    var ids: seq<string> := [];
    for i := 0 to |turn|
      invariant requested == RequestIds(turn[..i])
      invariant answered == all - requested
      invariant ids == OpenIds(turn[..i], all)
    {
      assert turn[..i + 1][..i] == turn[..i];
      match turn[i]
      case ToolRequest(id, _, _) =>
        if id !in requested {
          requested := requested + {id};
          if id in answered {
            answered := answered - {id};
          } else {
            ids := ids + [id];
          }
        }
      case _ =>
    }
    assert turn[..|turn|] == turn;
    response := if ids == [] then [] else [FromUser(Responses(ids, NotExecuted))];
  }

  /** The tools registered with an operation, and those its providers list. */
  class ToolRegistry {
    var registered: seq<string>
    var providers: seq<seq<string>>

    constructor ()
      ensures registered == [] && providers == []
    {
      registered, providers := [], [];
    }

    ghost predicate Valid()
      reads this
    {
      Distinct(registered)
    }

    /** A tool of the same name is replaced where it stands. */
    method Register(name: string)
      requires Valid()
      modifies this`registered
      ensures Valid()
      ensures registered == if name in old(registered) then old(registered) else old(registered) + [name]
    {
      if exists i :: 0 <= i < |registered| && registered[i] == name {
        return;
      }
      DistinctSnoc(registered, name);
      registered := registered + [name];
    }

    method WithProvider(names: seq<string>)
      modifies this`providers
      ensures providers == old(providers) + [names]
    {
      providers := providers + [names];
    }

    /** All names in order, unless two of them are the same. */
    method AvailableTools() returns (available: Option<seq<string>>)
      requires Valid()
      ensures available == if Distinct(registered + Flat(providers)) then Some(registered + Flat(providers)) else None
    {
      var names := registered;
      assert registered + Flat(providers[..0]) == registered;
      for i := 0 to |providers|
        invariant names == registered + Flat(providers[..i]) && Distinct(names)
      {
        FlatStep(registered, providers, i);
        available := AddNames(names, providers[i]);
        if available.None? {
          return;
        }
        names := available.value;
      }
      assert providers[..|providers|] == providers;
      return Some(names);
    }
  }

  /** Adds further tools unless one of them repeats a name. */
  method AddNames(names: seq<string>, more: seq<string>) returns (all: Option<seq<string>>)
    requires Distinct(names)
    ensures all == if Distinct(names + more) then Some(names + more) else None
  {
    var added := names;
    assert names + more[..0] == names;
    for j := 0 to |more|
      invariant added == names + more[..j] && Distinct(added)
    {
      OneMoreName(names, more, j);
      if more[j] in added {
        return None;
      }
      added := added + [more[j]];
    }
    assert more[..|more|] == more;
    return Some(added);
  }

  lemma OneMoreName(names: seq<string>, more: seq<string>, j: nat)
    requires j < |more| && Distinct(names + more[..j])
    ensures names + more[..j + 1] == names + more[..j] + [more[j]]
    ensures more[j] !in names + more[..j] ==> Distinct(names + more[..j + 1])
    ensures more[j] in names + more[..j] ==> !Distinct(names + more)
  {
    var added := names + more[..j];
    assert names + more[..j + 1] == added + [more[j]];
    assert names + more == (added + [more[j]]) + more[j + 1..];
    DistinctSnoc(added, more[j]);
    DistinctConcat(added + [more[j]], more[j + 1..]);
  }

  function Flat(providers: seq<seq<string>>): seq<string> {
    if providers == [] then [] else Flat(providers[..|providers| - 1]) + providers[|providers| - 1]
  }

  lemma {:induction false} FlatPrefix(providers: seq<seq<string>>, i: nat)
    requires i <= |providers|
    ensures Flat(providers[..i]) <= Flat(providers)
  {
    if i == |providers| {
      assert providers[..i] == providers;
    } else {
      var init := providers[..|providers| - 1];
      FlatPrefix(init, i);
      assert init[..i] == providers[..i];
    }
  }

  lemma FlatStep(registered: seq<string>, providers: seq<seq<string>>, i: nat)
    requires i < |providers|
    ensures registered + Flat(providers[..i + 1]) == registered + Flat(providers[..i]) + providers[i]
    ensures Distinct(registered + Flat(providers)) ==> Distinct(registered + Flat(providers[..i]) + providers[i])
  {
    assert providers[..i + 1][..i] == providers[..i];
    FlatPrefix(providers, i + 1);
    var front, all := registered + Flat(providers[..i + 1]), registered + Flat(providers);
    assert front == registered + Flat(providers[..i]) + providers[i];
    assert all == front + all[|front|..];
    DistinctConcat(front, all[|front|..]);
  }

  lemma {:induction false} ChosenAreRequests(pending: seq<Content>, tools: set<string>)
    ensures forall i :: 0 <= i < |Dispatchable(pending, tools)| ==> Dispatchable(pending, tools)[i].ToolRequest?
  {
    if pending != [] {
      ChosenAreRequests(pending[..|pending| - 1], tools);
    }
  }

  /** Takes one streamed message into the accumulator. */
  method TakeChunk(accumulator: Conversation, seen: set<string>, item: Item) returns (seen': set<string>)
    modifies accumulator
    ensures Intake(accumulator.messages, seen') == Absorb(Intake(old(accumulator.messages), seen), item)
  {
    var chunk := item.message;
    if chunk.role.Assistant? {
      chunk := chunk.(hasInference := true);
    }
    var content;
    content, seen' := DropRepeats(chunk.content, seen);
    chunk := chunk.(content := content);
    chunk := accumulator.NormalizeToolCallThinking(chunk);
    if chunk.content != [] || chunk.limitReached {
      if chunk.id.None? {
        chunk := chunk.(id := Some(item.spareId));
      }
    }
    accumulator.Push(chunk);
  }

  datatype Gathering = Gathered | GaveUp | ListingFailed

  class StateMachine {
    const world: World
    var conversation: seq<Message>
    var clock: nat
    var started: seq<string>

    constructor (world: World, conversation: seq<Message>)
      ensures this.world == world && this.conversation == conversation && clock == 0 && started == []
    {
      this.world := world;
      this.conversation := conversation;
      clock, started := 0, [];
    }

    method Look() returns (cancelled: bool)
      modifies this`clock
      ensures clock == old(clock) + 1
      ensures cancelled == (old(clock) >= world.cancelAt)
    {
      cancelled := clock >= world.cancelAt;
      clock := clock + 1;
    }

    method AnswerPending(chosen: seq<Content>) returns (responses: seq<Content>)
      requires forall i :: 0 <= i < |chosen| ==> chosen[i].ToolRequest?
      modifies this`clock, this`started
      ensures var tally := AnswerAll(chosen, world.cancelAt, old(clock));
              responses == tally.responses && clock == tally.time && started == old(started) + tally.started
    {
      responses := [];
      var cancelled := false;
      ghost var calls: seq<string> := [];
      for i := 0 to |chosen|
        invariant AnswerAll(chosen[..i], world.cancelAt, old(clock)) == Tally(responses, calls, cancelled, clock)
        invariant started == old(started) + calls
      {
        assert chosen[..i + 1][..i] == chosen[..i];
        var request := chosen[i];
        var outcome := Interrupted;
        if !cancelled {
          cancelled := Look();
        }
        if !cancelled {
          if request.call.Malformed? {
            outcome := BadArguments;
          } else {
            cancelled := Look();
            if !cancelled {
              Assoc(old(started), calls, [request.id]);
              started := started + [request.id];
              calls := calls + [request.id];
              cancelled := Look();
              if !cancelled {
                outcome := Output;
              }
            }
          }
        }
        responses := responses + [ToolResponse(request.id, outcome)];
      }
      assert chosen[..|chosen|] == chosen;
    }

    /** Answers the pending requests of the turn that can be run. */
    method RunTools() returns (outcome: AgentLoop.Outcome)
      modifies this`clock, this`started
      ensures var done := AgentLoop.RunTools(world, conversation, old(clock));
              outcome == done.outcome && clock == done.time && started == old(started) + done.started
    {
      if Kickoff(conversation) < 0 {
        return Failed;
      }
      var pending := Pending(Turn(conversation));
      if pending == [] {
        return NotApplicable;
      }
      var listed := world.listing(clock);
      var cancelled := Look();
      if cancelled {
        return Applied([FromUser(Responses(IdsOf(pending), Interrupted))], false);
      }
      if !listed {
        return Failed;
      }
      var chosen := Dispatchable(pending, world.tools);
      if chosen == [] {
        return NotApplicable;
      }
      ChosenAreRequests(pending, world.tools);
      var responses := AnswerPending(chosen);
      return Applied([FromUser(responses)], false);
    }

    /** Receives a stream into a fresh accumulator. */
    method ReceiveStream(events: seq<Event>) returns (accumulator: Conversation, ending: Ending)
      modifies this`clock
      ensures fresh(accumulator)
      ensures var r := Receive(events, [], world.cancelAt, old(clock));
              accumulator.messages == Collect(r.items).messages && ending == r.ending && clock == r.time
    {
      accumulator := new Conversation();
      var seen: set<string> := {};
      ghost var items: seq<Item> := [];
      var i := 0;
      while true
        invariant 0 <= i <= |events|
        invariant fresh(accumulator)
        invariant Collect(items) == Intake(accumulator.messages, seen)
        invariant Receive(events, [], world.cancelAt, old(clock)) == Receive(events[i..], items, world.cancelAt, clock)
        decreases |events| - i
      {
        var cancelled := Look();
        if cancelled {
          ending := Cut;
          return;
        }
        if i == |events| {
          ending := Exhausted;
          return;
        }
        match events[i] {
          case Broken(kind) =>
            ending := BrokeOff(kind);
            return;
          case Chunk(item) =>
            seen := TakeChunk(accumulator, seen, item);
            assert (items + [item])[..|items|] == items;
            items := items + [item];
            assert events[i..][1..] == events[i + 1..];
        }
        i := i + 1;
      }
    }

    method Infer() returns (outcome: AgentLoop.Outcome)
      requires Kickoff(conversation) >= 0
      modifies this`clock
      ensures var done := AgentLoop.Infer(world, conversation, old(clock));
              outcome == done.outcome && clock == done.time && done.started == []
    {
      if !Applies(conversation) {
        return NotApplicable;
      }
      var reply := world.provider(conversation);
      match reply
      case Refused(kind) => outcome := Applied([ErrorMessage(kind)], false);
      case Opened(events) =>
        var accumulator, ending := ReceiveStream(events);
        outcome := FinishStream(accumulator.messages, ending, Receive(events, [], world.cancelAt, old(clock)));
    }

    /** What the inference leaves in the conversation once its stream is over. */
    method FinishStream(received: seq<Message>, ending: Ending, ghost r: Reception) returns (outcome: AgentLoop.Outcome)
      requires Kickoff(conversation) >= 0
      requires received == Collect(r.items).messages && ending == r.ending && clock == r.time
      modifies this`clock
      ensures var done := Finish(conversation, r, world.cancelAt);
              outcome == done.outcome && clock == done.time && done.started == []
    {
      if ending.BrokeOff? {
        return Applied(received + [ErrorMessage(ending.kind)], false);
      }
      var messages := received;
      var cancelled := ending.Cut?;
      if !cancelled {
        cancelled := Look();
      }
      if cancelled {
        var response := CancellationResponse(Turn(conversation) + Contents(received));
        messages := messages + response;
      }
      if IsEmptyResponse(messages, ending) {
        return Applied([EmptyResponse()], true);
      }
      return Applied(messages, false);
    }

    /** One pass over the pipeline; NotApplicable when no step applied. */
    method Step() returns (outcome: AgentLoop.Outcome)
      modifies this`clock, this`started
      ensures var done := AgentLoop.Step(world, conversation, old(clock));
              outcome == done.outcome && clock == done.time && started == old(started) + done.started
    {
      outcome := StepTools();
      if outcome.NotApplicable? {
        ghost var before := started;
        outcome := StepInference();
        assert before + [] == before;
      }
    }

    method StepTools() returns (outcome: AgentLoop.Outcome)
      modifies this`clock, this`started
      ensures var done := ToolStep(world, conversation, old(clock));
              outcome == done.outcome && clock == done.time && started == old(started) + done.started
    {
      outcome := NotApplicable;
      var cancelled := Look();
      if !cancelled {
        outcome := RunTools();
        if outcome.Failed? {
          return;
        }
      }
      cancelled := Look();
      if outcome.Applied? {
        outcome := Applied(outcome.messages, outcome.handsBack || cancelled);
      }
    }

    /** Asks both operations for their tools; only the first has any. */
    method GatherTools() returns (gathered: Gathering)
      modifies this`clock
      ensures gathered ==
              if old(clock) >= world.cancelAt then GaveUp
              else if !world.listing(old(clock)) then ListingFailed
              else if old(clock) + 1 >= world.cancelAt then GaveUp
              else Gathered
      ensures clock == old(clock) + if old(clock) < world.cancelAt && world.listing(old(clock)) then 2 else 1
    {
      var listed := world.listing(clock);
      var cancelled := Look();
      if cancelled {
        return GaveUp;
      }
      if !listed {
        return ListingFailed;
      }
      cancelled := Look();
      return if cancelled then GaveUp else Gathered;
    }

    method StepInference() returns (outcome: AgentLoop.Outcome)
      modifies this`clock
      ensures var done := InferencePhase(world, conversation, old(clock));
              outcome == done.outcome && clock == done.time && done.started == []
    {
      hide AgentLoop.InferAndSettle, AfterInference;
      outcome := NotApplicable;
      var cancelled := Look();
      if cancelled {
        outcome := AfterInfer(NotApplicable);
        return;
      }
      if !Applies(conversation) {
        return;
      }
      var gathered := GatherTools();
      match gathered
      case GaveUp => return;
      case ListingFailed => return Failed;
      case Gathered => outcome := InferAndSettle();
    }

    method InferAndSettle() returns (outcome: AgentLoop.Outcome)
      requires Kickoff(conversation) >= 0
      modifies this`clock
      ensures var done := AgentLoop.InferAndSettle(world, conversation, old(clock));
              outcome == done.outcome && clock == done.time && done.started == []
    {
      outcome := Infer();
      outcome := AfterInfer(outcome);
    }

    /** Lets the inference cancel what it did, and hands back, if the token is found cancelled. */
    method AfterInfer(result: AgentLoop.Outcome) returns (outcome: AgentLoop.Outcome)
      modifies this`clock
      ensures var done := AfterInference(world, conversation, Done(result, old(clock), []));
              outcome == done.outcome && clock == done.time && done.started == []
    {
      outcome := result;
      if outcome.Failed? {
        return;
      }
      var cancelled := Look();
      if cancelled && outcome.NotApplicable? {
        if Kickoff(conversation) < 0 {
          return Failed;
        }
        var response := CancellationResponse(Turn(conversation));
        if response != [] {
          outcome := Applied(response, false);
        }
      }
      if outcome.Applied? {
        outcome := Applied(outcome.messages, outcome.handsBack || cancelled);
      }
    }

    /** At most n steps, each applied to the conversation before the next begins. */
    method Run(n: nat) returns (end: End)
      modifies this
      ensures var trace := AgentLoop.Run(world, old(conversation), old(clock), n);
              conversation == trace.conversation && end == trace.end && clock == trace.time
              && started == old(started) + trace.started
    {
      hide AgentLoop.Step, StepOf, RunSteps;
      ghost var late: nat := 0;
      ghost var calls: seq<string> := [];
      assert old(started) == old(started) + calls;
      var left := n;
      while left > 0
        invariant started == old(started) + calls
        invariant 0 <= left <= n
        invariant RunSteps(StepOf(world), world.cancelAt, old(conversation), old(clock), n)
                  == Later(RunSteps(StepOf(world), world.cancelAt, conversation, clock, left), late, calls)
      {
        ghost var done := AgentLoop.Step(world, conversation, clock);
        StepOfAt(world, conversation, clock);
        LaterStep(world, conversation, clock, left, late, calls);
        Assoc(old(started), calls, done.started);
        late := late + if clock >= world.cancelAt then 1 else 0;
        calls := calls + done.started;
        var outcome := Step();
        match outcome {
          case Failed =>
            return Errored;
          case NotApplicable =>
            return Stopped;
          case Applied(messages, handsBack) =>
            conversation := conversation + messages;
            if handsBack {
              return Yielded;
            }
        }
        left := left - 1;
      }
      RunsOut(StepOf(world), world.cancelAt, conversation, clock, late, calls);
      return Running;
    }
  }

  /** A run that earlier steps led up to. */
  function Later(trace: Trace, late: nat, started: seq<string>): Trace {
    trace.(late := late + trace.late, started := started + trace.started)
  }

  lemma RunsOut(
    step: (seq<Message>, nat) -> Done, cancelAt: nat, conversation: seq<Message>, time: nat, late: nat,
    started: seq<string>)
    ensures Later(RunSteps(step, cancelAt, conversation, time, 0), late, started) ==
            Trace(conversation, Running, time, late, started)
  {
  }

  lemma LaterStep(w: World, conversation: seq<Message>, time: nat, n: nat, late: nat, started: seq<string>)
    requires n > 0
    ensures var done := StepOf(w)(conversation, time);
            var late' := late + if time >= w.cancelAt then 1 else 0;
            Later(RunSteps(StepOf(w), w.cancelAt, conversation, time, n), late, started) ==
            match done.outcome {
              case Failed => Trace(conversation, Errored, done.time, late', started + done.started)
              case NotApplicable => Trace(conversation, Stopped, done.time, late', started + done.started)
              case Applied(messages, handsBack) =>
                if handsBack then Trace(conversation + messages, Yielded, done.time, late', started + done.started)
                else Later(RunSteps(StepOf(w), w.cancelAt, conversation + messages, done.time, n - 1),
                           late', started + done.started)
            }
  {
    StepRunsOn(StepOf(w), w.cancelAt, conversation, time, n, late, started);
  }

  lemma StepRunsOn(step: (seq<Message>, nat) -> Done, cancelAt: nat, conversation: seq<Message>, time: nat, n: nat,
                   late: nat, started: seq<string>)
    requires n > 0
    ensures var done := step(conversation, time);
            var late' := late + if time >= cancelAt then 1 else 0;
            Later(RunSteps(step, cancelAt, conversation, time, n), late, started) ==
            match done.outcome {
              case Failed => Trace(conversation, Errored, done.time, late', started + done.started)
              case NotApplicable => Trace(conversation, Stopped, done.time, late', started + done.started)
              case Applied(messages, handsBack) =>
                if handsBack then Trace(conversation + messages, Yielded, done.time, late', started + done.started)
                else Later(RunSteps(step, cancelAt, conversation + messages, done.time, n - 1),
                           late', started + done.started)
            }
  {
    var done := step(conversation, time);
    if done.outcome.Applied? && !done.outcome.handsBack {
      var rest := RunSteps(step, cancelAt, conversation + done.outcome.messages, done.time, n - 1);
      Assoc(started, done.started, rest.started);
    }
  }
}
