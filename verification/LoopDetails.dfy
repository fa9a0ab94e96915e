/** What a step of the agent loop reads and what it writes, told block by block: where a turn
    begins, which requests are answered and how, and what the provider is shown. */
module LoopDetails {
  import opened Wrappers
  import opened Messages
  import opened ToolThinking
  import opened ToolCalls
  import opened ReceivedCalls
  import opened AgentLoop
  import opened LoopSafety

  // ---------- where a turn begins ----------

  /** A message of the user that the user sees and that answers no tool call. */
  predicate BeginsTurn(m: Message) {
    m.role == User && m.userVisible && forall i :: 0 <= i < |m.content| ==> !m.content[i].ToolResponse?
  }

  /** The turn begins at the last such message, if there is one. */
  lemma {:induction false} KickoffExactly(conversation: seq<Message>)
    ensures var k := Kickoff(conversation);
            -1 <= k < |conversation| && (k >= 0 ==> BeginsTurn(conversation[k]))
            && forall i :: k < i < |conversation| ==> !BeginsTurn(conversation[i])
  {
    if conversation != [] {
      var init, m := conversation[..|conversation| - 1], conversation[|conversation| - 1];
      KickoffExactly(init);
      assert IsKickoff(m) <==> BeginsTurn(m);
      assert forall i :: 0 <= i < |init| ==> conversation[i] == init[i];
    }
  }

  // ---------- which requests are answered ----------

  /** Some block answers the request. */
  predicate IsAnswered(id: string, turn: seq<Content>) {
    exists i :: 0 <= i < |turn| && turn[i].ToolResponse? && turn[i].answers == id
  }

  /** A request that the agent still has to answer: not executed elsewhere, and not answered. */
  function ToAnswer(turn: seq<Content>): Content -> bool {
    (c: Content) => c.ToolRequest? && !c.external && !IsAnswered(c.id, turn)
  }

  /** One that it can: its arguments are malformed, or its tool is available. */
  function ToDispatch(turn: seq<Content>, tools: set<string>): Content -> bool {
    (c: Content) =>
      c.ToolRequest? && !c.external && !IsAnswered(c.id, turn)
      && (c.call == Malformed || (c.call.Call? && c.call.tool in tools))
  }

  lemma {:induction false} AnswersMeans(turn: seq<Content>, id: string)
    ensures id in Answers(turn) <==> IsAnswered(id, turn)
  {
    if turn != [] {
      var init := turn[..|turn| - 1];
      AnswersMeans(init, id);
      if i :| 0 <= i < |turn| && turn[i].ToolResponse? && turn[i].answers == id {
        assert i < |init| ==> init[i].ToolResponse? && init[i].answers == id;
      }
      if i :| 0 <= i < |init| && init[i].ToolResponse? && init[i].answers == id {
        assert turn[i].ToolResponse? && turn[i].answers == id;
      }
    }
  }

  lemma AnswerSetMeans(turn: seq<Content>, id: string)
    ensures id in AnswerSet(turn) <==> IsAnswered(id, turn)
  {
    AnswersMeans(turn, id);
  }

  lemma {:induction false} PendingIsFilter(content: seq<Content>, turn: seq<Content>)
    ensures PendingFrom(content, AnswerSet(turn)) == Filter(ToAnswer(turn), content)
  {
    if content != [] {
      var init, c := content[..|content| - 1], content[|content| - 1];
      PendingIsFilter(init, turn);
      assert content == init + [c];
      FilterSnoc(ToAnswer(turn), init, c);
      if c.ToolRequest? {
        AnswerSetMeans(turn, c.id);
      }
    }
  }

  lemma {:induction false} DispatchableIsFilter(content: seq<Content>, turn: seq<Content>, tools: set<string>)
    ensures Dispatchable(PendingFrom(content, AnswerSet(turn)), tools) == Filter(ToDispatch(turn, tools), content)
  {
    if content != [] {
      var init, c := content[..|content| - 1], content[|content| - 1];
      DispatchableIsFilter(init, turn, tools);
      assert content == init + [c];
      FilterSnoc(ToDispatch(turn, tools), init, c);
      if c.ToolRequest? {
        AnswerSetMeans(turn, c.id);
      }
      var before := PendingFrom(init, AnswerSet(turn));
      assert (before + [c])[..|before|] == before;
    }
  }

  function FromTools(responses: seq<Content>): Message {
    Message(User, None, responses, true, true, false, false)
  }

  /** The tool operation, in terms of the blocks of the turn.  It fails without a turn, or if it has
      to list tools and cannot; it does not apply if there is nothing to answer, or nothing it can
      answer.  Cancelled while tools are listed it says of all requests to be answered that they
      were interrupted, and starts nothing; otherwise it answers those it can, one response each,
      in order, and an output is the answer to a call it started. */
  lemma ToolsExactly(w: World, conversation: seq<Message>, time: nat)
    ensures var done := RunTools(w, conversation, time);
            if Kickoff(conversation) < 0 then done.outcome == Failed && done.started == []
            else
              var turn := Turn(conversation);
              var all, some := Filter(ToAnswer(turn), turn), Filter(ToDispatch(turn, w.tools), turn);
              if all == [] then done == Done(NotApplicable, time, [])
              else if time >= w.cancelAt then
                done.started == [] && done.outcome.Applied? && !done.outcome.handsBack
                && AllInterrupted(done.outcome.messages, all)
              else if !w.listing(time) then done.outcome == Failed && done.started == []
              else if some == [] then done.outcome == NotApplicable && done.started == []
              else
                done.outcome.Applied? && !done.outcome.handsBack
                && AnswersEach(done.outcome.messages, some, done.started)
  {
    if Kickoff(conversation) >= 0 {
      var turn := Turn(conversation);
      PendingIsFilter(turn, turn);
      DispatchableIsFilter(turn, turn, w.tools);
      var pending := Pending(turn);
      var chosen := Dispatchable(pending, w.tools);
      PendingAreRequests(turn, AnswerSet(turn));
      DispatchableAreRequests(pending, w.tools);
      IdsAre(pending);
      EachAnswered(chosen, w.cancelAt, time + 1);
    }
  }

  predicate AllInterrupted(messages: seq<Message>, requests: seq<Content>) {
    |messages| == 1 && messages[0] == FromTools(messages[0].content)
    && |messages[0].content| == |requests|
    && forall i :: 0 <= i < |requests| ==>
         requests[i].ToolRequest? && messages[0].content[i] == ToolResponse(requests[i].id, Interrupted)
  }

  predicate AnswersEach(messages: seq<Message>, requests: seq<Content>, started: seq<string>) {
    |messages| == 1 && messages[0] == FromTools(messages[0].content)
    && |messages[0].content| == |requests|
    && forall i :: 0 <= i < |requests| ==>
         requests[i].ToolRequest? && messages[0].content[i].ToolResponse?
         && messages[0].content[i].answers == requests[i].id
         && (match messages[0].content[i].outcome
             case Output => requests[i].call.Call? && requests[i].id in started
             case BadArguments => requests[i].call == Malformed
             case Interrupted => true
             case NotExecuted => false)
  }

  lemma {:induction false} IdsAre(requests: seq<Content>)
    requires AllRequests(requests)
    ensures |IdsOf(requests)| == |requests|
    ensures forall i :: 0 <= i < |requests| ==> IdsOf(requests)[i] == requests[i].id
  {
    if requests != [] {
      IdsAre(requests[..|requests| - 1]);
    }
  }

  lemma {:induction false} EachAnswered(requests: seq<Content>, cancelAt: nat, time: nat)
    requires AllRequests(requests)
    ensures var tally := AnswerAll(requests, cancelAt, time);
            AnswersEach([FromTools(tally.responses)], requests, tally.started)
  {
    if requests != [] {
      var init, r := requests[..|requests| - 1], requests[|requests| - 1];
      EachAnswered(init, cancelAt, time);
      var before, after := AnswerAll(init, cancelAt, time), AnswerAll(requests, cancelAt, time);
      assert AnswersEach([FromTools(before.responses)], init, before.started);
      forall i | 0 <= i < |init|
        ensures requests[i] == init[i] && after.responses[i] == before.responses[i]
      {
      }
    }
  }

  // ---------- what the provider is shown ----------

  /** The block is for the agent, and if it is a request of an earlier turn, somebody answered it. */
  function ShownOf(conversation: seq<Message>, current: bool): Content -> bool {
    (c: Content) =>
      (c.Text? || c.Other? ==> c.audience == None || Assistant in c.audience.value)
      && (c.ToolRequest? && !current ==> IsAnswered(c.id, Contents(conversation)))
  }

  /** What the provider sees of the message at a place. */
  function SeenAt(conversation: seq<Message>, i: nat): seq<Content>
    requires i < |conversation|
  {
    if conversation[i].agentVisible then
      Filter(ShownOf(conversation, i >= Kickoff(conversation)), conversation[i].content)
    else []
  }

  lemma {:induction false} ShownIsFilter(content: seq<Content>, conversation: seq<Message>, current: bool)
    ensures Shown(content, current, AnswerSet(Contents(conversation)))
            == Filter(ShownOf(conversation, current), content)
  {
    if content != [] {
      var init, c := content[..|content| - 1], content[|content| - 1];
      ShownIsFilter(init, conversation, current);
      assert content == init + [c];
      FilterSnoc(ShownOf(conversation, current), init, c);
      if c.ToolRequest? {
        AnswerSetMeans(Contents(conversation), c.id);
      }
    }
  }

  /** The places of the messages of which the provider sees something, first to last. */
  function SeenPlaces(conversation: seq<Message>, n: nat): seq<nat>
    requires n <= |conversation|
  {
    if n == 0 then []
    else if SeenAt(conversation, n - 1) != [] then SeenPlaces(conversation, n - 1) + [n - 1]
    else SeenPlaces(conversation, n - 1)
  }

  lemma {:induction false} PlacesAreSeen(conversation: seq<Message>, n: nat)
    requires n <= |conversation|
    ensures forall i :: i in SeenPlaces(conversation, n) <==> 0 <= i < n && SeenAt(conversation, i) != []
    ensures forall i, j :: 0 <= i < j < |SeenPlaces(conversation, n)| ==>
              SeenPlaces(conversation, n)[i] < SeenPlaces(conversation, n)[j]
  {
    hide SeenAt;
    if n > 0 {
      PlacesAreSeen(conversation, n - 1);
      var before, places := SeenPlaces(conversation, n - 1), SeenPlaces(conversation, n);
      forall i, j | 0 <= i < j < |places|
        ensures places[i] < places[j]
      {
        assert places[i] == before[i];
        assert j < |before| ==> places[j] == before[j];
        assert places[i] in before;
      }
    }
  }

  /** The messages as the provider sees them, of those it sees anything of. */
  predicate SeenSo(view: seq<Message>, conversation: seq<Message>, places: seq<nat>) {
    |view| == |places|
    && forall i :: 0 <= i < |view| ==>
         places[i] < |conversation|
         && view[i] == conversation[places[i]].(content := SeenAt(conversation, places[i]))
  }

  lemma SeenOneMore(view: seq<Message>, conversation: seq<Message>, places: seq<nat>, p: nat)
    requires SeenSo(view, conversation, places) && p < |conversation|
    ensures SeenSo(view + [conversation[p].(content := SeenAt(conversation, p))], conversation, places + [p])
  {
    hide SeenAt;
  }

  lemma ViewStep(conversation: seq<Message>, n: nat)
    requires n < |conversation|
    ensures var k, answered, m := Kickoff(conversation), AnswerSet(Contents(conversation)), conversation[n];
            View(conversation[..n + 1], k, answered) ==
            View(conversation[..n], k, answered)
            + if SeenAt(conversation, n) != [] then [m.(content := SeenAt(conversation, n))] else []
  {
    assert conversation[..n + 1][..n] == conversation[..n];
    ShownIsFilter(conversation[n].content, conversation, Kickoff(conversation) <= n);
  }

  /** The request holds the messages of which the agent may see something, in order, each with what
      it may see of it and otherwise as it is. */
  lemma {:induction false} ViewExactly(conversation: seq<Message>, n: nat)
    requires n <= |conversation|
    ensures SeenSo(View(conversation[..n], Kickoff(conversation), AnswerSet(Contents(conversation))), conversation,
                   SeenPlaces(conversation, n))
  {
    hide View, SeenAt, Kickoff, Contents, AnswerSet, SeenSo;
    if n == 0 {
      NothingSeen(conversation);
    } else {
      var before := View(conversation[..n - 1], Kickoff(conversation), AnswerSet(Contents(conversation)));
      ViewExactly(conversation, n - 1);
      ViewStep(conversation, n - 1);
      if SeenAt(conversation, n - 1) != [] {
        SeenOneMore(before, conversation, SeenPlaces(conversation, n - 1), n - 1);
      } else {
        assert before + [] == before;
      }
    }
  }

  lemma NothingSeen(conversation: seq<Message>)
    ensures SeenSo(View(conversation[..0], Kickoff(conversation), AnswerSet(Contents(conversation))), conversation, [])
  {
  }

  lemma LastSeenIsLast(conversation: seq<Message>)
    ensures var places := SeenPlaces(conversation, |conversation|);
            forall i :: LastSeen(conversation, i) <==> places != [] && i == places[|places| - 1]
  {
    var n := |conversation|;
    var places := SeenPlaces(conversation, n);
    PlacesAreSeen(conversation, n);
    hide SeenAt, SeenPlaces;
    if places != [] {
      var last := places[|places| - 1];
      assert last in places;
      forall j | j in places
        ensures j <= last
      {
        var p :| 0 <= p < |places| && places[p] == j;
      }
      forall j | last < j < n
        ensures SeenAt(conversation, j) == []
      {
        assert SeenAt(conversation, j) != [] ==> j in places;
      }
      forall i | LastSeen(conversation, i)
        ensures i == last
      {
        assert i in places;
      }
    } else {
      forall i | 0 <= i < n
        ensures SeenAt(conversation, i) == []
      {
        assert SeenAt(conversation, i) != [] ==> i in places;
      }
    }
  }

  /** An inference is made next exactly when there is a turn, the last message reports no error, and
      the last message of which the provider sees anything is from the user. */
  lemma AppliesExactly(conversation: seq<Message>)
    ensures Applies(conversation)
            <==> Kickoff(conversation) >= 0
                 && (forall c :: c in conversation[|conversation| - 1].content ==> !c.Error?)
                 && exists i :: LastSeen(conversation, i) && conversation[i].role == User
  {
    if Kickoff(conversation) >= 0 {
      NoErrorIn(conversation[|conversation| - 1].content);
      EndsExactly(conversation);
      hide MessagesForProvider, LastSeen, Kickoff, HasError;
    }
  }

  lemma EndsExactly(conversation: seq<Message>)
    ensures EndsWithProviderTurn(MessagesForProvider(conversation, Kickoff(conversation)))
            <==> exists i :: LastSeen(conversation, i) && conversation[i].role == User
  {
    var places := SeenPlaces(conversation, |conversation|);
    LastSeenIsLast(conversation);
    ViewExactly(conversation, |conversation|);
    assert conversation[..|conversation|] == conversation;
    hide SeenAt, SeenPlaces, View, LastSeen, Kickoff, Contents, AnswerSet;
    if places != [] {
      assert LastSeen(conversation, places[|places| - 1]);
    }
  }

  lemma NoErrorIn(content: seq<Content>)
    ensures HasError(content) <==> !forall c :: c in content ==> !c.Error?
  {
    if HasError(content) {
      var i :| 0 <= i < |content| && content[i].Error?;
      assert content[i] in content;
    }
  }

  predicate LastSeen(conversation: seq<Message>, i: int) {
    0 <= i < |conversation| && SeenAt(conversation, i) != []
    && forall j :: i < j < |conversation| ==> SeenAt(conversation, j) == []
  }

  // ---------- an inference ----------

  /** An inference that does not apply does nothing.  If the provider refuses, its error is appended
      as a message; otherwise what comes of the stream is. */
  lemma InferExactly(w: World, conversation: seq<Message>, time: nat)
    requires Kickoff(conversation) >= 0
    ensures Infer(w, conversation, time).started == []
    ensures !Applies(conversation) ==> Infer(w, conversation, time) == Done(NotApplicable, time, [])
    ensures Applies(conversation) && w.provider(conversation).Refused? ==>
              Infer(w, conversation, time).time == time
              && Infer(w, conversation, time).outcome ==
                 Applied([Message(Assistant, None, [Error(w.provider(conversation).kind)], true, true, false, false)],
                         false)
    ensures Applies(conversation) && w.provider(conversation).Opened? ==>
              Infer(w, conversation, time) ==
              Finish(conversation, Receive(w.provider(conversation).events, [], w.cancelAt, time), w.cancelAt)
  {
  }

  // ---------- what is reported of calls ----------

  /** Every output that these blocks report is the output of a call that was started. */
  predicate OutputsOf(content: seq<Content>, started: seq<string>) {
    forall i :: 0 <= i < |content| && content[i].ToolResponse? && content[i].outcome == Output ==>
      content[i].answers in started
  }

  lemma OutputsConcat(a: seq<Content>, b: seq<Content>, started: seq<string>, more: seq<string>)
    requires OutputsOf(a, started) && OutputsOf(b, more)
    ensures OutputsOf(a + b, started + more)
  {
    var all := a + b;
    forall i | 0 <= i < |all| && all[i].ToolResponse? && all[i].outcome == Output
      ensures all[i].answers in started + more
    {
      assert i >= |a| ==> all[i] == b[i - |a|];
    }
  }

  lemma SilentOutputs(content: seq<Content>, started: seq<string>)
    requires Answers(content) == []
    ensures OutputsOf(content, started)
  {
    forall i | 0 <= i < |content|
      ensures !content[i].ToolResponse?
    {
      if content[i].ToolResponse? {
        AnswersMeans(content, content[i].answers);
      }
    }
  }

  lemma ClosingOutputs(turn: seq<Content>, started: seq<string>)
    ensures OutputsOf(Contents(Closing(turn)), started)
  {
    if Closing(turn) != [] {
      OneMessage(Closing(turn)[0]);
      assert Closing(turn) == [Closing(turn)[0]];
    }
  }

  lemma PlainOutputs(m: Message)
    requires forall i :: 0 <= i < |m.content| ==> !m.content[i].ToolResponse?
    ensures OutputsOf(Contents([m]), [])
  {
    OneMessage(m);
  }

  predicate StepReports(done: Done) {
    done.outcome.Applied? ==> OutputsOf(Contents(done.outcome.messages), done.started)
  }

  lemma ToolsReport(w: World, conversation: seq<Message>, time: nat)
    ensures StepReports(RunTools(w, conversation, time))
  {
    ToolsExactly(w, conversation, time);
    var done := RunTools(w, conversation, time);
    if done.outcome.Applied? {
      var m := done.outcome.messages[0];
      OneMessage(m);
      assert done.outcome.messages == [m];
    }
  }

  lemma BothReport(a: seq<Message>, b: seq<Message>)
    requires OutputsOf(Contents(a), []) && OutputsOf(Contents(b), [])
    ensures OutputsOf(Contents(a + b), [])
  {
    ContentsConcat(a, b);
    OutputsConcat(Contents(a), Contents(b), [], []);
    var none: seq<string> := [];
    assert none + none == none;
  }

  lemma ReceivedReports(items: seq<Item>)
    requires AllProper(items)
    ensures OutputsOf(Contents(Collect(items).messages), [])
  {
    StreamedProperly(items);
    StreamedCalls(items);
    SilentOutputs(Contents(Collect(items).messages), []);
  }

  lemma FinishReports(conversation: seq<Message>, r: Reception, cancelAt: nat)
    requires Kickoff(conversation) >= 0 && AllProper(r.items)
    ensures StepReports(Finish(conversation, r, cancelAt))
  {
    PlainOutputs(EmptyResponse());
    PlainOutputs(ErrorMessage(if r.ending.BrokeOff? then r.ending.kind else 0));
    hide Collect, Contents, OutputsOf, Closing, Kickoff, IsEmptyResponse;
    var received := Collect(r.items).messages;
    ReceivedReports(r.items);
    ClosingOutputs(Turn(conversation) + Contents(received), []);
    BothReport(received, Closing(Turn(conversation) + Contents(received)));
    if r.ending.BrokeOff? {
      BothReport(received, [ErrorMessage(r.ending.kind)]);
    }
  }

  lemma InferReports(w: World, conversation: seq<Message>, time: nat)
    requires Kickoff(conversation) >= 0 && Behaves(w.provider(conversation))
    ensures StepReports(Infer(w, conversation, time))
  {
    InferExactly(w, conversation, time);
    if Applies(conversation) {
      match w.provider(conversation)
      case Refused(kind) => OneMessage(ErrorMessage(kind));
      case Opened(events) =>
        var r := Receive(events, [], w.cancelAt, time);
        ReceivedIsProper(events, [], w.cancelAt, time, Turn(conversation));
        hide Infer, Receive, Finish;
        FinishReports(conversation, r, w.cancelAt);
    }
  }

  lemma SettledReports(w: World, conversation: seq<Message>, done: Done)
    requires Kickoff(conversation) >= 0 && StepReports(done)
    ensures StepReports(AfterInference(w, conversation, done)) && StepReports(Settle(done, w.cancelAt))
  {
    ClosingOutputs(Turn(conversation), done.started);
  }

  lemma PhaseReports(w: World, conversation: seq<Message>, time: nat)
    requires Kickoff(conversation) >= 0 && Behaves(w.provider(conversation))
    ensures StepReports(InferencePhase(w, conversation, time))
  {
    hide Infer, AfterInference, Kickoff, Applies;
    SettledReports(w, conversation, Done(NotApplicable, time + 1, []));
    InferReports(w, conversation, time + 3);
    SettledReports(w, conversation, Infer(w, conversation, time + 3));
  }

  lemma EveryStepReports(w: World, conversation: seq<Message>, time: nat)
    requires WellBehaved(w) && Kickoff(conversation) >= 0
    ensures StepReports(Step(w, conversation, time))
  {
    hide RunTools, InferencePhase, Kickoff, StepReports;
    ToolsReport(w, conversation, time + 1);
    PhaseReports(w, conversation, ToolStep(w, conversation, time).time);
    NothingToReport();
    var tools := ToolPhase(w, conversation, time);
    if !tools.outcome.Failed? && StepReports(tools) {
      SettledReports(w, conversation, tools);
    }
  }

  lemma NothingToReport()
    ensures forall done: Done :: !done.outcome.Applied? ==> StepReports(done)
  {
  }

  lemma NoOutputs(started: seq<string>)
    ensures OutputsOf(Contents([]), started)
  {
  }

  ghost predicate StepsReport(step: (seq<Message>, nat) -> Done) {
    forall conversation, time :: Kickoff(conversation) >= 0 ==> StepReports(step(conversation, time))
  }

  lemma {:induction false} RunReports(
    step: (seq<Message>, nat) -> Done, cancelAt: nat, conversation: seq<Message>, time: nat, n: nat)
    requires StepsKeepTurn(step) && StepsReport(step) && Kickoff(conversation) >= 0
    ensures var trace := RunSteps(step, cancelAt, conversation, time, n);
            conversation <= trace.conversation
            && OutputsOf(Contents(trace.conversation[|conversation|..]), trace.started)
    decreases n
  {
    hide OutputsOf, Contents, Kickoff;
    var trace := RunSteps(step, cancelAt, conversation, time, n);
    NoOutputs(trace.started);
    if n == 0 {
      assert trace.conversation[|conversation|..] == [];
    } else {
      var done := step(conversation, time);
      assert StepReports(done) && KeepsTurn(conversation, done);
      if done.outcome.Applied? {
        var messages := done.outcome.messages;
        if done.outcome.handsBack {
          assert trace.conversation[|conversation|..] == messages;
        } else {
          var rest := RunSteps(step, cancelAt, conversation + messages, done.time, n - 1);
          RunReports(step, cancelAt, conversation + messages, done.time, n - 1);
          var more := rest.conversation[|conversation + messages|..];
          assert trace.conversation[|conversation|..] == messages + more;
          ContentsConcat(messages, more);
          OutputsConcat(Contents(messages), Contents(more), done.started, rest.started);
        }
      } else {
        assert trace.conversation[|conversation|..] == [];
      }
    }
  }

  /** Over every run, whenever it is cancelled: if it reports an output of a call, it started that
      call. */
  lemma OutputsAreReal(w: World, conversation: seq<Message>, time: nat, n: nat)
    requires WellBehaved(w) && Kickoff(conversation) >= 0
    ensures var trace := Run(w, conversation, time, n);
            conversation <= trace.conversation
            && OutputsOf(Contents(trace.conversation[|conversation|..]), trace.started)
  {
    AllStepsFollow(w);
    forall c, t | Kickoff(c) >= 0
      ensures StepReports(StepOf(w)(c, t))
    {
      StepOfAt(w, c, t);
      EveryStepReports(w, c, t);
    }
    hide StepOf, StepReports, StepsKeepTurn;
    RunReports(StepOf(w), w.cancelAt, conversation, time, n);
  }
}
