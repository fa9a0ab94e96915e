/** Tool requests and the responses that answer them: who is pending, whom a cancellation answers,
    and when every request is answered at most once. */
module ToolCalls {
  import opened Wrappers
  import opened Messages
  import opened ToolThinking

  function Contents(messages: seq<Message>): seq<Content> {
    if messages == [] then []
    else Contents(messages[..|messages| - 1]) + messages[|messages| - 1].content
  }

  /** The ids answered, one entry for each response. */
  function Answers(content: seq<Content>): seq<string> {
    if content == [] then []
    else
      var init, c := content[..|content| - 1], content[|content| - 1];
      if c.ToolResponse? then Answers(init) + [c.answers] else Answers(init)
  }

  function AnswerSet(content: seq<Content>): set<string> {
    set id | id in Answers(content)
  }

  predicate Outstanding(c: Content, answered: set<string>) {
    c.ToolRequest? && !c.external && c.id !in answered
  }

  function PendingFrom(content: seq<Content>, answered: set<string>): seq<Content> {
    if content == [] then []
    else
      var init, c := content[..|content| - 1], content[|content| - 1];
      if Outstanding(c, answered) then PendingFrom(init, answered) + [c] else PendingFrom(init, answered)
  }

  /** The requests of a turn that the agent itself still has to answer. */
  function Pending(turn: seq<Content>): seq<Content> {
    PendingFrom(turn, AnswerSet(turn))
  }

  predicate Runnable(c: Content, tools: set<string>) {
    c.ToolRequest? && (c.call.Malformed? || c.call.tool in tools)
  }

  /** Those that name an available tool, or whose arguments could not be parsed. */
  function Dispatchable(pending: seq<Content>, tools: set<string>): seq<Content> {
    if pending == [] then []
    else
      var init, c := pending[..|pending| - 1], pending[|pending| - 1];
      if Runnable(c, tools) then Dispatchable(init, tools) + [c] else Dispatchable(init, tools)
  }

  function IdsOf(requests: seq<Content>): seq<string> {
    if requests == [] then []
    else
      var init, c := requests[..|requests| - 1], requests[|requests| - 1];
      if c.ToolRequest? then IdsOf(init) + [c.id] else IdsOf(init)
  }

  /** The ids a cancelled turn still has to answer: each once, where it was first requested. */
  function OpenIds(content: seq<Content>, answered: set<string>): seq<string> {
    if content == [] then []
    else
      var init, c := content[..|content| - 1], content[|content| - 1];
      if c.ToolRequest? && c.id !in RequestIds(init) && c.id !in answered then OpenIds(init, answered) + [c.id]
      else OpenIds(init, answered)
  }

  function Unanswered(turn: seq<Content>): seq<string> {
    OpenIds(turn, AnswerSet(turn))
  }

  function Responses(ids: seq<string>, outcome: Outcome): seq<Content> {
    seq(|ids|, i requires 0 <= i < |ids| => ToolResponse(ids[i], outcome))
  }

  predicate Distinct(ids: seq<string>) {
    ids == [] || (Distinct(ids[..|ids| - 1]) && ids[|ids| - 1] !in ids[..|ids| - 1])
  }

  // ---------- sequences of ids ----------

  lemma {:induction false} DistinctMeans(ids: seq<string>)
    ensures Distinct(ids) <==> forall i, j :: 0 <= i < j < |ids| ==> ids[i] != ids[j]
  {
    if ids != [] {
      var init := ids[..|ids| - 1];
      DistinctMeans(init);
      if ids[|ids| - 1] in init {
        var i :| 0 <= i < |init| && init[i] == ids[|ids| - 1];
        assert ids[i] == ids[|ids| - 1];
      }
    }
  }

  lemma DistinctSnoc(ids: seq<string>, id: string)
    ensures Distinct(ids + [id]) <==> Distinct(ids) && id !in ids
  {
    assert (ids + [id])[..|ids|] == ids;
  }

  lemma {:induction false} DistinctConcat(a: seq<string>, b: seq<string>)
    ensures Distinct(a + b) <==> Distinct(a) && Distinct(b) && forall id :: id in a ==> id !in b
  {
    if b == [] {
      assert a + b == a;
    } else {
      var init, id := b[..|b| - 1], b[|b| - 1];
      DistinctConcat(a, init);
      assert a + b == (a + init) + [id] && b == init + [id];
      DistinctSnoc(a + init, id);
    }
  }

  // ---------- concatenation ----------

  lemma ContentsSnoc(a: seq<Message>, m: Message)
    ensures Contents(a + [m]) == Contents(a) + m.content
  {
    assert (a + [m])[..|a|] == a;
  }

  lemma {:induction false} ContentsConcat(a: seq<Message>, b: seq<Message>)
    ensures Contents(a + b) == Contents(a) + Contents(b)
  {
    if b == [] {
      assert a + b == a;
    } else {
      var init, m := b[..|b| - 1], b[|b| - 1];
      assert b == init + [m];
      ContentsConcat(a, init);
      ContentsAdded(a, init, m);
    }
  }

  lemma ContentsAdded(a: seq<Message>, init: seq<Message>, m: Message)
    requires Contents(a + init) == Contents(a) + Contents(init)
    ensures Contents(a + (init + [m])) == Contents(a) + Contents(init + [m])
  {
    hide *;
    Assoc(a, init, [m]);
    ContentsSnoc(a + init, m);
    ContentsSnoc(init, m);
    Assoc(Contents(a), Contents(init), m.content);
  }

  lemma {:induction false} AnswersConcat(a: seq<Content>, b: seq<Content>)
    ensures Answers(a + b) == Answers(a) + Answers(b)
    ensures AnswerSet(a + b) == AnswerSet(a) + AnswerSet(b)
  {
    if b == [] {
      assert a + b == a;
    } else {
      var init, c := b[..|b| - 1], b[|b| - 1];
      AnswersConcat(a, init);
      assert a + b == (a + init) + [c];
      assert (a + b)[..|a + b| - 1] == a + init;
    }
  }

  lemma PendingSnoc(a: seq<Content>, c: Content, answered: set<string>)
    ensures PendingFrom(a + [c], answered) ==
            if Outstanding(c, answered) then PendingFrom(a, answered) + [c] else PendingFrom(a, answered)
  {
    assert (a + [c])[..|a|] == a;
  }

  lemma {:induction false} PendingConcat(a: seq<Content>, b: seq<Content>, answered: set<string>)
    ensures PendingFrom(a + b, answered) == PendingFrom(a, answered) + PendingFrom(b, answered)
  {
    if b == [] {
      assert a + b == a;
    } else {
      var init, c := b[..|b| - 1], b[|b| - 1];
      assert b == init + [c];
      PendingConcat(a, init, answered);
      PendingAdded(a, init, c, answered);
    }
  }

  lemma PendingAdded(a: seq<Content>, init: seq<Content>, c: Content, answered: set<string>)
    requires PendingFrom(a + init, answered) == PendingFrom(a, answered) + PendingFrom(init, answered)
    ensures PendingFrom(a + (init + [c]), answered) == PendingFrom(a, answered) + PendingFrom(init + [c], answered)
  {
    hide *;
    Assoc(a, init, [c]);
    PendingSnoc(a + init, c, answered);
    PendingSnoc(init, c, answered);
    Assoc(PendingFrom(a, answered), PendingFrom(init, answered), [c]);
  }

  lemma {:induction false} IdsConcat(a: seq<Content>, b: seq<Content>)
    ensures IdsOf(a + b) == IdsOf(a) + IdsOf(b)
  {
    if b == [] {
      assert a + b == a;
    } else {
      var init, c := b[..|b| - 1], b[|b| - 1];
      IdsConcat(a, init);
      if c.ToolRequest? {
        Assoc(IdsOf(a), IdsOf(init), [c.id]);
      }
      assert a + b == (a + init) + [c];
      assert (a + b)[..|a + b| - 1] == a + init;
    }
  }

  lemma {:induction false} ResponsesAnswer(ids: seq<string>, outcome: Outcome)
    ensures Answers(Responses(ids, outcome)) == ids
    ensures RequestIds(Responses(ids, outcome)) == {}
    ensures forall answered :: PendingFrom(Responses(ids, outcome), answered) == []
  {
    if ids != [] {
      var init, all := ids[..|ids| - 1], Responses(ids, outcome);
      ResponsesAnswer(init, outcome);
      assert all[..|all| - 1] == Responses(init, outcome);
    }
  }

  // ---------- who is pending ----------

  lemma {:induction false} StillPending(content: seq<Content>, answered: set<string>, more: set<string>)
    ensures forall id :: id in IdsOf(PendingFrom(content, answered + more)) ==>
              id in IdsOf(PendingFrom(content, answered)) && id !in more
  {
    if content != [] {
      var init, c := content[..|content| - 1], content[|content| - 1];
      StillPending(init, answered, more);
      if Outstanding(c, answered) {
        IdsSnoc(PendingFrom(init, answered), c);
        IdsSnoc(PendingFrom(init, answered + more), c);
      }
    }
  }

  /** Answering more leaves a subsequence of what was pending. */
  lemma {:induction false} FewerPending(content: seq<Content>, answered: set<string>, more: set<string>)
    requires Distinct(IdsOf(PendingFrom(content, answered)))
    ensures Distinct(IdsOf(PendingFrom(content, answered + more)))
  {
    hide Distinct;
    if content != [] {
      var init, c := content[..|content| - 1], content[|content| - 1];
      if Outstanding(c, answered) {
        IdsSnoc(PendingFrom(init, answered), c);
        DistinctSnoc(IdsOf(PendingFrom(init, answered)), c.id);
        IdsSnoc(PendingFrom(init, answered + more), c);
        DistinctSnoc(IdsOf(PendingFrom(init, answered + more)), c.id);
      }
      FewerPending(init, answered, more);
      StillPending(init, answered, more);
    }
  }

  lemma IdsSnoc(requests: seq<Content>, c: Content)
    ensures IdsOf(requests + [c]) == if c.ToolRequest? then IdsOf(requests) + [c.id] else IdsOf(requests)
  {
    assert (requests + [c])[..|requests|] == requests;
  }

  lemma {:induction false} PendingNotAnswered(content: seq<Content>, answered: set<string>)
    ensures forall id :: id in IdsOf(PendingFrom(content, answered)) ==> id !in answered && id in RequestIds(content)
  {
    if content != [] {
      var init, c := content[..|content| - 1], content[|content| - 1];
      PendingNotAnswered(init, answered);
      if Outstanding(c, answered) {
        IdsSnoc(PendingFrom(init, answered), c);
      }
    }
  }

  lemma {:induction false} DispatchableIds(pending: seq<Content>, tools: set<string>)
    ensures forall id :: id in IdsOf(Dispatchable(pending, tools)) ==> id in IdsOf(pending)
    ensures Distinct(IdsOf(pending)) ==> Distinct(IdsOf(Dispatchable(pending, tools)))
  {
    hide Distinct;
    if pending != [] {
      var init, c := pending[..|pending| - 1], pending[|pending| - 1];
      DispatchableIds(init, tools);
      if c.ToolRequest? {
        IdsSnoc(Dispatchable(init, tools), c);
        DistinctSnoc(IdsOf(init), c.id);
        DistinctSnoc(IdsOf(Dispatchable(init, tools)), c.id);
      }
    }
  }

  // ---------- one answer each ----------

  /** No two pending requests of the turn share an id. */
  predicate PendingDistinct(turn: seq<Content>) {
    Distinct(IdsOf(Pending(turn)))
  }

  /** Answering ids that have no answer yet answers nobody twice exactly when they are distinct. */
  lemma AnsweringOnceExactly(turn: seq<Content>, responses: seq<Content>)
    requires forall id :: id in Answers(responses) ==> id !in AnswerSet(turn)
    ensures Distinct(Answers(turn + responses)) <==> Distinct(Answers(turn)) && Distinct(Answers(responses))
  {
    AnswersConcat(turn, responses);
    DistinctConcat(Answers(turn), Answers(responses));
  }

  lemma AnsweringKeepsPending(turn: seq<Content>, responses: seq<Content>)
    requires PendingDistinct(turn)
    requires forall answered :: PendingFrom(responses, answered) == []
    ensures PendingDistinct(turn + responses)
  {
    AnswersConcat(turn, responses);
    var answered := AnswerSet(turn + responses);
    PendingConcat(turn, responses, answered);
    assert PendingFrom(turn, answered) + [] == PendingFrom(turn, answered);
    FewerPending(turn, AnswerSet(turn), AnswerSet(responses));
  }

  /** Receiving requests that reuse no pending id. */
  lemma ReceivingKeepsPending(turn: seq<Content>, received: seq<Content>)
    requires PendingDistinct(turn)
    requires Answers(received) == []
    requires Distinct(IdsOf(PendingFrom(received, {})))
    requires forall id :: id in IdsOf(PendingFrom(received, {})) ==> id !in IdsOf(Pending(turn))
    ensures PendingDistinct(turn + received)
  {
    var answered := AnswerSet(turn);
    AnswersConcat(turn, received);
    assert AnswerSet(turn + received) == answered;
    PendingConcat(turn, received, answered);
    FewerPending(received, {}, answered);
    StillPending(received, {}, answered);
    assert {} + answered == answered;
    IdsConcat(PendingFrom(turn, answered), PendingFrom(received, answered));
    DistinctConcat(IdsOf(PendingFrom(turn, answered)), IdsOf(PendingFrom(received, answered)));
  }

  // ---------- closing a cancelled turn ----------

  /** The ids answered on cancellation are exactly those requested and not answered, once each. */
  lemma {:induction false} OpenIdsExactly(content: seq<Content>, answered: set<string>)
    ensures Distinct(OpenIds(content, answered))
    ensures forall id :: id in OpenIds(content, answered) <==> id in RequestIds(content) && id !in answered
  {
    if content != [] {
      var init, c := content[..|content| - 1], content[|content| - 1];
      OpenIdsExactly(init, answered);
      if c.ToolRequest? {
        DistinctSnoc(OpenIds(init, answered), c.id);
      }
    }
  }

  /** Once they are answered, none is left, and nothing is pending. */
  lemma ClosingLeavesNothing(turn: seq<Content>)
    ensures var closed := turn + Responses(Unanswered(turn), NotExecuted);
            Unanswered(closed) == [] && Pending(closed) == []
    ensures Distinct(Answers(turn + Responses(Unanswered(turn), NotExecuted))) <==> Distinct(Answers(turn))
  {
    var ids := Unanswered(turn);
    var responses := Responses(ids, NotExecuted);
    OpenIdsExactly(turn, AnswerSet(turn));
    ResponsesAnswer(ids, NotExecuted);
    AnswersConcat(turn, responses);
    RequestIdsConcat(turn, responses);
    NothingUnanswered(turn + responses);
    AnsweringOnceExactly(turn, responses);
  }

  lemma NothingUnanswered(turn: seq<Content>)
    ensures Unanswered(turn) == [] <==> RequestIds(turn) <= AnswerSet(turn)
    ensures Unanswered(turn) == [] ==> Pending(turn) == []
  {
    var answered, ids := AnswerSet(turn), Unanswered(turn);
    OpenIdsExactly(turn, answered);
    if ids != [] {
      assert ids[0] in ids;
    }
    forall id | id in RequestIds(turn) && id !in answered
      ensures ids != []
    {
      assert id in ids;
    }
    if Pending(turn) != [] {
      PendingIsOpen(turn, answered);
    }
  }

  lemma {:induction false} PendingIsOpen(content: seq<Content>, answered: set<string>)
    requires PendingFrom(content, answered) != []
    ensures OpenIds(content, answered) != []
  {
    OpenIdsExactly(content, answered);
    var init, c := content[..|content| - 1], content[|content| - 1];
    if Outstanding(c, answered) {
      assert c.id in RequestIds(content);
      assert c.id in OpenIds(content, answered);
    } else {
      PendingIsOpen(init, answered);
    }
  }
}
