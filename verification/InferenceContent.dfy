/** What an inference appends: the messages it received, or the remark that nothing came.  Which of
    them is told by the chunks alone. */
module InferenceContent {
  import opened Wrappers
  import opened Messages
  import opened Characters
  import opened Accumulator
  import opened ToolThinking
  import opened ToolCalls
  import opened ReceivedCalls
  import opened AgentLoop

  // ---------- blocks of blanks ----------

  /** A block that shows nothing: text or thinking of white space only. */
  predicate ShowsNothing(c: Content) {
    (c.Text? && forall i :: 0 <= i < |c.text| ==> IsWhitespace(c.text[i]))
    || (c.Thinking? && forall i :: 0 <= i < |c.thinking| ==> IsWhitespace(c.thinking[i]))
  }

  predicate OnlyBlanks(content: seq<Content>) {
    forall i :: 0 <= i < |content| ==> ShowsNothing(content[i])
  }

  predicate BlankAtom(a: Atom) {
    (a.TextChar? && IsWhitespace(a.c)) || (a.ThoughtChar? && IsWhitespace(a.t))
  }

  predicate BlankAtoms(atoms: seq<Atom>) {
    forall i :: 0 <= i < |atoms| ==> BlankAtom(atoms[i])
  }

  lemma BlankConcat(a: seq<Atom>, b: seq<Atom>)
    ensures BlankAtoms(a + b) <==> BlankAtoms(a) && BlankAtoms(b)
  {
    if BlankAtoms(a + b) {
      forall i | 0 <= i < |a|
        ensures BlankAtom(a[i])
      {
        assert a[i] == (a + b)[i];
      }
      forall i | 0 <= i < |b|
        ensures BlankAtom(b[i])
      {
        assert b[i] == (a + b)[|a| + i];
      }
    }
  }

  lemma PartBlank(c: Content)
    ensures BlankAtoms(Part(c, true)) && BlankAtoms(Part(c, false)) <==> ShowsNothing(c)
  {
    match c
    case Text(text, audience) =>
      var atoms := Part(c, false);
      assert |atoms| == |text| && forall i :: 0 <= i < |text| ==> atoms[i] == TextChar(text[i], audience);
      if BlankAtoms(atoms) {
        forall i | 0 <= i < |text|
          ensures IsWhitespace(text[i])
        {
          assert BlankAtom(atoms[i]);
        }
      }
    case Thinking(thinking, _) =>
      var atoms := Part(c, true);
      assert |atoms| == |thinking| && forall i :: 0 <= i < |thinking| ==> atoms[i] == ThoughtChar(thinking[i]);
      if BlankAtoms(atoms) {
        forall i | 0 <= i < |thinking|
          ensures IsWhitespace(thinking[i])
        {
          assert BlankAtom(atoms[i]);
        }
      }
    case _ =>
      assert !BlankAtom(Part(c, IsThinking(c))[0]);
  }

  lemma {:induction false} ContentBlank(content: seq<Content>)
    ensures BlankAtoms(Atoms(content, true)) && BlankAtoms(Atoms(content, false)) <==> OnlyBlanks(content)
  {
    if content != [] {
      var init, c := content[..|content| - 1], content[|content| - 1];
      ContentBlank(init);
      PartBlank(c);
      BlankConcat(Atoms(init, true), Part(c, true));
      BlankConcat(Atoms(init, false), Part(c, false));
      assert content == init + [c];
      hide ShowsNothing, BlankAtoms, Part, Atoms;
      assert OnlyBlanks(content) <==> OnlyBlanks(init) && ShowsNothing(c);
    }
  }

  lemma SilentIsBlank(content: seq<Content>)
    ensures AllSilent(content) <==> OnlyBlanks(content)
  {
    forall i | 0 <= i < |content|
      ensures SaysNothing(content[i]) <==> ShowsNothing(content[i])
    {
    }
  }

  // ---------- streams that make no call ----------

  lemma {:induction false} NothingRepeats(content: seq<Content>, seen: set<string>)
    requires RequestIds(content) == {}
    ensures Unseen(content, seen) == content && !HasToolRequest(content)
  {
    if content != [] {
      var init, c := content[..|content| - 1], content[|content| - 1];
      NothingRepeats(init, seen);
      if i :| 0 <= i < |content| && content[i].ToolRequest? {
        assert i < |init| ==> init[i].ToolRequest?;
      }
    }
  }

  lemma {:induction false} CallsBlock(content: seq<Content>)
    requires RequestIds(content) != {}
    ensures !OnlyBlanks(content)
  {
    var init, c := content[..|content| - 1], content[|content| - 1];
    if c.ToolRequest? {
      assert !ShowsNothing(content[|init|]);
    } else {
      CallsBlock(init);
      var i :| 0 <= i < |init| && !ShowsNothing(init[i]);
      assert content[i] == init[i];
    }
  }

  /** Some message of the stream says that output was cut short. */
  predicate CutShort(items: seq<Item>) {
    exists i :: 0 <= i < |items| && items[i].message.limitReached
  }

  lemma {:induction false} RecordedLimit(messages: seq<Message>, m: Message)
    requires Recorded(messages, m).Some?
    ensures LimitReached(Recorded(messages, m).value) <==> LimitReached(messages) || m.limitReached
  {
    var init, last := messages[..|messages| - 1], messages[|messages| - 1];
    LimitSnoc(init, last);
    assert messages == init + [last];
    if Concerns(m, last) {
      LimitSnoc(init, Reported(last, m));
    } else {
      RecordedLimit(init, m);
      LimitSnoc(Recorded(init, m).value, last);
    }
  }

  lemma LimitSnoc(messages: seq<Message>, m: Message)
    ensures LimitReached(messages + [m]) <==> LimitReached(messages) || m.limitReached
  {
    var all := messages + [m];
    assert m.limitReached ==> all[|messages|].limitReached;
    if i :| 0 <= i < |messages| && messages[i].limitReached {
      assert all[i].limitReached;
    }
  }

  lemma PushedLimit(messages: seq<Message>, m: Message)
    ensures LimitReached(Pushed(messages, m)) <==> LimitReached(messages) || m.limitReached
  {
    if OnlyReports(m) {
      if Recorded(messages, m).Some? {
        RecordedLimit(messages, m);
      } else if m.limitReached {
        LimitSnoc(messages, m.(userVisible := true, agentVisible := false));
      }
    } else if messages != [] && messages[|messages| - 1].id.Some? && messages[|messages| - 1].id == m.id {
      var init, last := messages[..|messages| - 1], messages[|messages| - 1];
      assert messages == init + [last];
      LimitSnoc(init, last);
      LimitSnoc(init, Reported(last, m).(content := Merge(last.content, m.content)));
    } else {
      LimitSnoc(messages, m);
    }
  }

  lemma QuietAbsorb(before: Intake, item: Item)
    requires RequestIds(item.message.content) == {}
    ensures var after := Absorb(before, item).messages;
            Said(after, true) == Said(before.messages, true) + Atoms(item.message.content, true)
            && (LimitReached(after) <==> LimitReached(before.messages) || item.message.limitReached)
  {
    var chunk := Arriving(item, before.seen);
    NothingRepeats(item.message.content, before.seen);
    PushedSaysMore(before.messages, Emitted(chunk, item.spareId), true);
    PushedLimit(before.messages, Emitted(chunk, item.spareId));
    hide Pushed, LimitReached, Unseen, HasToolRequest, Said, Atoms;
  }

  lemma CutShortSnoc(init: seq<Item>, item: Item)
    ensures CutShort(init + [item]) <==> CutShort(init) || item.message.limitReached
  {
    var items := init + [item];
    assert item.message.limitReached ==> items[|init|].message.limitReached;
    if i :| 0 <= i < |init| && init[i].message.limitReached {
      assert items[i].message.limitReached;
    }
  }

  predicate Quiet(items: seq<Item>) {
    Said(Collect(items).messages, true) == Atoms(Streamed(items), true)
    && (LimitReached(Collect(items).messages) <==> CutShort(items))
  }

  lemma OneMoreItem(init: seq<Item>, item: Item)
    ensures Collect(init + [item]) == Absorb(Collect(init), item)
    ensures Streamed(init + [item]) == Streamed(init) + item.message.content
  {
    assert (init + [item])[..|init|] == init;
  }

  lemma QuietSnoc(init: seq<Item>, item: Item)
    requires Quiet(init) && RequestIds(item.message.content) == {}
    ensures Quiet(init + [item])
  {
    OneMoreItem(init, item);
    QuietAbsorb(Collect(init), item);
    CutShortSnoc(init, item);
    AtomsConcat(Streamed(init), item.message.content, true);
    hide Absorb, LimitReached, CutShort, Said, Atoms, Collect, Streamed;
  }

  lemma {:induction false} QuietStream(items: seq<Item>)
    requires RequestIds(Streamed(items)) == {}
    ensures Quiet(items)
  {
    if items != [] {
      var init, item := items[..|items| - 1], items[|items| - 1];
      assert items == init + [item];
      RequestIdsConcat(Streamed(init), item.message.content);
      hide Quiet;
      QuietStream(init);
      QuietSnoc(init, item);
    }
  }

  // ---------- what a stream amounts to ----------

  /** Nothing came that says anything: blank text and thinking at most, and no word that output was
      cut short. */
  predicate CameToNothing(items: seq<Item>) {
    !CutShort(items) && OnlyBlanks(Streamed(items))
  }

  lemma SilentExactly(items: seq<Item>)
    ensures !LimitReached(Collect(items).messages) && AllSilent(Contents(Collect(items).messages))
            <==> CameToNothing(items)
  {
    var received, streamed := Contents(Collect(items).messages), Streamed(items);
    SilentIsBlank(received);
    if RequestIds(streamed) == {} {
      QuietStream(items);
      NothingRepeats(streamed, {});
      NothingElseIsLost(items);
      SaidIsContents(Collect(items).messages, true);
      SaidIsContents(Collect(items).messages, false);
      ContentBlank(received);
      ContentBlank(streamed);
    } else {
      StreamedCalls(items);
      CallsBlock(received);
      CallsBlock(streamed);
    }
  }

  /** The message that answers everything outstanding, if anything is. */
  function ClosingAnswers(turn: seq<Content>): seq<Message> {
    var ids := Unanswered(turn);
    if ids == [] then []
    else
      [Message(User, None, seq(|ids|, i requires 0 <= i < |ids| => ToolResponse(ids[i], NotExecuted)),
               true, true, false, false)]
  }

  lemma ClosingLimit(turn: seq<Content>, messages: seq<Message>)
    ensures Closing(turn) == ClosingAnswers(turn)
    ensures LimitReached(messages + Closing(turn)) <==> LimitReached(messages)
    ensures AllSilent(Contents(messages + Closing(turn))) <==> AllSilent(Contents(messages)) && Closing(turn) == []
  {
    var ids := Unanswered(turn);
    assert Responses(ids, NotExecuted) == seq(|ids|, i requires 0 <= i < |ids| => ToolResponse(ids[i], NotExecuted));
    if ids == [] {
      assert messages + Closing(turn) == messages;
    } else {
      var m := Closing(turn)[0];
      assert messages + Closing(turn) == messages + [m];
      LimitSnoc(messages, m);
      ContentsSnoc(messages, m);
      var all := Contents(messages) + m.content;
      assert all[|Contents(messages)|] == m.content[0] && !SaysNothing(m.content[0]);
    }
  }

  /** What a quiet stream owes if it is cancelled is what was owed before. */
  lemma NothingMoreOwed(turn: seq<Content>, items: seq<Item>)
    requires CameToNothing(items)
    ensures Unanswered(turn + Contents(Collect(items).messages)) == [] <==> Unanswered(turn) == []
  {
    var received := Contents(Collect(items).messages);
    SilentExactly(items);
    SilentAnswersNothing(received);
    AnswersConcat(turn, received);
    RequestIdsConcat(turn, received);
    NothingUnanswered(turn + received);
    NothingUnanswered(turn);
  }

  lemma {:induction false} SilentAnswersNothing(content: seq<Content>)
    requires AllSilent(content)
    ensures RequestIds(content) == {} && Answers(content) == []
  {
    if content != [] {
      SilentAnswersNothing(content[..|content| - 1]);
      assert SaysNothing(content[|content| - 1]);
    }
  }

  /** The remark that nothing came, as the user sees it. */
  function Remark(): Message {
    Message(Assistant, None,
            [Text("The model returned an empty response. Please resend your message to continue.", None)],
            true, true, false, false)
  }

  /** Whether the stream is taken for an empty response, as its chunks tell: it was read to its end,
      came to nothing, and no cancellation seen behind it owes anybody an answer. */
  predicate TakenForEmpty(turn: seq<Content>, r: Reception, cancelAt: nat) {
    r.ending.Exhausted? && CameToNothing(r.items) && (r.time < cancelAt || Unanswered(turn) == [])
  }

  /** What an inference appends behind what it received. */
  function Tail(turn: seq<Content>, r: Reception, cancelAt: nat): seq<Message> {
    if r.ending.BrokeOff? then [Message(Assistant, None, [Error(r.ending.kind)], true, true, false, false)]
    else if r.ending.Cut? || r.time >= cancelAt then
      ClosingAnswers(turn + Contents(Collect(r.items).messages))
    else []
  }

  /** What a finished stream appends.  Only the remark, handing back, exactly when it is taken for
      empty; otherwise all that was received, followed by the error it broke off with, or by the
      answers a cancellation seen by then owes, and it does not hand back. */
  lemma FinishExactly(conversation: seq<Message>, r: Reception, cancelAt: nat)
    requires Kickoff(conversation) >= 0
    ensures var turn, received := Turn(conversation), Collect(r.items).messages;
            Finish(conversation, r, cancelAt).outcome ==
            if TakenForEmpty(turn, r, cancelAt) then Applied([Remark()], true)
            else Applied(received + Tail(turn, r, cancelAt), false)
  {
    var turn, received := Turn(conversation), Collect(r.items).messages;
    SilentExactly(r.items);
    if r.ending.Cut? || r.time >= cancelAt {
      ClosingLimit(turn + Contents(received), received);
    }
    if CameToNothing(r.items) {
      NothingMoreOwed(turn, r.items);
    }
    assert received + [] == received;
  }

  lemma SaidConcat(a: seq<Message>, b: seq<Message>, t: bool)
    ensures Said(a + b, t) == Said(a, t) + Said(b, t)
  {
    SaidIsContents(a, t);
    SaidIsContents(b, t);
    SaidIsContents(a + b, t);
    ContentsConcat(a, b);
    AtomsConcat(Contents(a), Contents(b), t);
  }

  lemma {:induction false} AnswersAreNoThinking(content: seq<Content>)
    requires forall i :: 0 <= i < |content| ==> content[i].ToolResponse?
    ensures Atoms(content, true) == []
  {
    if content != [] {
      AnswersAreNoThinking(content[..|content| - 1]);
    }
  }

  lemma OneSaid(m: Message, t: bool)
    ensures Said([m], t) == Atoms(m.content, t)
  {
    assert [m] == [] + [m];
    SaidSnoc([], m, t);
  }

  lemma TailIsNoThinking(turn: seq<Content>, r: Reception, cancelAt: nat)
    ensures Said(Tail(turn, r, cancelAt), true) == []
  {
    var tail := Tail(turn, r, cancelAt);
    if tail != [] {
      assert tail == [tail[0]];
      OneSaid(tail[0], true);
      if r.ending.BrokeOff? {
        OneAtom(Error(r.ending.kind), true);
      } else {
        AnswersAreNoThinking(tail[0].content);
      }
    }
  }

  /** An inference that is not taken for empty appends all thinking that was collected, and besides
      exactly what was streamed: every character of text and every other block, in order, without
      repeated requests, and behind it the error it broke off with or the answers it owes. */
  lemma FinishSaysExactly(conversation: seq<Message>, r: Reception, cancelAt: nat)
    requires Kickoff(conversation) >= 0 && !TakenForEmpty(Turn(conversation), r, cancelAt)
    ensures var outcome, tail := Finish(conversation, r, cancelAt).outcome, Tail(Turn(conversation), r, cancelAt);
            outcome.Applied? && !outcome.handsBack
            && Said(outcome.messages, true) == Said(Collect(r.items).messages, true)
            && Said(outcome.messages, false) == Atoms(Unseen(Streamed(r.items), {}), false) + Said(tail, false)
  {
    var turn, received := Turn(conversation), Collect(r.items).messages;
    var tail := Tail(turn, r, cancelAt);
    FinishExactly(conversation, r, cancelAt);
    NothingElseIsLost(r.items);
    assert received + [] == received;
    assert Finish(conversation, r, cancelAt).outcome == Applied(received + tail, false);
    hide Finish, Tail, TakenForEmpty;
    SaidConcat(received, tail, true);
    SaidConcat(received, tail, false);
    TailIsNoThinking(turn, r, cancelAt);
  }

  // ---------- what of the stream is received ----------

  /** The chunks up to the first look that finds the token cancelled, the first break, or the end,
      whichever comes first. */
  lemma {:induction false} ReceivedExactly(events: seq<Event>, received: seq<Item>, cancelAt: nat, time: nat)
    ensures var r := Receive(events, received, cancelAt, time);
            received <= r.items
            && (var n := |r.items| - |received|;
                n <= |events| && r.time == time + n + 1
                && (forall i :: 0 <= i < n ==> events[i] == Chunk(r.items[|received| + i]) && time + i < cancelAt)
                && (r.ending.Cut? <==> time + n >= cancelAt)
                && (r.ending.Exhausted? <==> time + n < cancelAt && n == |events|)
                && (r.ending.BrokeOff? <==> time + n < cancelAt && n < |events| && events[n].Broken?)
                && (r.ending.BrokeOff? ==> events[n] == Broken(r.ending.kind)))
    decreases |events|
  {
    if time < cancelAt && events != [] && events[0].Chunk? {
      ReceivedExactly(events[1..], received + [events[0].item], cancelAt, time + 1);
    }
  }
}
