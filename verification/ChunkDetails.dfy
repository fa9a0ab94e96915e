/** How a chunk reaches the accumulator, told block by block: what is joined, where a report is
    recorded, and which thinking goes where. */
module ChunkDetails {
  import opened Wrappers
  import opened Messages
  import opened Accumulator
  import opened ToolThinking

  // ---------- pushing ----------

  /** The last earlier message that a report can be about: of its role, seen by the user, and of its
      id if it says that output was cut short. */
  predicate Meant(m: Message, existing: Message) {
    existing.role == m.role && existing.userVisible && (m.limitReached ==> m.id != None && existing.id == m.id)
  }

  predicate LastMeant(messages: seq<Message>, m: Message, i: int) {
    0 <= i < |messages| && Meant(m, messages[i]) && forall j :: i < j < |messages| ==> !Meant(m, messages[j])
  }

  function WithReport(existing: Message, m: Message): Message {
    Message(existing.role, existing.id, existing.content, existing.userVisible, existing.agentVisible,
            existing.hasInference || m.hasInference, existing.limitReached || m.limitReached)
  }

  lemma {:induction false} RecordedAt(messages: seq<Message>, m: Message)
    ensures match Recorded(messages, m)
            case None => forall i :: 0 <= i < |messages| ==> !Meant(m, messages[i])
            case Some(after) =>
              exists i :: LastMeant(messages, m, i) && after == messages[i := WithReport(messages[i], m)]
  {
    if messages != [] {
      var init, last := messages[..|messages| - 1], messages[|messages| - 1];
      assert messages == init + [last];
      assert Concerns(m, last) <==> Meant(m, last);
      if Concerns(m, last) {
        assert LastMeant(messages, m, |init|);
      } else {
        RecordedAt(init, m);
        if Recorded(init, m).Some? {
          var i :| LastMeant(init, m, i) && Recorded(init, m).value == init[i := WithReport(init[i], m)];
          assert LastMeant(messages, m, i);
        }
      }
    }
  }

  /** An empty message that reports its model or that output was cut short is recorded on the last
      message it can be about.  If there is none, a report that output was cut short becomes a
      message that only the user sees, and any other is dropped. */
  lemma ReportExactly(messages: seq<Message>, m: Message, i: int)
    requires m.content == [] && (m.hasInference || m.limitReached)
    ensures LastMeant(messages, m, i) ==> Pushed(messages, m) == messages[i := WithReport(messages[i], m)]
    ensures (forall j :: 0 <= j < |messages| ==> !Meant(m, messages[j])) ==>
              Pushed(messages, m) ==
              if m.limitReached then messages + [Message(m.role, m.id, [], true, false, m.hasInference, true)]
              else messages
  {
    RecordedAt(messages, m);
    if LastMeant(messages, m, i) && Recorded(messages, m).Some? {
      var k :| LastMeant(messages, m, k) && Recorded(messages, m).value == messages[k := WithReport(messages[k], m)];
      assert k == i;
    }
  }

  /** Any other message joins the last one if both have the same id, and otherwise stands behind it.
      A single block is joined to the last block if both are text for the same audience, or thinking
      that was unsigned or is signed alike; the signature that comes last stays. */
  lemma PushExactly(messages: seq<Message>, m: Message)
    requires m.content != [] || (!m.hasInference && !m.limitReached)
    ensures var n := |messages| - 1;
            if n >= 0 && m.id != None && messages[n].id == m.id then
              |Pushed(messages, m)| == |messages| && Pushed(messages, m)[..n] == messages[..n]
              && Pushed(messages, m)[n] ==
                 WithReport(messages[n], m).(content := JoinedTo(messages[n].content, m.content))
            else Pushed(messages, m) == messages + [m]
  {
    if messages != [] && m.id != None && messages[|messages| - 1].id == m.id {
      JoinExactly(messages[|messages| - 1].content, m.content);
    }
  }

  function JoinedTo(last: seq<Content>, more: seq<Content>): seq<Content> {
    if last == [] || |more| != 1 then last + more
    else
      var init, a, b := last[..|last| - 1], last[|last| - 1], more[0];
      if a.Text? && b.Text? && a.audience == b.audience then init + [Text(a.text + b.text, a.audience)]
      else if a.Thinking? && b.Thinking? && a.signature == "" then
        init + [Thinking(a.thinking + b.thinking, b.signature)]
      else if a.Thinking? && b.Thinking? && a.signature == b.signature then
        init + [Thinking(a.thinking + b.thinking, a.signature)]
      else last + more
  }

  lemma JoinExactly(last: seq<Content>, more: seq<Content>)
    ensures Merge(last, more) == JoinedTo(last, more)
  {
  }

  // ---------- moving thinking ----------

  function Thought(): Content -> bool {
    (c: Content) => c.Thinking? || c.RedactedThinking?
  }

  function NoThought(): Content -> bool {
    (c: Content) => !c.Thinking? && !c.RedactedThinking?
  }

  predicate MakesCall(content: seq<Content>) {
    exists i :: 0 <= i < |content| && content[i].ToolRequest?
  }

  /** Messages of the caller's role that make no call themselves give their thinking away. */
  predicate Gives(m: Message, role: Role) {
    m.role == role && !MakesCall(m.content)
  }

  function Given(messages: seq<Message>, role: Role): seq<Content> {
    if messages == [] then []
    else
      (if Gives(messages[0], role) then Filter(Thought(), messages[0].content) else []) + Given(messages[1..], role)
  }

  /** The messages as they are left; one that is left empty goes. */
  function Left(messages: seq<Message>, role: Role): seq<Message> {
    if messages == [] then []
    else
      var m := messages[0];
      var content := if Gives(m, role) then Filter(NoThought(), m.content) else m.content;
      (if content == [] then [] else [m.(content := content)]) + Left(messages[1..], role)
  }

  lemma {:induction false} KeptIsFilter(content: seq<Content>)
    ensures Kept(content, true) == Filter(Thought(), content)
    ensures Kept(content, false) == Filter(NoThought(), content)
  {
    if content != [] {
      var init, c := content[..|content| - 1], content[|content| - 1];
      KeptIsFilter(init);
      assert content == init + [c];
      FilterSnoc(Thought(), init, c);
      FilterSnoc(NoThought(), init, c);
    }
  }

  lemma {:induction false} GivenSnoc(init: seq<Message>, m: Message, role: Role)
    ensures Given(init + [m], role) ==
            Given(init, role) + if Gives(m, role) then Filter(Thought(), m.content) else []
  {
    var own := if Gives(m, role) then Filter(Thought(), m.content) else [];
    if init == [] {
      assert [] + [m] == [m] && [m][1..] == [] && own + [] == own && [] + own == own;
    } else {
      assert (init + [m])[1..] == init[1..] + [m] && (init + [m])[0] == init[0];
      GivenSnoc(init[1..], m, role);
      var first := if Gives(init[0], role) then Filter(Thought(), init[0].content) else [];
      Assoc(first, Given(init[1..], role), own);
    }
  }

  function LeftOne(m: Message, role: Role): seq<Message> {
    var content := if Gives(m, role) then Filter(NoThought(), m.content) else m.content;
    if content == [] then [] else [m.(content := content)]
  }

  lemma {:induction false} LeftSnoc(init: seq<Message>, m: Message, role: Role)
    ensures Left(init + [m], role) == Left(init, role) + LeftOne(m, role)
  {
    if init == [] {
      assert [] + [m] == [m] && [m][1..] == [];
      assert LeftOne(m, role) + [] == LeftOne(m, role) && [] + LeftOne(m, role) == LeftOne(m, role);
    } else {
      assert (init + [m])[1..] == init[1..] + [m] && (init + [m])[0] == init[0];
      LeftSnoc(init[1..], m, role);
      Assoc(LeftOne(init[0], role), Left(init[1..], role), LeftOne(m, role));
    }
  }

  lemma {:induction false} PriorIsGiven(messages: seq<Message>, role: Role)
    ensures Prior(messages, role) == Given(messages, role)
  {
    if messages != [] {
      var init, m := messages[..|messages| - 1], messages[|messages| - 1];
      PriorIsGiven(init, role);
      assert messages == init + [m];
      KeptIsFilter(m.content);
      GivenSnoc(init, m, role);
      assert Free(m, role) <==> Gives(m, role);
    }
  }

  lemma StripIsLeft(m: Message, role: Role)
    ensures (if StripOne(m, role).content == [] then [] else [StripOne(m, role)]) == LeftOne(m, role)
  {
    KeptIsFilter(m.content);
    assert Free(m, role) <==> Gives(m, role);
  }

  lemma StripSnocs(init: seq<Message>, m: Message, role: Role)
    ensures NonEmpty(StripEach(init + [m], role)) ==
            NonEmpty(StripEach(init, role))
            + if StripOne(m, role).content == [] then [] else [StripOne(m, role)]
  {
    hide StripOne;
    assert (init + [m])[..|init|] == init;
    var each := StripEach(init, role);
    assert (each + [StripOne(m, role)])[..|each|] == each;
  }

  lemma {:induction false} StrippedIsLeft(messages: seq<Message>, role: Role)
    ensures NonEmpty(StripEach(messages, role)) == Left(messages, role)
  {
    if messages == [] {
    } else {
      var init, m := messages[..|messages| - 1], messages[|messages| - 1];
      assert messages == init + [m];
      hide LeftOne, StripOne, Left, StripEach, NonEmpty;
      StrippedIsLeft(init, role);
      StripSnocs(init, m, role);
      LeftSnoc(init, m, role);
      StripIsLeft(m, role);
    }
  }

  lemma CallsAndThoughts(content: seq<Content>)
    ensures HasToolRequest(content) <==> MakesCall(content)
    ensures HasThinking(content) <==> exists i :: 0 <= i < |content| && Thought()(content[i])
    ensures MakesCall(content) ==> FirstCall(content, FirstRequest(content))
  {
    if i :| 0 <= i < |content| && Thought()(content[i]) {
      assert IsThinking(content[i]);
    }
    if i :| 0 <= i < |content| && IsThinking(content[i]) {
      assert Thought()(content[i]);
    }
  }

  /** A chunk that makes no call moves nothing.  One that makes a call takes the thinking out of all
      earlier messages of its role that make none; what is left empty goes.  If it brings no
      thinking of its own, what it took stands directly in front of its first request; otherwise it
      stays as it is. */
  lemma ThinkingMovesExactly(messages: seq<Message>, chunk: Message)
    ensures !MakesCall(chunk.content) ==> Cleared(messages, chunk) == messages && Carrying(messages, chunk) == chunk
    ensures MakesCall(chunk.content) ==> Cleared(messages, chunk) == Left(messages, chunk.role)
    ensures MakesCall(chunk.content) && (exists i :: 0 <= i < |chunk.content| && Thought()(chunk.content[i])) ==>
              Carrying(messages, chunk) == chunk
    ensures MakesCall(chunk.content) && (forall i :: 0 <= i < |chunk.content| ==> !Thought()(chunk.content[i])) ==>
              exists k :: FirstCall(chunk.content, k)
                          && Carrying(messages, chunk) ==
                             chunk.(content := chunk.content[..k] + Given(messages, chunk.role) + chunk.content[k..])
  {
    PriorIsGiven(messages, chunk.role);
    StrippedIsLeft(messages, chunk.role);
    CallsAndThoughts(chunk.content);
    hide HasToolRequest, HasThinking, MakesCall, Given, Left, Prior, NonEmpty, StripEach, FirstCall, Thought;
  }

  predicate FirstCall(content: seq<Content>, k: int) {
    0 <= k < |content| && content[k].ToolRequest? && forall i :: 0 <= i < k ==> !content[i].ToolRequest?
  }

  // ---------- one chunk ----------

  /** A chunk from the assistant is marked with its inference, loses requests whose id was seen
      before in the stream, and is given an id if it has none, unless it says nothing at all.  All
      ids it requests are remembered. */
  lemma ChunkExactly(before: Intake, item: Item)
    ensures var m, after := item.message, Absorb(before, item);
            var chunk :=
              m.(content := Unseen(m.content, before.seen), hasInference := m.hasInference || m.role == Assistant);
            var carrying := Carrying(before.messages, chunk);
            var sent :=
              if (carrying.content != [] || m.limitReached) && m.id == None then carrying.(id := Some(item.spareId))
              else carrying;
            after.messages == Pushed(Cleared(before.messages, chunk), sent)
            && forall id :: id in after.seen <==> id in before.seen || CalledBefore(m.content, id)
  {
    forall id
      ensures id in RequestIds(item.message.content) <==> CalledBefore(item.message.content, id)
    {
      SeenMeansEarlier(item.message.content, id);
    }
  }
}
