/** The loop that receives an inference, updating its accumulator in place. */
module StreamLoop {
  import opened Wrappers
  import opened Messages
  import opened Accumulator
  import opened ToolThinking

  class Conversation {
    var messages: seq<Message>

    constructor ()
      ensures messages == []
    {
      messages := [];
    }

    method Push(m: Message)
      modifies this
      ensures messages == Pushed(old(messages), m)
    {
      if m.content == [] && (m.hasInference || m.limitReached) {
        var recorded := RecordReport(m);
        if !recorded && m.limitReached {
          messages := messages + [m.(userVisible := true, agentVisible := false)];
        }
        return;
      }
      if messages != [] && messages[|messages| - 1].id.Some? && messages[|messages| - 1].id == m.id {
        var last := messages[|messages| - 1];
        last := last.(hasInference := last.hasInference || m.hasInference);
        last := last.(limitReached := last.limitReached || m.limitReached);
        last := last.(content := Merge(last.content, m.content));
        messages := messages[..|messages| - 1] + [last];
      } else {
        messages := messages + [m];
      }
    }

    /** Looks for the last message the report concerns and records it there. */
    method RecordReport(m: Message) returns (recorded: bool)
      modifies this
      ensures recorded == Recorded(old(messages), m).Some?
      ensures messages == if recorded then Recorded(old(messages), m).value else old(messages)
    {
      var i := |messages|;
      assert messages[..i] == messages;
      NothingBehind(messages, m);
      while i > 0
        invariant 0 <= i <= |messages|
        invariant messages == old(messages)
        invariant Recorded(messages, m) == RecordedAhead(messages[..i], messages[i..], m)
      {
        RecordedStep(messages, i, m);
        var existing := messages[i - 1];
        if existing.role == m.role && existing.userVisible
           && (!m.limitReached || (m.id.Some? && existing.id == m.id)) {
          messages := messages[i - 1 := Reported(existing, m)];
          return true;
        }
        i := i - 1;
      }
      return false;
    }

    /** Takes the thinking out of messages without calls and puts it before the call. */
    method NormalizeToolCallThinking(chunk: Message) returns (normalized: Message)
      modifies this
      ensures messages == Cleared(old(messages), chunk)
      ensures normalized == Carrying(old(messages), chunk)
    {
      normalized := chunk;
      if !HasToolRequest(chunk.content) {
        return;
      }
      var direct := HasThinking(chunk.content);
      var prior := TakeThinking(chunk.role);
      RemoveEmpty();
      var at := FirstRequest(chunk.content);
      if !direct && prior != [] {
        normalized := chunk.(content := chunk.content[..at] + prior + chunk.content[at..]);
      } else if !direct {
        assert chunk.content[..at] + prior + chunk.content[at..] == chunk.content;
      }
    }

    method TakeThinking(role: Role) returns (prior: seq<Content>)
      modifies this
      ensures messages == StripEach(old(messages), role)
      ensures prior == Prior(old(messages), role)
    {
      prior := [];
      ghost var before := messages;
      var i := 0;
      assert before == StripEach(before[..0], role) + before[0..];
      while i < |messages|
        invariant 0 <= i <= |messages| == |before|
        invariant messages == StripEach(before[..i], role) + before[i..]
        invariant prior == Prior(before[..i], role)
      {
        StripAdvance(before, i, role);
        var message := messages[i];
        if message.role == role && !HasToolRequest(message.content) {
          prior := prior + Kept(message.content, true);
          messages := messages[i := message.(content := Kept(message.content, false))];
        }
        i := i + 1;
      }
      assert before[..i] == before;
    }

    method RemoveEmpty()
      modifies this
      ensures messages == NonEmpty(old(messages))
    {
      ghost var before := messages;
      var kept: seq<Message> := [];
      for i := 0 to |messages|
        invariant messages == before
        invariant kept == NonEmpty(before[..i])
      {
        assert before[..i + 1][..i] == before[..i];
        if messages[i].content != [] {
          kept := kept + [messages[i]];
        }
      }
      assert before[..|before|] == before;
      messages := kept;
    }
  }

  /** What is recorded when only the messages in front are still to be looked at. */
  function RecordedAhead(front: seq<Message>, back: seq<Message>, m: Message): Option<seq<Message>> {
    var r := Recorded(front, m);
    if r.Some? then Some(r.value + back) else None
  }

  lemma NothingBehind(messages: seq<Message>, m: Message)
    ensures Recorded(messages, m) == RecordedAhead(messages, messages[|messages|..], m)
  {
    var r := Recorded(messages, m);
    if r.Some? {
      assert r.value + messages[|messages|..] == r.value;
    }
  }

  lemma RecordedStep(messages: seq<Message>, i: nat, m: Message)
    requires 0 < i <= |messages|
    ensures var existing := messages[i - 1];
            RecordedAhead(messages[..i], messages[i..], m) ==
            if Concerns(m, existing) then Some(messages[i - 1 := Reported(existing, m)])
            else RecordedAhead(messages[..i - 1], messages[i - 1..], m)
  {
    var existing := messages[i - 1];
    assert messages[..i][..i - 1] == messages[..i - 1];
    if Concerns(m, existing) {
      assert messages[..i - 1] + [Reported(existing, m)] + messages[i..] == messages[i - 1 := Reported(existing, m)];
    } else {
      var r := Recorded(messages[..i - 1], m);
      if r.Some? {
        assert (r.value + [existing]) + messages[i..] == r.value + messages[i - 1..];
      }
    }
  }

  lemma StripAdvance(before: seq<Message>, i: nat, role: Role)
    requires i < |before|
    ensures var now := StripEach(before[..i], role) + before[i..];
            i < |now| && now[i] == before[i]
            && now[i := StripOne(before[i], role)] == StripEach(before[..i + 1], role) + before[i + 1..]
    ensures Prior(before[..i + 1], role) ==
            if Free(before[i], role) then Prior(before[..i], role) + Kept(before[i].content, true)
            else Prior(before[..i], role)
  {
    StripEachAt(before[..i], role);
    assert before[..i + 1] == before[..i] + [before[i]];
    StripSnoc(before[..i], before[i], role);
  }

  /** Drops the requests whose id was seen, recording the ids that are new. */
  method DropRepeats(content: seq<Content>, seen: set<string>) returns (kept: seq<Content>, seen': set<string>)
    ensures kept == Unseen(content, seen)
    ensures seen' == seen + RequestIds(content)
  {
    kept, seen' := [], seen;
    for i := 0 to |content|
      invariant kept == Unseen(content[..i], seen)
      invariant seen' == seen + RequestIds(content[..i])
    {
      assert content[..i + 1][..i] == content[..i];
      match content[i]
      case ToolRequest(id, _, _) =>
        if id !in seen' {
          kept := kept + [content[i]];
          seen' := seen' + {id};
        }
      case _ =>
        kept := kept + [content[i]];
    }
    assert content[..|content|] == content;
  }
}
