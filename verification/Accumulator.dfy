/** The streaming accumulator of an inference: how chunks are pushed together, and how thinking
    moves in front of the tool call it led to. */
module Accumulator {
  import opened Wrappers
  import opened Messages

  // ---------- what a list of content says, cut into pieces that pushing never cuts or joins ----------

  /** Characters of text and of thinking, and whole blocks of every other kind. */
  datatype Atom =
    | TextChar(c: char, audience: Option<set<Role>>)
    | ThoughtChar(t: char)
    | Block(content: Content)

  function TextAtoms(text: string, audience: Option<set<Role>>): seq<Atom> {
    seq(|text|, i requires 0 <= i < |text| => TextChar(text[i], audience))
  }

  function ThoughtAtoms(thinking: string): seq<Atom> {
    seq(|thinking|, i requires 0 <= i < |thinking| => ThoughtChar(thinking[i]))
  }

  function AtomsOf(c: Content): seq<Atom> {
    match c
    case Text(text, audience) => TextAtoms(text, audience)
    case Thinking(thinking, _) => ThoughtAtoms(thinking)
    case _ => [Block(c)]
  }

  /** What one block adds to the thinking, or to everything else. */
  function Part(c: Content, thinking: bool): seq<Atom> {
    if IsThinking(c) == thinking then AtomsOf(c) else []
  }

  /** All thinking in the content in order, or everything else in order. */
  function Atoms(content: seq<Content>, thinking: bool): seq<Atom> {
    if content == [] then []
    else Atoms(content[..|content| - 1], thinking) + Part(content[|content| - 1], thinking)
  }

  /** The same over all messages. */
  function Said(messages: seq<Message>, thinking: bool): seq<Atom> {
    if messages == [] then []
    else Said(messages[..|messages| - 1], thinking) + Atoms(messages[|messages| - 1].content, thinking)
  }

  lemma AtomsSnoc(a: seq<Content>, c: Content, t: bool)
    ensures Atoms(a + [c], t) == Atoms(a, t) + Part(c, t)
  {
    assert (a + [c])[..|a|] == a;
  }

  lemma SaidSnoc(a: seq<Message>, m: Message, t: bool)
    ensures Said(a + [m], t) == Said(a, t) + Atoms(m.content, t)
  {
    assert (a + [m])[..|a|] == a;
  }

  lemma {:induction false} AtomsConcat(a: seq<Content>, b: seq<Content>, t: bool)
    ensures Atoms(a + b, t) == Atoms(a, t) + Atoms(b, t)
  {
    if b == [] {
      assert a + b == a;
    } else {
      var init, c := b[..|b| - 1], b[|b| - 1];
      assert b == init + [c];
      AtomsConcat(a, init, t);
      AtomsAdded(a, init, c, t);
    }
  }

  lemma AtomsAdded(a: seq<Content>, init: seq<Content>, c: Content, t: bool)
    requires Atoms(a + init, t) == Atoms(a, t) + Atoms(init, t)
    ensures Atoms(a + (init + [c]), t) == Atoms(a, t) + Atoms(init + [c], t)
  {
    hide *;
    Assoc(a, init, [c]);
    AtomsSnoc(a + init, c, t);
    AtomsSnoc(init, c, t);
    Assoc(Atoms(a, t), Atoms(init, t), Part(c, t));
  }

  lemma OneAtom(c: Content, t: bool)
    ensures Atoms([c], t) == Part(c, t)
  {
    assert [c] == [] + [c];
    AtomsSnoc([], c, t);
  }

  // ---------- pushing ----------

  /** Whether the second block continues the first: text for the same audience, or thinking whose
      first part is unsigned or carries the same signature. */
  predicate Continues(a: Content, b: Content) {
    (a.Text? && b.Text? && a.audience == b.audience)
    || (a.Thinking? && b.Thinking? && (a.signature == "" || a.signature == b.signature))
  }

  function Joined(a: Content, b: Content): Content
    requires Continues(a, b)
  {
    if a.Text? then a.(text := a.text + b.text)
    else Thinking(a.thinking + b.thinking, if b.signature != "" then b.signature else a.signature)
  }

  /** The content of two messages with the same id: a single block that continues the last one
      is joined to it, anything else follows. */
  function Merge(last: seq<Content>, more: seq<Content>): seq<Content> {
    if last != [] && |more| == 1 && Continues(last[|last| - 1], more[0]) then
      last[..|last| - 1] + [Joined(last[|last| - 1], more[0])]
    else last + more
  }

  lemma JoinedPart(a: Content, b: Content, t: bool)
    requires Continues(a, b)
    ensures Part(Joined(a, b), t) == Part(a, t) + Part(b, t)
  {
    if a.Text? {
      assert TextAtoms(a.text + b.text, a.audience) == TextAtoms(a.text, a.audience) + TextAtoms(b.text, b.audience);
    } else {
      assert ThoughtAtoms(a.thinking + b.thinking) == ThoughtAtoms(a.thinking) + ThoughtAtoms(b.thinking);
    }
  }

  lemma MergeKeepsAtoms(last: seq<Content>, more: seq<Content>, t: bool)
    ensures Atoms(Merge(last, more), t) == Atoms(last, t) + Atoms(more, t)
  {
    if last != [] && |more| == 1 && Continues(last[|last| - 1], more[0]) {
      var init, a, b := last[..|last| - 1], last[|last| - 1], more[0];
      assert more == [b];
      AtomsSnoc(init, Joined(a, b), t);
      JoinedPart(a, b, t);
      OneAtom(b, t);
      Assoc(Atoms(init, t), Part(a, t), Part(b, t));
    } else {
      AtomsConcat(last, more, t);
    }
  }

  /** An empty message that only reports its model or that output was cut short. */
  predicate OnlyReports(m: Message) {
    m.content == [] && (m.hasInference || m.limitReached)
  }

  /** Whether such a report is about this earlier message. */
  predicate Concerns(m: Message, existing: Message) {
    existing.role == m.role && existing.userVisible
    && (!m.limitReached || (m.id.Some? && existing.id == m.id))
  }

  function Reported(existing: Message, m: Message): Message {
    existing.(hasInference := existing.hasInference || m.hasInference,
              limitReached := existing.limitReached || m.limitReached)
  }

  /** The report recorded on the last message it concerns, or nothing. */
  function Recorded(messages: seq<Message>, m: Message): Option<seq<Message>> {
    if messages == [] then None
    else
      var init, last := messages[..|messages| - 1], messages[|messages| - 1];
      if Concerns(m, last) then Some(init + [Reported(last, m)])
      else
        var r := Recorded(init, m);
        if r.Some? then Some(r.value + [last]) else None
  }

  function Pushed(messages: seq<Message>, m: Message): seq<Message> {
    if OnlyReports(m) then
      var r := Recorded(messages, m);
      if r.Some? then r.value
      else if m.limitReached then messages + [m.(userVisible := true, agentVisible := false)]
      else messages
    else if messages != [] && messages[|messages| - 1].id.Some? && messages[|messages| - 1].id == m.id then
      var last := messages[|messages| - 1];
      messages[..|messages| - 1] + [Reported(last, m).(content := Merge(last.content, m.content))]
    else messages + [m]
  }

  lemma {:induction false} RecordedSaysTheSame(messages: seq<Message>, m: Message, t: bool)
    requires Recorded(messages, m).Some?
    ensures Said(Recorded(messages, m).value, t) == Said(messages, t)
    ensures |Recorded(messages, m).value| == |messages|
    ensures forall i :: 0 <= i < |messages| ==>
              Recorded(messages, m).value[i].content == messages[i].content
              && Recorded(messages, m).value[i].role == messages[i].role
              && Recorded(messages, m).value[i].id == messages[i].id
              && Recorded(messages, m).value[i].userVisible == messages[i].userVisible
  {
    var init, last := messages[..|messages| - 1], messages[|messages| - 1];
    if Concerns(m, last) {
      SaidSnoc(init, Reported(last, m), t);
    } else {
      RecordedSaysTheSame(init, m, t);
      SaidSnoc(Recorded(init, m).value, last, t);
    }
  }

  /** Pushing adds what the message says at the end, whatever it is merged with. */
  lemma PushedSaysMore(messages: seq<Message>, m: Message, t: bool)
    ensures Said(Pushed(messages, m), t) == Said(messages, t) + Atoms(m.content, t)
  {
    if OnlyReports(m) {
      if Recorded(messages, m).Some? {
        RecordedSaysTheSame(messages, m, t);
      } else if m.limitReached {
        SaidSnoc(messages, m.(userVisible := true, agentVisible := false), t);
      }
    } else if messages != [] && messages[|messages| - 1].id.Some? && messages[|messages| - 1].id == m.id {
      var init, last := messages[..|messages| - 1], messages[|messages| - 1];
      SaidSnoc(init, Reported(last, m).(content := Merge(last.content, m.content)), t);
      MergeKeepsAtoms(last.content, m.content, t);
      Assoc(Said(init, t), Atoms(last.content, t), Atoms(m.content, t));
    } else {
      SaidSnoc(messages, m, t);
    }
  }
}
