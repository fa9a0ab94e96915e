/** Thinking streamed before a tool call is moved into the message that makes the call, and a
    tool request that repeats an id is dropped. What a whole stream leaves behind. */
module ToolThinking {
  import opened Wrappers
  import opened Messages
  import opened Accumulator

  // ---------- moving thinking ----------

  /** The blocks that are thinking, or the blocks that are not. */
  function Kept(content: seq<Content>, thinking: bool): seq<Content> {
    if content == [] then []
    else
      var init, c := content[..|content| - 1], content[|content| - 1];
      if IsThinking(c) == thinking then Kept(init, thinking) + [c] else Kept(init, thinking)
  }

  /** A message whose thinking a tool call of the given role takes over. */
  predicate Free(m: Message, role: Role) {
    m.role == role && !HasToolRequest(m.content)
  }

  function Prior(messages: seq<Message>, role: Role): seq<Content> {
    if messages == [] then []
    else
      var init, last := messages[..|messages| - 1], messages[|messages| - 1];
      if Free(last, role) then Prior(init, role) + Kept(last.content, true) else Prior(init, role)
  }

  function StripOne(m: Message, role: Role): Message {
    if Free(m, role) then m.(content := Kept(m.content, false)) else m
  }

  function StripEach(messages: seq<Message>, role: Role): seq<Message> {
    if messages == [] then []
    else StripEach(messages[..|messages| - 1], role) + [StripOne(messages[|messages| - 1], role)]
  }

  function NonEmpty(messages: seq<Message>): seq<Message> {
    if messages == [] then []
    else
      var init, last := messages[..|messages| - 1], messages[|messages| - 1];
      if last.content == [] then NonEmpty(init) else NonEmpty(init) + [last]
  }

  function FirstRequest(content: seq<Content>): (k: nat)
    ensures k <= |content|
    ensures forall i :: 0 <= i < k ==> !content[i].ToolRequest?
    ensures k < |content| ==> content[k].ToolRequest?
  {
    if content == [] || content[0].ToolRequest? then 0 else 1 + FirstRequest(content[1..])
  }

  function Spliced(content: seq<Content>, prior: seq<Content>): seq<Content> {
    var k := FirstRequest(content);
    content[..k] + prior + content[k..]
  }

  /** The accumulator and the chunk once thinking has been moved. */
  function Cleared(messages: seq<Message>, chunk: Message): seq<Message> {
    if HasToolRequest(chunk.content) then NonEmpty(StripEach(messages, chunk.role)) else messages
  }

  function Carrying(messages: seq<Message>, chunk: Message): Message {
    if HasToolRequest(chunk.content) && !HasThinking(chunk.content) then
      chunk.(content := Spliced(chunk.content, Prior(messages, chunk.role)))
    else chunk
  }

  // ---------- repeated requests ----------

  function RequestIds(content: seq<Content>): set<string> {
    if content == [] then {}
    else
      var c := content[|content| - 1];
      RequestIds(content[..|content| - 1]) + (if c.ToolRequest? then {c.id} else {})
  }

  /** The content without requests whose id was seen before or repeats an earlier one here. */
  function Unseen(content: seq<Content>, seen: set<string>): seq<Content> {
    if content == [] then []
    else
      var init, c := content[..|content| - 1], content[|content| - 1];
      if c.ToolRequest? && c.id in seen + RequestIds(init) then Unseen(init, seen)
      else Unseen(init, seen) + [c]
  }

  // ---------- the stream ----------

  /** A streamed message, with the id it is given if it needs one. */
  datatype Item = Item(message: Message, spareId: int)

  datatype Intake = Intake(messages: seq<Message>, seen: set<string>)

  /** The message as it reaches the accumulator, before thinking is moved. */
  function Arriving(item: Item, seen: set<string>): Message {
    var m := item.message;
    m.(hasInference := m.hasInference || m.role.Assistant?, content := Unseen(m.content, seen))
  }

  function Emitted(m: Message, spareId: int): Message {
    if m.content == [] && !m.limitReached then m
    else m.(id := if m.id.Some? then m.id else Some(spareId))
  }

  function Absorb(before: Intake, item: Item): Intake {
    var chunk := Arriving(item, before.seen);
    Intake(Pushed(Cleared(before.messages, chunk), Emitted(Carrying(before.messages, chunk), item.spareId)),
           before.seen + RequestIds(item.message.content))
  }

  function Collect(items: seq<Item>): Intake {
    if items == [] then Intake([], {})
    else Absorb(Collect(items[..|items| - 1]), items[|items| - 1])
  }

  function Streamed(items: seq<Item>): seq<Content> {
    if items == [] then []
    else Streamed(items[..|items| - 1]) + items[|items| - 1].message.content
  }

  // ---------- the pieces ----------

  lemma {:induction false} KeptAtoms(content: seq<Content>, kept: bool, t: bool)
    ensures Atoms(Kept(content, kept), t) == if kept == t then Atoms(content, t) else []
  {
    if content != [] {
      var init, c := content[..|content| - 1], content[|content| - 1];
      KeptAtoms(init, kept, t);
      NoPart(c, t);
      if IsThinking(c) == kept {
        AtomsSnoc(Kept(init, kept), c, t);
      }
    }
  }

  lemma NoPart(c: Content, t: bool)
    ensures IsThinking(c) != t ==> forall a: seq<Atom> :: a + Part(c, t) == a
  {
  }

  lemma {:induction false} KeptKind(content: seq<Content>, kept: bool)
    ensures forall i :: 0 <= i < |Kept(content, kept)| ==> IsThinking(Kept(content, kept)[i]) == kept
  {
    if content != [] {
      KeptKind(content[..|content| - 1], kept);
    }
  }

  lemma {:induction false} NoThinkingNoAtoms(content: seq<Content>)
    requires !HasThinking(content)
    ensures Atoms(content, true) == []
  {
    if content != [] {
      var init := content[..|content| - 1];
      forall i | 0 <= i < |init|
        ensures !IsThinking(init[i])
      {
        assert content[i] == init[i];
      }
      NoThinkingNoAtoms(init);
      assert !IsThinking(content[|content| - 1]);
    }
  }

  lemma {:induction false} PriorIsThinking(messages: seq<Message>, role: Role)
    ensures Atoms(Prior(messages, role), false) == []
  {
    if messages != [] {
      var init, last := messages[..|messages| - 1], messages[|messages| - 1];
      PriorIsThinking(init, role);
      if Free(last, role) {
        KeptAtoms(last.content, true, false);
        AtomsConcat(Prior(init, role), Kept(last.content, true), false);
      }
    }
  }

  lemma {:induction false} NonEmptySaysTheSame(messages: seq<Message>, t: bool)
    ensures Said(NonEmpty(messages), t) == Said(messages, t)
  {
    if messages != [] {
      var init, last := messages[..|messages| - 1], messages[|messages| - 1];
      NonEmptySaysTheSame(init, t);
      if last.content != [] {
        SaidSnoc(NonEmpty(init), last, t);
      }
    }
  }

  lemma {:induction false} StripKeepsTheRest(messages: seq<Message>, role: Role)
    ensures Said(StripEach(messages, role), false) == Said(messages, false)
  {
    if messages != [] {
      var init, last := messages[..|messages| - 1], messages[|messages| - 1];
      StripKeepsTheRest(init, role);
      KeptAtoms(last.content, false, false);
      SaidSnoc(StripEach(init, role), StripOne(last, role), false);
    }
  }

  lemma SplicedAtoms(content: seq<Content>, prior: seq<Content>, t: bool)
    requires t ==> Atoms(content, true) == []
    requires !t ==> Atoms(prior, false) == []
    ensures Atoms(Spliced(content, prior), t) == if t then Atoms(prior, t) else Atoms(content, t)
  {
    var k := FirstRequest(content);
    var a, b := content[..k], content[k..];
    assert content == a + b;
    AtomsConcat(a, b, t);
    AtomsConcat(a + prior, b, t);
    AtomsConcat(a, prior, t);
  }

  /** Moving thinking never touches anything else. */
  lemma MovingKeepsTheRest(messages: seq<Message>, chunk: Message)
    ensures Said(Cleared(messages, chunk), false) == Said(messages, false)
    ensures Atoms(Carrying(messages, chunk).content, false) == Atoms(chunk.content, false)
  {
    if HasToolRequest(chunk.content) {
      NonEmptySaysTheSame(StripEach(messages, chunk.role), false);
      StripKeepsTheRest(messages, chunk.role);
      if !HasThinking(chunk.content) {
        PriorIsThinking(messages, chunk.role);
        SplicedAtoms(chunk.content, Prior(messages, chunk.role), false);
      }
    }
  }

  lemma {:induction false} RequestIdsConcat(a: seq<Content>, b: seq<Content>)
    ensures RequestIds(a + b) == RequestIds(a) + RequestIds(b)
  {
    if b == [] {
      assert a + b == a;
    } else {
      var init, c := b[..|b| - 1], b[|b| - 1];
      RequestIdsConcat(a, init);
      assert a + b == (a + init) + [c];
      assert (a + b)[..|a + b| - 1] == a + init;
    }
  }

  lemma {:induction false} UnseenConcat(a: seq<Content>, b: seq<Content>, seen: set<string>)
    ensures Unseen(a + b, seen) == Unseen(a, seen) + Unseen(b, seen + RequestIds(a))
  {
    if b == [] {
      assert a + b == a;
    } else {
      var init, c := b[..|b| - 1], b[|b| - 1];
      UnseenConcat(a, init, seen);
      RequestIdsConcat(a, init);
      assert a + b == (a + init) + [c];
      assert (a + b)[..|a + b| - 1] == a + init;
      assert seen + RequestIds(a + init) == (seen + RequestIds(a)) + RequestIds(init);
    }
  }

  lemma {:induction false} SeenSoFar(items: seq<Item>)
    ensures Collect(items).seen == RequestIds(Streamed(items))
  {
    if items != [] {
      var init, item := items[..|items| - 1], items[|items| - 1];
      SeenSoFar(init);
      RequestIdsConcat(Streamed(init), item.message.content);
    }
  }

  lemma EmittedSays(m: Message, spareId: int)
    ensures Emitted(m, spareId).content == m.content && Emitted(m, spareId).role == m.role
  {
  }

  // ---------- whole streams ----------

  /** Whatever the roles and ids of the chunks: apart from thinking, the accumulator says what was
      streamed, in order, without the requests that repeat an id. */
  lemma {:induction false} NothingElseIsLost(items: seq<Item>)
    ensures Said(Collect(items).messages, false) == Atoms(Unseen(Streamed(items), {}), false)
  {
    if items != [] {
      var init, item := items[..|items| - 1], items[|items| - 1];
      var before := Collect(init);
      var chunk := Arriving(item, before.seen);
      NothingElseIsLost(init);
      SeenSoFar(init);
      MovingKeepsTheRest(before.messages, chunk);
      PushedSaysMore(Cleared(before.messages, chunk), Emitted(Carrying(before.messages, chunk), item.spareId), false);
      UnseenConcat(Streamed(init), item.message.content, {});
      assert {} + RequestIds(Streamed(init)) == before.seen;
      AtomsConcat(Unseen(Streamed(init), {}), chunk.content, false);
    }
  }

  lemma {:induction false} SeenMeansEarlier(content: seq<Content>, id: string)
    ensures id in RequestIds(content) <==>
            CalledBefore(content, id)
  {
    if content != [] {
      var init := content[..|content| - 1];
      SeenMeansEarlier(init, id);
      if j :| 0 <= j < |content| && content[j].ToolRequest? && content[j].id == id {
        if j < |init| {
          assert init[j] == content[j];
        }
      }
      if j :| 0 <= j < |init| && init[j].ToolRequest? && init[j].id == id {
        assert content[j] == init[j];
      }
    }
  }

  predicate CalledBefore(content: seq<Content>, id: string) {
    exists j :: 0 <= j < |content| && content[j].ToolRequest? && content[j].id == id
  }

  /** A block is dropped exactly when it is a request whose id an earlier request had. */
  lemma FirstRequestsStay(init: seq<Content>, c: Content)
    ensures Unseen(init + [c], {}) ==
            if c.ToolRequest? && CalledBefore(init, c.id) then Unseen(init, {}) else Unseen(init, {}) + [c]
  {
    var content := init + [c];
    assert content[..|content| - 1] == init && content[|content| - 1] == c;
    assert {} + RequestIds(init) == RequestIds(init);
    if c.ToolRequest? {
      SeenMeansEarlier(init, c.id);
    }
  }

  // ---------- thinking over whole streams ----------

  predicate AllOf(messages: seq<Message>, role: Role) {
    forall i :: 0 <= i < |messages| ==> messages[i].role == role
  }

  /** Calls a tool, or holds no thinking. */
  predicate Bare(m: Message) {
    HasToolRequest(m.content) || !HasThinking(m.content)
  }

  /** No message without a call still holds thinking ahead of a message that makes one. */
  predicate Settled(messages: seq<Message>) {
    forall i, j :: 0 <= i < j < |messages| && HasToolRequest(messages[j].content) ==> Bare(messages[i])
  }

  lemma SettledFront(messages: seq<Message>, last: Message)
    requires Settled(messages + [last])
    ensures Settled(messages)
    ensures HasToolRequest(last.content) ==> forall i :: 0 <= i < |messages| ==> Bare(messages[i])
  {
    var all := messages + [last];
    forall i, j | 0 <= i < j < |messages| && HasToolRequest(messages[j].content)
      ensures Bare(messages[i])
    {
      assert all[i] == messages[i] && all[j] == messages[j];
    }
    if HasToolRequest(last.content) {
      forall i | 0 <= i < |messages|
        ensures Bare(messages[i])
      {
        assert all[i] == messages[i] && all[|messages|] == last;
      }
    }
  }

  lemma MergeCalls(last: seq<Content>, more: seq<Content>)
    ensures HasToolRequest(Merge(last, more)) ==> HasToolRequest(last) || HasToolRequest(more)
  {
    var all := Merge(last, more);
    if k :| 0 <= k < |all| && all[k].ToolRequest? {
      if all == last + more && k >= |last| {
        assert more[k - |last|] == all[k];
      } else if k < |last| - 1 || all == last + more {
        assert last[k] == all[k];
      }
    }
  }

  lemma PushedSettled(messages: seq<Message>, m: Message)
    requires Settled(messages)
    requires HasToolRequest(m.content) ==> forall i :: 0 <= i < |messages| ==> Bare(messages[i])
    ensures Settled(Pushed(messages, m))
  {
    var after := Pushed(messages, m);
    if OnlyReports(m) {
      if Recorded(messages, m).Some? {
        RecordedSaysTheSame(messages, m, true);
      }
    } else if messages != [] && messages[|messages| - 1].id.Some? && messages[|messages| - 1].id == m.id {
      MergeCalls(messages[|messages| - 1].content, m.content);
    }
    forall i, j | 0 <= i < j < |after| && HasToolRequest(after[j].content)
      ensures Bare(after[i])
    {
    }
  }

  lemma PushedRole(messages: seq<Message>, m: Message)
    requires AllOf(messages, m.role)
    ensures AllOf(Pushed(messages, m), m.role)
  {
    if OnlyReports(m) && Recorded(messages, m).Some? {
      RecordedSaysTheSame(messages, m, true);
    }
  }

  lemma {:induction false} NonEmptyIsPart(messages: seq<Message>)
    ensures forall m :: m in NonEmpty(messages) ==> m in messages
  {
    if messages != [] {
      NonEmptyIsPart(messages[..|messages| - 1]);
    }
  }

  lemma {:induction false} StripEachAt(messages: seq<Message>, role: Role)
    ensures |StripEach(messages, role)| == |messages|
    ensures forall i :: 0 <= i < |messages| ==> StripEach(messages, role)[i] == StripOne(messages[i], role)
  {
    if messages != [] {
      StripEachAt(messages[..|messages| - 1], role);
    }
  }

  lemma StrippedIsBare(m: Message, role: Role)
    requires m.role == role
    ensures Bare(StripOne(m, role))
  {
    KeptKind(m.content, false);
  }

  lemma ClearedIsBare(messages: seq<Message>, chunk: Message)
    requires AllOf(messages, chunk.role)
    ensures AllOf(Cleared(messages, chunk), chunk.role)
    ensures HasToolRequest(chunk.content) ==>
              forall i :: 0 <= i < |Cleared(messages, chunk)| ==> Bare(Cleared(messages, chunk)[i])
  {
    if HasToolRequest(chunk.content) {
      var role, each := chunk.role, StripEach(messages, chunk.role);
      StripEachAt(messages, role);
      NonEmptyIsPart(each);
      forall i | 0 <= i < |each|
        ensures each[i].role == role && Bare(each[i])
      {
        StrippedIsBare(messages[i], role);
      }
      forall i | 0 <= i < |NonEmpty(each)|
        ensures NonEmpty(each)[i].role == role && Bare(NonEmpty(each)[i])
      {
        assert NonEmpty(each)[i] in each;
      }
    }
  }

  lemma BareIsSettled(messages: seq<Message>)
    requires forall i :: 0 <= i < |messages| ==> Bare(messages[i])
    ensures Settled(messages)
  {
  }

  lemma CarryingCalls(messages: seq<Message>, chunk: Message)
    ensures HasToolRequest(Carrying(messages, chunk).content) ==> HasToolRequest(chunk.content)
    ensures Carrying(messages, chunk).role == chunk.role
  {
  }

  lemma AbsorbSettles(before: Intake, item: Item, role: Role)
    requires AllOf(before.messages, role) && item.message.role == role
    requires Settled(before.messages)
    ensures AllOf(Absorb(before, item).messages, role)
    ensures Settled(Absorb(before, item).messages)
  {
    var chunk := Arriving(item, before.seen);
    var cleared, carrying := Cleared(before.messages, chunk), Carrying(before.messages, chunk);
    var sent := Emitted(carrying, item.spareId);
    ClearedIsBare(before.messages, chunk);
    CarryingCalls(before.messages, chunk);
    EmittedSays(carrying, item.spareId);
    if HasToolRequest(chunk.content) {
      BareIsSettled(cleared);
    }
    PushedSettled(cleared, sent);
    PushedRole(cleared, sent);
  }

  /** After any stream of chunks of one role, no message without a call holds thinking ahead of
      a message that makes one. */
  lemma {:induction false} StreamsSettle(items: seq<Item>, role: Role)
    requires forall k :: 0 <= k < |items| ==> items[k].message.role == role
    ensures AllOf(Collect(items).messages, role)
    ensures Settled(Collect(items).messages)
  {
    if items != [] {
      var init := items[..|items| - 1];
      StreamsSettle(init, role);
      AbsorbSettles(Collect(init), items[|items| - 1], role);
    }
  }

  lemma {:induction false} BareHasNoPrior(messages: seq<Message>, role: Role)
    requires forall i :: 0 <= i < |messages| ==> Bare(messages[i])
    ensures Prior(messages, role) == []
  {
    if messages != [] {
      var init, last := messages[..|messages| - 1], messages[|messages| - 1];
      BareHasNoPrior(init, role);
      if Free(last, role) {
        NothingKept(last.content);
      }
    }
  }

  lemma {:induction false} NothingKept(content: seq<Content>)
    requires !HasThinking(content)
    ensures Kept(content, true) == []
  {
    if content != [] {
      var init := content[..|content| - 1];
      forall i | 0 <= i < |init|
        ensures !IsThinking(init[i])
      {
        assert content[i] == init[i];
      }
      NothingKept(init);
      assert !IsThinking(content[|content| - 1]);
    }
  }

  lemma StripOneThinking(m: Message, role: Role)
    requires Free(m, role)
    ensures Atoms(StripOne(m, role).content, true) == []
    ensures Atoms(Kept(m.content, true), true) == Atoms(m.content, true)
  {
    KeptAtoms(m.content, false, true);
    KeptAtoms(m.content, true, true);
  }

  /** What is taken out in front is what is put in again, in the same order. */
  lemma {:induction false} StripMovesThinking(messages: seq<Message>, role: Role)
    requires AllOf(messages, role) && Settled(messages)
    ensures Said(messages, true) == Said(StripEach(messages, role), true) + Atoms(Prior(messages, role), true)
  {
    if messages != [] {
      var init, last := messages[..|messages| - 1], messages[|messages| - 1];
      assert messages == init + [last];
      SettledFront(init, last);
      StripMovesThinking(init, role);
      StripStep(init, last, role);
    }
  }

  lemma StripSnoc(init: seq<Message>, last: Message, role: Role)
    ensures StripEach(init + [last], role) == StripEach(init, role) + [StripOne(last, role)]
    ensures Prior(init + [last], role) ==
            if Free(last, role) then Prior(init, role) + Kept(last.content, true) else Prior(init, role)
  {
    assert (init + [last])[..|init|] == init;
  }

  lemma StripFree(init: seq<Message>, last: Message, role: Role)
    requires Free(last, role)
    ensures Said(StripEach(init + [last], role), true) == Said(StripEach(init, role), true)
    ensures Atoms(Prior(init + [last], role), true) == Atoms(Prior(init, role), true) + Atoms(last.content, true)
  {
    StripSnoc(init, last, role);
    StripOneThinking(last, role);
    var said := Said(StripEach(init, role), true);
    SaidSnoc(StripEach(init, role), StripOne(last, role), true);
    assert said + [] == said;
    AtomsConcat(Prior(init, role), Kept(last.content, true), true);
  }

  lemma StripStep(init: seq<Message>, last: Message, role: Role)
    requires last.role == role
    requires HasToolRequest(last.content) ==> forall i :: 0 <= i < |init| ==> Bare(init[i])
    requires Said(init, true) == Said(StripEach(init, role), true) + Atoms(Prior(init, role), true)
    ensures Said(init + [last], true) ==
            Said(StripEach(init + [last], role), true) + Atoms(Prior(init + [last], role), true)
  {
    var said, prior := Said(StripEach(init, role), true), Atoms(Prior(init, role), true);
    var more := Atoms(last.content, true);
    SaidSnoc(init, last, true);
    if Free(last, role) {
      StripFree(init, last, role);
      Assoc(said, prior, more);
    } else {
      BareHasNoPrior(init, role);
      StripSnoc(init, last, role);
      SaidSnoc(StripEach(init, role), last, true);
      assert said + prior == said;
      assert (said + more) + prior == said + more;
    }
  }

  /** The thinking thrown away when a call that brings its own meets earlier thinking. */
  function Clash(messages: seq<Message>, chunk: Message): seq<Atom> {
    if HasToolRequest(chunk.content) && HasThinking(chunk.content) then Atoms(Prior(messages, chunk.role), true)
    else []
  }

  predicate NoClash(items: seq<Item>) {
    items == []
    || (var init, item := items[..|items| - 1], items[|items| - 1];
        NoClash(init) && Clash(Collect(init).messages, Arriving(item, Collect(init).seen)) == [])
  }

  lemma MovingThinking(messages: seq<Message>, chunk: Message)
    requires AllOf(messages, chunk.role) && Settled(messages)
    ensures var now := Said(Cleared(messages, chunk), true) + Atoms(Carrying(messages, chunk).content, true);
            var all := Said(messages, true) + Atoms(chunk.content, true);
            |now| == |all| - |Clash(messages, chunk)| && (Clash(messages, chunk) == [] ==> now == all)
  {
    if HasToolRequest(chunk.content) {
      StripMovesThinking(messages, chunk.role);
      NonEmptySaysTheSame(StripEach(messages, chunk.role), true);
      var rest, prior := Said(Cleared(messages, chunk), true), Atoms(Prior(messages, chunk.role), true);
      if HasThinking(chunk.content) {
        assert prior == [] ==> rest + prior == rest;
      } else {
        NoThinkingNoAtoms(chunk.content);
        SplicedAtoms(chunk.content, Prior(messages, chunk.role), true);
        assert (rest + prior) + [] == rest + prior;
      }
    }
  }

  lemma {:induction false} UnseenThinking(content: seq<Content>, seen: set<string>)
    ensures Atoms(Unseen(content, seen), true) == Atoms(content, true)
  {
    if content != [] {
      var init, c := content[..|content| - 1], content[|content| - 1];
      UnseenThinking(init, seen);
      NoPart(c, true);
      AtomsSnoc(Unseen(init, seen), c, true);
    }
  }

  lemma AbsorbThinking(before: Intake, item: Item)
    requires AllOf(before.messages, item.message.role) && Settled(before.messages)
    ensures var now := Said(Absorb(before, item).messages, true);
            var all := Said(before.messages, true) + Atoms(item.message.content, true);
            var clash := Clash(before.messages, Arriving(item, before.seen));
            |now| == |all| - |clash| && (clash == [] ==> now == all)
  {
    var chunk := Arriving(item, before.seen);
    var carrying := Carrying(before.messages, chunk);
    UnseenThinking(item.message.content, before.seen);
    MovingThinking(before.messages, chunk);
    EmittedSays(carrying, item.spareId);
    PushedSaysMore(Cleared(before.messages, chunk), Emitted(carrying, item.spareId), true);
  }

  lemma {:induction false} ThinkingCount(items: seq<Item>, role: Role)
    requires forall k :: 0 <= k < |items| ==> items[k].message.role == role
    ensures |Said(Collect(items).messages, true)| <= |Atoms(Streamed(items), true)|
    ensures NoClash(items) ==> Said(Collect(items).messages, true) == Atoms(Streamed(items), true)
    ensures !NoClash(items) ==> |Said(Collect(items).messages, true)| < |Atoms(Streamed(items), true)|
  {
    if items != [] {
      var init, item := items[..|items| - 1], items[|items| - 1];
      ThinkingCount(init, role);
      StreamsSettle(init, role);
      AbsorbThinking(Collect(init), item);
      AtomsConcat(Streamed(init), item.message.content, true);
    }
  }

  /** Thinking that a call takes over all stands in front of the call. */
  lemma ThinkingLeadsTheCall(messages: seq<Message>, chunk: Message)
    requires HasToolRequest(chunk.content) && !HasThinking(chunk.content)
    ensures var content := Carrying(messages, chunk).content;
            forall i, j :: 0 <= i < |content| && 0 <= j < |content| && IsThinking(content[i]) && content[j].ToolRequest?
              ==> i < j
  {
    var prior := Prior(messages, chunk.role);
    var k := FirstRequest(chunk.content);
    var content := Spliced(chunk.content, prior);
    PriorKind(messages, chunk.role);
    forall i | 0 <= i < |content|
      ensures IsThinking(content[i]) ==> i < k + |prior|
      ensures content[i].ToolRequest? ==> i >= k + |prior|
    {
      if i < k {
        assert content[i] == chunk.content[i];
      } else if i < k + |prior| {
        assert content[i] == prior[i - k];
      } else {
        assert content[i] == chunk.content[i - |prior|];
      }
    }
  }

  lemma {:induction false} PriorKind(messages: seq<Message>, role: Role)
    ensures forall i :: 0 <= i < |Prior(messages, role)| ==> IsThinking(Prior(messages, role)[i])
  {
    if messages != [] {
      PriorKind(messages[..|messages| - 1], role);
      KeptKind(messages[|messages| - 1].content, true);
    }
  }
}
