/** Whether thinking survives a stream can be told from the chunks alone: an automaton reads their
    ids and kinds, and knows whether thinking is waiting when a call brings its own. */
module ThinkingForecast {
  import opened Wrappers
  import opened Messages
  import opened Accumulator
  import opened ToolThinking

  // ---------- the automaton ----------

  datatype Header = NoMessage | Header(id: Option<int>, visible: bool)

  /** What is remembered of the chunks so far: the last message and whether it makes a call; the
      last message that holds more than thinking; whether thinking waits for a call; and the ids of
      messages the user sees, all of them and those that hold more than thinking. */
  datatype Forecast = Forecast(
    last: Header, calls: bool, anchor: Header, waiting: bool, shown: set<int>, solid: set<int>)

  predicate HasPlain(content: seq<Content>) {
    exists i :: 0 <= i < |content| && !IsThinking(content[i])
  }

  function IdOf(h: Header): set<int> {
    if h.Header? && h.visible && h.id.Some? then {h.id.value} else {}
  }

  /** A call takes all waiting thinking, and messages that held nothing else are gone. */
  function Clear(f: Forecast): Forecast {
    f.(last := f.anchor, waiting := false, shown := f.solid)
  }

  /** A message joins the last one if it has its id, or else becomes the last. */
  function Deliver(f: Forecast, m: Message): Forecast {
    var calls, thinks, plain := HasToolRequest(m.content), Atoms(m.content, true) != [], HasPlain(m.content);
    if f.last.Header? && f.last.id.Some? && f.last.id == m.id then
      var all := f.calls || calls;
      Forecast(f.last, all, if plain then f.last else f.anchor, if all then f.waiting else f.waiting || thinks,
               f.shown, if plain then f.solid + IdOf(f.last) else f.solid)
    else
      var h := Header(m.id, m.userVisible);
      Forecast(h, calls, if plain then h else f.anchor, f.waiting || (thinks && !calls),
               f.shown + IdOf(h), if plain then f.solid + IdOf(h) else f.solid)
  }

  /** An empty message that only reports is remembered if it says that output was cut short and no
      message of its id is seen. */
  function Receive(f: Forecast, m: Message): Forecast {
    if !OnlyReports(m) then Deliver(f, m)
    else if m.limitReached && m.id.Some? && m.id.value !in f.shown then
      var h := Header(m.id, true);
      Forecast(h, false, f.anchor, f.waiting, f.shown + IdOf(h), f.solid)
    else f
  }

  /** The chunk as it is sent on, whatever thinking it takes over. */
  function Sent(item: Item, seen: set<string>): Message {
    Emitted(Arriving(item, seen), item.spareId)
  }

  function Next(f: Forecast, m: Message): Forecast {
    if HasToolRequest(m.content) then Receive(Clear(f), m) else Receive(f, m)
  }

  function Foreseen(items: seq<Item>): Forecast {
    if items == [] then Forecast(NoMessage, false, NoMessage, false, {}, {})
    else
      var init, item := items[..|items| - 1], items[|items| - 1];
      Next(Foreseen(init), Sent(item, RequestIds(Streamed(init))))
  }

  /** No call brings thinking of its own while other thinking waits. */
  predicate NeverSpoils(items: seq<Item>) {
    items == []
    || (var init, item := items[..|items| - 1], items[|items| - 1];
        var content := Arriving(item, RequestIds(Streamed(init))).content;
        NeverSpoils(init) && !(HasToolRequest(content) && HasThinking(content) && Foreseen(init).waiting))
  }

  // ---------- what it says of the accumulator ----------

  function HeaderOf(m: Message): Header {
    Header(m.id, m.userVisible)
  }

  function Anchor(messages: seq<Message>): Header {
    if messages == [] then NoMessage
    else
      var init, m := messages[..|messages| - 1], messages[|messages| - 1];
      if HasPlain(m.content) then HeaderOf(m) else Anchor(init)
  }

  function Shown(messages: seq<Message>): set<int> {
    if messages == [] then {}
    else Shown(messages[..|messages| - 1]) + IdOf(HeaderOf(messages[|messages| - 1]))
  }

  function Solid(messages: seq<Message>): set<int> {
    if messages == [] then {}
    else
      var init, m := messages[..|messages| - 1], messages[|messages| - 1];
      if HasPlain(m.content) then Solid(init) + IdOf(HeaderOf(m)) else Solid(init)
  }

  function LastHeader(messages: seq<Message>): Header {
    if messages == [] then NoMessage else HeaderOf(messages[|messages| - 1])
  }

  function LastCalls(messages: seq<Message>): bool {
    messages != [] && HasToolRequest(messages[|messages| - 1].content)
  }

  function Track(messages: seq<Message>, role: Role): Forecast {
    Forecast(LastHeader(messages), LastCalls(messages), Anchor(messages), Atoms(Prior(messages, role), true) != [],
             Shown(messages), Solid(messages))
  }

  lemma TrackSnoc(init: seq<Message>, m: Message, role: Role)
    requires m.role == role
    ensures Track(init + [m], role) ==
            Forecast(HeaderOf(m), HasToolRequest(m.content), if HasPlain(m.content) then HeaderOf(m) else Anchor(init),
                     Atoms(Prior(init, role), true) != []
                     || (!HasToolRequest(m.content) && Atoms(m.content, true) != []),
                     Shown(init) + IdOf(HeaderOf(m)),
                     if HasPlain(m.content) then Solid(init) + IdOf(HeaderOf(m)) else Solid(init))
  {
    var all := init + [m];
    assert all[..|init|] == init && all[|init|] == m;
    StripSnoc(init, m, role);
    if Free(m, role) {
      AtomsConcat(Prior(init, role), Kept(m.content, true), true);
      KeptAtoms(m.content, true, true);
    }
  }

  lemma MergeKinds(last: seq<Content>, more: seq<Content>)
    ensures HasToolRequest(Merge(last, more)) <==> HasToolRequest(last) || HasToolRequest(more)
    ensures HasPlain(Merge(last, more)) <==> HasPlain(last) || HasPlain(more)
  {
    var all, n := Merge(last, more), |last|;
    if all == last + more {
      forall i | 0 <= i < |more|
        ensures all[n + i] == more[i]
      {
      }
    } else {
      assert more == [more[0]] && |all| == n;
      forall i | 0 <= i < n - 1
        ensures all[i] == last[i]
      {
      }
      assert all[n - 1] == Joined(last[n - 1], more[0]);
    }
    forall i | 0 <= i < n
      ensures all[i].ToolRequest? == last[i].ToolRequest? && IsThinking(all[i]) == IsThinking(last[i])
    {
    }
  }

  lemma TrackDelivered(messages: seq<Message>, m: Message, role: Role)
    requires AllOf(messages, role) && m.role == role && !OnlyReports(m)
    requires HasToolRequest(m.content) ==> Atoms(Prior(messages, role), true) == []
    ensures Track(Pushed(messages, m), role) == Deliver(Track(messages, role), m)
  {
    hide HasToolRequest, HasPlain, Merge, Atoms, Prior, Shown, Solid, Anchor;
    if messages != [] && messages[|messages| - 1].id.Some? && messages[|messages| - 1].id == m.id {
      var init, last := messages[..|messages| - 1], messages[|messages| - 1];
      var joined := Reported(last, m).(content := Merge(last.content, m.content));
      assert messages == init + [last] && Pushed(messages, m) == init + [joined];
      TrackSnoc(init, last, role);
      TrackSnoc(init, joined, role);
      MergeKinds(last.content, m.content);
      MergeKeepsAtoms(last.content, m.content, true);
    } else {
      TrackSnoc(messages, m, role);
    }
  }

  lemma {:induction false} ShownMeans(messages: seq<Message>, id: int)
    ensures id in Shown(messages) <==> exists m :: m in messages && m.userVisible && m.id == Some(id)
  {
    if messages != [] {
      var init, m := messages[..|messages| - 1], messages[|messages| - 1];
      ShownMeans(init, id);
      assert messages == init + [m];
    }
  }

  lemma {:induction false} RecordedExactly(messages: seq<Message>, m: Message)
    ensures Recorded(messages, m).Some? <==> exists x :: x in messages && Concerns(m, x)
  {
    if messages != [] {
      var init, x := messages[..|messages| - 1], messages[|messages| - 1];
      RecordedExactly(init, m);
      assert messages == init + [x];
    }
  }

  lemma {:induction false} TrackSame(a: seq<Message>, b: seq<Message>, role: Role)
    requires |a| == |b| && AllOf(a, role) && AllOf(b, role)
    requires forall i :: 0 <= i < |a| ==>
               a[i].content == b[i].content && a[i].id == b[i].id && a[i].userVisible == b[i].userVisible
    ensures Track(a, role) == Track(b, role)
  {
    if a != [] {
      var n := |a| - 1;
      TrackSame(a[..n], b[..n], role);
      assert a == a[..n] + [a[n]] && b == b[..n] + [b[n]];
      TrackSnoc(a[..n], a[n], role);
      TrackSnoc(b[..n], b[n], role);
    }
  }

  lemma TrackPushed(messages: seq<Message>, m: Message, role: Role)
    requires AllOf(messages, role) && m.role == role && (m.limitReached ==> m.id.Some?)
    requires HasToolRequest(m.content) ==> Atoms(Prior(messages, role), true) == []
    ensures Track(Pushed(messages, m), role) == Receive(Track(messages, role), m)
  {
    if !OnlyReports(m) {
      TrackDelivered(messages, m, role);
    } else {
      RecordedExactly(messages, m);
      if m.limitReached {
        ShownMeans(messages, m.id.value);
      }
      if Recorded(messages, m).Some? {
        RecordedSaysTheSame(messages, m, true);
        TrackSame(messages, Recorded(messages, m).value, role);
      } else if m.limitReached {
        var kept := m.(userVisible := true, agentVisible := false);
        TrackSnoc(messages, kept, role);
      }
    }
  }

  lemma {:induction false} PlainIsKept(content: seq<Content>)
    ensures HasPlain(content) <==> Kept(content, false) != []
  {
    if content != [] {
      var init, c := content[..|content| - 1], content[|content| - 1];
      PlainIsKept(init);
      if HasPlain(init) {
        var i :| 0 <= i < |init| && !IsThinking(init[i]);
        assert !IsThinking(content[i]);
      }
      if !IsThinking(c) {
        assert !IsThinking(content[|init|]);
      }
      if i :| 0 <= i < |content| && !IsThinking(content[i]) {
        assert i < |init| ==> !IsThinking(init[i]);
      }
    }
  }

  lemma {:induction false} KeptTwice(content: seq<Content>)
    ensures Kept(Kept(content, false), false) == Kept(content, false)
  {
    if content != [] {
      var init, c := content[..|content| - 1], content[|content| - 1];
      KeptTwice(init);
      if !IsThinking(c) {
        var kept := Kept(init, false);
        assert (kept + [c])[..|kept|] == kept;
      }
    }
  }

  /** What is left of a message, if anything. */
  lemma Stripped(m: Message, role: Role)
    requires m.role == role
    ensures StripOne(m, role).content == [] <==> !HasPlain(m.content)
    ensures HasPlain(StripOne(m, role).content) <==> HasPlain(m.content)
    ensures HeaderOf(StripOne(m, role)) == HeaderOf(m) && StripOne(m, role).role == role
  {
    PlainIsKept(m.content);
    PlainIsKept(StripOne(m, role).content);
    KeptTwice(m.content);
    if !Free(m, role) {
      var i :| 0 <= i < |m.content| && m.content[i].ToolRequest?;
      assert !IsThinking(m.content[i]);
    }
  }

  lemma HeadersSnoc(init: seq<Message>, m: Message)
    ensures Anchor(init + [m]) == (if HasPlain(m.content) then HeaderOf(m) else Anchor(init))
    ensures Shown(init + [m]) == Shown(init) + IdOf(HeaderOf(m))
    ensures Solid(init + [m]) == if HasPlain(m.content) then Solid(init) + IdOf(HeaderOf(m)) else Solid(init)
    ensures LastHeader(init + [m]) == HeaderOf(m)
  {
    assert (init + [m])[..|init|] == init;
  }

  /** Clearing leaves the messages that held more than thinking. */
  lemma {:induction false} TrackCleared(messages: seq<Message>, role: Role)
    requires AllOf(messages, role)
    ensures var left := NonEmpty(StripEach(messages, role));
            LastHeader(left) == Anchor(messages) && Anchor(left) == Anchor(messages)
            && Shown(left) == Solid(messages) && Solid(left) == Solid(messages)
  {
    if messages != [] {
      var init, m := messages[..|messages| - 1], messages[|messages| - 1];
      TrackCleared(init, role);
      Stripped(m, role);
      hide HasPlain, IdOf;
      StripSnoc(init, m, role);
      assert messages == init + [m];
      var each := StripEach(init, role);
      assert (each + [StripOne(m, role)])[..|each|] == each;
      HeadersSnoc(NonEmpty(each), StripOne(m, role));
    }
  }

  lemma NothingWaits(messages: seq<Message>, chunk: Message)
    requires AllOf(messages, chunk.role) && HasToolRequest(chunk.content)
    ensures Atoms(Prior(Cleared(messages, chunk), chunk.role), true) == []
  {
    ClearedIsBare(messages, chunk);
    BareHasNoPrior(Cleared(messages, chunk), chunk.role);
  }

  /** Thinking taken over changes nothing the automaton looks at. */
  lemma CarryingLooksTheSame(f: Forecast, messages: seq<Message>, chunk: Message, spareId: int)
    requires !f.waiting || !HasToolRequest(chunk.content)
    ensures var sent, carried := Emitted(chunk, spareId), Emitted(Carrying(messages, chunk), spareId);
            Receive(f, carried) == Receive(f, sent)
            && (HasToolRequest(carried.content) <==> HasToolRequest(sent.content))
  {
    var carried := Carrying(messages, chunk);
    if carried != chunk {
      var prior, k := Prior(messages, chunk.role), FirstRequest(chunk.content);
      assert carried.content == chunk.content[..k] + prior + chunk.content[k..];
      CallStands(chunk.content, prior);
    }
  }

  lemma CallStands(content: seq<Content>, prior: seq<Content>)
    requires HasToolRequest(content)
    ensures HasToolRequest(Spliced(content, prior)) && HasPlain(Spliced(content, prior)) && HasPlain(content)
    ensures Spliced(content, prior) != [] && content != []
  {
    var k := FirstRequest(content);
    var i :| 0 <= i < |content| && content[i].ToolRequest?;
    assert k < |content| && !IsThinking(content[k]);
    assert Spliced(content, prior)[k + |prior|] == content[k];
  }

  /** What one more chunk makes of the accumulator, the automaton makes of its state. */
  lemma TrackAbsorbed(before: Intake, item: Item, role: Role)
    requires AllOf(before.messages, role) && item.message.role == role
    ensures Track(Absorb(before, item).messages, role) == Next(Track(before.messages, role), Sent(item, before.seen))
  {
    var chunk := Arriving(item, before.seen);
    var cleared, carrying := Cleared(before.messages, chunk), Carrying(before.messages, chunk);
    var sent := Emitted(carrying, item.spareId);
    ClearedIsBare(before.messages, chunk);
    CarryingCalls(before.messages, chunk);
    EmittedSays(carrying, item.spareId);
    EmittedSays(chunk, item.spareId);
    if HasToolRequest(chunk.content) {
      NothingWaits(before.messages, chunk);
      TrackCleared(before.messages, role);
      TrackPushed(cleared, sent, role);
      CarryingLooksTheSame(Track(cleared, role), before.messages, chunk, item.spareId);
      CallsAnyway(Track(cleared, role), Clear(Track(before.messages, role)), Emitted(chunk, item.spareId));
    } else {
      TrackPushed(cleared, sent, role);
    }
  }

  /** Behind a call nothing depends on whether the last message made one. */
  lemma CallsAnyway(f: Forecast, g: Forecast, m: Message)
    requires HasToolRequest(m.content) && f == g.(calls := f.calls)
    ensures Receive(f, m) == Receive(g, m)
  {
  }

  lemma {:induction false} ForeseenIsRight(items: seq<Item>, role: Role)
    requires forall k :: 0 <= k < |items| ==> items[k].message.role == role
    ensures Track(Collect(items).messages, role) == Foreseen(items)
  {
    if items != [] {
      var init, item := items[..|items| - 1], items[|items| - 1];
      ForeseenIsRight(init, role);
      StreamsSettle(init, role);
      SeenSoFar(init);
      TrackAbsorbed(Collect(init), item, role);
    }
  }

  lemma {:induction false} NeverSpoilsExactly(items: seq<Item>, role: Role)
    requires forall k :: 0 <= k < |items| ==> items[k].message.role == role
    ensures NoClash(items) <==> NeverSpoils(items)
  {
    if items != [] {
      var init := items[..|items| - 1];
      NeverSpoilsExactly(init, role);
      ForeseenIsRight(init, role);
      SeenSoFar(init);
    }
  }

  /** Over chunks of one role, all thinking survives in order exactly when no call brings thinking
      of its own while the automaton has other thinking waiting. */
  lemma ThinkingSurvivesExactly(items: seq<Item>, role: Role)
    requires forall k :: 0 <= k < |items| ==> items[k].message.role == role
    ensures Said(Collect(items).messages, true) == Atoms(Streamed(items), true) <==> NeverSpoils(items)
  {
    ThinkingCount(items, role);
    NeverSpoilsExactly(items, role);
  }

  lemma {:induction false} UnseenCalls(content: seq<Content>, seen: set<string>)
    ensures HasToolRequest(Unseen(content, seen)) ==> HasToolRequest(content)
    ensures HasThinking(Unseen(content, seen)) ==> HasThinking(content)
  {
    if content != [] {
      var init, c := content[..|content| - 1], content[|content| - 1];
      UnseenCalls(init, seen);
      forall i | 0 <= i < |init|
        ensures content[i] == init[i]
      {
      }
      assert content[|init|] == c;
    }
  }

  lemma {:induction false} QuietCallsNeverSpoil(items: seq<Item>)
    requires forall k :: 0 <= k < |items| && HasToolRequest(items[k].message.content) ==>
               !HasThinking(items[k].message.content)
    ensures NeverSpoils(items)
  {
    if items != [] {
      var init, item := items[..|items| - 1], items[|items| - 1];
      QuietCallsNeverSpoil(init);
      UnseenCalls(item.message.content, RequestIds(Streamed(init)));
    }
  }

  /** If no chunk that calls a tool brings thinking of its own, all thinking survives in order. */
  lemma QuietCallsKeepThinking(items: seq<Item>, role: Role)
    requires forall k :: 0 <= k < |items| ==> items[k].message.role == role
    requires forall k :: 0 <= k < |items| && HasToolRequest(items[k].message.content) ==>
               !HasThinking(items[k].message.content)
    ensures Said(Collect(items).messages, true) == Atoms(Streamed(items), true)
  {
    QuietCallsNeverSpoil(items);
    ThinkingSurvivesExactly(items, role);
  }
}
