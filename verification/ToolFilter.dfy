/** Tool responses are dropped from the middle outwards until the summarizer's prompt fits. */
module ToolFilter {
  datatype Entry = Entry(text: int, tool: bool)

  /** How many tool responses there are among the messages. */
  function Tools(messages: seq<Entry>): (n: nat) {
    if messages == [] then 0
    else Tools(messages[..|messages| - 1]) + (if messages[|messages| - 1].tool then 1 else 0)
  }

  /** The ranks removed of n tool responses: m of them around the middle, clipped to [0, n). */
  function Quota(n: nat, percent: nat): nat {
    if n * percent / 100 > 1 then n * percent / 100 else 1
  }

  function Low(n: nat, percent: nat): nat {
    var half := (Quota(n, percent) + 1) / 2;
    if half <= n / 2 then n / 2 - half else 0
  }

  function High(n: nat, percent: nat): nat {
    var end := n / 2 + Quota(n, percent) / 2;
    if end <= n then end else n
  }

  predicate Drops(n: nat, percent: nat, rank: nat) {
    percent > 0 && Low(n, percent) <= rank < High(n, percent)
  }

  /** What is left: everything but the tool responses of the dropped ranks, in order. */
  function Kept(messages: seq<Entry>, n: nat, percent: nat): seq<Entry> {
    if messages == [] then []
    else
      var init, m := messages[..|messages| - 1], messages[|messages| - 1];
      if m.tool && Drops(n, percent, Tools(init)) then Kept(init, n, percent)
      else Kept(init, n, percent) + [m]
  }

  // ---------- the program ----------

  function ToolIndices(messages: seq<Entry>): seq<nat> {
    if messages == [] then []
    else
      var last := |messages| - 1;
      if messages[last].tool then ToolIndices(messages[..last]) + [last] else ToolIndices(messages[..last])
  }

  lemma {:induction false} RankOfIndex(messages: seq<Entry>, i: nat)
    requires i < |messages|
    ensures |ToolIndices(messages)| == Tools(messages) && Tools(messages[..i]) <= Tools(messages)
    ensures messages[i].tool ==>
              Tools(messages[..i]) < Tools(messages) && ToolIndices(messages)[Tools(messages[..i])] == i
  {
    var init := messages[..|messages| - 1];
    if i < |init| {
      RankOfIndex(init, i);
      assert init[..i] == messages[..i];
    } else if init != [] {
      RankOfIndex(init, |init| - 1);
    }
  }

  lemma {:induction false} IndexOfRank(messages: seq<Entry>, r: nat)
    requires |ToolIndices(messages)| == Tools(messages) && r < Tools(messages)
    ensures var i := ToolIndices(messages)[r];
            i < |messages| && messages[i].tool && Tools(messages[..i]) == r
  {
    var init := messages[..|messages| - 1];
    SizeOfIndices(init);
    if r < Tools(init) {
      IndexOfRank(init, r);
      assert init[..ToolIndices(init)[r]] == messages[..ToolIndices(init)[r]];
    }
  }

  lemma {:induction false} SizeOfIndices(messages: seq<Entry>)
    ensures |ToolIndices(messages)| == Tools(messages)
  {
    if messages != [] {
      SizeOfIndices(messages[..|messages| - 1]);
    }
  }

  method FindTools(messages: seq<Entry>) returns (indices: seq<nat>)
    ensures indices == ToolIndices(messages)
  {
    indices := [];
    for i := 0 to |messages|
      invariant indices == ToolIndices(messages[..i])
    {
      assert messages[..i + 1][..i] == messages[..i];
      if messages[i].tool {
        indices := indices + [i];
      }
    }
    assert messages[..|messages|] == messages;
  }

  /** Alternates one step down and one step up from the middle. */
  method MiddleOut(indices: seq<nat>, percent: nat) returns (remove: set<nat>)
    requires indices != [] && percent > 0
    ensures forall i :: i in remove <==>
              exists r :: 0 <= r < |indices| && Drops(|indices|, percent, r) && indices[r] == i
  {
    var n := |indices|;
    var quota := n * percent / 100;
    if quota < 1 {
      quota := 1;
    }
    var middle := n / 2;
    ghost var ranks: set<nat> := {};
    remove := {};
    for i := 0 to quota
      invariant forall r: nat :: r in ranks <==> r < n && middle - (i + 1) / 2 <= r < middle + i / 2
      invariant forall x :: x in remove <==> exists r :: r in ranks && r < n && indices[r] == x
    {
      var offset := i / 2;
      Halves(i);
      if i % 2 == 0 {
        if middle > offset {
          remove := remove + {indices[middle - offset - 1]};
          ranks := ranks + {middle - offset - 1};
        }
      } else if middle + offset < n {
        remove := remove + {indices[middle + offset]};
        ranks := ranks + {middle + offset};
      }
    }
    assert quota == Quota(n, percent);
    forall r: nat | r < n
      ensures r in ranks <==> Drops(n, percent, r)
    {
    }
  }

  lemma Halves(i: nat)
    ensures i % 2 == 0 ==> (i + 1) / 2 == i / 2 && (i + 2) / 2 == i / 2 + 1
    ensures i % 2 == 1 ==> (i + 1) / 2 == i / 2 + 1 && (i + 2) / 2 == i / 2 + 1
  {
  }

  method FilterToolResponses(messages: seq<Entry>, percent: nat) returns (kept: seq<Entry>)
    ensures kept == Kept(messages, Tools(messages), percent)
  {
    var n := Tools(messages);
    if percent == 0 {
      KeptAll(messages, n, percent);
      return messages;
    }
    var indices := FindTools(messages);
    SizeOfIndices(messages);
    if indices == [] {
      NothingToDrop(messages, percent);
      return messages;
    }
    var remove := MiddleOut(indices, percent);
    kept := [];
    for i := 0 to |messages|
      invariant kept == Kept(messages[..i], n, percent)
    {
      assert messages[..i + 1][..i] == messages[..i];
      InRemoval(messages, percent, i, remove);
      if i !in remove {
        kept := kept + [messages[i]];
      }
    }
    assert messages[..|messages|] == messages;
  }

  lemma InRemoval(messages: seq<Entry>, percent: nat, i: nat, remove: set<nat>)
    requires i < |messages|
    requires forall x :: x in remove <==>
               exists r :: 0 <= r < |ToolIndices(messages)| && Drops(|ToolIndices(messages)|, percent, r)
                           && ToolIndices(messages)[r] == x
    ensures i in remove <==> messages[i].tool && Drops(Tools(messages), percent, Tools(messages[..i]))
  {
    SizeOfIndices(messages);
    RankOfIndex(messages, i);
    if i in remove {
      var r :| 0 <= r < |ToolIndices(messages)| && Drops(|ToolIndices(messages)|, percent, r)
               && ToolIndices(messages)[r] == i;
      IndexOfRank(messages, r);
    }
  }

  lemma {:induction false} KeptAll(messages: seq<Entry>, n: nat, percent: nat)
    requires percent == 0
    ensures Kept(messages, n, percent) == messages
  {
    if messages != [] {
      KeptAll(messages[..|messages| - 1], n, percent);
    }
  }

  lemma {:induction false} NothingToDrop(messages: seq<Entry>, percent: nat)
    requires Tools(messages) == 0
    ensures forall n: nat :: Kept(messages, n, percent) == messages
  {
    if messages != [] {
      NothingToDrop(messages[..|messages| - 1], percent);
    }
  }

  // ---------- how much is dropped ----------

  /** Removing a larger share removes what a smaller share removes, and more. */
  lemma LargerShareDropsMore(n: nat, p: nat, q: nat, rank: nat)
    requires p <= q
    ensures Drops(n, p, rank) ==> Drops(n, q, rank)
  {
    assert n * p <= n * q;
  }

  /** At most as many are dropped as asked for: all of them, unless the number is odd and all are
      asked for; then the last one stays. */
  lemma WindowSize(n: nat, percent: nat)
    requires n > 0 && 0 < percent <= 100
    ensures Low(n, percent) <= High(n, percent) <= n
    ensures Quota(n, percent) <= n
    ensures High(n, percent) - Low(n, percent) ==
            if n % 2 == 1 && Quota(n, percent) == n then n - 1 else Quota(n, percent)
    ensures n % 2 == 1 && Quota(n, percent) == n ==> Low(n, percent) == 0 && High(n, percent) == n - 1
  {
    assert n * percent <= n * 100;
  }

  /** How many of the first tool responses are dropped. */
  function Dropped(n: nat, percent: nat, tools: nat): nat {
    if tools == 0 then 0
    else Dropped(n, percent, tools - 1) + (if Drops(n, percent, tools - 1) then 1 else 0)
  }

  lemma {:induction false} DroppedSoFar(n: nat, percent: nat, tools: nat)
    requires percent > 0 && Low(n, percent) <= High(n, percent)
    ensures Dropped(n, percent, tools) ==
            if tools <= Low(n, percent) then 0
            else if tools <= High(n, percent) then tools - Low(n, percent)
            else High(n, percent) - Low(n, percent)
  {
    if tools > 0 {
      DroppedSoFar(n, percent, tools - 1);
    }
  }

  lemma {:induction false} KeptSize(messages: seq<Entry>, n: nat, percent: nat)
    ensures |Kept(messages, n, percent)| == |messages| - Dropped(n, percent, Tools(messages))
    ensures Tools(Kept(messages, n, percent)) == Tools(messages) - Dropped(n, percent, Tools(messages))
  {
    if messages != [] {
      var init, m := messages[..|messages| - 1], messages[|messages| - 1];
      KeptSize(init, n, percent);
      var kept := Kept(init, n, percent);
      assert (kept + [m])[..|kept|] == kept;
    }
  }

  /** The number of messages removed, and that all removed ones are tool responses. */
  lemma RemovedExactly(messages: seq<Entry>, percent: nat)
    requires 0 < percent <= 100 && Tools(messages) > 0
    ensures var n, kept := Tools(messages), Kept(messages, Tools(messages), percent);
            var asked := if n * percent / 100 < 1 then 1 else n * percent / 100;
            var removed := if n % 2 == 1 && asked == n then n - 1 else asked;
            |messages| - |kept| == removed && Tools(kept) == n - removed
  {
    WindowSize(Tools(messages), percent);
    DroppedSoFar(Tools(messages), percent, Tools(messages));
    KeptSize(messages, Tools(messages), percent);
  }

  /** Asking for all removes all exactly when their number is even. */
  lemma AllGoExactly(messages: seq<Entry>)
    ensures Tools(Kept(messages, Tools(messages), 100)) == 0 <==> Tools(messages) % 2 == 0
  {
    var n := Tools(messages);
    if n > 0 {
      RemovedExactly(messages, 100);
      assert n * 100 / 100 == n;
    } else {
      NothingToDrop(messages, 100);
    }
  }

  // ---------- which ones are dropped ----------

  /** The tool responses dropped are those between two ranks around the middle: of n, nearly as many
      stay before them as behind them, at most two more behind.  Their number is the percentage,
      rounded down but at least one; of an odd number, all but one go if all are asked for. */
  lemma MiddleGoesFirst(n: nat, percent: nat) returns (low: nat, high: nat)
    requires n > 0 && 0 < percent <= 100
    ensures low <= high <= n && forall rank: nat :: Drops(n, percent, rank) <==> low <= rank < high
    ensures low <= n - high <= low + 2
    ensures var asked := if n * percent / 100 < 1 then 1 else n * percent / 100;
            high - low == if asked == n && n % 2 == 1 then n - 1 else asked
  {
    WindowSize(n, percent);
    low, high := Low(n, percent), High(n, percent);
  }

  /** The places at which a message stays: those without a tool response, and those whose tool
      response is not dropped, by its rank among them. */
  predicate Stays(messages: seq<Entry>, n: nat, percent: nat, i: int) {
    0 <= i < |messages| && (messages[i].tool ==> !Drops(n, percent, Tools(messages[..i])))
  }

  /** These places, first to last. */
  function Places(messages: seq<Entry>, n: nat, percent: nat, end: nat): seq<nat>
    requires end <= |messages|
  {
    if end == 0 then []
    else if Stays(messages, n, percent, end - 1) then Places(messages, n, percent, end - 1) + [end - 1]
    else Places(messages, n, percent, end - 1)
  }

  lemma {:induction false} PlacesMembers(messages: seq<Entry>, n: nat, percent: nat, end: nat)
    requires end <= |messages|
    ensures forall i :: i in Places(messages, n, percent, end) <==> i < end && Stays(messages, n, percent, i)
  {
    hide Stays;
    if end > 0 {
      PlacesMembers(messages, n, percent, end - 1);
    } else {
      NoneBelow(messages, n, percent);
    }
  }

  lemma NoneBelow(messages: seq<Entry>, n: nat, percent: nat)
    ensures forall i :: Stays(messages, n, percent, i) ==> i >= 0
  {
  }

  predicate AscendingBelow(places: seq<nat>, end: nat) {
    (forall i :: 0 <= i < |places| ==> places[i] < end)
    && forall i, j :: 0 <= i < j < |places| ==> places[i] < places[j]
  }

  lemma {:induction false} PlacesAscend(messages: seq<Entry>, n: nat, percent: nat, end: nat)
    requires end <= |messages|
    ensures AscendingBelow(Places(messages, n, percent, end), end)
  {
    if end > 0 {
      PlacesAscend(messages, n, percent, end - 1);
      var before := Places(messages, n, percent, end - 1);
      assert AscendingBelow(before, end - 1);
      assert AscendingBelow(before + [end - 1], end) && AscendingBelow(before, end);
    }
  }

  lemma {:induction false} KeptAtPlaces(messages: seq<Entry>, n: nat, percent: nat, end: nat)
    requires end <= |messages|
    ensures var kept, places := Kept(messages[..end], n, percent), Places(messages, n, percent, end);
            |kept| == |places|
            && forall i :: 0 <= i < |places| ==> places[i] < |messages| && kept[i] == messages[places[i]]
  {
    if end > 0 {
      KeptAtPlaces(messages, n, percent, end - 1);
      assert messages[..end][..end - 1] == messages[..end - 1];
    }
  }

  /** What is left is exactly the messages of these places, in their order and as they were. */
  lemma KeptExactly(messages: seq<Entry>, n: nat, percent: nat) returns (places: seq<nat>)
    ensures forall i :: i in places <==> Stays(messages, n, percent, i)
    ensures forall i, j :: 0 <= i < j < |places| ==> places[i] < places[j]
    ensures |Kept(messages, n, percent)| == |places|
    ensures forall i :: 0 <= i < |places| ==>
              places[i] < |messages| && Kept(messages, n, percent)[i] == messages[places[i]]
  {
    places := Places(messages, n, percent, |messages|);
    PlacesMembers(messages, n, percent, |messages|);
    PlacesAscend(messages, n, percent, |messages|);
    KeptAtPlaces(messages, n, percent, |messages|);
    assert messages[..|messages|] == messages;
    forall i
      ensures i in places <==> Stays(messages, n, percent, i)
    {
    }
  }

  // ---------- the retry ladder ----------

  datatype Answer = Summary(text: int) | TooLong | OtherError

  datatype Outcome = Summarized(text: int, percent: nat) | NothingToRemove | StillTooLong | Failed

  function Percentages(): seq<nat> {
    [0, 10, 20, 50, 100]
  }

  /** What the summarizer answered to the k-th attempt. */
  function Attempt(messages: seq<Entry>, model: seq<Entry> -> Answer, k: nat): Answer
    requires k < 5
  {
    model(Kept(messages, Tools(messages), [0, 10, 20, 50, 100][k]))
  }

  /** Tries again with more removed as long as the prompt is too long. */
  method Summarize(messages: seq<Entry>, model: seq<Entry> -> Answer) returns (outcome: Outcome, attempts: nat)
    ensures 1 <= attempts <= 5
    ensures forall k :: 0 <= k < attempts - 1 ==> Attempt(messages, model, k).TooLong?
    ensures attempts > 1 ==> Tools(messages) > 0
    ensures var last := Attempt(messages, model, attempts - 1);
            outcome == (match last
                        case Summary(text) => Summarized(text, [0, 10, 20, 50, 100][attempts - 1])
                        case OtherError => Failed
                        case TooLong => if Tools(messages) == 0 then NothingToRemove else StillTooLong)
    ensures outcome.StillTooLong? ==> attempts == 5
  {
    attempts := 0;
    while true
      invariant 0 <= attempts < 5
      invariant forall k :: 0 <= k < attempts ==> Attempt(messages, model, k).TooLong?
      invariant attempts > 0 ==> Tools(messages) > 0
      decreases 5 - attempts
    {
      var filtered := FilterToolResponses(messages, Percentages()[attempts]);
      var answer := model(filtered);
      attempts := attempts + 1;
      match answer {
        case Summary(text) =>
          return Summarized(text, Percentages()[attempts - 1]), attempts;
        case OtherError =>
          return Failed, attempts;
        case TooLong =>
          if Tools(messages) == 0 {
            return NothingToRemove, attempts;
          }
          if attempts == 5 {
            return StillTooLong, attempts;
          }
      }
    }
  }
}
