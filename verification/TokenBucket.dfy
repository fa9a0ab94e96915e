/** The budget and rate limit kept for one token: a stored count and a sliding window. */
module TokenBucket {
  import opened Wrappers

  datatype Reply = Allowed(remaining: int) | BudgetExhausted | RateLimited

  /** The fields of the durable object, and the count in its storage. */
  datatype State = State(count: int, timestamps: seq<int>, initialized: bool, stored: Option<int>)

  /** Times less than a second before now. */
  function Recent(times: seq<int>, now: int): seq<int> {
    if times == [] then []
    else
      var init, t := times[..|times| - 1], times[|times| - 1];
      if now - t < 1000 then Recent(init, now) + [t] else Recent(init, now)
  }

  function Initialized(s: State): State {
    if s.initialized then s
    else s.(count := if s.stored.Some? then s.stored.value else s.count, initialized := true)
  }

  /** One request to `/check`. */
  function Checked(s0: State, now: int, maxRequests: int, ratePerSecond: int): (State, Reply) {
    var s := Initialized(s0);
    if s.count >= maxRequests then (s, BudgetExhausted)
    else
      var recent := Recent(s.timestamps, now);
      if |recent| >= ratePerSecond then (s.(timestamps := recent), RateLimited)
      else
        (s.(count := s.count + 1, timestamps := recent + [now], stored := Some(s.count + 1)),
         Allowed(maxRequests - (s.count + 1)))
  }

  /** A new object over what the storage holds. */
  function Restarted(s: State): State {
    State(0, [], false, s.stored)
  }

  class Bucket {
    var count: int
    var timestamps: seq<int>
    var initialized: bool
    var stored: Option<int>

    ghost function Abstract(): State
      reads this
    {
      State(count, timestamps, initialized, stored)
    }

    constructor (stored: Option<int>)
      ensures Abstract() == State(0, [], false, stored)
    {
      this.stored := stored;
      count, timestamps, initialized := 0, [], false;
    }

    method Initialize()
      modifies this
      ensures Abstract() == Initialized(old(Abstract()))
    {
      if initialized {
        return;
      }
      if stored.Some? {
        count := stored.value;
      }
      initialized := true;
    }

    method Prune(now: int)
      modifies this`timestamps
      ensures timestamps == Recent(old(timestamps), now)
    {
      var kept: seq<int> := [];
      for i := 0 to |timestamps|
        invariant timestamps == old(timestamps)
        invariant kept == Recent(timestamps[..i], now)
      {
        assert timestamps[..i + 1][..i] == timestamps[..i];
        if now - timestamps[i] < 1000 {
          kept := kept + [timestamps[i]];
        }
      }
      assert timestamps[..|timestamps|] == timestamps;
      timestamps := kept;
    }

    method Check(now: int, maxRequests: int, ratePerSecond: int) returns (reply: Reply)
      modifies this
      ensures (Abstract(), reply) == Checked(old(Abstract()), now, maxRequests, ratePerSecond)
    {
      Initialize();
      if count >= maxRequests {
        return BudgetExhausted;
      }
      Prune(now);
      if |timestamps| >= ratePerSecond {
        return RateLimited;
      }
      count := count + 1;
      timestamps := timestamps + [now];
      stored := Some(count);
      return Allowed(maxRequests - count);
    }
  }

  // ---------- runs ----------

  datatype Event = Check(now: int) | Restart

  /** The state, the times accepted since the last restart, and how many were accepted in all. */
  datatype Run = Run(state: State, accepted: seq<int>, total: nat)

  function Runs(start: State, events: seq<Event>, maxRequests: int, ratePerSecond: int): Run {
    if events == [] then Run(start, [], 0)
    else
      var before := Runs(start, events[..|events| - 1], maxRequests, ratePerSecond);
      match events[|events| - 1]
      case Restart => Run(Restarted(before.state), [], before.total)
      case Check(now) =>
        var (state, reply) := Checked(before.state, now, maxRequests, ratePerSecond);
        if reply.Allowed? then Run(state, before.accepted + [now], before.total + 1)
        else Run(state, before.accepted, before.total)
  }

  /** The clock never goes back. */
  predicate Monotone(events: seq<Event>) {
    forall i, j :: 0 <= i < j < |events| && events[i].Check? && events[j].Check? ==> events[i].now <= events[j].now
  }

  predicate NoLaterThan(events: seq<Event>, now: int) {
    forall i :: 0 <= i < |events| && events[i].Check? ==> events[i].now <= now
  }

  /** How many of the times lie in the second that starts at `from`. */
  function InWindow(times: seq<int>, from: int): nat {
    if times == [] then 0
    else InWindow(times[..|times| - 1], from) + (if from <= times[|times| - 1] < from + 1000 then 1 else 0)
  }

  // ---------- the sliding window ----------

  lemma {:induction false} RecentTwice(times: seq<int>, earlier: int, now: int)
    requires earlier <= now
    ensures Recent(Recent(times, earlier), now) == Recent(times, now)
  {
    if times != [] {
      var init, t := times[..|times| - 1], times[|times| - 1];
      RecentTwice(init, earlier, now);
      var kept := Recent(init, earlier);
      assert (kept + [t])[..|kept|] == kept;
    }
  }

  /** Every time in the window that ends no earlier than now is recent. */
  lemma {:induction false} WindowIsRecent(times: seq<int>, from: int, now: int)
    requires now < from + 1000
    ensures InWindow(times, from) <= |Recent(times, now)|
  {
    if times != [] {
      WindowIsRecent(times[..|times| - 1], from, now);
    }
  }

  /** The pruned list is the whole history of accepted times, cut to the second before some moment
      that is not in the future. */
  ghost predicate Pruned(timestamps: seq<int>, accepted: seq<int>, now: int) {
    timestamps == accepted || exists p :: PrunedAt(timestamps, accepted, p) && p <= now
  }

  predicate PrunedAt(timestamps: seq<int>, accepted: seq<int>, p: int) {
    timestamps == Recent(accepted, p)
  }

  lemma RecentSnoc(times: seq<int>, now: int)
    ensures Recent(times + [now], now) == Recent(times, now) + [now]
  {
    assert (times + [now])[..|times|] == times;
  }

  lemma PruneAgain(timestamps: seq<int>, accepted: seq<int>, now: int)
    requires Pruned(timestamps, accepted, now)
    ensures Recent(timestamps, now) == Recent(accepted, now)
  {
    if timestamps != accepted {
      var p :| PrunedAt(timestamps, accepted, p) && p <= now;
      RecentTwice(accepted, p, now);
    }
  }

  lemma {:induction false} HistoryKept(start: State, events: seq<Event>, max: int, rate: int, now: int)
    requires start.timestamps == [] && Monotone(events) && NoLaterThan(events, now)
    ensures var run := Runs(start, events, max, rate); Pruned(run.state.timestamps, run.accepted, now)
  {
    if events != [] {
      var init, e := events[..|events| - 1], events[|events| - 1];
      var before, run := Runs(start, init, max, rate), Runs(start, events, max, rate);
      if e.Check? {
        forall i | 0 <= i < |init| && init[i].Check?
          ensures init[i].now <= e.now
        {
          assert events[i] == init[i];
        }
        HistoryKept(start, init, max, rate, e.now);
        PruneAgain(before.state.timestamps, before.accepted, e.now);
        RecentSnoc(before.accepted, e.now);
        if Initialized(before.state).count < max {
          assert PrunedAt(run.state.timestamps, run.accepted, e.now);
        } else if before.state.timestamps != before.accepted {
          var p :| PrunedAt(before.state.timestamps, before.accepted, p) && p <= e.now;
          assert PrunedAt(run.state.timestamps, run.accepted, p);
        }
      }
    }
  }

  lemma Before(events: seq<Event>, e: Event)
    requires Monotone(events + [e])
    ensures Monotone(events)
    ensures e.Check? ==> NoLaterThan(events, e.now)
  {
    var all := events + [e];
    forall i, j | 0 <= i < j < |events| && events[i].Check? && events[j].Check?
      ensures events[i].now <= events[j].now
    {
      assert all[i] == events[i] && all[j] == events[j];
    }
    forall i | 0 <= i < |events| && events[i].Check? && e.Check?
      ensures events[i].now <= e.now
    {
      assert all[i] == events[i] && all[|events|] == e;
    }
  }

  lemma RunsOn(start: State, events: seq<Event>, now: int, max: int, rate: int)
    ensures var before, after := Runs(start, events, max, rate), Runs(start, events + [Check(now)], max, rate);
            var (state, reply) := Checked(before.state, now, max, rate);
            after == if reply.Allowed? then Run(state, before.accepted + [now], before.total + 1)
                     else Run(state, before.accepted, before.total)
  {
    assert (events + [Check(now)])[..|events|] == events;
  }

  /** After a check that looked at the rate, the list is exactly the accepted times of the last
      second. */
  lemma ListIsRecentHistory(start: State, events: seq<Event>, max: int, rate: int, now: int)
    requires start.timestamps == [] && Monotone(events + [Check(now)])
    requires Initialized(Runs(start, events, max, rate).state).count < max
    ensures var run := Runs(start, events + [Check(now)], max, rate);
            run.state.timestamps == Recent(run.accepted, now)
  {
    var before := Runs(start, events, max, rate);
    Before(events, Check(now));
    HistoryKept(start, events, max, rate, now);
    PruneAgain(before.state.timestamps, before.accepted, now);
    RecentSnoc(before.accepted, now);
    RunsOn(start, events, now, max, rate);
  }

  lemma WindowStep(times: seq<int>, from: int, now: int, rate: int)
    requires |Recent(times, now)| < rate && InWindow(times, from) <= rate
    ensures InWindow(times + [now], from) <= rate
  {
    assert (times + [now])[..|times|] == times;
    if from <= now < from + 1000 {
      WindowIsRecent(times, from, now);
    }
  }

  /** Within one lifetime, no second holds more accepted requests than the rate allows. */
  lemma {:induction false} RateIsKept(start: State, events: seq<Event>, max: int, rate: int, from: int)
    requires start.timestamps == [] && Monotone(events)
    ensures var n := InWindow(Runs(start, events, max, rate).accepted, from); n == 0 || n <= rate
  {
    if events != [] {
      var init, e := events[..|events| - 1], events[|events| - 1];
      assert events == init + [e];
      Before(init, e);
      RateIsKept(start, init, max, rate, from);
      if e.Check? {
        RateStep(start, init, e.now, max, rate, from);
      }
    }
  }

  lemma RateStep(start: State, events: seq<Event>, now: int, max: int, rate: int, from: int)
    requires start.timestamps == [] && Monotone(events) && NoLaterThan(events, now)
    requires var n := InWindow(Runs(start, events, max, rate).accepted, from); n == 0 || n <= rate
    ensures var n := InWindow(Runs(start, events + [Check(now)], max, rate).accepted, from); n == 0 || n <= rate
  {
    var before := Runs(start, events, max, rate);
    RunsOn(start, events, now, max, rate);
    HistoryKept(start, events, max, rate, now);
    PruneAgain(before.state.timestamps, before.accepted, now);
    if |Recent(before.accepted, now)| < rate {
      WindowStep(before.accepted, from, now, rate);
    }
  }

  // ---------- the budget ----------

  function Spent(s: State): int {
    if s.stored.Some? then s.stored.value else 0
  }

  /** The count in memory is the stored one, once it was read. */
  predicate InStep(s: State) {
    if s.initialized then s.count == Spent(s) else s.count == 0
  }

  /** Over any restarts, the stored count grows by exactly the requests accepted, and the budget
      is never exceeded by accepting. */
  lemma {:induction false} BudgetIsKept(start: State, events: seq<Event>, max: int, rate: int)
    requires InStep(start)
    ensures var run := Runs(start, events, max, rate);
            InStep(run.state) && Spent(run.state) == Spent(start) + run.total
            && (run.total > 0 ==> Spent(run.state) <= max)
  {
    if events != [] {
      BudgetIsKept(start, events[..|events| - 1], max, rate);
    }
  }

  // ---------- which requests are accepted ----------

  /** The places of the times that are less than a second ago. */
  function LastSecond(times: seq<int>, now: int): set<int> {
    set i | 0 <= i < |times| && now - times[i] < 1000
  }

  lemma {:induction false} RecentCount(times: seq<int>, now: int)
    ensures |Recent(times, now)| == |LastSecond(times, now)|
  {
    if times != [] {
      var n := |times| - 1;
      RecentCount(times[..n], now);
      var before, after := LastSecond(times[..n], now), LastSecond(times, now);
      assert after == if now - times[n] < 1000 then before + {n} else before;
    } else {
      assert LastSecond(times, now) == {};
    }
  }

  /** The answer to every request, over any restarts: no more than the budget in all, whatever is in
      storage at first counted in; no more than the rate in any second of one lifetime; and nothing
      else is refused. */
  lemma AnsweredExactly(start: State, events: seq<Event>, max: int, rate: int, now: int)
    requires InStep(start) && start.timestamps == [] && Monotone(events + [Check(now)])
    ensures var before := Runs(start, events, max, rate);
            var spent := before.total + if start.stored.Some? then start.stored.value else 0;
            Checked(before.state, now, max, rate).1 ==
            if spent >= max then BudgetExhausted
            else if |LastSecond(before.accepted, now)| >= rate then RateLimited
            else Allowed(max - spent - 1)
  {
    var before := Runs(start, events, max, rate);
    Before(events, Check(now));
    BudgetIsKept(start, events, max, rate);
    HistoryKept(start, events, max, rate, now);
    PruneAgain(before.state.timestamps, before.accepted, now);
    RecentCount(before.accepted, now);
  }
}
