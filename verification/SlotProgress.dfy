/** Nothing gets stuck: no wake-up is lost, no state is a deadlock, and every run of
    finitely many requests and evictions ends, with every one of them finished. */
module SlotProgress {
  import opened SlotProtocol
  import opened SlotSafety

  predicate Ended(task: Task) {
    match task
    case Request(_, at) => at.Free? && at.free.Finished?
    case Eviction(_, pc) => pc.Evicted?
  }

  predicate AllEnded(s: State) {
    forall t | 0 <= t < |s.tasks| :: Ended(s.tasks[t])
  }

  ghost predicate CanMove(s: State) {
    exists t: nat, c: Choice :: t < |s.tasks| && Enabled(s, t, c)
  }

  /** A registered task whose slot is not `Loading` any more is about to be notified by the
      task that ended the load: no wake-up is lost. */
  lemma NoLostWakeUp(states: seq<State>, i: nat, t: nat)
    requires Run(states) && i < |states| && t in states[i].waiting
    requires t < |states[i].tasks| && states[i].tasks[t].Request?
    requires SlotAt(states[i], states[i].tasks[t].key) != Loading
    ensures exists u: nat :: u < |states[i].tasks| && OwesNotify(states[i].tasks[u])
              && states[i].tasks[u].key == states[i].tasks[t].key
  {
    RunIsSafe(states, i);
    assert WillBeWoken(states[i], t);
    assert OwesNotify(states[i].tasks[states[i].cold.task]);
  }

  ghost predicate CanStep(s: State, t: nat) {
    t < |s.tasks| && exists c: Choice :: Enabled(s, t, c)
  }

  /** The holder of a slot lock can always go on. */
  lemma SlotHolderMoves(s: State, k: Key)
    requires Inv(s) && k in s.locks
    ensures CanStep(s, s.locks[k])
  {
    var t := s.locks[k];
    assert Enabled(s, t, Choice(true, k));
  }

  /** So can the holder of the cold-load lock when no slot lock is held. */
  lemma ColdHolderMoves(s: State)
    requires Inv(s) && s.locks == map[] && s.cold.Holder?
    ensures CanStep(s, s.cold.task)
  {
    var t := s.cold.task;
    var pick := if s.tasks[t].at.Unloading? && s.tasks[t].at.rest != {} then var k :| k in s.tasks[t].at.rest; k
                else s.tasks[t].key;
    assert Enabled(s, t, Choice(true, pick));
  }

  lemma UnlockedTaskMoves(s: State, t: nat)
    requires Inv(s) && s.locks == map[] && s.cold == Nobody && t < |s.tasks| && !Ended(s.tasks[t])
    ensures CanMove(s)
  {
    assert TaskInv(s, t);
    assert t !in s.waiting;
    if s.tasks[t].Eviction? {
      var pick := if s.tasks[t].pc.Evicting? && s.tasks[t].pc.rest != {} then var k :| k in s.tasks[t].pc.rest; k
                  else Key(0, 0, 0);
      assert Enabled(s, t, Choice(true, pick));
    } else {
      assert Enabled(s, t, Choice(true, s.tasks[t].key));
    }
  }

  /** While any request or eviction is unfinished, some task can step: there is no deadlock. */
  lemma NoDeadlock(states: seq<State>, i: nat, t: nat)
    requires Run(states) && i < |states| && t < |states[i].tasks| && !Ended(states[i].tasks[t])
    ensures CanMove(states[i])
  {
    RunIsSafe(states, i);
    UnfinishedMoves(states[i], t);
  }

  lemma UnfinishedMoves(s: State, t: nat)
    requires Inv(s) && t < |s.tasks| && !Ended(s.tasks[t])
    ensures CanMove(s)
  {
    if k :| k in s.locks {
      SlotHolderMoves(s, k);
    } else if s.cold.Holder? {
      ColdHolderMoves(s);
    } else {
      UnlockedTaskMoves(s, t);
    }
  }

  /** While a task waits for a lock or for a load, another one can step. */
  lemma OthersCanStep(s: State, t: nat)
    requires Inv(s) && t < |s.tasks| && HeldSlot(s.tasks[t]) == NoSlot
    requires s.locks != map[] || (s.cold.Holder? && !HoldsCold(s.tasks[t]))
    ensures exists u: nat :: u != t && CanStep(s, u)
  {
    if k :| k in s.locks {
      SlotHolderMoves(s, k);
    } else {
      ColdHolderMoves(s);
    }
  }

  // ---------- every run ends ----------

  /** 1 while the task may still wake waiters. */
  function Wakes(task: Task, waiting: bool): nat {
    if task.Eviction? then 0
    else
      match task.at
      case WithSlot(pc) => if pc.InstallDropSlot? then 0 else 1
      case Generation(_) => 0
      case WithCold(pc) => if pc.RecheckDropCold? || pc.FailDropCold? then 0 else 1
      case WithBoth(pc) => if pc.FailDropSlot? || pc.InstallDropCold? then 0 else 1
      case Free(pc) => if pc.WantGeneration? || pc.Finished? then 0 else 1
      case _ => 1
  }

  /** 1 while the task may still take its snapshot of slots. */
  function Snapshots(task: Task, waiting: bool): nat {
    if task.Eviction? then if task.pc.EvictStart? then 1 else 0
    else if Wakes(task, waiting) == 0 || task.at.Unloading? || task.at.UnloadingHeld?
            || task.at.Leaving? || task.at.Notify? then 0
    else if task.at.Load? && task.at.load.LoadingModel? then 0
    else if task.at.Mark? && !task.at.mark.Marked? then 0
    else 1
  }

  function FreeRank(pc: FreePc, waiting: bool): nat {
    match pc
    case Awaiting => if waiting then 26 else 30
    case LoopHead => 29
    case WantCold => 25
    case WantGeneration => 3
    case Finished(_) => 0
  }

  function SlotRank(pc: SlotPc, waiting: bool): nat {
    match pc
    case Registered => if waiting then 27 else 31
    case Inspecting => 28
    case InstallDropSlot => 4
  }

  function RequestRank(at: RequestPc, waiting: bool): nat {
    match at
    case Arriving => 40
    case Free(pc) => FreeRank(pc, waiting)
    case WithSlot(pc) => SlotRank(pc, waiting)
    case WithCold(pc) => if pc.WantSlotUnderCold? then 24 else 4
    case WithBoth(pc) => if pc.Rechecking? then 23 else 5
    case Load(pc) => if pc.Announcing? then 21 else if pc.Snapshotting? then 20 else 9
    case Unloading(rest) => 10 + 2 * |rest|
    case UnloadingHeld(others, _) => 9 + 2 * |others|
    case Leaving(_) => 8
    case Mark(pc) => if pc.Marked? then 22 else 7
    case Notify(_) => 6
    case Generation(pc) => if pc.GenerationCheck? then 2 else 1
  }

  /** How many steps the task can take before it waits, ends, or needs one of the above. */
  function Rank(task: Task, waiting: bool): nat {
    match task
    case Request(_, at) => RequestRank(at, waiting)
    case Eviction(_, pc) =>
      (match pc
       case EvictStart => 0
       case Evicting(rest) => 2 + 3 * |rest|
       case EvictHeld(others, _) => 1 + 3 * |others|
       case EvictNotify(pending, _) => 3 * |pending|
       case Evicted => 0)
  }

  function Sum(weight: (Task, bool) -> nat, s: State, n: nat): nat
    requires n <= |s.tasks|
  {
    if n == 0 then 0 else Sum(weight, s, n - 1) + weight(s.tasks[n - 1], n - 1 in s.waiting)
  }

  /** If only task `t` weighs differently, the sums differ by its weight. */
  lemma {:induction false} SumDiffersAt(weight: (Task, bool) -> nat, s: State, s': State, t: nat, n: nat)
    requires n <= |s.tasks| == |s'.tasks| && t < |s.tasks|
    requires forall u: nat | u < n && u != t ::
               weight(s'.tasks[u], u in s'.waiting) == weight(s.tasks[u], u in s.waiting)
    ensures Sum(weight, s', n) - Sum(weight, s, n)
         == if t < n then weight(s'.tasks[t], t in s'.waiting) - weight(s.tasks[t], t in s.waiting) else 0
  {
    if n > 0 { SumDiffersAt(weight, s, s', t, n - 1); }
  }

  predicate LexLess(a: nat, b: nat, c: nat, a': nat, b': nat, c': nat) {
    a < a' || (a == a' && (b < b' || (b == b' && c < c')))
  }

  ghost predicate Lower(s': State, s: State) {
    LexLess(Sum(Wakes, s', |s'.tasks|), Sum(Snapshots, s', |s'.tasks|), Sum(Rank, s', |s'.tasks|),
            Sum(Wakes, s, |s.tasks|), Sum(Snapshots, s, |s.tasks|), Sum(Rank, s, |s.tasks|))
  }

  lemma PickShrinks(rest: set<Key>, k: Key)
    requires k in rest
    ensures |rest - {k}| == |rest| - 1
  {
  }

  ghost predicate Falls(s: State, s': State, t: nat)
    requires t < |s.tasks| && |s'.tasks| == |s.tasks|
  {
    var w, w' := t in s.waiting, t in s'.waiting;
    LexLess(Wakes(s'.tasks[t], w'), Snapshots(s'.tasks[t], w'), Rank(s'.tasks[t], w'),
            Wakes(s.tasks[t], w), Snapshots(s.tasks[t], w), Rank(s.tasks[t], w))
  }

  /** What the fall of a request's weights rests on. */
  ghost predicate RequestFacts(s: State, t: nat, c: Choice) {
    && t < |s.tasks| && Enabled(s, t, c) && s.tasks[t].Request?
    && (t in s.waiting ==> s.tasks[t].at == WithSlot(Registered) || s.tasks[t].at == Free(Awaiting))
    && s.tasks[t].at != WithBoth(InnerRegistered) && s.tasks[t].at != WithCold(InnerDropCold)
    && (s.tasks[t].at == WithBoth(Rechecking) ==> SlotAt(s, s.tasks[t].key) != Loading)
    && (s.tasks[t].at.UnloadingHeld? ==> s.tasks[t].at.held in s.tasks[t].at.others)
  }

  lemma FreeWeightFalls(s: State, t: nat, c: Choice)
    requires RequestFacts(s, t, c)
    requires s.tasks[t].at.Arriving? || s.tasks[t].at.Free?
    ensures |Step(s, t, c).tasks| == |s.tasks| && Falls(s, Step(s, t, c), t)
  {
  }

  lemma SlotWeightFalls(s: State, t: nat, c: Choice)
    requires RequestFacts(s, t, c)
    requires s.tasks[t].at.WithSlot? || s.tasks[t].at.Generation?
    ensures |Step(s, t, c).tasks| == |s.tasks| && Falls(s, Step(s, t, c), t)
  {
  }

  lemma UnlockedWeightFalls(s: State, t: nat, c: Choice)
    requires RequestFacts(s, t, c)
    requires s.tasks[t].at.Arriving? || s.tasks[t].at.Free? || s.tasks[t].at.WithSlot? || s.tasks[t].at.Generation?
    ensures |Step(s, t, c).tasks| == |s.tasks| && Falls(s, Step(s, t, c), t)
  {
    hide Falls, Step;
    if s.tasks[t].at.Arriving? || s.tasks[t].at.Free? {
      FreeWeightFalls(s, t, c);
    } else {
      SlotWeightFalls(s, t, c);
    }
  }

  lemma ColdWeightFalls(s: State, t: nat, c: Choice)
    requires RequestFacts(s, t, c)
    requires s.tasks[t].at.WithCold? || s.tasks[t].at.WithBoth? || s.tasks[t].at.Mark? || s.tasks[t].at.Notify?
    ensures |Step(s, t, c).tasks| == |s.tasks| && Falls(s, Step(s, t, c), t)
  {
  }

  lemma LoadWeightFalls(s: State, t: nat, c: Choice)
    requires RequestFacts(s, t, c)
    requires s.tasks[t].at.Load? || s.tasks[t].at.Leaving? || s.tasks[t].at.Unloading? || s.tasks[t].at.UnloadingHeld?
    ensures |Step(s, t, c).tasks| == |s.tasks| && Falls(s, Step(s, t, c), t)
  {
    if s.tasks[t].at.UnloadingHeld? { PickShrinks(s.tasks[t].at.others, s.tasks[t].at.held); }
  }

  lemma EvictionWeightFalls(s: State, t: nat, c: Choice)
    requires t < |s.tasks| && Enabled(s, t, c) && s.tasks[t].Eviction? && EvictionInv(s, t)
    ensures |Step(s, t, c).tasks| == |s.tasks| && Falls(s, Step(s, t, c), t)
  {
    match s.tasks[t].pc
    case EvictHeld(others, k) => PickShrinks(others, k);
    case EvictNotify(pending, k) => PickShrinks(pending, k);
    case _ =>
  }

  lemma OwnWeightFalls(s: State, t: nat, c: Choice)
    requires Inv(s) && t < |s.tasks| && Enabled(s, t, c)
    ensures |Step(s, t, c).tasks| == |s.tasks| && Falls(s, Step(s, t, c), t)
  {
    assert TaskInv(s, t);
    if s.tasks[t].Eviction? {
      EvictionWeightFalls(s, t, c);
    } else {
      if t in s.waiting { assert WillBeWoken(s, t); }
      assert RequestFacts(s, t, c);
      var at := s.tasks[t].at;
      if at.Arriving? || at.Free? || at.WithSlot? || at.Generation? { UnlockedWeightFalls(s, t, c); }
      else if at.WithCold? || at.WithBoth? || at.Mark? || at.Notify? { ColdWeightFalls(s, t, c); }
      else { LoadWeightFalls(s, t, c); }
    }
  }

  /** Only the end of a load wakes anybody. */
  lemma OthersKeepWaiting(s: State, t: nat, c: Choice, u: nat)
    requires Inv(s) && t < |s.tasks| && Enabled(s, t, c) && u < |s.tasks| && u != t
    requires !OwesNotify(s.tasks[t])
    ensures u in Step(s, t, c).waiting <==> u in s.waiting
  {
    assert TaskInv(s, t);
    if u in s.waiting {
      assert WillBeWoken(s, u);
      if s.cold.Holder? { assert TaskInv(s, s.cold.task); }
    }
  }

  lemma OwnFallLowersAll(s: State, s': State, t: nat)
    requires t < |s.tasks| && |s'.tasks| == |s.tasks| && s'.tasks == s.tasks[t := s'.tasks[t]] && Falls(s, s', t)
    requires Wakes(s'.tasks[t], t in s'.waiting) < Wakes(s.tasks[t], t in s.waiting)
             || forall u: nat | u < |s.tasks| && u != t :: u in s'.waiting <==> u in s.waiting
    ensures Lower(s', s)
  {
    SumDiffersAt(Wakes, s, s', t, |s.tasks|);
    SumDiffersAt(Snapshots, s, s', t, |s.tasks|);
    if Wakes(s'.tasks[t], t in s'.waiting) >= Wakes(s.tasks[t], t in s.waiting) {
      SumDiffersAt(Rank, s, s', t, |s.tasks|);
    }
  }

  /** Every step of every task lowers the measure. */
  lemma StepLowers(s: State, t: nat, c: Choice)
    requires Inv(s) && t < |s.tasks| && Enabled(s, t, c)
    ensures Lower(Step(s, t, c), s)
  {
    OwnWeightFalls(s, t, c);
    StepGuarantees(s, t, c);
    if !OwesNotify(s.tasks[t]) {
      forall u: nat | u < |s.tasks| && u != t ensures u in Step(s, t, c).waiting <==> u in s.waiting {
        OthersKeepWaiting(s, t, c, u);
      }
    }
    OwnFallLowersAll(s, Step(s, t, c), t);
  }

  lemma {:induction false} StopsAfter(run: nat -> State, i: nat)
    requires Inv(run(i))
    ensures exists j: nat :: i <= j && Inv(run(j)) && !Moves(run(j), run(j + 1))
    decreases Sum(Wakes, run(i), |run(i).tasks|), Sum(Snapshots, run(i), |run(i).tasks|),
              Sum(Rank, run(i), |run(i).tasks|)
  {
    if Moves(run(i), run(i + 1)) {
      var t: nat, c: Choice :| t < |run(i).tasks| && Enabled(run(i), t, c) && Step(run(i), t, c) == run(i + 1);
      StepPreserves(run(i), t, c);
      StepLowers(run(i), t, c);
      StopsAfter(run, i + 1);
    }
  }

  /** The measure falls along every run. */
  lemma {:induction false} RunFalls(states: seq<State>, i: nat, j: nat)
    requires Run(states) && i < j < |states|
    ensures Lower(states[j], states[i])
  {
    RunIsSafe(states, j - 1);
    assert Moves(states[j - 1], states[j - 1 + 1]);
    var t: nat, c: Choice :|
      t < |states[j - 1].tasks| && Enabled(states[j - 1], t, c) && Step(states[j - 1], t, c) == states[j];
    StepLowers(states[j - 1], t, c);
    if i < j - 1 {
      RunFalls(states, i, j - 1);
    }
  }

  /** No infinite run exists: whatever the schedule, the requests and evictions come to a stop. */
  lemma EveryRunStops(run: nat -> State)
    requires Init(run(0))
    ensures exists j: nat :: !Moves(run(j), run(j + 1))
  {
    InitEstablishes(run(0));
    StopsAfter(run, 0);
  }

  /** Where a run cannot be continued, every request and every eviction has ended. */
  lemma StoppedMeansAllEnded(states: seq<State>)
    requires Run(states) && !CanMove(states[|states| - 1])
    ensures AllEnded(states[|states| - 1])
  {
    var last := |states| - 1;
    if t: nat :| t < |states[last].tasks| && !Ended(states[last].tasks[t]) {
      NoDeadlock(states, last, t);
    }
  }
}
