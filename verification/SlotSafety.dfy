/** What every reachable state of the slot protocol satisfies. */
module SlotSafety {
  import opened SlotProtocol

  datatype Held = NoSlot | Slot(key: Key)

  /** The slot whose lock a task holds; no task ever holds two. */
  function HeldSlot(task: Task): Held {
    if task.Request? then
      if task.at.WithSlot? || task.at.Generation? || task.at.WithBoth? || task.at.Mark? || task.at.Notify? then
        Slot(task.key)
      else if task.at.UnloadingHeld? then Slot(task.at.held)
      else NoSlot
    else if task.pc.EvictHeld? then Slot(task.pc.held)
    else if task.pc.EvictNotify? then Slot(task.pc.emptied)
    else NoSlot
  }

  /** From marking the slot `Loading` up to taking the mark away again. */
  predicate InLoadingPhase(task: Task) {
    task.Request?
    && (task.at.Load? || task.at.Leaving? || task.at.Mark? || task.at.Unloading? || task.at.UnloadingHeld?)
  }

  predicate OwesNotify(task: Task) {
    task.Request? && task.at.Notify?
  }

  predicate HoldsCold(task: Task) {
    InLoadingPhase(task) || OwesNotify(task) || (task.Request? && (task.at.WithCold? || task.at.WithBoth?))
  }

  /** The slots that may still be `Loaded` while a task is past its snapshot. */
  predicate LoadedOnlyIn(s: State, allowed: set<Key>) {
    forall k | k in s.slots && s.slots[k] == Loaded :: k in allowed
  }

  ghost predicate RequestInv(s: State, t: nat)
    requires t < |s.tasks| && s.tasks[t].Request?
  {
    var k, at := s.tasks[t].key, s.tasks[t].at;
    && (at != Arriving ==> k in s.slots)
    && (InLoadingPhase(s.tasks[t]) ==> SlotAt(s, k) == Loading)
    && at != WithBoth(InnerRegistered) && at != WithCold(InnerDropCold)
    && (at.Unloading? ==> LoadedOnlyIn(s, at.rest) && at.rest <= s.slots.Keys)
    && (at.UnloadingHeld? ==> LoadedOnlyIn(s, at.others) && at.held in at.others && at.others <= s.slots.Keys)
    && (at == Load(LoadingModel) || at == Leaving(true) || at == Mark(Installing) ==> LoadedOnlyIn(s, {}))
    && (at == Generation(Generating) ==> SlotAt(s, k) == Loaded)
  }

  ghost predicate EvictionInv(s: State, t: nat)
    requires t < |s.tasks| && s.tasks[t].Eviction?
  {
    match s.tasks[t].pc
    case Evicting(rest) => rest <= s.slots.Keys
    case EvictHeld(rest, k) => k in rest && rest <= s.slots.Keys
    case EvictNotify(rest, k) => k in rest && rest <= s.slots.Keys && SlotAt(s, k) == Empty
    case _ => true
  }

  ghost predicate TaskInv(s: State, t: nat)
    requires t < |s.tasks|
  {
    && (HeldSlot(s.tasks[t]).Slot? ==> HeldSlot(s.tasks[t]).key in s.locks && s.locks[HeldSlot(s.tasks[t]).key] == t)
    && (HoldsCold(s.tasks[t]) ==> s.cold == Holder(t))
    && (s.tasks[t].Request? ==> RequestInv(s, t))
    && (s.tasks[t].Eviction? ==> EvictionInv(s, t))
  }

  ghost predicate LockInv(s: State) {
    && (forall k | k in s.locks :: s.locks[k] < |s.tasks| && HeldSlot(s.tasks[s.locks[k]]) == Slot(k))
    && (s.cold.Holder? ==> s.cold.task < |s.tasks| && HoldsCold(s.tasks[s.cold.task]))
  }

  /** A slot is `Loading` only while the holder of the cold-load lock is loading it. */
  ghost predicate LoadingIsOwned(s: State) {
    forall k | k in s.slots && s.slots[k] == Loading ::
      s.cold.Holder? && s.cold.task < |s.tasks| && InLoadingPhase(s.tasks[s.cold.task]) && s.tasks[s.cold.task].key == k
  }

  ghost predicate AtMostOneLoaded(s: State) {
    forall k, k' | k in s.slots && k' in s.slots && s.slots[k] == Loaded && s.slots[k'] == Loaded :: k == k'
  }

  /** Task `t` will be woken: its slot is still loading, or its waiters are about to be notified. */
  predicate WillBeWoken(s: State, t: nat) {
    && t < |s.tasks| && s.tasks[t].Request?
    && (s.tasks[t].at == WithSlot(Registered) || s.tasks[t].at == Free(Awaiting))
    && (|| SlotAt(s, s.tasks[t].key) == Loading
        || (&& s.cold.Holder? && s.cold.task < |s.tasks| && OwesNotify(s.tasks[s.cold.task])
            && s.tasks[s.cold.task].key == s.tasks[t].key))
  }

  ghost predicate WaitingInv(s: State) {
    forall t | t in s.waiting :: WillBeWoken(s, t)
  }

  ghost predicate Inv(s: State) {
    && (forall t: nat | t < |s.tasks| :: TaskInv(s, t))
    && LockInv(s)
    && LoadingIsOwned(s)
    && AtMostOneLoaded(s)
    && WaitingInv(s)
  }

  lemma InitEstablishes(s: State)
    requires Init(s)
    ensures Inv(s)
  {
  }

  /** What a step of task `t` may do to the shared state: it touches slots, locks and the
      cold-load lock only as the holder it is, and no other task's program counter. */
  ghost predicate Guarantee(s: State, s': State, t: nat) {
    && t < |s.tasks| && |s'.tasks| == |s.tasks|
    && s'.tasks == s.tasks[t := s'.tasks[t]]
    && GuaranteeSlots(s, s', t)
    && GuaranteeLocks(s, s', t)
    && GuaranteeWaiting(s, s', t)
  }

  ghost predicate GuaranteeSlots(s: State, s': State, t: nat)
    requires t < |s.tasks| && |s'.tasks| == |s.tasks|
  {
    && s.slots.Keys <= s'.slots.Keys
    && forall k | k in s'.slots && s'.slots[k] != SlotAt(s, k) ::
         && HeldSlot(s.tasks[t]) == Slot(k)
         && (s'.slots[k] == Loading ==> InLoadingPhase(s'.tasks[t]) && s'.tasks[t].key == k)
         && (SlotAt(s, k) == Loading ==> OwesNotify(s'.tasks[t]) && s'.tasks[t].key == k)
         && (s'.slots[k] == Loaded ==> s.tasks[t].Request? && s.tasks[t].at == Mark(Installing))
  }

  ghost predicate GuaranteeLocks(s: State, s': State, t: nat)
    requires t < |s.tasks| && |s'.tasks| == |s.tasks|
  {
    && var before, after := HeldSlot(s.tasks[t]), HeldSlot(s'.tasks[t]);
    && (before == after ==> s'.locks == s.locks)
    && (before.Slot? && before != after ==> after.NoSlot? && s'.locks == s.locks - {before.key})
    && (before.NoSlot? && after.Slot? ==> after.key !in s.locks && s'.locks == s.locks[after.key := t])
    && (s.cold != Holder(t) && s.cold.Holder? ==> s'.cold == s.cold)
    && (s'.cold != Holder(t) && s'.cold.Holder? ==> s'.cold == s.cold)
    && (s'.cold == Holder(t) <==> HoldsCold(s'.tasks[t]))
    && (InLoadingPhase(s.tasks[t]) ==> InLoadingPhase(s'.tasks[t]) || OwesNotify(s'.tasks[t]))
    && (InLoadingPhase(s.tasks[t]) ==> s'.tasks[t].key == s.tasks[t].key)
    && (InLoadingPhase(s.tasks[t]) && OwesNotify(s'.tasks[t]) ==> SlotAt(s', s.tasks[t].key) != Loading)
  }

  ghost predicate GuaranteeWaiting(s: State, s': State, t: nat)
    requires t < |s.tasks| && |s'.tasks| == |s.tasks|
  {
    && (forall u | u in s'.waiting && u != t :: u in s.waiting)
    && (t in s'.waiting ==> WillBeWoken(s', t))
    && (forall u | u in s'.waiting && OwesNotify(s.tasks[t]) && u < |s.tasks| && s.tasks[u].Request? ::
          s.tasks[u].key != s.tasks[t].key)
  }

  /** What a single step needs to know of the state it starts in. */
  ghost predicate CanStep(s: State, t: nat, c: Choice) {
    && t < |s.tasks| && Enabled(s, t, c)
    && TaskInv(s, t) && LockInv(s) && LoadingIsOwned(s)
    && (t in s.waiting ==> WillBeWoken(s, t))
  }

  lemma ArriveGuarantees(s: State, s': State, t: nat, c: Choice)
    requires CanStep(s, t, c) && s.tasks[t].Request? && s.tasks[t].at.Arriving? && s' == ArriveStep(s, t)
    ensures Guarantee(s, s', t) && s'.tasks[t].Request? && RequestInv(s', t)
  {
  }

  lemma FreeLockGuarantees(s: State, s': State, t: nat, c: Choice)
    requires CanStep(s, t, c) && s.tasks[t].Request? && s.tasks[t].at.Free? && s' == FreeStep(s, t)
    requires s.tasks[t].at.free.LoopHead? || s.tasks[t].at.free.WantGeneration?
    ensures Guarantee(s, s', t) && s'.tasks[t].Request? && RequestInv(s', t)
  {
  }

  lemma FreeMoveGuarantees(s: State, s': State, t: nat, c: Choice)
    requires CanStep(s, t, c) && s.tasks[t].Request? && s.tasks[t].at.Free? && s' == FreeStep(s, t)
    requires !(s.tasks[t].at.free.LoopHead? || s.tasks[t].at.free.WantGeneration?)
    ensures Guarantee(s, s', t) && s'.tasks[t].Request? && RequestInv(s', t)
  {
  }

  lemma FreeGuarantees(s: State, s': State, t: nat, c: Choice)
    requires CanStep(s, t, c) && s.tasks[t].Request? && s.tasks[t].at.Free? && s' == FreeStep(s, t)
    ensures Guarantee(s, s', t) && s'.tasks[t].Request? && RequestInv(s', t)
  {
    hide Guarantee, RequestInv, FreeStep;
    if s.tasks[t].at.free.LoopHead? || s.tasks[t].at.free.WantGeneration? {
      FreeLockGuarantees(s, s', t, c);
    } else {
      FreeMoveGuarantees(s, s', t, c);
    }
  }

  lemma InspectGuarantees(s: State, s': State, t: nat, c: Choice)
    requires CanStep(s, t, c) && s.tasks[t].Request? && s.tasks[t].at.WithSlot? && s' == SlotStep(s, t)
    requires s.tasks[t].at.slot.Inspecting?
    ensures Guarantee(s, s', t) && s'.tasks[t].Request? && RequestInv(s', t)
  {
  }

  lemma SlotDropGuarantees(s: State, s': State, t: nat, c: Choice)
    requires CanStep(s, t, c) && s.tasks[t].Request? && s.tasks[t].at.WithSlot? && s' == SlotStep(s, t)
    requires !(s.tasks[t].at.slot.Inspecting?)
    ensures Guarantee(s, s', t) && s'.tasks[t].Request? && RequestInv(s', t)
  {
  }

  lemma SlotGuarantees(s: State, s': State, t: nat, c: Choice)
    requires CanStep(s, t, c) && s.tasks[t].Request? && s.tasks[t].at.WithSlot? && s' == SlotStep(s, t)
    ensures Guarantee(s, s', t) && s'.tasks[t].Request? && RequestInv(s', t)
  {
    hide Guarantee, RequestInv, SlotStep;
    if s.tasks[t].at.slot.Inspecting? {
      InspectGuarantees(s, s', t, c);
    } else {
      SlotDropGuarantees(s, s', t, c);
    }
  }

  lemma GenerationGuarantees(s: State, s': State, t: nat, c: Choice)
    requires CanStep(s, t, c) && s.tasks[t].Request? && s.tasks[t].at.Generation? && s' == GenerationStep(s, t)
    ensures Guarantee(s, s', t) && s'.tasks[t].Request? && RequestInv(s', t)
  {
  }

  lemma ColdGuarantees(s: State, s': State, t: nat, c: Choice)
    requires CanStep(s, t, c) && s.tasks[t].Request? && s.tasks[t].at.WithCold? && s' == ColdStep(s, t)
    ensures Guarantee(s, s', t) && s'.tasks[t].Request? && RequestInv(s', t)
  {
  }

  lemma BothGuarantees(s: State, s': State, t: nat, c: Choice)
    requires CanStep(s, t, c) && s.tasks[t].Request? && s.tasks[t].at.WithBoth? && s' == BothStep(s, t)
    ensures Guarantee(s, s', t) && s'.tasks[t].Request? && RequestInv(s', t)
  {
  }

  lemma SnapshotGuarantees(s: State, s': State, t: nat, c: Choice)
    requires CanStep(s, t, c) && s.tasks[t].Request? && s.tasks[t].at.Load? && s' == LoadStep(s, t, c)
    requires s.tasks[t].at.load.Snapshotting?
    ensures Guarantee(s, s', t) && s'.tasks[t].Request? && RequestInv(s', t)
  {
  }

  lemma LoadMoveGuarantees(s: State, s': State, t: nat, c: Choice)
    requires CanStep(s, t, c) && s.tasks[t].Request? && s.tasks[t].at.Load? && s' == LoadStep(s, t, c)
    requires !(s.tasks[t].at.load.Snapshotting?)
    ensures Guarantee(s, s', t) && s'.tasks[t].Request? && RequestInv(s', t)
  {
  }

  lemma LoadGuarantees(s: State, s': State, t: nat, c: Choice)
    requires CanStep(s, t, c) && s.tasks[t].Request? && s.tasks[t].at.Load? && s' == LoadStep(s, t, c)
    ensures Guarantee(s, s', t) && s'.tasks[t].Request? && RequestInv(s', t)
  {
    hide Guarantee, RequestInv, LoadStep;
    if s.tasks[t].at.load.Snapshotting? {
      SnapshotGuarantees(s, s', t, c);
    } else {
      LoadMoveGuarantees(s, s', t, c);
    }
  }

  lemma LeaveGuarantees(s: State, s': State, t: nat, c: Choice)
    requires CanStep(s, t, c) && s.tasks[t].Request? && s.tasks[t].at.Leaving? && s' == LeaveStep(s, t)
    ensures Guarantee(s, s', t) && s'.tasks[t].Request? && RequestInv(s', t)
  {
  }

  lemma MarkGuarantees(s: State, s': State, t: nat, c: Choice)
    requires CanStep(s, t, c) && s.tasks[t].Request? && s.tasks[t].at.Mark? && s' == MarkStep(s, t)
    ensures Guarantee(s, s', t) && s'.tasks[t].Request? && RequestInv(s', t)
  {
  }

  lemma UnloadGuarantees(s: State, s': State, t: nat, c: Choice)
    requires CanStep(s, t, c) && s.tasks[t].Request? && s.tasks[t].at.Unloading? && s' == UnloadStep(s, t, c)
    ensures Guarantee(s, s', t) && s'.tasks[t].Request? && RequestInv(s', t)
  {
  }

  lemma EmptyOtherGuarantees(s: State, s': State, t: nat, c: Choice)
    requires CanStep(s, t, c) && s.tasks[t].Request? && s.tasks[t].at.UnloadingHeld? && s' == EmptyOtherStep(s, t)
    ensures Guarantee(s, s', t) && s'.tasks[t].Request? && RequestInv(s', t)
  {
  }

  lemma NotifyGuarantees(s: State, s': State, t: nat, c: Choice)
    requires CanStep(s, t, c) && s.tasks[t].Request? && s.tasks[t].at.Notify? && s' == NotifyStep(s, t)
    ensures Guarantee(s, s', t) && s'.tasks[t].Request? && RequestInv(s', t)
  {
  }

  lemma EvictGuarantees(s: State, s': State, t: nat, c: Choice)
    requires CanStep(s, t, c) && s.tasks[t].Eviction? && s' == EvictStep(s, t, c)
    ensures Guarantee(s, s', t) && s'.tasks[t].Eviction? && EvictionInv(s', t)
  {
  }

  lemma OtherTaskKept(s: State, s': State, t: nat, u: nat)
    requires Inv(s) && Guarantee(s, s', t) && u < |s.tasks| && u != t
    ensures TaskInv(s', u)
  {
    assert TaskInv(s, u) && TaskInv(s, t);
  }

  lemma SharedKept(s: State, s': State, t: nat)
    requires Inv(s) && Guarantee(s, s', t)
    ensures LockInv(s') && LoadingIsOwned(s')
  {
    assert TaskInv(s, t);
  }

  lemma LoadedKept(s: State, s': State, t: nat)
    requires Inv(s) && Guarantee(s, s', t)
    ensures AtMostOneLoaded(s')
  {
    assert TaskInv(s, t);
  }

  lemma WaitingKept(s: State, s': State, t: nat)
    requires Inv(s) && Guarantee(s, s', t)
    ensures WaitingInv(s')
  {
    assert TaskInv(s, t);
  }

  lemma OwnTaskKept(s: State, s': State, t: nat)
    requires Guarantee(s, s', t) && TaskInv(s, t)
    requires s'.tasks[t].Request? ==> RequestInv(s', t)
    requires s'.tasks[t].Eviction? ==> EvictionInv(s', t)
    ensures TaskInv(s', t)
  {
  }

  lemma StepGuarantees(s: State, t: nat, c: Choice)
    requires Inv(s) && t < |s.tasks| && Enabled(s, t, c)
    ensures Guarantee(s, Step(s, t, c), t) && TaskInv(Step(s, t, c), t)
  {
    assert TaskInv(s, t);
    var s' := Step(s, t, c);
    if s.tasks[t].Eviction? {
      EvictGuarantees(s, s', t, c);
    } else {
      match s.tasks[t].at
      case Arriving => ArriveGuarantees(s, s', t, c);
      case Free(_) => FreeGuarantees(s, s', t, c);
      case WithSlot(_) => SlotGuarantees(s, s', t, c);
      case Generation(_) => GenerationGuarantees(s, s', t, c);
      case WithCold(_) => ColdGuarantees(s, s', t, c);
      case WithBoth(_) => BothGuarantees(s, s', t, c);
      case Load(_) => LoadGuarantees(s, s', t, c);
      case Leaving(_) => LeaveGuarantees(s, s', t, c);
      case Mark(_) => MarkGuarantees(s, s', t, c);
      case Unloading(_) => UnloadGuarantees(s, s', t, c);
      case UnloadingHeld(_, _) => EmptyOtherGuarantees(s, s', t, c);
      case Notify(_) => NotifyGuarantees(s, s', t, c);
    }
    OwnTaskKept(s, s', t);
  }

  lemma StepPreserves(s: State, t: nat, c: Choice)
    requires Inv(s) && t < |s.tasks| && Enabled(s, t, c)
    ensures Inv(Step(s, t, c))
  {
    var s' := Step(s, t, c);
    StepGuarantees(s, t, c);
    forall u: nat | u < |s'.tasks| ensures TaskInv(s', u) {
      if u != t { OtherTaskKept(s, s', t, u); }
    }
    SharedKept(s, s', t);
    LoadedKept(s, s', t);
    WaitingKept(s, s', t);
  }

  /** Every state of every run satisfies the invariant. */
  lemma {:induction false} RunIsSafe(states: seq<State>, i: nat)
    requires Run(states) && i < |states|
    ensures Inv(states[i])
  {
    if i == 0 {
      InitEstablishes(states[0]);
    } else {
      RunIsSafe(states, i - 1);
      assert Moves(states[i - 1], states[i - 1 + 1]);
      var t: nat, c: Choice :|
        t < |states[i - 1].tasks| && Enabled(states[i - 1], t, c) && Step(states[i - 1], t, c) == states[i];
      StepPreserves(states[i - 1], t, c);
    }
  }

  /** However requests and evictions interleave, at most one model is in memory, and a
      generation works on a slot that is loaded and whose lock it holds. */
  lemma AtMostOneModelInMemory(states: seq<State>, i: nat)
    requires Run(states) && i < |states|
    ensures AtMostOneLoaded(states[i])
    ensures forall t: nat | t < |states[i].tasks| && states[i].tasks[t].Request?
                            && states[i].tasks[t].at == Generation(Generating) ::
              var k := states[i].tasks[t].key;
              SlotAt(states[i], k) == Loaded && k in states[i].locks && states[i].locks[k] == t
  {
    RunIsSafe(states, i);
    forall t: nat | t < |states[i].tasks| && states[i].tasks[t].Request?
                    && states[i].tasks[t].at == Generation(Generating)
      ensures var k := states[i].tasks[t].key;
              SlotAt(states[i], k) == Loaded && k in states[i].locks && states[i].locks[k] == t
    {
      assert TaskInv(states[i], t);
    }
  }

  /** No step of another task touches the slot a generation runs on. */
  lemma GenerationIsUndisturbed(states: seq<State>, i: nat, g: nat)
    requires Run(states) && i + 1 < |states| && g < |states[i].tasks| && states[i].tasks[g].Request?
    requires states[i].tasks[g].at == Generation(Generating)
    ensures SlotAt(states[i + 1], states[i].tasks[g].key) == Loaded
    ensures g < |states[i + 1].tasks| && states[i + 1].tasks[g].Request?
    ensures states[i + 1].tasks[g].at in {Generation(Generating), Free(Finished(Generated))}
  {
    RunIsSafe(states, i);
    var s := states[i];
    assert Moves(s, states[i + 1]);
    var t: nat, c: Choice :| t < |s.tasks| && Enabled(s, t, c) && Step(s, t, c) == states[i + 1];
    StepGuarantees(s, t, c);
    assert TaskInv(s, g) && TaskInv(s, t);
  }

  /** A slot is `Loading` exactly while one task is in the load for it, holding the cold-load lock. */
  lemma LoadingExactlyWhileOwned(states: seq<State>, i: nat, k: Key)
    requires Run(states) && i < |states|
    ensures SlotAt(states[i], k) == Loading <==>
            exists t: nat :: t < |states[i].tasks| && InLoadingPhase(states[i].tasks[t]) && states[i].tasks[t].key == k
    ensures forall t: nat, u: nat | t < |states[i].tasks| && u < |states[i].tasks|
              && HoldsCold(states[i].tasks[t]) && HoldsCold(states[i].tasks[u]) :: t == u
  {
    RunIsSafe(states, i);
    var s := states[i];
    if SlotAt(s, k) == Loading {
      assert s.cold.Holder? && InLoadingPhase(s.tasks[s.cold.task]);
    }
    forall t: nat | t < |s.tasks| && HoldsCold(s.tasks[t])
      ensures s.cold == Holder(t) && (InLoadingPhase(s.tasks[t]) ==> SlotAt(s, s.tasks[t].key) == Loading)
    {
      assert TaskInv(s, t);
    }
  }

  /** The second look at the slot never finds it `Loading`: that arm of the source is dead code. */
  lemma InnerLoadingArmIsDead(states: seq<State>, i: nat, t: nat)
    requires Run(states) && i < |states| && t < |states[i].tasks| && states[i].tasks[t].Request?
    ensures states[i].tasks[t].at != WithBoth(InnerRegistered) && states[i].tasks[t].at != WithCold(InnerDropCold)
    ensures states[i].tasks[t].at == WithBoth(Rechecking) ==> SlotAt(states[i], states[i].tasks[t].key) != Loading
  {
    RunIsSafe(states, i);
    assert TaskInv(states[i], t);
  }
}
