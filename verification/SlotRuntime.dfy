/** The runtime as the program is written: its loop and its sections under locks, updating the
    slots in place.  Between any two of its steps every other task may run; while it waits, one
    that can run does.  Each step is a step of the protocol, so what the protocol guarantees holds
    for the program, and with the protocol's measure every loop ends. */
module SlotRuntime {
  import opened SlotProtocol
  import opened SlotSafety
  import opened SlotProgress

  /** Task t can take this step now. */
  predicate Leads(s: State, t: nat, c: Choice, s': State) {
    t < |s.tasks| && Enabled(s, t, c) && Step(s, t, c) == s'
  }

  /** The program points a task comes through in a run, each once as long as it stays there. */
  ghost function Points(states: seq<State>, t: nat): seq<Task> {
    if states == [] then []
    else
      var before, s := Points(states[..|states| - 1], t), states[|states| - 1];
      if t < |s.tasks| && (before == [] || before[|before| - 1] != s.tasks[t]) then before + [s.tasks[t]] else before
  }

  lemma PointsSnoc(states: seq<State>, s: State, t: nat)
    ensures var before := Points(states, t);
            Points(states + [s], t) ==
            if t < |s.tasks| && (before == [] || before[|before| - 1] != s.tasks[t]) then
              before + [s.tasks[t]]
            else before
  {
    assert (states + [s])[..|states|] == states;
  }

  lemma LastPoint(states: seq<State>, t: nat)
    requires states != [] && t < |states[|states| - 1].tasks|
    ensures Points(states, t) != [] && Points(states, t)[|Points(states, t)| - 1] == states[|states| - 1].tasks[t]
  {
  }

  lemma RunSnoc(states: seq<State>, t: nat, c: Choice, s: State)
    requires Run(states) && Leads(states[|states| - 1], t, c, s)
    ensures Run(states + [s])
  {
    var all := states + [s];
    forall i | 0 <= i < |all| - 1
      ensures Moves(all[i], all[i + 1])
    {
      assert i < |states| - 1 ==> Moves(states[i], states[i + 1]);
    }
  }

  /** A step of the task itself: the run goes on by it, and the task comes to its next point. */
  lemma Took(states: seq<State>, t: nat, c: Choice, s: State)
    requires Run(states) && Inv(states[|states| - 1]) && Leads(states[|states| - 1], t, c, s)
    requires t < |s.tasks| && s.tasks[t] != states[|states| - 1].tasks[t]
    ensures states != [] && Run(states + [s]) && Inv(s) && Points(states + [s], t) == Points(states, t) + [s.tasks[t]]
  {
    StepPreserves(states[|states| - 1], t, c);
    RunSnoc(states, t, c, s);
    LastPoint(states, t);
    PointsSnoc(states, s, t);
  }

  /** A step of another task. */
  lemma OtherTook(states: seq<State>, t: nat, u: nat, c: Choice)
    requires Run(states) && Inv(states[|states| - 1]) && t < |states[|states| - 1].tasks| && u != t
    requires u < |states[|states| - 1].tasks| && Enabled(states[|states| - 1], u, c)
    ensures var s, s' := states[|states| - 1], Step(states[|states| - 1], u, c);
            Run(states + [s']) && Inv(s') && t < |s'.tasks| && s'.tasks[t] == s.tasks[t]
            && Points(states + [s'], t) == Points(states, t)
            && (HeldSlot(s.tasks[t]).Slot? ==>
                  SlotAt(s', HeldSlot(s.tasks[t]).key) == SlotAt(s, HeldSlot(s.tasks[t]).key))
  {
    var s, s' := states[|states| - 1], Step(states[|states| - 1], u, c);
    OthersStep(s, t, u, c);
    RunSnoc(states, u, c, s');
    LastPoint(states, t);
    PointsSnoc(states, s', t);
  }

  /** The run went on, and the task came through these points in it, in this order. */
  ghost predicate Went(before: seq<State>, after: seq<State>, t: nat, points: seq<Task>) {
    before <= after && Points(after, t) == Points(before, t) + points
  }

  lemma WentOn(a: seq<State>, b: seq<State>, c: seq<State>, t: nat, p: seq<Task>, q: seq<Task>)
    requires Went(a, b, t, p) && Went(b, c, t, q)
    ensures Went(a, c, t, p + q)
  {
  }

  /** Between two moments of the run, the slot was seen not loaded. */
  ghost predicate SeenNotLoaded(states: seq<State>, from: nat, k: Key) {
    exists i :: from <= i < |states| && SlotAt(states[i], k) != Loaded
  }

  /** Between two moments of the run, the task was at this point and the slot was loaded under its lock. */
  ghost predicate SeenLoaded(states: seq<State>, from: nat, t: nat, k: Key, pc: RequestPc) {
    exists i :: from <= i < |states| && HoldsLoaded(states[i], t, k, pc)
  }

  /** The same of a slot that was not loaded. */
  ghost predicate SeenUnloaded(states: seq<State>, from: nat, t: nat, k: Key, pc: RequestPc) {
    exists i :: from <= i < |states| && HoldsUnloaded(states[i], t, k, pc)
  }

  predicate HoldsUnloaded(s: State, t: nat, k: Key, pc: RequestPc) {
    t < |s.tasks| && s.tasks[t] == Request(k, pc) && SlotAt(s, k) != Loaded && k in s.locks && s.locks[k] == t
  }

  predicate HoldsLoaded(s: State, t: nat, k: Key, pc: RequestPc) {
    t < |s.tasks| && s.tasks[t] == Request(k, pc) && SlotAt(s, k) == Loaded && k in s.locks && s.locks[k] == t
  }

  /** Between two moments of the run, the task was about to load, and no slot was loaded. */
  ghost predicate SeenMakingRoom(states: seq<State>, from: nat, t: nat, k: Key) {
    exists i :: from <= i < |states| && HasRoom(states[i], t, k)
  }

  ghost predicate HasRoom(s: State, t: nat, k: Key) {
    t < |s.tasks| && s.tasks[t] == Request(k, Load(LoadingModel)) && LoadedOnlyIn(s, {})
  }

  function Any(k: Key): Choice {
    Choice(true, k)
  }

  /** How a round of the loop ends. */
  datatype Round = Ready | LoadAgain | Failed

  /** What is outside the runtime: a channel that may be closed, a backend that may fail to load. */
  class Surroundings {
    ghost var answers: seq<bool>    // whether each send and each load succeeded, oldest first

    method Ask() returns (ok: bool)
      modifies this
      ensures answers == old(answers) + [ok]
    {
      ok := *;
      answers := answers + [ok];
    }
  }

  /** The answers to a load that succeeded, and to one that did not. */
  predicate SaidYes(answers: seq<bool>) {
    answers == [true, true]
  }

  predicate SaidNo(answers: seq<bool>) {
    answers == [false] || answers == [true, false]
  }

  class InferenceRuntime {
    var slots: map<Key, SlotState>
    var locks: map<Key, nat>
    var cold: Holder
    var waiting: set<nat>
    var tasks: seq<Task>
    ghost var history: seq<State>    // every state so far, from an initial one to this one
    const surroundings: Surroundings

    function Now(): State
      reads this
    {
      State(slots, locks, cold, waiting, tasks)
    }

    /** The states so far are a run of the protocol, and this is its last state. */
    ghost predicate Valid()
      reads this
    {
      history != [] && Run(history) && history[|history| - 1] == Now() && Inv(Now())
    }

    predicate At(t: nat, k: Key, pc: RequestPc)
      reads this
    {
      t < |tasks| && tasks[t] == Request(k, pc)
    }

    constructor (tasks: seq<Task>, surroundings: Surroundings)
      requires Init(State(map[], map[], Nobody, {}, tasks))
      ensures Valid() && Now() == State(map[], map[], Nobody, {}, tasks) && history == [Now()]
    {
      slots, locks, cold, waiting := map[], map[], Nobody, {};
      this.tasks := tasks;
      this.surroundings := surroundings;
      history := [State(map[], map[], Nobody, {}, tasks)];
      new;
      InitEstablishes(Now());
    }

    /** Any other tasks take any number of steps.  They leave this task where it is, and the slot
        whose lock it holds as it is. */
    method OthersRun(t: nat)
      requires Valid() && t < |tasks|
      modifies this
      ensures Valid() && t < |tasks| && tasks[t] == old(tasks[t])
      ensures Went(old(history), history, t, [])
      ensures HeldSlot(tasks[t]).Slot? ==>
                SlotAt(Now(), HeldSlot(tasks[t]).key) == SlotAt(old(Now()), HeldSlot(tasks[t]).key)
    {
      hide Inv, Run, Points;
      var steps: int := *;
      while steps > 0
        invariant Valid() && t < |tasks| && tasks[t] == old(tasks[t])
        invariant Went(old(history), history, t, [])
        invariant HeldSlot(tasks[t]).Slot? ==>
                    SlotAt(Now(), HeldSlot(tasks[t]).key) == SlotAt(old(Now()), HeldSlot(tasks[t]).key)
      {
        var u: int, c: Choice := *, *;
        if 0 <= u < |tasks| && u != t && Enabled(Now(), u, c) {
          OtherTook(history, t, u, c);
          var s := Step(Now(), u, c);
          slots, locks, cold, waiting, tasks := s.slots, s.locks, s.cold, s.waiting, s.tasks;
          history := history + [s];
        }
        steps := steps - 1;
      }
    }

    /** One step of the task itself, already made: it is recorded, and then others may run. */
    method TookStep(t: nat, k: Key, ghost c: Choice, pc: RequestPc, ghost before: State)
      requires history != [] && Run(history) && history[|history| - 1] == before && Inv(before)
      requires Leads(before, t, c, Now()) && At(t, k, pc) && before.tasks[t] != tasks[t]
      modifies this
      ensures Valid() && At(t, k, pc) && Went(old(history), history, t, [Request(k, pc)])
      ensures |old(history)| < |history| && history[|old(history)|] == old(Now())
      ensures HeldSlot(Request(k, pc)) == Slot(k) ==> SlotAt(Now(), k) == SlotAt(old(Now()), k)
    {
      hide Inv, Run, Points, Leads;
      Took(history, t, c, Now());
      history := history + [Now()];
      OthersRun(t);
    }

    /** The task waits: another one that can step does, and then any may. */
    method OthersGoOn(t: nat)
      requires Valid() && t < |tasks| && HeldSlot(tasks[t]) == NoSlot
      requires locks != map[] || (cold.Holder? && !HoldsCold(tasks[t]))
      modifies this
      ensures Valid() && t < |tasks| && tasks[t] == old(tasks[t])
      ensures Went(old(history), history, t, []) && Lower(Now(), old(Now()))
    {
      hide Inv, Run, Points, Lower;
      OthersCanStep(Now(), t);
      var u: nat, c: Choice :| u != t && u < |tasks| && Enabled(Now(), u, c);
      OtherTook(history, t, u, c);
      var s := Step(Now(), u, c);
      slots, locks, cold, waiting, tasks := s.slots, s.locks, s.cold, s.waiting, s.tasks;
      history := history + [s];
      OthersRun(t);
      RunFalls(history, |old(history)| - 1, |history| - 1);
    }

    /** Waits for the lock of a slot. */
    method LockSlot(t: nat, k: Key, held: Key, pc: RequestPc)
      requires Valid() && t < |tasks| && tasks[t].Request? && tasks[t].key == k && tasks[t].at != pc
      requires HeldSlot(tasks[t]) == NoSlot
      requires forall s: State :: t < |s.tasks| && s.tasks[t] == tasks[t] && held !in s.locks ==>
                 Leads(s, t, Choice(true, held), Lock(s, t, held, pc))
      requires HeldSlot(Request(k, pc)) == Slot(held)
      modifies this
      ensures Valid() && At(t, k, pc) && Went(old(history), history, t, [Request(k, pc)])
    {
      hide Inv, Run, Points, Wakes, Snapshots, Rank;
      while held in locks
        invariant Valid() && t < |tasks| && tasks[t] == old(tasks[t])
        invariant Went(old(history), history, t, [])
        decreases Sum(Wakes, Now(), |tasks|), Sum(Snapshots, Now(), |tasks|), Sum(Rank, Now(), |tasks|)
      {
        OthersGoOn(t);
      }
      ghost var before := Now();
      locks := locks[held := t];
      tasks := tasks[t := Request(k, pc)];
      TookStep(t, k, Choice(true, held), pc, before);
    }

    method UnlockSlot(t: nat, k: Key, held: Key, pc: RequestPc)
      requires Valid() && t < |tasks| && tasks[t].Request? && tasks[t].key == k && tasks[t].at != pc
      requires Leads(Now(), t, Any(k), Goto(Unlock(Now(), held), t, pc))
      modifies this
      ensures Valid() && At(t, k, pc) && Went(old(history), history, t, [Request(k, pc)])
    {
      hide Inv, Run, Points;
      ghost var before := Now();
      locks := locks - {held};
      tasks := tasks[t := Request(k, pc)];
      TookStep(t, k, Any(k), pc, before);
    }

    /** The request goes on without touching anything shared. */
    method Continue(t: nat, k: Key, ghost c: Choice, pc: RequestPc)
      requires Valid() && t < |tasks| && tasks[t].Request? && tasks[t].key == k && tasks[t].at != pc
      requires Leads(Now(), t, c, Goto(Now(), t, pc))
      modifies this
      ensures Valid() && At(t, k, pc) && Went(old(history), history, t, [Request(k, pc)])
      ensures HeldSlot(Request(k, pc)) == Slot(k) ==> SlotAt(Now(), k) == SlotAt(old(Now()), k)
    {
      hide Inv, Run, Points;
      ghost var before := Now();
      tasks := tasks[t := Request(k, pc)];
      TookStep(t, k, c, pc, before);
    }

    method SetSlot(t: nat, k: Key, state: SlotState, pc: RequestPc)
      requires Valid() && t < |tasks| && tasks[t].Request? && tasks[t].key == k && tasks[t].at != pc
      requires Leads(Now(), t, Any(k), Goto(SlotProtocol.SetSlot(Now(), k, state), t, pc))
      requires HeldSlot(Request(k, pc)) == Slot(k)
      modifies this
      ensures Valid() && At(t, k, pc) && SlotAt(Now(), k) == state
      ensures Went(old(history), history, t, [Request(k, pc)])
    {
      hide Inv, Run, Points;
      ghost var before := Now();
      slots := slots[k := state];
      tasks := tasks[t := Request(k, pc)];
      TookStep(t, k, Any(k), pc, before);
    }

    /** `notified()`: from here on a wake-up is not missed. */
    method Register(t: nat, k: Key, pc: RequestPc)
      requires Valid() && t < |tasks| && tasks[t].Request? && tasks[t].key == k && tasks[t].at != pc
      requires Leads(Now(), t, Any(k), Goto(Now().(waiting := waiting + {t}), t, pc))
      modifies this
      ensures Valid() && At(t, k, pc) && Went(old(history), history, t, [Request(k, pc)])
    {
      hide Inv, Run, Points;
      ghost var before := Now();
      waiting := waiting + {t};
      tasks := tasks[t := Request(k, pc)];
      TookStep(t, k, Any(k), pc, before);
    }

    method NotifyWaiters(t: nat, k: Key, pc: RequestPc)
      requires Valid() && t < |tasks| && tasks[t].Request? && tasks[t].key == k && tasks[t].at != pc
      requires Leads(Now(), t, Any(k), Goto(SlotProtocol.NotifyWaiters(Now(), k), t, pc))
      modifies this
      ensures Valid() && At(t, k, pc) && Went(old(history), history, t, [Request(k, pc)])
    {
      hide Inv, Run, Points;
      ghost var before := Now();
      waiting := set u | u in waiting && !(u < |tasks| && tasks[u].Request? && tasks[u].key == k);
      tasks := tasks[t := Request(k, pc)];
      TookStep(t, k, Any(k), pc, before);
    }

    method LockCold(t: nat, k: Key)
      requires Valid() && At(t, k, Free(WantCold))
      modifies this
      ensures Valid() && At(t, k, WithCold(WantSlotUnderCold))
      ensures Went(old(history), history, t, [Request(k, WithCold(WantSlotUnderCold))])
    {
      hide Inv, Run, Points, Wakes, Snapshots, Rank;
      while cold != Nobody
        invariant Valid() && At(t, k, Free(WantCold))
        invariant Went(old(history), history, t, [])
        decreases Sum(Wakes, Now(), |tasks|), Sum(Snapshots, Now(), |tasks|), Sum(Rank, Now(), |tasks|)
      {
        OthersGoOn(t);
      }
      ghost var before := Now();
      assert Enabled(before, t, Any(k));
      cold := Holder(t);
      tasks := tasks[t := Request(k, WithCold(WantSlotUnderCold))];
      TookStep(t, k, Any(k), WithCold(WantSlotUnderCold), before);
    }

    method UnlockCold(t: nat, k: Key, pc: RequestPc)
      requires Valid() && t < |tasks| && tasks[t].Request? && tasks[t].key == k && tasks[t].at != pc
      requires Leads(Now(), t, Any(k), Goto(Now().(cold := Nobody), t, pc))
      modifies this
      ensures Valid() && At(t, k, pc) && Went(old(history), history, t, [Request(k, pc)])
    {
      hide Inv, Run, Points;
      ghost var before := Now();
      cold := Nobody;
      tasks := tasks[t := Request(k, pc)];
      TookStep(t, k, Any(k), pc, before);
    }

    /** In the task's own step a missing slot is created empty, an existing one kept, and no other
        slot touched. */
    method GetOrCreateModelSlot(t: nat, k: Key)
      requires Valid() && At(t, k, Arriving)
      modifies this
      ensures Valid() && At(t, k, Free(LoopHead)) && Went(old(history), history, t, [Request(k, Free(LoopHead))])
      ensures |old(history)| < |history|
      ensures history[|old(history)|].slots == if k in old(slots) then old(slots) else old(slots)[k := Empty]
    {
      hide Inv, Run, Points;
      ghost var before := Now();
      if k !in slots {
        slots := slots[k := Empty];
      }
      tasks := tasks[t := Request(k, Free(LoopHead))];
      TookStep(t, k, Any(k), Free(LoopHead), before);
    }

    /** Sleeps until the slot's waiters are woken. */
    method AwaitNotification(t: nat, k: Key)
      requires Valid() && At(t, k, Free(Awaiting))
      modifies this
      ensures Valid() && At(t, k, Free(LoopHead)) && Went(old(history), history, t, [Request(k, Free(LoopHead))])
      ensures exists i :: |old(history)| - 1 <= i < |history| && Woken(history[i], t, k)
    {
      hide Inv, Run, Points, Wakes, Snapshots, Rank;
      while t in waiting
        invariant Valid() && At(t, k, Free(Awaiting))
        invariant Went(old(history), history, t, [])
        decreases Sum(Wakes, Now(), |tasks|), Sum(Snapshots, Now(), |tasks|), Sum(Rank, Now(), |tasks|)
      {
        SomebodyLoads(Now(), t);
        OthersGoOn(t);
      }
      ghost var i := |history| - 1;
      Continue(t, k, Any(k), Free(LoopHead));
      assert Woken(history[i], t, k);
    }

    /** Empties every other loaded slot of the snapshot. */
    method UnloadOthers(t: nat, k: Key)
      requires Valid() && At(t, k, Load(Snapshotting))
      modifies this
      ensures Valid() && At(t, k, Load(LoadingModel)) && old(history) <= history && LoadedOnlyIn(Now(), {})
    {
      hide Inv, Run, Points, Went;
      var rest := OtherSlots(slots, k);
      Continue(t, k, Any(k), Unloading(rest));
      WentIsLonger(old(history), history, t, [Request(k, Unloading(rest))]);
      while rest != {}
        invariant Valid() && At(t, k, Unloading(rest)) && old(history) <= history
        decreases |rest|
      {
        var other :| other in rest;
        ghost var before := history;
        LockSlot(t, k, other, UnloadingHeld(rest, other));
        WentIsLonger(before, history, t, [Request(k, UnloadingHeld(rest, other))]);
        EmptyOther(t, k, rest, other);
        rest := rest - {other};
      }
      ghost var before := history;
      Continue(t, k, Any(k), Load(LoadingModel));
      WentIsLonger(before, history, t, [Request(k, Load(LoadingModel))]);
      Knows(Now(), t);
    }

    method EmptyOther(t: nat, k: Key, rest: set<Key>, other: Key)
      requires Valid() && At(t, k, UnloadingHeld(rest, other)) && other in rest
      modifies this
      ensures Valid() && At(t, k, Unloading(rest - {other})) && old(history) <= history
    {
      hide Inv, Run, Points;
      Knows(Now(), t);
      ghost var before := Now();
      if slots[other] == Loaded {
        slots := slots[other := Empty];
      }
      locks := locks - {other};
      tasks := tasks[t := Request(k, Unloading(rest - {other}))];
      TookStep(t, k, Any(k), Unloading(rest - {other}), before);
    }

    /** Takes the mark away again, with a model or without, and wakes the waiters: the points of the
        protocol in their order, so the slot is set, then waiters woken, then the locks dropped. */
    method EndLoad(t: nat, k: Key, success: bool)
      requires Valid() && At(t, k, Leaving(success))
      modifies this
      ensures Valid() && At(t, k, Free(if success then WantGeneration else Finished(LoadFailed)))
      ensures Went(old(history), history, t, if success then InstallPoints(k) else TakeBackPoints(k))
      ensures success ==> SeenLoaded(history, |old(history)|, t, k, Notify(true))
    {
      hide Inv, Run, Points, Went;
      ghost var first := Mark(if success then Installing else Failing);
      LockSlot(t, k, k, Mark(if success then Installing else Failing));
      ghost var locked := history;
      WentIsLonger(old(history), locked, t, [Request(k, first)]);
      if success {
        Install(t, k);
        WentOn(old(history), locked, history, t, [Request(k, first)], InstallPoints(k)[1..]);
        SeenLater(history, |locked|, |old(history)|, t, k, Notify(true));
        assert [Request(k, first)] + InstallPoints(k)[1..] == InstallPoints(k);
      } else {
        TakeBack(t, k);
        WentOn(old(history), locked, history, t, [Request(k, first)], TakeBackPoints(k)[1..]);
        assert [Request(k, first)] + TakeBackPoints(k)[1..] == TakeBackPoints(k);
      }
    }

    method Install(t: nat, k: Key)
      requires Valid() && At(t, k, Mark(Installing))
      modifies this
      ensures Valid() && At(t, k, Free(WantGeneration)) && Went(old(history), history, t, InstallPoints(k)[1..])
      ensures SeenLoaded(history, |old(history)|, t, k, Notify(true))
    {
      hide Inv, Run, Points, Went;
      var start := history;
      SetSlot(t, k, Loaded, Notify(true));
      ghost var set_ := history;
      WentIsLonger(start, set_, t, [Request(k, Notify(true))]);
      Knows(Now(), t);
      assert HoldsLoaded(history[|history| - 1], t, k, Notify(true));
      NotifyWaiters(t, k, WithBoth(InstallDropCold));
      ghost var woken := history;
      UnlockCold(t, k, WithSlot(InstallDropSlot));
      ghost var warm := history;
      UnlockSlot(t, k, k, Free(WantGeneration));
      FourPoints(start, set_, woken, warm, history, t, Request(k, Notify(true)), Request(k, WithBoth(InstallDropCold)),
                 Request(k, WithSlot(InstallDropSlot)), Request(k, Free(WantGeneration)));
      WentIsLonger(set_, woken, t, [Request(k, WithBoth(InstallDropCold))]);
      WentIsLonger(woken, warm, t, [Request(k, WithSlot(InstallDropSlot))]);
      WentIsLonger(warm, history, t, [Request(k, Free(WantGeneration))]);
      assert HoldsLoaded(history[|set_| - 1], t, k, Notify(true));
    }

    method TakeBack(t: nat, k: Key)
      requires Valid() && At(t, k, Mark(Failing))
      modifies this
      ensures Valid() && At(t, k, Free(Finished(LoadFailed))) && Went(old(history), history, t, TakeBackPoints(k)[1..])
    {
      hide Inv, Run, Points, Went;
      var start := history;
      SetSlot(t, k, Empty, Notify(false));
      ghost var set_ := history;
      NotifyWaiters(t, k, WithBoth(FailDropSlot));
      ghost var woken := history;
      UnlockSlot(t, k, k, WithCold(FailDropCold));
      ghost var open := history;
      UnlockCold(t, k, Free(Finished(LoadFailed)));
      FourPoints(start, set_, woken, open, history, t, Request(k, Notify(false)), Request(k, WithBoth(FailDropSlot)),
                 Request(k, WithCold(FailDropCold)), Request(k, Free(Finished(LoadFailed))));
    }

    /** The load, announced, made room for, and made.  It makes ready exactly when the announcement
        was sent and the model was loaded. */
    method LoadModel(t: nat, k: Key) returns (ready: bool, ghost said: seq<bool>)
      requires Valid() && At(t, k, Load(Announcing))
      modifies this, surroundings
      ensures Valid() && old(history) <= history && surroundings.answers == old(surroundings.answers) + said
      ensures ready ==> SaidYes(said) && At(t, k, Free(WantGeneration))
      ensures !ready ==> SaidNo(said) && At(t, k, Free(Finished(LoadFailed)))
      ensures ready ==> SeenMakingRoom(history, |old(history)|, t, k)
                        && SeenLoaded(history, |old(history)|, t, k, Notify(true))
    {
      hide Inv, Run, Points, Went;
      ghost var start := history;
      var sent := surroundings.Ask();
      said := [sent];
      if !sent {
        Continue(t, k, Choice(false, k), Leaving(false));
        WentIsLonger(start, history, t, [Request(k, Leaving(false))]);
        ghost var failed := history;
        EndLoad(t, k, false);
        WentIsLonger(failed, history, t, TakeBackPoints(k));
        return false, said;
      }
      Continue(t, k, Any(k), Load(Snapshotting));
      WentIsLonger(start, history, t, [Request(k, Load(Snapshotting))]);
      UnloadOthers(t, k);
      ghost var empty := history;
      ready := LoadNow(t, k);
      said := said + [ready];
      if ready {
        RoomLater(history, |empty| - 1, |start|, t, k);
        SeenLater(history, |empty|, |start|, t, k, Notify(true));
      }
    }

    /** The load itself, while no other model is in memory. */
    method LoadNow(t: nat, k: Key) returns (ready: bool)
      requires Valid() && At(t, k, Load(LoadingModel)) && LoadedOnlyIn(Now(), {})
      modifies this, surroundings
      ensures Valid() && old(history) <= history && surroundings.answers == old(surroundings.answers) + [ready]
      ensures At(t, k, Free(if ready then WantGeneration else Finished(LoadFailed)))
      ensures SeenMakingRoom(history, |old(history)| - 1, t, k)
      ensures ready ==> SeenLoaded(history, |old(history)|, t, k, Notify(true))
    {
      hide Inv, Run, Points, Went, SeenLoaded;
      ghost var empty := history;
      assert HasRoom(history[|history| - 1], t, k);
      ready := surroundings.Ask();
      Continue(t, k, Choice(ready, k), Leaving(ready));
      WentIsLonger(empty, history, t, [Request(k, Leaving(ready))]);
      ghost var left := history;
      EndLoad(t, k, ready);
      WentIsLonger(left, history, t, if ready then InstallPoints(k) else TakeBackPoints(k));
      assert HasRoom(history[|empty| - 1], t, k);
      if ready {
        SeenLater(history, |left|, |empty|, t, k, Notify(true));
      }
    }

    /** The cold-load lock and then the lock of the slot: nobody else is loading it now. */
    method LockBoth(t: nat, k: Key)
      requires Valid() && At(t, k, Free(WantCold))
      modifies this
      ensures Valid() && At(t, k, WithBoth(Rechecking)) && k in slots && slots[k] != Loading
      ensures old(history) <= history && |old(history)| < |history| && k in locks && locks[k] == t
    {
      hide Inv, Run, Points, Went;
      LockCold(t, k);
      ghost var cold_ := history;
      WentIsLonger(old(history), cold_, t, [Request(k, WithCold(WantSlotUnderCold))]);
      LockSlot(t, k, k, WithBoth(Rechecking));
      WentIsLonger(cold_, history, t, [Request(k, WithBoth(Rechecking))]);
      Knows(Now(), t);
    }

    /** What an empty slot leads to: the cold-load lock, a second look, and the load. */
    method ColdLoad(t: nat, k: Key) returns (ready: bool, ghost said: seq<bool>)
      requires Valid() && At(t, k, Free(WantCold))
      modifies this, surroundings
      ensures Valid() && old(history) <= history && surroundings.answers == old(surroundings.answers) + said
      ensures ready ==> (said == [] || SaidYes(said)) && At(t, k, Free(WantGeneration))
      ensures !ready ==> SaidNo(said) && At(t, k, Free(Finished(LoadFailed)))
      ensures said == [] ==> SeenLoaded(history, |old(history)|, t, k, WithBoth(Rechecking))
      ensures SaidYes(said) ==> SeenMakingRoom(history, |old(history)|, t, k)
                                && SeenLoaded(history, |old(history)|, t, k, Notify(true))
    {
      hide Inv, Run, Points, Went;
      ghost var start := history;
      LockBoth(t, k);
      ghost var locked := history;
      match slots[k] {
        case Loaded =>
          GoToLoaded(t, k);
          SeenLater(history, |locked| - 1, |start|, t, k, WithBoth(Rechecking));
          return true, [];
        case Loading =>
          assert false;
        case Empty =>
          MarkLoading(t, k);
          ghost var announcing := history;
          ready, said := LoadModel(t, k);
          if ready {
            SeenLater(history, |announcing|, |start|, t, k, Notify(true));
            RoomLater(history, |announcing|, |start|, t, k);
          }
      }
    }

    /** Somebody else loaded it meanwhile: both locks are dropped. */
    method GoToLoaded(t: nat, k: Key)
      requires Valid() && At(t, k, WithBoth(Rechecking)) && k in slots && slots[k] == Loaded
      requires k in locks && locks[k] == t
      modifies this
      ensures Valid() && At(t, k, Free(WantGeneration)) && old(history) <= history
      ensures SeenLoaded(history, |old(history)| - 1, t, k, WithBoth(Rechecking))
    {
      hide Inv, Run, Points, Went;
      ghost var locked := history;
      UnlockSlot(t, k, k, WithCold(RecheckDropCold));
      WentIsLonger(locked, history, t, [Request(k, WithCold(RecheckDropCold))]);
      ghost var open := history;
      UnlockCold(t, k, Free(WantGeneration));
      WentIsLonger(open, history, t, [Request(k, Free(WantGeneration))]);
      assert HoldsLoaded(history[|locked| - 1], t, k, WithBoth(Rechecking));
    }

    /** The slot is marked, so that others wait for this load. */
    method MarkLoading(t: nat, k: Key)
      requires Valid() && At(t, k, WithBoth(Rechecking)) && k in slots && slots[k] == Empty
      modifies this
      ensures Valid() && At(t, k, Load(Announcing)) && old(history) <= history
    {
      hide Inv, Run, Points, Went;
      ghost var locked := history;
      SetSlot(t, k, Loading, Mark(Marked));
      WentIsLonger(locked, history, t, [Request(k, Mark(Marked))]);
      ghost var marked := history;
      UnlockSlot(t, k, k, Load(Announcing));
      WentIsLonger(marked, history, t, [Request(k, Load(Announcing))]);
    }

    /** Generates under the lock of the slot, if the model is still there. */
    method Generate(t: nat, k: Key) returns (outcome: Outcome)
      requires Valid() && At(t, k, Free(WantGeneration))
      modifies this
      ensures Valid() && old(history) <= history
      ensures At(t, k, Free(Finished(outcome))) && !outcome.LoadFailed?
      ensures outcome.Generated? ==> SeenLoaded(history, |old(history)|, t, k, Generation(Generating))
      ensures outcome.NotLoaded? ==> SeenUnloaded(history, |old(history)|, t, k, Generation(GenerationCheck))
    {
      hide Inv, Run, Points, Went, SeenLoaded;
      ghost var start := history;
      LockSlot(t, k, k, Generation(GenerationCheck));
      ghost var locked := history;
      WentIsLonger(start, locked, t, [Request(k, Generation(GenerationCheck))]);
      Knows(Now(), t);
      if slots[k] != Loaded {
        UnlockSlot(t, k, k, Free(Finished(NotLoaded)));
        WentIsLonger(locked, history, t, [Request(k, Free(Finished(NotLoaded)))]);
        assert HoldsUnloaded(history[|locked| - 1], t, k, Generation(GenerationCheck));
        return NotLoaded;
      }
      GenerateLoaded(t, k);
      SeenLater(history, |locked|, |start|, t, k, Generation(Generating));
      outcome := Generated;
    }

    method GenerateLoaded(t: nat, k: Key)
      requires Valid() && At(t, k, Generation(GenerationCheck)) && SlotAt(Now(), k) == Loaded
      modifies this
      ensures Valid() && At(t, k, Free(Finished(Generated))) && old(history) <= history
      ensures SeenLoaded(history, |old(history)|, t, k, Generation(Generating))
    {
      hide Inv, Run, Points, Went;
      ghost var locked := history;
      Continue(t, k, Any(k), Generation(Generating));
      ghost var generating := history;
      WentIsLonger(locked, generating, t, [Request(k, Generation(Generating))]);
      Knows(Now(), t);
      UnlockSlot(t, k, k, Free(Finished(Generated)));
      WentIsLonger(generating, history, t, [Request(k, Free(Finished(Generated)))]);
      assert HoldsLoaded(history[|generating| - 1], t, k, Generation(Generating));
    }

    /** A request, from looking up its slot to the end of its generation.  It always ends: without a
        model exactly when the announcement could not be sent or the load failed; the model is said
        to be gone only if the slot was not loaded under its lock. */
    method Stream(t: nat, k: Key) returns (outcome: Outcome, ghost said: seq<bool>)
      requires Valid() && At(t, k, Arriving)
      modifies this, surroundings
      ensures Valid() && old(history) <= history && surroundings.answers == old(surroundings.answers) + said
      ensures At(t, k, Free(Finished(outcome))) && (said == [] || SaidYes(said) || SaidNo(said))
      ensures outcome.LoadFailed? <==> SaidNo(said)
      ensures outcome.Generated? ==> SeenLoaded(history, |old(history)|, t, k, Generation(Generating))
      ensures outcome.NotLoaded? ==> SeenUnloaded(history, |old(history)|, t, k, Generation(GenerationCheck))
    {
      hide Inv, Run, Points, Went, Wakes, Snapshots, Rank, SeenLoaded, SeenUnloaded;
      ghost var start := history;
      GetOrCreateModelSlot(t, k);
      WentIsLonger(start, history, t, [Request(k, Free(LoopHead))]);
      while true
        invariant Valid() && At(t, k, Free(LoopHead)) && start <= history
        invariant surroundings.answers == old(surroundings.answers)
        decreases Sum(Wakes, Now(), |tasks|), Sum(Snapshots, Now(), |tasks|), Sum(Rank, Now(), |tasks|)
      {
        ghost var head := history;
        var round;
        round, said := LoopRound(t, k);
        match round {
          case Ready => break;
          case LoadAgain =>
            RunFalls(history, |head| - 1, |history| - 1);
          case Failed => return LoadFailed, said;
        }
      }
      ghost var found := history;
      outcome := Generate(t, k);
      if outcome.Generated? {
        SeenLater(history, |found|, |start|, t, k, Generation(Generating));
      } else {
        UnloadedSeenLater(history, |found|, |start|, t, k, Generation(GenerationCheck));
      }
    }

    /** One round of the loop: a loaded slot ends it, a loading one is waited for, an empty one loaded. */
    method LoopRound(t: nat, k: Key) returns (round: Round, ghost said: seq<bool>)
      requires Valid() && At(t, k, Free(LoopHead))
      modifies this, surroundings
      ensures Valid() && old(history) <= history && |old(history)| < |history|
      ensures surroundings.answers == old(surroundings.answers) + said
      ensures round.Ready? ==> (said == [] || SaidYes(said)) && At(t, k, Free(WantGeneration))
      ensures round.LoadAgain? ==> said == [] && At(t, k, Free(LoopHead))
      ensures round.Failed? ==> SaidNo(said) && At(t, k, Free(Finished(LoadFailed)))
    {
      hide Inv, Run, Points, Went, SeenLoaded, SeenMakingRoom, SaidYes, SaidNo, Woken;
      ghost var start := history;
      LockSlot(t, k, k, WithSlot(Inspecting));
      WentIsLonger(start, history, t, [Request(k, WithSlot(Inspecting))]);
      Knows(Now(), t);
      ghost var locked := history;
      said := [];
      match slots[k] {
        case Loaded =>
          UnlockSlot(t, k, k, Free(WantGeneration));
          WentIsLonger(locked, history, t, [Request(k, Free(WantGeneration))]);
          return Ready, said;
        case Loading =>
          WaitForLoad(t, k);
          return LoadAgain, said;
        case Empty =>
          UnlockSlot(t, k, k, Free(WantCold));
          WentIsLonger(locked, history, t, [Request(k, Free(WantCold))]);
          var ready;
          ready, said := ColdLoad(t, k);
          return if ready then Ready else Failed, said;
      }
    }

    /** Registers under the lock of the slot, drops it, and sleeps until the load has ended. */
    method WaitForLoad(t: nat, k: Key)
      requires Valid() && At(t, k, WithSlot(Inspecting)) && SlotAt(Now(), k) == Loading
      modifies this
      ensures Valid() && At(t, k, Free(LoopHead)) && old(history) <= history
      ensures exists i :: |old(history)| - 1 <= i < |history| && Woken(history[i], t, k)
    {
      hide Inv, Run, Points, Went, Woken;
      ghost var locked := history;
      Register(t, k, WithSlot(Registered));
      WentIsLonger(locked, history, t, [Request(k, WithSlot(Registered))]);
      ghost var registered := history;
      UnlockSlot(t, k, k, Free(Awaiting));
      WentIsLonger(registered, history, t, [Request(k, Free(Awaiting))]);
      ghost var asleep := history;
      AwaitNotification(t, k);
      WentIsLonger(asleep, history, t, [Request(k, Free(LoopHead))]);
    }

    predicate EvictingAt(t: nat, model: int, pc: EvictionPc)
      reads this
    {
      t < |tasks| && tasks[t] == Eviction(model, pc)
    }

    /** One step of an eviction, already made. */
    method EvictTook(t: nat, model: int, ghost c: Choice, pc: EvictionPc, ghost before: State)
      requires history != [] && Run(history) && history[|history| - 1] == before && Inv(before)
      requires Leads(before, t, c, Now()) && EvictingAt(t, model, pc) && before.tasks[t] != tasks[t]
      modifies this
      ensures Valid() && EvictingAt(t, model, pc) && Went(old(history), history, t, [Eviction(model, pc)])
      ensures |old(history)| < |history| && history[|old(history)|] == old(Now())
      ensures HeldSlot(tasks[t]).Slot? ==>
                SlotAt(Now(), HeldSlot(tasks[t]).key) == SlotAt(old(Now()), HeldSlot(tasks[t]).key)
    {
      hide Inv, Run, Points, Leads;
      Took(history, t, c, Now());
      history := history + [Now()];
      OthersRun(t);
    }

    /** Empties every loaded slot of a model and wakes its waiters.  Each slot there was at the start
        is seen not loaded, and the answer says whether one had to be emptied. */
    method EvictModel(t: nat, model: int) returns (evicted: bool)
      requires Valid() && EvictingAt(t, model, EvictStart)
      modifies this
      ensures Valid() && EvictingAt(t, model, Evicted) && old(history) <= history
      ensures forall k :: k in old(slots) && k.model == model ==> SeenNotLoaded(history, |old(history)|, k)
      ensures exists points :: Went(old(history), history, t, points) && (evicted <==> Emptied(points))
    {
      hide Inv, Run, Points, Went;
      ghost var start := history;
      evicted := false;
      var rest := SlotsOfModel(slots, model);
      ghost var all := rest;
      ghost var before := Now();
      tasks := tasks[t := Eviction(model, Evicting(rest))];
      EvictTook(t, model, Any(Key(0, 0, 0)), Evicting(rest), before);
      WentIsLonger(start, history, t, [Eviction(model, Evicting(rest))]);
      ghost var points := [Eviction(model, Evicting(rest))];
      while rest != {}
        invariant Valid() && EvictingAt(t, model, Evicting(rest)) && rest <= all
        invariant start <= history && Went(start, history, t, points) && (evicted <==> Emptied(points))
        invariant forall k :: k in all && k !in rest ==> SeenNotLoaded(history, |start|, k)
        decreases |rest|
      {
        var k :| k in rest;
        ghost var head := history;
        EvictWait(t, model, rest, k);
        WentOn(start, head, history, t, points, []);
        WentIsLonger(head, history, t, []);
        assert points + [] == points;
        SeenLonger(head, history, |start|, all - rest);
        ghost var free := history;
        var loaded;
        ghost var more;
        loaded, more := EvictOne(t, model, rest, k);
        WentIsLonger(free, history, t, more);
        WentOn(start, free, history, t, points, more);
        SeenLonger(free, history, |start|, all - rest);
        UnloadedLater(history, |free|, |start|, k);
        EmptiedMore(points, more);
        points := points + more;
        evicted := evicted || loaded;
        rest := rest - {k};
      }
      ghost var head := history;
      before := Now();
      tasks := tasks[t := Eviction(model, Evicted)];
      EvictTook(t, model, Any(Key(0, 0, 0)), Evicted, before);
      WentIsLonger(head, history, t, [Eviction(model, Evicted)]);
      WentOn(start, head, history, t, points, [Eviction(model, Evicted)]);
      EmptiedMore(points, [Eviction(model, Evicted)]);
      SeenLonger(head, history, |start|, all);
    }

    method EvictWait(t: nat, model: int, rest: set<Key>, k: Key)
      requires Valid() && EvictingAt(t, model, Evicting(rest))
      modifies this
      ensures Valid() && EvictingAt(t, model, Evicting(rest)) && Went(old(history), history, t, [])
      ensures k !in locks
    {
      hide Inv, Run, Points, Wakes, Snapshots, Rank;
      while k in locks
        invariant Valid() && EvictingAt(t, model, Evicting(rest))
        invariant Went(old(history), history, t, [])
        decreases Sum(Wakes, Now(), |tasks|), Sum(Snapshots, Now(), |tasks|), Sum(Rank, Now(), |tasks|)
      {
        OthersGoOn(t);
      }
    }

    /** One slot, under its lock. */
    method EvictOne(t: nat, model: int, rest: set<Key>, k: Key) returns (loaded: bool, ghost points: seq<Task>)
      requires Valid() && EvictingAt(t, model, Evicting(rest)) && k in rest && k !in locks
      modifies this
      ensures Valid() && EvictingAt(t, model, Evicting(rest - {k})) && Went(old(history), history, t, points)
      ensures SeenNotLoaded(history, |old(history)|, k) && (loaded <==> Emptied(points))
    {
      hide Inv, Run, Points, Went, Emptied, SeenNotLoaded;
      ghost var start := history;
      EvictHold(t, model, rest, k);
      ghost var held, hold := history, Eviction(model, EvictHeld(rest, k));
      WentIsLonger(start, held, t, [hold]);
      KnowsSlot(Now(), t);
      loaded := slots[k] == Loaded;
      if loaded {
        EvictEmpty(t, model, rest, k);
        points := [Eviction(model, EvictNotify(rest, k)), Eviction(model, Evicting(rest - {k}))];
        EmptiedAt(points, 0);
      } else {
        EvictLeave(t, model, rest, k);
        points := [Eviction(model, Evicting(rest - {k}))];
        NothingEmptied(points);
      }
      WentOn(start, held, history, t, [hold], points);
      NothingEmptied([hold]);
      EmptiedMore([hold], points);
      UnloadedLater(history, |held| - 1, |start|, k);
      points := [hold] + points;
    }

    method EvictHold(t: nat, model: int, rest: set<Key>, k: Key)
      requires Valid() && EvictingAt(t, model, Evicting(rest)) && k in rest && k !in locks
      modifies this
      ensures Valid() && EvictingAt(t, model, EvictHeld(rest, k))
      ensures Went(old(history), history, t, [Eviction(model, EvictHeld(rest, k))])
    {
      hide Inv, Run, Points, Went;
      ghost var before := Now();
      locks := locks[k := t];
      tasks := tasks[t := Eviction(model, EvictHeld(rest, k))];
      EvictTook(t, model, Any(k), EvictHeld(rest, k), before);
    }

    /** A slot that is not loaded is left alone. */
    method EvictLeave(t: nat, model: int, rest: set<Key>, k: Key)
      requires Valid() && EvictingAt(t, model, EvictHeld(rest, k)) && SlotAt(Now(), k) != Loaded
      modifies this
      ensures Valid() && EvictingAt(t, model, Evicting(rest - {k}))
      ensures Went(old(history), history, t, [Eviction(model, Evicting(rest - {k}))])
      ensures SeenNotLoaded(history, |old(history)| - 1, k)
    {
      hide Inv, Run, Points, Went;
      ghost var held := history;
      ghost var before := Now();
      locks := locks - {k};
      tasks := tasks[t := Eviction(model, Evicting(rest - {k}))];
      EvictTook(t, model, Any(k), Evicting(rest - {k}), before);
      WentIsLonger(held, history, t, [Eviction(model, Evicting(rest - {k}))]);
      assert SlotAt(history[|held| - 1], k) != Loaded;
    }

    /** A loaded slot is emptied, its waiters are woken, and its lock is dropped. */
    method EvictEmpty(t: nat, model: int, rest: set<Key>, k: Key)
      requires Valid() && EvictingAt(t, model, EvictHeld(rest, k)) && k in slots && slots[k] == Loaded
      modifies this
      ensures Valid() && EvictingAt(t, model, Evicting(rest - {k}))
      ensures Went(old(history), history, t,
                   [Eviction(model, EvictNotify(rest, k)), Eviction(model, Evicting(rest - {k}))])
      ensures SeenNotLoaded(history, |old(history)| - 1, k)
    {
      hide Inv, Run, Points, Went;
      ghost var held := history;
      ghost var emptying, done := Eviction(model, EvictNotify(rest, k)), Eviction(model, Evicting(rest - {k}));
      ghost var before := Now();
      slots := slots[k := Empty];
      tasks := tasks[t := Eviction(model, EvictNotify(rest, k))];
      EvictTook(t, model, Any(k), EvictNotify(rest, k), before);
      ghost var emptied := history;
      WentIsLonger(held, emptied, t, [emptying]);
      before := Now();
      waiting := set u | u in waiting && !(u < |tasks| && tasks[u].Request? && tasks[u].key == k);
      locks := locks - {k};
      tasks := tasks[t := Eviction(model, Evicting(rest - {k}))];
      EvictTook(t, model, Any(k), Evicting(rest - {k}), before);
      WentOn(held, emptied, history, t, [emptying], [done]);
      WentIsLonger(emptied, history, t, [done]);
      assert [emptying] + [done] == [emptying, done];
      assert SlotAt(history[|emptied| - 1], k) != Loaded;
    }
  }

  /** A load that succeeded ends at these points, in this order. */
  function InstallPoints(k: Key): seq<Task> {
    [Request(k, Mark(Installing)), Request(k, Notify(true)), Request(k, WithBoth(InstallDropCold)),
     Request(k, WithSlot(InstallDropSlot)), Request(k, Free(WantGeneration))]
  }

  /** A load that failed, at these. */
  function TakeBackPoints(k: Key): seq<Task> {
    [Request(k, Mark(Failing)), Request(k, Notify(false)), Request(k, WithBoth(FailDropSlot)),
     Request(k, WithCold(FailDropCold)), Request(k, Free(Finished(LoadFailed)))]
  }

  predicate Woken(s: State, t: nat, k: Key) {
    t < |s.tasks| && s.tasks[t] == Request(k, Free(Awaiting)) && t !in s.waiting
  }

  /** An eviction that came through these points emptied a slot. */
  ghost predicate Emptied(points: seq<Task>) {
    exists i :: 0 <= i < |points| && points[i].Eviction? && points[i].pc.EvictNotify?
  }

  lemma EmptiedAt(points: seq<Task>, i: nat)
    requires i < |points| && points[i].Eviction? && points[i].pc.EvictNotify?
    ensures Emptied(points)
  {
  }

  lemma NothingEmptied(points: seq<Task>)
    requires forall i :: 0 <= i < |points| ==> !(points[i].Eviction? && points[i].pc.EvictNotify?)
    ensures !Emptied(points)
  {
  }

  lemma EmptiedMore(points: seq<Task>, more: seq<Task>)
    ensures Emptied(points + more) <==> Emptied(points) || Emptied(more)
  {
    var all := points + more;
    if i :| 0 <= i < |points| && points[i].Eviction? && points[i].pc.EvictNotify? {
      EmptiedAt(all, i);
    }
    if i :| 0 <= i < |more| && more[i].Eviction? && more[i].pc.EvictNotify? {
      EmptiedAt(all, |points| + i);
    }
    if i :| 0 <= i < |all| && all[i].Eviction? && all[i].pc.EvictNotify? {
      if i < |points| {
        EmptiedAt(points, i);
      } else {
        EmptiedAt(more, i - |points|);
      }
    }
  }

  lemma WentIsLonger(a: seq<State>, b: seq<State>, t: nat, p: seq<Task>)
    requires Went(a, b, t, p)
    ensures a <= b && |a| <= |b| && b[..|a|] == a
    ensures p != [] ==> |a| < |b|
  {
    if |a| == |b| {
      assert b == a;
      assert |Points(b, t)| == |Points(a, t)| + |p|;
    }
  }

  lemma FourPoints(a: seq<State>, b: seq<State>, c: seq<State>, d: seq<State>, e: seq<State>, t: nat,
                   w: Task, x: Task, y: Task, z: Task)
    requires Went(a, b, t, [w]) && Went(b, c, t, [x]) && Went(c, d, t, [y]) && Went(d, e, t, [z])
    ensures Went(a, e, t, [w, x, y, z])
  {
    hide Went;
    WentOn(a, b, c, t, [w], [x]);
    WentOn(a, c, d, t, [w] + [x], [y]);
    WentOn(a, d, e, t, [w] + [x] + [y], [z]);
    assert [w] + [x] + [y] + [z] == [w, x, y, z];
  }

  lemma SeenLater(states: seq<State>, from: nat, earlier: nat, t: nat, k: Key, pc: RequestPc)
    requires SeenLoaded(states, from, t, k, pc) && earlier <= from
    ensures SeenLoaded(states, earlier, t, k, pc)
  {
    var i :| from <= i < |states| && HoldsLoaded(states[i], t, k, pc);
    assert HoldsLoaded(states[i], t, k, pc);
  }

  lemma UnloadedSeenLater(states: seq<State>, from: nat, earlier: nat, t: nat, k: Key, pc: RequestPc)
    requires SeenUnloaded(states, from, t, k, pc) && earlier <= from
    ensures SeenUnloaded(states, earlier, t, k, pc)
  {
    var i :| from <= i < |states| && HoldsUnloaded(states[i], t, k, pc);
    assert HoldsUnloaded(states[i], t, k, pc);
  }

  lemma RoomLater(states: seq<State>, from: nat, earlier: nat, t: nat, k: Key)
    requires SeenMakingRoom(states, from, t, k) && earlier <= from
    ensures SeenMakingRoom(states, earlier, t, k)
  {
    var i :| from <= i < |states| && HasRoom(states[i], t, k);
    assert HasRoom(states[i], t, k);
  }

  lemma UnloadedLater(states: seq<State>, from: nat, earlier: nat, k: Key)
    requires SeenNotLoaded(states, from, k) && earlier <= from
    ensures SeenNotLoaded(states, earlier, k)
  {
    var i :| from <= i < |states| && SlotAt(states[i], k) != Loaded;
    assert SlotAt(states[i], k) != Loaded;
  }

  lemma SeenLonger(before: seq<State>, after: seq<State>, from: nat, keys: set<Key>)
    requires before <= after && forall k :: k in keys ==> SeenNotLoaded(before, from, k)
    ensures forall k :: k in keys ==> SeenNotLoaded(after, from, k)
  {
    forall k | k in keys
      ensures SeenNotLoaded(after, from, k)
    {
      var i :| from <= i < |before| && SlotAt(before[i], k) != Loaded;
      assert SlotAt(after[i], k) != Loaded;
    }
  }

  /** What a task may rely on. */
  lemma Knows(s: State, t: nat)
    requires Inv(s) && t < |s.tasks| && s.tasks[t].Request?
    ensures var k, at := s.tasks[t].key, s.tasks[t].at;
            (at != Arriving ==> k in s.slots)
            && (at == WithBoth(Rechecking) ==> s.slots[k] != Loading)
            && (at == Load(LoadingModel) ==> LoadedOnlyIn(s, {}))
            && (at == Generation(Generating) ==> SlotAt(s, k) == Loaded)
            && (at.UnloadingHeld? ==> at.held in s.slots)
            && (HeldSlot(s.tasks[t]) == Slot(k) ==> k in s.locks && s.locks[k] == t)
  {
    assert TaskInv(s, t);
  }

  /** While a task is registered, its slot is being loaded. */
  lemma SomebodyLoads(s: State, t: nat)
    requires Inv(s) && t in s.waiting && t < |s.tasks| && s.tasks[t].Request?
    ensures s.cold.Holder?
  {
    assert WillBeWoken(s, t);
  }

  lemma KnowsSlot(s: State, t: nat)
    requires Inv(s) && t < |s.tasks| && s.tasks[t].Eviction? && s.tasks[t].pc.EvictHeld?
    ensures s.tasks[t].pc.held in s.slots
  {
    assert TaskInv(s, t);
  }

  /** A step of another task leaves this one where it is, and its locked slot as it is. */
  lemma OthersStep(s: State, t: nat, u: nat, c: Choice)
    requires Inv(s) && t < |s.tasks| && u < |s.tasks| && u != t && Enabled(s, u, c)
    ensures var s' := Step(s, u, c);
            Inv(s') && t < |s'.tasks| && s'.tasks[t] == s.tasks[t]
            && (HeldSlot(s.tasks[t]).Slot? ==>
                  SlotAt(s', HeldSlot(s.tasks[t]).key) == SlotAt(s, HeldSlot(s.tasks[t]).key))
  {
    StepPreserves(s, u, c);
    StepGuarantees(s, u, c);
    assert TaskInv(s, t) && TaskInv(s, u);
  }
}
