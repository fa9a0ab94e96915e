/** The slot protocol of the local inference runtime, as a transition system.

    Request tasks share one slot per cache key, a cold-load lock, one lock per slot
    and one notification list per slot; evictions run beside them.  A state holds
    one program counter per task, and a step runs one task up to the next point at
    which another task can interfere: taking a lock, releasing a lock, changing a
    slot, waking waiters, or returning from a load, a send or a generation. */
module SlotProtocol {
  datatype Key = Key(backend: int, model: int, template: int)

  datatype SlotState = Empty | Loading | Loaded

  /** How a request ended. */
  datatype Outcome = Generated | LoadFailed | NotLoaded

  /** Program points of a request at which it holds no lock. */
  datatype FreePc = LoopHead | Awaiting | WantCold | WantGeneration | Finished(outcome: Outcome)

  /** Points at which it holds the lock of its slot. */
  datatype SlotPc = Inspecting | Registered | InstallDropSlot

  /** Points of the generation, under the lock of the slot. */
  datatype GenerationPc = GenerationCheck | Generating

  /** Points at which it holds the cold-load lock, outside the load. */
  datatype ColdPc = WantSlotUnderCold | RecheckDropCold | InnerDropCold | FailDropCold

  /** Points at which it holds both, outside the load. */
  datatype BothPc = Rechecking | InnerRegistered | FailDropSlot | InstallDropCold

  /** Points of the load: the cold-load lock is held and the slot is marked `Loading`. */
  datatype LoadPc = Announcing | Snapshotting | LoadingModel

  /** Points at which the mark is set or taken away: both locks are held. */
  datatype MarkPc = Marked | Failing | Installing

  datatype RequestPc =
    | Arriving                                     // no lock held, the slot is not looked up yet
    | Free(free: FreePc)
    | WithSlot(slot: SlotPc)
    | Generation(generation: GenerationPc)
    | WithCold(cold: ColdPc)
    | WithBoth(both: BothPc)
    | Load(load: LoadPc)
    | Leaving(success: bool)                       // the load is over, wants the slot lock
    | Mark(mark: MarkPc)
    | Unloading(rest: set<Key>)                    // in the load, wants the locks of these slots in turn
    | UnloadingHeld(others: set<Key>, held: Key)   // in the load, holding the lock of one of them
    | Notify(loaded: bool)                         // both locks held, mark gone, waiters not yet woken

  datatype EvictionPc =
    | EvictStart
    | Evicting(rest: set<Key>)
    | EvictHeld(others: set<Key>, held: Key)
    | EvictNotify(pending: set<Key>, emptied: Key)
    | Evicted

  datatype Task =
    | Request(key: Key, at: RequestPc)
    | Eviction(model: int, pc: EvictionPc)

  datatype Holder = Nobody | Holder(task: nat)

  datatype State = State(
    slots: map<Key, SlotState>,
    locks: map<Key, nat>,          // slot locks that are held, and by which task
    cold: Holder,                  // holder of the cold-load lock
    waiting: set<nat>,             // tasks registered on their slot and not yet woken
    tasks: seq<Task>)

  /** What the environment decides in a step: whether a send or a load succeeds, and
      which slot of a snapshot comes next. */
  datatype Choice = Choice(ok: bool, pick: Key)

  function SlotAt(s: State, k: Key): SlotState {
    if k in s.slots then s.slots[k] else Empty
  }

  function GetOrCreateSlot(slots: map<Key, SlotState>, k: Key): map<Key, SlotState> {
    if k in slots then slots else slots[k := Empty]
  }

  function OtherSlots(slots: map<Key, SlotState>, keep: Key): set<Key> {
    set k | k in slots && k != keep
  }

  function SlotsOfModel(slots: map<Key, SlotState>, model: int): set<Key> {
    set k | k in slots && k.model == model
  }

  function SetSlot(s: State, k: Key, state: SlotState): State {
    s.(slots := s.slots[k := state])
  }

  function Unlock(s: State, k: Key): State {
    s.(locks := s.locks - {k})
  }

  /** Wakes every task that waits on slot `k`. */
  function NotifyWaiters(s: State, k: Key): State {
    s.(waiting := set t | t in s.waiting && !(t < |s.tasks| && s.tasks[t].Request? && s.tasks[t].key == k))
  }

  function Goto(s: State, t: nat, pc: RequestPc): State
    requires t < |s.tasks| && s.tasks[t].Request?
  {
    s.(tasks := s.tasks[t := Request(s.tasks[t].key, pc)])
  }

  function EvictGoto(s: State, t: nat, pc: EvictionPc): State
    requires t < |s.tasks| && s.tasks[t].Eviction?
  {
    s.(tasks := s.tasks[t := Eviction(s.tasks[t].model, pc)])
  }

  /** Takes the lock of slot `k` and moves on. */
  function Lock(s: State, t: nat, k: Key, pc: RequestPc): State
    requires t < |s.tasks| && s.tasks[t].Request?
  {
    Goto(s.(locks := s.locks[k := t]), t, pc)
  }

  function ArriveStep(s: State, t: nat): State
    requires t < |s.tasks| && s.tasks[t].Request?
  {
    Goto(s.(slots := GetOrCreateSlot(s.slots, s.tasks[t].key)), t, Free(LoopHead))
  }

  /** Steps that start without a lock. */
  function FreeStep(s: State, t: nat): State
    requires t < |s.tasks| && s.tasks[t].Request? && s.tasks[t].at.Free?
  {
    var k := s.tasks[t].key;
    match s.tasks[t].at.free
    case LoopHead => Lock(s, t, k, WithSlot(Inspecting))
    case Awaiting => Goto(s, t, Free(LoopHead))
    case WantCold => Goto(s.(cold := Holder(t)), t, WithCold(WantSlotUnderCold))
    case WantGeneration => Lock(s, t, k, Generation(GenerationCheck))
    case Finished(_) => s
  }

  /** Steps under the lock of the slot alone. */
  function SlotStep(s: State, t: nat): State
    requires t < |s.tasks| && s.tasks[t].Request? && s.tasks[t].at.WithSlot?
  {
    var k := s.tasks[t].key;
    match s.tasks[t].at.slot
    case Inspecting =>
      (match SlotAt(s, k)
       case Loaded => Goto(Unlock(s, k), t, Free(WantGeneration))
       case Loading => Goto(s.(waiting := s.waiting + {t}), t, WithSlot(Registered))
       case Empty => Goto(Unlock(s, k), t, Free(WantCold)))
    case Registered => Goto(Unlock(s, k), t, Free(Awaiting))
    case InstallDropSlot => Goto(Unlock(s, k), t, Free(WantGeneration))
  }

  /** The generation runs only on a slot that is still loaded. */
  function GenerationStep(s: State, t: nat): State
    requires t < |s.tasks| && s.tasks[t].Request? && s.tasks[t].at.Generation?
  {
    var k := s.tasks[t].key;
    match s.tasks[t].at.generation
    case GenerationCheck =>
      if SlotAt(s, k) == Loaded then Goto(s, t, Generation(Generating))
      else Goto(Unlock(s, k), t, Free(Finished(NotLoaded)))
    case Generating => Goto(Unlock(s, k), t, Free(Finished(Generated)))
  }

  /** Steps under the cold-load lock, outside the load. */
  function ColdStep(s: State, t: nat): State
    requires t < |s.tasks| && s.tasks[t].Request? && s.tasks[t].at.WithCold?
  {
    match s.tasks[t].at.cold
    case WantSlotUnderCold => Lock(s, t, s.tasks[t].key, WithBoth(Rechecking))
    case RecheckDropCold => Goto(s.(cold := Nobody), t, Free(WantGeneration))
    case InnerDropCold => Goto(s.(cold := Nobody), t, Free(Awaiting))
    case FailDropCold => Goto(s.(cold := Nobody), t, Free(Finished(LoadFailed)))
  }

  /** Steps under both locks, outside the load. */
  function BothStep(s: State, t: nat): State
    requires t < |s.tasks| && s.tasks[t].Request? && s.tasks[t].at.WithBoth?
  {
    var k := s.tasks[t].key;
    match s.tasks[t].at.both
    case Rechecking =>
      (match SlotAt(s, k)
       case Loaded => Goto(Unlock(s, k), t, WithCold(RecheckDropCold))
       case Loading => Goto(s.(waiting := s.waiting + {t}), t, WithBoth(InnerRegistered))
       case Empty => Goto(SetSlot(s, k, Loading), t, Mark(Marked)))
    case InnerRegistered => Goto(Unlock(s, k), t, WithCold(InnerDropCold))
    case FailDropSlot => Goto(Unlock(s, k), t, WithCold(FailDropCold))
    case InstallDropCold => Goto(s.(cold := Nobody), t, WithSlot(InstallDropSlot))
  }

  /** Steps of the load: announce, unload the other slots, load the model. */
  function LoadStep(s: State, t: nat, c: Choice): State
    requires t < |s.tasks| && s.tasks[t].Request? && s.tasks[t].at.Load?
  {
    match s.tasks[t].at.load
    case Announcing => Goto(s, t, if c.ok then Load(Snapshotting) else Leaving(false))
    case Snapshotting => Goto(s, t, Unloading(OtherSlots(s.slots, s.tasks[t].key)))
    case LoadingModel => Goto(s, t, Leaving(c.ok))
  }

  function LeaveStep(s: State, t: nat): State
    requires t < |s.tasks| && s.tasks[t].Request? && s.tasks[t].at.Leaving?
  {
    Lock(s, t, s.tasks[t].key, Mark(if s.tasks[t].at.success then Installing else Failing))
  }

  /** Setting the mark is over, or the mark is taken away. */
  function MarkStep(s: State, t: nat): State
    requires t < |s.tasks| && s.tasks[t].Request? && s.tasks[t].at.Mark?
  {
    var k := s.tasks[t].key;
    match s.tasks[t].at.mark
    case Marked => Goto(Unlock(s, k), t, Load(Announcing))
    case Failing => Goto(SetSlot(s, k, Empty), t, Notify(false))
    case Installing => Goto(SetSlot(s, k, Loaded), t, Notify(true))
  }

  /** The next slot of the snapshot is locked, or the snapshot is used up. */
  function UnloadStep(s: State, t: nat, c: Choice): State
    requires t < |s.tasks| && s.tasks[t].Request? && s.tasks[t].at.Unloading?
  {
    var rest := s.tasks[t].at.rest;
    if rest == {} then Goto(s, t, Load(LoadingModel)) else Lock(s, t, c.pick, UnloadingHeld(rest, c.pick))
  }

  /** One other slot is emptied if it is loaded, and its lock dropped. */
  function EmptyOtherStep(s: State, t: nat): State
    requires t < |s.tasks| && s.tasks[t].Request? && s.tasks[t].at.UnloadingHeld?
  {
    var at := s.tasks[t].at;
    var s' := if SlotAt(s, at.held) == Loaded then SetSlot(s, at.held, Empty) else s;
    Goto(Unlock(s', at.held), t, Unloading(at.others - {at.held}))
  }

  function NotifyStep(s: State, t: nat): State
    requires t < |s.tasks| && s.tasks[t].Request? && s.tasks[t].at.Notify?
  {
    Goto(NotifyWaiters(s, s.tasks[t].key), t, WithBoth(if s.tasks[t].at.loaded then InstallDropCold else FailDropSlot))
  }

  function EvictStep(s: State, t: nat, c: Choice): State
    requires t < |s.tasks| && s.tasks[t].Eviction?
  {
    match s.tasks[t].pc
    case EvictStart => EvictGoto(s, t, Evicting(SlotsOfModel(s.slots, s.tasks[t].model)))
    case Evicting(rest) =>
      if rest == {} then EvictGoto(s, t, Evicted)
      else EvictGoto(s.(locks := s.locks[c.pick := t]), t, EvictHeld(rest, c.pick))
    case EvictHeld(rest, k) =>
      if SlotAt(s, k) == Loaded then EvictGoto(SetSlot(s, k, Empty), t, EvictNotify(rest, k))
      else EvictGoto(Unlock(s, k), t, Evicting(rest - {k}))
    case EvictNotify(rest, k) => EvictGoto(Unlock(NotifyWaiters(s, k), k), t, Evicting(rest - {k}))
    case Evicted => s
  }

  /** Task `t` is neither blocked nor ended, and the choice fits its snapshot. */
  predicate Enabled(s: State, t: nat, c: Choice)
    requires t < |s.tasks|
  {
    match s.tasks[t]
    case Request(k, Free(pc)) =>
      && ((pc.LoopHead? || pc.WantGeneration?) ==> k !in s.locks)
      && (pc.Awaiting? ==> t !in s.waiting)
      && (pc.WantCold? ==> s.cold.Nobody?)
      && !pc.Finished?
    case Request(k, WithCold(pc)) => pc.WantSlotUnderCold? ==> k !in s.locks
    case Request(_, Unloading(rest)) => rest != {} ==> c.pick in rest && c.pick !in s.locks
    case Request(k, Leaving(_)) => k !in s.locks
    case Request(_, _) => true
    case Eviction(_, pc) =>
      && (pc.Evicting? && pc.rest != {} ==> c.pick in pc.rest && c.pick !in s.locks)
      && !pc.Evicted?
  }

  /** One step of task `t`. */
  function Step(s: State, t: nat, c: Choice): State
    requires t < |s.tasks| && Enabled(s, t, c)
  {
    if s.tasks[t].Eviction? then EvictStep(s, t, c)
    else
      match s.tasks[t].at
      case Arriving => ArriveStep(s, t)
      case Free(_) => FreeStep(s, t)
      case WithSlot(_) => SlotStep(s, t)
      case Generation(_) => GenerationStep(s, t)
      case WithCold(_) => ColdStep(s, t)
      case WithBoth(_) => BothStep(s, t)
      case Load(_) => LoadStep(s, t, c)
      case Leaving(_) => LeaveStep(s, t)
      case Mark(_) => MarkStep(s, t)
      case Unloading(_) => UnloadStep(s, t, c)
      case UnloadingHeld(_, _) => EmptyOtherStep(s, t)
      case Notify(_) => NotifyStep(s, t)
  }

  predicate Init(s: State) {
    && s.slots == map[] && s.locks == map[] && s.cold == Nobody && s.waiting == {}
    && forall t | 0 <= t < |s.tasks| ::
         (s.tasks[t].Request? ==> s.tasks[t].at == Arriving) && (s.tasks[t].Eviction? ==> s.tasks[t].pc == EvictStart)
  }

  ghost predicate Moves(s: State, s': State) {
    exists t: nat, c: Choice :: t < |s.tasks| && Enabled(s, t, c) && Step(s, t, c) == s'
  }

  /** A finite run from an initial state. */
  ghost predicate Run(states: seq<State>) {
    && |states| > 0
    && Init(states[0])
    && forall i | 0 <= i < |states| - 1 :: Moves(states[i], states[i + 1])
  }
}
