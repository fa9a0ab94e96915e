/** How requests end.  What the surroundings answered and what a request found decides its outcome,
    in every run; and where nothing is refused and nothing evicted, every request generates. */
module SlotOutcomes {
  import opened SlotProtocol
  import opened SlotSafety
  import opened SlotProgress

  // ---------- runs with their moves ----------

  datatype Move = Move(task: nat, choice: Choice)

  predicate MovesBy(s: State, m: Move, s': State) {
    m.task < |s.tasks| && Enabled(s, m.task, m.choice) && Step(s, m.task, m.choice) == s'
  }

  /** A finite run from an initial state, with the task and the choice of each step. */
  ghost predicate Executes(states: seq<State>, moves: seq<Move>) {
    |states| == |moves| + 1 && Init(states[0])
    && forall i :: 0 <= i < |moves| ==> MovesBy(states[i], moves[i], states[i + 1])
  }

  lemma ExecutesIsRun(states: seq<State>, moves: seq<Move>)
    requires Executes(states, moves)
    ensures Run(states)
  {
    forall i | 0 <= i < |states| - 1
      ensures Moves(states[i], states[i + 1])
    {
      assert MovesBy(states[i], moves[i], states[i + 1]);
      assert Enabled(states[i], moves[i].task, moves[i].choice);
    }
  }

  lemma ExecutesBefore(states: seq<State>, moves: seq<Move>)
    requires Executes(states, moves) && moves != []
    ensures Executes(states[..|moves|], moves[..|moves| - 1])
  {
    var init, before := states[..|moves|], moves[..|moves| - 1];
    forall i | 0 <= i < |before|
      ensures MovesBy(init[i], before[i], init[i + 1])
    {
      assert MovesBy(states[i], moves[i], states[i + 1]);
    }
  }

  lemma {:induction false} RunExecutes(states: seq<State>)
    requires Run(states)
    ensures exists moves :: Executes(states, moves)
  {
    var n := |states| - 1;
    if n == 0 {
      assert Executes(states, []);
    } else {
      var init := states[..n];
      assert Run(init) by {
        forall i | 0 <= i < |init| - 1
          ensures Moves(init[i], init[i + 1])
        {
          assert Moves(states[i], states[i + 1]);
        }
      }
      RunExecutes(init);
      var moves :| Executes(init, moves);
      assert Moves(states[n - 1], states[n - 1 + 1]);
      var t: nat, c: Choice :|
        t < |states[n - 1].tasks| && Enabled(states[n - 1], t, c) && Step(states[n - 1], t, c) == states[n];
      var all := moves + [Move(t, c)];
      forall i | 0 <= i < |all|
        ensures MovesBy(states[i], all[i], states[i + 1])
      {
        assert i < |moves| ==> MovesBy(init[i], moves[i], init[i + 1]);
      }
      assert Executes(states, all);
    }
  }

  // ---------- what a request is told, and what it finds ----------

  datatype Fact =
    | Refused       // the announcement could not be sent, or the load failed
    | Accepted      // the load succeeded
    | FoundThere    // the slot was loaded when the generation was about to begin
    | FoundGone     // it was not
    | FoundEmpty    // the slot was empty at the first look
    | FoundLoading  // another request was loading it at the first look

  predicate Tells(at: RequestPc, slot: SlotState, ok: bool, fact: Fact) {
    match fact
    case Refused => at.Load? && (at.load.Announcing? || at.load.LoadingModel?) && !ok
    case Accepted => at.Load? && at.load.LoadingModel? && ok
    case FoundThere => at.Generation? && at.generation.GenerationCheck? && slot == Loaded
    case FoundGone => at.Generation? && at.generation.GenerationCheck? && slot != Loaded
    case FoundEmpty => at.WithSlot? && at.slot.Inspecting? && slot == Empty
    case FoundLoading => at.WithSlot? && at.slot.Inspecting? && slot == Loading
  }

  /** What the move tells the request, if it is its own. */
  predicate Shows(s: State, m: Move, t: nat, fact: Fact) {
    m.task == t && t < |s.tasks| && s.tasks[t].Request?
    && Tells(s.tasks[t].at, SlotAt(s, s.tasks[t].key), m.choice.ok, fact)
  }

  ghost predicate Happened(states: seq<State>, moves: seq<Move>, t: nat, fact: Fact)
    requires |moves| <= |states|
  {
    exists i :: 0 <= i < |moves| && Shows(states[i], moves[i], t, fact)
  }

  lemma HappenedSnoc(states: seq<State>, moves: seq<Move>, t: nat, fact: Fact)
    requires 0 < |moves| <= |states|
    ensures var n := |moves| - 1;
            Happened(states, moves, t, fact)
            <==> Happened(states[..|states| - 1], moves[..n], t, fact) || Shows(states[n], moves[n], t, fact)
  {
    var n := |moves| - 1;
    var init, before := states[..|states| - 1], moves[..n];
    if i :| 0 <= i < |moves| && Shows(states[i], moves[i], t, fact) {
      assert i < n ==> Shows(init[i], before[i], t, fact);
    }
    if i :| 0 <= i < |before| && Shows(init[i], before[i], t, fact) {
      assert Shows(states[i], moves[i], t, fact);
    }
  }

  predicate Ends(at: RequestPc, outcome: Outcome) {
    at.Free? && at.free.Finished? && at.free.outcome == outcome
  }

  /** From a refusal on. */
  predicate GivingUp(at: RequestPc) {
    match at
    case Leaving(success) => !success
    case Mark(pc) => pc.Failing?
    case Notify(loaded) => !loaded
    case WithBoth(pc) => pc.FailDropSlot?
    case WithCold(pc) => pc.FailDropCold?
    case _ => Ends(at, LoadFailed)
  }

  /** From a successful load up to the generation. */
  predicate PuttingIn(at: RequestPc) {
    match at
    case Leaving(success) => success
    case Mark(pc) => pc.Installing?
    case Notify(loaded) => loaded
    case WithBoth(pc) => pc.InstallDropCold?
    case WithSlot(pc) => pc.InstallDropSlot?
    case _ => false
  }

  predicate ToGenerate(at: RequestPc) {
    at.Generation? || (at.Free? && at.free.WantGeneration?) || Ends(at, Generated) || Ends(at, NotLoaded)
  }

  /** On the way into the load, and in it. */
  predicate GoingCold(at: RequestPc) {
    match at
    case Free(pc) => pc.WantCold?
    case Arriving => false
    case WithSlot(_) => false
    case Generation(_) => false
    case _ => true
  }

  predicate Waits(at: RequestPc) {
    (at.WithSlot? && at.slot.Registered?) || (at.Free? && at.free.Awaiting?)
  }

  datatype Past = Past(refused: bool, accepted: bool, there: bool, gone: bool, empty: bool, loading: bool)

  ghost function PastOf(states: seq<State>, moves: seq<Move>, t: nat): Past
    requires |moves| <= |states|
  {
    Past(Happened(states, moves, t, Refused), Happened(states, moves, t, Accepted),
         Happened(states, moves, t, FoundThere), Happened(states, moves, t, FoundGone),
         Happened(states, moves, t, FoundEmpty), Happened(states, moves, t, FoundLoading))
  }

  function Told(p: Past, at: RequestPc, slot: SlotState, ok: bool): Past {
    Past(p.refused || Tells(at, slot, ok, Refused), p.accepted || Tells(at, slot, ok, Accepted),
         p.there || Tells(at, slot, ok, FoundThere), p.gone || Tells(at, slot, ok, FoundGone),
         p.empty || Tells(at, slot, ok, FoundEmpty), p.loading || Tells(at, slot, ok, FoundLoading))
  }

  /** The past after one more move. */
  function Later(p: Past, s: State, m: Move, t: nat): Past {
    if m.task == t && t < |s.tasks| && s.tasks[t].Request? then
      Told(p, s.tasks[t].at, SlotAt(s, s.tasks[t].key), m.choice.ok)
    else p
  }

  lemma PastSnoc(states: seq<State>, moves: seq<Move>, t: nat)
    requires 0 < |moves| <= |states|
    ensures var n := |moves| - 1;
            PastOf(states, moves, t) == Later(PastOf(states[..|states| - 1], moves[..n], t), states[n], moves[n], t)
  {
    hide Happened, Tells;
    HappenedSnoc(states, moves, t, Refused);
    HappenedSnoc(states, moves, t, Accepted);
    HappenedSnoc(states, moves, t, FoundThere);
    HappenedSnoc(states, moves, t, FoundGone);
    HappenedSnoc(states, moves, t, FoundEmpty);
    HappenedSnoc(states, moves, t, FoundLoading);
  }

  predicate RefusalExplained(at: RequestPc, p: Past) {
    GivingUp(at) <==> p.refused
  }

  predicate LoadExplained(at: RequestPc, p: Past) {
    (PuttingIn(at) ==> p.accepted) && (p.accepted ==> PuttingIn(at) || ToGenerate(at))
  }

  predicate GenerationExplained(at: RequestPc, p: Past) {
    (Ends(at, NotLoaded) <==> p.gone)
    && ((at.Generation? && at.generation.Generating?) || Ends(at, Generated) <==> p.there)
  }

  predicate EntryExplained(at: RequestPc, p: Past) {
    (GoingCold(at) ==> p.empty) && (Waits(at) ==> p.loading)
  }

  /** The program point of a request against its past. */
  predicate Explained(at: RequestPc, p: Past) {
    RefusalExplained(at, p) && LoadExplained(at, p) && GenerationExplained(at, p) && EntryExplained(at, p)
  }

  /** Where a request goes from a program point, by what its slot holds and what it is told. */
  predicate Goes(at: RequestPc, slot: SlotState, ok: bool, next: RequestPc) {
    match at
    case Arriving => next == Free(LoopHead)
    case Free(pc) =>
      (match pc
       case LoopHead => next == WithSlot(Inspecting)
       case Awaiting => next == Free(LoopHead)
       case WantCold => next == WithCold(WantSlotUnderCold)
       case WantGeneration => next == Generation(GenerationCheck)
       case Finished(_) => false)
    case WithSlot(pc) =>
      (match pc
       case Inspecting =>
         next == (match slot
                  case Loaded => Free(WantGeneration)
                  case Loading => WithSlot(Registered)
                  case Empty => Free(WantCold))
       case Registered => next == Free(Awaiting)
       case InstallDropSlot => next == Free(WantGeneration))
    case Generation(pc) =>
      if pc.Generating? then next == Free(Finished(Generated))
      else next == if slot == Loaded then Generation(Generating) else Free(Finished(NotLoaded))
    case WithCold(pc) =>
      (match pc
       case WantSlotUnderCold => next == WithBoth(Rechecking)
       case RecheckDropCold => next == Free(WantGeneration)
       case InnerDropCold => false
       case FailDropCold => next == Free(Finished(LoadFailed)))
    case WithBoth(pc) =>
      (match pc
       case Rechecking => next == if slot == Loaded then WithCold(RecheckDropCold) else Mark(Marked)
       case InnerRegistered => false
       case FailDropSlot => next == WithCold(FailDropCold)
       case InstallDropCold => next == WithSlot(InstallDropSlot))
    case Load(pc) =>
      (match pc
       case Announcing => next == if ok then Load(Snapshotting) else Leaving(false)
       case Snapshotting => next.Unloading?
       case LoadingModel => next == Leaving(ok))
    case Leaving(success) => next == Mark(if success then Installing else Failing)
    case Mark(pc) =>
      (match pc
       case Marked => next == Load(Announcing)
       case Failing => next == Notify(false)
       case Installing => next == Notify(true))
    case Unloading(_) => next.UnloadingHeld? || next == Load(LoadingModel)
    case UnloadingHeld(_, _) => next.Unloading?
    case Notify(loaded) => next == WithBoth(if loaded then InstallDropCold else FailDropSlot)
  }

  /** A request that can step, away from the dead arm. */
  predicate Steps(s: State, t: nat, c: Choice) {
    t < |s.tasks| && s.tasks[t].Request? && Enabled(s, t, c)
    && s.tasks[t].at != WithBoth(InnerRegistered) && s.tasks[t].at != WithCold(InnerDropCold)
    && (s.tasks[t].at == WithBoth(Rechecking) ==> SlotAt(s, s.tasks[t].key) != Loading)
  }

  predicate StepGoes(s: State, t: nat, c: Choice)
    requires t < |s.tasks| && s.tasks[t].Request? && Enabled(s, t, c)
  {
    var s' := Step(s, t, c);
    t < |s'.tasks| && s'.tasks[t].Request? && s'.tasks[t].key == s.tasks[t].key
    && Goes(s.tasks[t].at, SlotAt(s, s.tasks[t].key), c.ok, s'.tasks[t].at)
  }

  lemma FreeStepGoes(s: State, t: nat, c: Choice)
    requires Steps(s, t, c) && (var at := s.tasks[t].at; at.Arriving? || at.Free?)
    ensures StepGoes(s, t, c)
  {
  }

  lemma SlotStepGoes(s: State, t: nat, c: Choice)
    requires Steps(s, t, c) && (var at := s.tasks[t].at; at.WithSlot? || at.Generation?)
    ensures StepGoes(s, t, c)
  {
  }

  lemma ColdStepGoes(s: State, t: nat, c: Choice)
    requires Steps(s, t, c) && (var at := s.tasks[t].at; at.WithCold? || at.WithBoth?)
    ensures StepGoes(s, t, c)
  {
  }

  lemma MarkStepGoes(s: State, t: nat, c: Choice)
    requires Steps(s, t, c) && (var at := s.tasks[t].at; at.Mark? || at.Notify? || at.Leaving?)
    ensures StepGoes(s, t, c)
  {
  }

  lemma LoadStepGoes(s: State, t: nat, c: Choice)
    requires Steps(s, t, c) && (var at := s.tasks[t].at; at.Load? || at.Unloading? || at.UnloadingHeld?)
    ensures StepGoes(s, t, c)
  {
  }

  lemma EachStepGoes(s: State, t: nat, c: Choice)
    requires Steps(s, t, c)
    ensures StepGoes(s, t, c)
  {
    hide StepGoes, Enabled;
    var at := s.tasks[t].at;
    if at.Arriving? || at.Free? {
      FreeStepGoes(s, t, c);
    } else if at.WithSlot? || at.Generation? {
      SlotStepGoes(s, t, c);
    } else if at.WithCold? || at.WithBoth? {
      ColdStepGoes(s, t, c);
    } else if at.Mark? || at.Notify? || at.Leaving? {
      MarkStepGoes(s, t, c);
    } else {
      LoadStepGoes(s, t, c);
    }
  }

  lemma RefusalStaysExplained(at: RequestPc, slot: SlotState, ok: bool, next: RequestPc, p: Past)
    requires RefusalExplained(at, p) && Goes(at, slot, ok, next)
    ensures RefusalExplained(next, Told(p, at, slot, ok))
  {
  }

  lemma LoadStaysExplained(at: RequestPc, slot: SlotState, ok: bool, next: RequestPc, p: Past)
    requires LoadExplained(at, p) && Goes(at, slot, ok, next)
    ensures LoadExplained(next, Told(p, at, slot, ok))
  {
  }

  lemma GenerationStaysExplained(at: RequestPc, slot: SlotState, ok: bool, next: RequestPc, p: Past)
    requires GenerationExplained(at, p) && Goes(at, slot, ok, next)
    ensures GenerationExplained(next, Told(p, at, slot, ok))
  {
  }

  lemma EntryStaysExplained(at: RequestPc, slot: SlotState, ok: bool, next: RequestPc, p: Past)
    requires EntryExplained(at, p) && Goes(at, slot, ok, next)
    ensures EntryExplained(next, Told(p, at, slot, ok))
  {
  }

  lemma StaysExplained(at: RequestPc, slot: SlotState, ok: bool, next: RequestPc, p: Past)
    requires Explained(at, p) && Goes(at, slot, ok, next)
    ensures Explained(next, Told(p, at, slot, ok))
  {
    hide RefusalExplained, LoadExplained, GenerationExplained, EntryExplained, Goes, Told;
    RefusalStaysExplained(at, slot, ok, next, p);
    LoadStaysExplained(at, slot, ok, next, p);
    GenerationStaysExplained(at, slot, ok, next, p);
    EntryStaysExplained(at, slot, ok, next, p);
  }

  lemma {:induction false} PastExplains(states: seq<State>, moves: seq<Move>, t: nat)
    requires Executes(states, moves) && t < |states[0].tasks| && states[0].tasks[t].Request?
    ensures var s := states[|states| - 1];
            Inv(s) && t < |s.tasks| && s.tasks[t].Request? && Explained(s.tasks[t].at, PastOf(states, moves, t))
  {
    ExecutesIsRun(states, moves);
    RunIsSafe(states, |states| - 1);
    hide Inv, Run;
    if moves != [] {
      var n := |moves| - 1;
      var init, before := states[..n + 1], moves[..n];
      ExecutesBefore(states, moves);
      hide Explained, PastOf, Step, Enabled, Later, Init;
      PastExplains(init, before, t);
      PastSnoc(states, moves, t);
      assert MovesBy(states[n], moves[n], states[n + 1]);
      LastExplained(states[n], moves[n], t, PastOf(init, before, t));
    }
  }

  lemma LastExplained(s: State, m: Move, t: nat, p: Past)
    requires Inv(s) && t < |s.tasks| && s.tasks[t].Request? && Explained(s.tasks[t].at, p)
    requires m.task < |s.tasks| && Enabled(s, m.task, m.choice)
    ensures var s' := Step(s, m.task, m.choice);
            t < |s'.tasks| && s'.tasks[t].Request? && Explained(s'.tasks[t].at, Later(p, s, m, t))
  {
    assert TaskInv(s, t);
    assert m == Move(m.task, m.choice);
    if m.task == t {
      NeverLoading(s, t);
      hide Inv, TaskInv, Step, Enabled, Explained, Goes;
      EachStepGoes(s, t, m.choice);
      StaysExplained(s.tasks[t].at, SlotAt(s, s.tasks[t].key), m.choice.ok, Step(s, t, m.choice).tasks[t].at, p);
    } else {
      StepGuarantees(s, m.task, m.choice);
    }
  }

  lemma NeverLoading(s: State, t: nat)
    requires Inv(s) && t < |s.tasks| && s.tasks[t].Request?
    ensures s.tasks[t].at == WithBoth(Rechecking) ==> SlotAt(s, s.tasks[t].key) != Loading
    ensures s.tasks[t].at != WithBoth(InnerRegistered) && s.tasks[t].at != WithCold(InnerDropCold)
  {
    assert TaskInv(s, t);
  }

  /** In every run, of every request: it ended without a model exactly when it was refused, that
      is, when its announcement could not be sent or its load failed; it found the model gone
      exactly when its slot was not loaded when it was to generate, and generated exactly when it
      was.  A load that succeeded is put in place; nothing is loaded unless the slot was found
      empty, and nothing waited for unless it was found loading. */
  lemma OutcomesAreEarned(states: seq<State>, moves: seq<Move>, t: nat)
    requires Executes(states, moves) && t < |states[0].tasks| && states[0].tasks[t].Request?
    ensures var last := states[|states| - 1];
            t < |last.tasks| && last.tasks[t].Request?
            && (var at := last.tasks[t].at;
                (at.Free? && at.free.Finished? ==>
                      (at.free.outcome == LoadFailed <==> Happened(states, moves, t, Refused))
                      && (at.free.outcome == NotLoaded <==> Happened(states, moves, t, FoundGone))
                      && (at.free.outcome == Generated <==> Happened(states, moves, t, FoundThere)))
                && (Happened(states, moves, t, Accepted) ==> PuttingIn(at) || ToGenerate(at))
                && (at.Load? || at.Unloading? ==> Happened(states, moves, t, FoundEmpty))
                && (at == Free(Awaiting) ==> Happened(states, moves, t, FoundLoading)))
  {
    PastExplains(states, moves, t);
  }

  // ---------- one model, nothing refused, nothing evicted ----------

  /** The slot holds the model from the moment it is put in place. */
  predicate HasModel(at: RequestPc) {
    match at
    case Notify(loaded) => loaded
    case WithBoth(pc) => pc.InstallDropCold?
    case WithSlot(pc) => pc.InstallDropSlot?
    case WithCold(pc) => pc.RecheckDropCold?
    case Free(pc) => pc.WantGeneration?
    case _ => at.Generation?
  }

  predicate Undisturbed(s: State, k: Key) {
    s.slots.Keys <= {k}
    && forall t :: 0 <= t < |s.tasks| ==>
         s.tasks[t].Request? && s.tasks[t].key == k
         && CalmAt(s.tasks[t].at, SlotAt(s, k))
         && (s.tasks[t].at.Unloading? ==> s.tasks[t].at.rest == {}) && !s.tasks[t].at.UnloadingHeld?
  }

  /** The slot of the only key, before and after. */
  lemma SlotStays(s: State, k: Key, t: nat, c: Choice)
    requires Inv(s) && Undisturbed(s, k) && t < |s.tasks| && Enabled(s, t, c) && c.ok
    ensures SlotAt(s, k) == Loaded ==> SlotAt(Step(s, t, c), k) == Loaded
    ensures Step(s, t, c).slots.Keys <= {k}
  {
    assert TaskInv(s, t);
  }

  lemma StaysUndisturbed(s: State, k: Key, t: nat, c: Choice)
    requires Inv(s) && Undisturbed(s, k) && t < |s.tasks| && Enabled(s, t, c) && c.ok
    ensures Undisturbed(Step(s, t, c), k)
  {
    SlotStays(s, k, t, c);
    StepGuarantees(s, t, c);
    NeverLoading(s, t);
    OwnStaysUndisturbed(s, k, t, c);
    NoneToUnload(s, k, t, c);
    hide Inv, Step, Enabled, Steps;
  }

  predicate CalmAt(at: RequestPc, slot: SlotState) {
    !GivingUp(at) && !Ends(at, NotLoaded) && (HasModel(at) ==> slot == Loaded)
  }

  lemma StaysCalm(at: RequestPc, slot: SlotState, next: RequestPc, after: SlotState)
    requires CalmAt(at, slot) && Goes(at, slot, true, next)
    requires slot == Loaded ==> after == Loaded
    requires next.Notify? && next.loaded ==> after == Loaded
    ensures CalmAt(next, after)
  {
  }

  lemma OwnStaysUndisturbed(s: State, k: Key, t: nat, c: Choice)
    requires Steps(s, t, c) && Undisturbed(s, k) && c.ok
    requires SlotAt(s, k) == Loaded ==> SlotAt(Step(s, t, c), k) == Loaded
    ensures var s' := Step(s, t, c);
            t < |s'.tasks| && s'.tasks[t].Request? && s'.tasks[t].key == k && CalmAt(s'.tasks[t].at, SlotAt(s', k))
  {
    EachStepGoes(s, t, c);
    PutIn(s, t, c);
    hide Steps, Step;
    StaysCalm(s.tasks[t].at, SlotAt(s, k), Step(s, t, c).tasks[t].at, SlotAt(Step(s, t, c), k));
  }

  lemma PutIn(s: State, t: nat, c: Choice)
    requires Steps(s, t, c)
    ensures var s' := Step(s, t, c);
            t < |s'.tasks| && s'.tasks[t].Request? && s'.tasks[t].at.Notify? && s'.tasks[t].at.loaded ==>
              SlotAt(s', s.tasks[t].key) == Loaded
  {
    EachStepGoes(s, t, c);
  }

  lemma NoneToUnload(s: State, k: Key, t: nat, c: Choice)
    requires Steps(s, t, c) && Undisturbed(s, k)
    ensures var at := Step(s, t, c).tasks[t].at; (at.Unloading? ==> at.rest == {}) && !at.UnloadingHeld?
  {
    EachStepGoes(s, t, c);
  }

  predicate AllFor(s: State, k: Key) {
    forall t :: 0 <= t < |s.tasks| ==> s.tasks[t].Request? && s.tasks[t].key == k
  }

  predicate NothingRefused(moves: seq<Move>) {
    forall i :: 0 <= i < |moves| ==> moves[i].choice.ok
  }

  lemma {:induction false} RunUndisturbed(states: seq<State>, moves: seq<Move>, k: Key)
    requires Executes(states, moves) && AllFor(states[0], k) && NothingRefused(moves)
    ensures Inv(states[|states| - 1]) && Undisturbed(states[|states| - 1], k)
  {
    ExecutesIsRun(states, moves);
    RunIsSafe(states, |states| - 1);
    hide Inv, Run;
    if moves != [] {
      var n := |moves| - 1;
      var init, before := states[..n + 1], moves[..n];
      ExecutesBefore(states, moves);
      hide Undisturbed, Step, Enabled, Init, AllFor;
      RunUndisturbed(init, before, k);
      assert MovesBy(states[n], moves[n], states[n + 1]);
      StaysUndisturbed(states[n], k, moves[n].task, moves[n].choice);
    } else {
      assert forall t :: 0 <= t < |states[0].tasks| ==> states[0].tasks[t].at == Arriving;
    }
  }

  predicate AllGenerated(s: State) {
    forall t :: 0 <= t < |s.tasks| ==> s.tasks[t].Request? && s.tasks[t].at == Free(Finished(Generated))
  }

  /** Requests for one model, none refused anything and none evicted: however they interleave, when
      the run cannot go on, every one of them has generated. */
  lemma EveryRequestGenerates(states: seq<State>, moves: seq<Move>, k: Key)
    requires Executes(states, moves) && AllFor(states[0], k) && NothingRefused(moves)
    requires !CanMove(states[|states| - 1])
    ensures AllGenerated(states[|states| - 1])
  {
    ExecutesIsRun(states, moves);
    StoppedMeansAllEnded(states);
    RunUndisturbed(states, moves, k);
    var last := states[|states| - 1];
    forall t | 0 <= t < |last.tasks|
      ensures last.tasks[t].Request? && last.tasks[t].at == Free(Finished(Generated))
    {
      var at := last.tasks[t].at;
      assert Ended(last.tasks[t]) && !Ends(at, LoadFailed) && !Ends(at, NotLoaded);
    }
  }

  /** Every run in which nothing was refused goes on, without a refusal, until all have ended. */
  lemma {:induction false} GoesToTheEnd(states: seq<State>, moves: seq<Move>)
    returns (all: seq<State>, allMoves: seq<Move>)
    requires Executes(states, moves) && NothingRefused(moves) && Inv(states[|states| - 1])
    ensures Executes(all, allMoves) && NothingRefused(allMoves) && all[0] == states[0]
    ensures !CanMove(all[|all| - 1])
    decreases Sum(Wakes, states[|states| - 1], |states[|states| - 1].tasks|),
              Sum(Snapshots, states[|states| - 1], |states[|states| - 1].tasks|),
              Sum(Rank, states[|states| - 1], |states[|states| - 1].tasks|)
  {
    var s := states[|states| - 1];
    all, allMoves := states, moves;
    if CanMove(s) {
      var t: nat, c: Choice :| t < |s.tasks| && Enabled(s, t, c);
      var yes := c.(ok := true);
      assert Enabled(s, t, yes);
      StepPreserves(s, t, yes);
      StepLowers(s, t, yes);
      hide Inv, Step, Enabled, CanMove;
      var more, moreMoves := states + [Step(s, t, yes)], moves + [Move(t, yes)];
      forall i | 0 <= i < |moreMoves|
        ensures MovesBy(more[i], moreMoves[i], more[i + 1])
      {
        assert i < |moves| ==> MovesBy(states[i], moves[i], states[i + 1]);
      }
      all, allMoves := GoesToTheEnd(more, moreMoves);
    }
  }

  /** From any number of requests for one model there is a run in which all of them generate. */
  lemma SomeRunGenerates(s: State, k: Key)
    requires Init(s) && AllFor(s, k)
    ensures exists states, moves ::
              Executes(states, moves) && states[0] == s && AllGenerated(states[|states| - 1])
  {
    InitEstablishes(s);
    var states, moves := GoesToTheEnd([s], []);
    EveryRequestGenerates(states, moves, k);
  }
}
