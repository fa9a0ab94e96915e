/** The table of downloads: reserving, starting, cancelling, finishing and clearing under one lock. */
module DownloadLifecycle {
  datatype Status = Downloading | Completed | Failed | Cancelled

  datatype Progress = Progress(status: Status, taskExited: bool)

  /** Model ids, told apart and nothing else. */
  type Id = nat

  /** The table, and for each model id who is at work for it: callers between entering the id and
      spawning its task, running tasks, and holders of reservations. */
  datatype State = State(
    entries: map<Id, Progress>,
    starting: multiset<Id>,
    running: multiset<Id>,
    reserved: multiset<Id>)

  const Empty: State := State(map[], multiset{}, multiset{}, multiset{})

  datatype Op =
    | Begin(id: Id)                   // a start enters the id
    | DirectoriesFail(id: Id)         // ... and gives up before spawning
    | Spawn(id: Id)                   // ... or spawns the task
    | Finish(id: Id, ok: bool)        // a task ends
    | Reserve(id: Id)
    | Cancel(id: Id)
    | Clear(id: Id)

  predicate Taken(entries: map<Id, Progress>, id: Id) {
    && id in entries
    && (entries[id].status == Downloading || (entries[id].status == Cancelled && !entries[id].taskExited))
  }

  function Ended(p: Progress, ok: bool): Progress {
    if ok then Progress(Completed, true)
    else Progress(if p.status == Cancelled then Cancelled else Failed, true)
  }

  predicate Clearable(p: Progress) {
    p.status != Downloading && p.taskExited
  }

  /** One operation; an operation that is refused, or that nobody is there to do, changes nothing. */
  function Apply(s: State, op: Op): State {
    match op
    case Begin(id) =>
      if Taken(s.entries, id) then s
      else s.(entries := s.entries[id := Progress(Downloading, false)], starting := s.starting + multiset{id})
    case DirectoriesFail(id) => if id in s.starting then s.(starting := s.starting - multiset{id}) else s
    case Spawn(id) =>
      if id in s.starting then s.(starting := s.starting - multiset{id}, running := s.running + multiset{id}) else s
    case Finish(id, ok) =>
      if id !in s.running then s
      else
        var left := s.running - multiset{id};
        if id in s.entries then s.(entries := s.entries[id := Ended(s.entries[id], ok)], running := left)
        else s.(running := left)
    case Reserve(id) =>
      if Taken(s.entries, id) then s
      else s.(entries := s.entries[id := Progress(Downloading, false)], reserved := s.reserved + multiset{id})
    case Cancel(id) =>
      if id in s.entries then s.(entries := s.entries[id := s.entries[id].(status := Cancelled)]) else s
    case Clear(id) =>
      if id in s.entries && Clearable(s.entries[id]) then s.(entries := s.entries - {id}) else s
  }

  function Run(s: State, ops: seq<Op>): State {
    if ops == [] then s else Apply(Run(s, ops[..|ops| - 1]), ops[|ops| - 1])
  }

  function Holders(s: State, id: Id): nat {
    s.starting[id] + s.running[id] + s.reserved[id]
  }

  /** A task that has not exited is downloading or being cancelled; one that has is not downloading. */
  predicate Coherent(p: Progress) {
    if p.taskExited then p.status != Downloading else p.status == Downloading || p.status == Cancelled
  }

  /** An id somebody works for has one worker, and an entry that says so. */
  predicate IdInv(s: State, id: Id) {
    && (id in s.entries ==> Coherent(s.entries[id]))
    && (Holders(s, id) > 0 ==> Holders(s, id) == 1 && id in s.entries && !s.entries[id].taskExited)
  }

  ghost predicate Inv(s: State) {
    forall id :: IdInv(s, id)
  }

  lemma ApplyKeepsOthers(s: State, op: Op, id: Id)
    requires id != op.id
    ensures Holders(Apply(s, op), id) == Holders(s, id)
    ensures id in Apply(s, op).entries <==> id in s.entries
    ensures id in s.entries ==> Apply(s, op).entries[id] == s.entries[id]
  {
  }

  lemma ApplyKeepsOwn(s: State, op: Op)
    requires IdInv(s, op.id)
    ensures IdInv(Apply(s, op), op.id)
  {
  }

  lemma ApplyPreserves(s: State, op: Op)
    requires Inv(s)
    ensures Inv(Apply(s, op))
  {
    forall id ensures IdInv(Apply(s, op), id) {
      assert IdInv(s, id);
      if id == op.id { ApplyKeepsOwn(s, op); } else { ApplyKeepsOthers(s, op, id); }
    }
  }

  /** However the operations interleave, an id has at most one worker, whose entry is in the table,
      not marked exited, not cleared by a clear and not taken over by another start. */
  lemma OneWorkerPerModel(ops: seq<Op>, id: Id)
    requires Holders(Run(Empty, ops), id) > 0
    ensures var s := Run(Empty, ops);
      && Holders(s, id) == 1 && id in s.entries && !s.entries[id].taskExited
      && id in Apply(s, Clear(id)).entries && Apply(s, Begin(id)) == s && Apply(s, Reserve(id)) == s
  {
    RunPreserves(ops);
    assert IdInv(Run(Empty, ops), id);
  }

  lemma {:induction false} RunPreserves(ops: seq<Op>)
    ensures Inv(Run(Empty, ops))
  {
    if ops != [] {
      RunPreserves(ops[..|ops| - 1]);
      ApplyPreserves(Run(Empty, ops[..|ops| - 1]), ops[|ops| - 1]);
    }
  }

  /** An entry that looks busy while nobody works for it. */
  predicate Orphaned(s: State, id: Id) {
    id in s.entries && !s.entries[id].taskExited && Holders(s, id) == 0
  }

  /** The operation is a start giving up after it entered the id. */
  predicate Abandons(s: State, op: Op, id: Id) {
    op == DirectoriesFail(id) && id in s.starting
  }

  lemma OrphanStays(s: State, op: Op, id: Id)
    requires IdInv(s, id) && Orphaned(s, id)
    ensures Orphaned(Apply(s, op), id)
  {
    if id != op.id { ApplyKeepsOthers(s, op, id); }
  }

  lemma OrphanOrigin(s: State, op: Op, id: Id)
    requires IdInv(s, id) && !Orphaned(s, id)
    ensures Orphaned(Apply(s, op), id) <==> Abandons(s, op, id)
  {
    if id != op.id { ApplyKeepsOthers(s, op, id); }
  }

  /** Some start of the id failed to create its directories along the way. */
  predicate EverAbandoned(ops: seq<Op>, id: Id) {
    ops != [] &&
    (EverAbandoned(ops[..|ops| - 1], id) || Abandons(Run(Empty, ops[..|ops| - 1]), ops[|ops| - 1], id))
  }

  /** An id is stuck exactly when some start of it failed to create its directories. */
  lemma {:induction false} StuckExactlyWhenAbandoned(ops: seq<Op>, id: Id)
    ensures Orphaned(Run(Empty, ops), id) <==> EverAbandoned(ops, id)
  {
    if ops != [] {
      var init := ops[..|ops| - 1];
      StuckExactlyWhenAbandoned(init, id);
      RunPreserves(init);
      assert IdInv(Run(Empty, init), id);
      if Orphaned(Run(Empty, init), id) {
        OrphanStays(Run(Empty, init), ops[|ops| - 1], id);
      } else {
        OrphanOrigin(Run(Empty, init), ops[|ops| - 1], id);
      }
    }
  }

  /** Once stuck, no sequence of operations ever gets a worker for the id again. */
  lemma {:induction false} StuckForever(s: State, id: Id, ops: seq<Op>)
    requires Inv(s) && Orphaned(s, id)
    ensures Inv(Run(s, ops)) && Orphaned(Run(s, ops), id)
  {
    if ops != [] {
      StuckForever(s, id, ops[..|ops| - 1]);
      ApplyPreserves(Run(s, ops[..|ops| - 1]), ops[|ops| - 1]);
      assert IdInv(Run(s, ops[..|ops| - 1]), id);
      OrphanStays(Run(s, ops[..|ops| - 1]), ops[|ops| - 1], id);
    }
  }

  // ---------- what is refused, what a worker leaves behind, what is cleared ----------

  lemma OrphansOnly(ops: seq<Op>, id: Id)
    ensures var s := Run(Empty, ops);
            id in s.entries && !s.entries[id].taskExited <==> Holders(s, id) > 0 || EverAbandoned(ops, id)
    ensures IdInv(Run(Empty, ops), id)
  {
    RunPreserves(ops);
    StuckExactlyWhenAbandoned(ops, id);
    assert IdInv(Run(Empty, ops), id);
  }

  /** A start or a reservation is refused exactly while somebody works for the id, or when a start of
      it was abandoned.  Otherwise it enters the id, as downloading, for one new worker. */
  lemma RefusedExactly(ops: seq<Op>, id: Id)
    ensures var s := Run(Empty, ops);
            var begun, reserved := Apply(s, Begin(id)), Apply(s, Reserve(id));
            if Holders(s, id) > 0 || EverAbandoned(ops, id) then begun == s && reserved == s
            else
              id in begun.entries && begun.entries[id] == Progress(Downloading, false) && begun.starting[id] == 1
              && id in reserved.entries && reserved.entries[id] == Progress(Downloading, false)
              && reserved.reserved[id] == 1 && Holders(begun, id) == 1 && Holders(reserved, id) == 1
  {
    OrphansOnly(ops, id);
  }

  /** An entry is cleared exactly when nobody works for the id and no start of it was abandoned. */
  lemma ClearedExactly(ops: seq<Op>, id: Id)
    ensures var s := Run(Empty, ops);
            id in Apply(s, Clear(id)).entries <==> Holders(s, id) > 0 || EverAbandoned(ops, id)
  {
    OrphansOnly(ops, id);
  }

  /** Whether the id was cancelled since it was last entered. */
  function CancelledSince(ops: seq<Op>, id: Id): bool {
    if ops == [] then false
    else
      var init, op := ops[..|ops| - 1], ops[|ops| - 1];
      var free := Holders(Run(Empty, init), id) == 0 && !EverAbandoned(init, id);
      if op == Cancel(id) then true
      else if (op == Begin(id) || op == Reserve(id)) && free then false
      else CancelledSince(init, id)
  }

  lemma {:induction false} StatusTells(ops: seq<Op>, id: Id)
    ensures var s := Run(Empty, ops);
            Holders(s, id) > 0 ==>
              id in s.entries && s.entries[id].status == if CancelledSince(ops, id) then Cancelled else Downloading
  {
    if ops != [] {
      var init, op := ops[..|ops| - 1], ops[|ops| - 1];
      StatusTells(init, id);
      OrphansOnly(init, id);
      OrphansOnly(ops, id);
      if op.id != id {
        ApplyKeepsOthers(Run(Empty, init), op, id);
      } else {
        StatusStep(init, op);
      }
    }
  }

  lemma StatusStep(ops: seq<Op>, op: Op)
    requires var s := Run(Empty, ops);
             Holders(s, op.id) > 0 ==>
               op.id in s.entries
               && s.entries[op.id].status == if CancelledSince(ops, op.id) then Cancelled else Downloading
    requires Holders(Run(Empty, ops), op.id) > 0 || EverAbandoned(ops, op.id)
             <==> op.id in Run(Empty, ops).entries && !Run(Empty, ops).entries[op.id].taskExited
    requires IdInv(Run(Empty, ops), op.id)
    ensures var s := Run(Empty, ops + [op]);
            Holders(s, op.id) > 0 ==>
              op.id in s.entries
              && s.entries[op.id].status == if CancelledSince(ops + [op], op.id) then Cancelled else Downloading
  {
    assert (ops + [op])[..|ops|] == ops;
    assert Run(Empty, ops + [op]) == Apply(Run(Empty, ops), op);
    hide Run, EverAbandoned;
  }

  /** A task that ends leaves its id free, with an entry that says how it went: completed if it
      succeeded, whether it was cancelled or not; otherwise cancelled or failed. */
  lemma EndsExactly(ops: seq<Op>, id: Id, ok: bool)
    requires id in Run(Empty, ops).running
    ensures var s := Apply(Run(Empty, ops), Finish(id, ok));
            id in s.entries && Holders(s, id) == 0
            && s.entries[id] ==
               Progress(if ok then Completed else if CancelledSince(ops, id) then Cancelled else Failed, true)
  {
    RunPreserves(ops);
    assert IdInv(Run(Empty, ops), id);
    StatusTells(ops, id);
  }

  /** The table as the source keeps it. */
  class DownloadManager {
    var downloads: map<Id, Progress>

    constructor ()
      ensures downloads == map[]
    {
      downloads := map[];
    }

    /** Enters what the caller passes.  The callers pass an entry that is downloading and has not
        exited, which is the reservation of the model. */
    method ReserveDownload(id: Id, entry: Progress) returns (reserved: bool)
      modifies this
      ensures !reserved <==> id in old(downloads)
                             && (old(downloads)[id].status == Downloading
                                 || (old(downloads)[id].status == Cancelled && !old(downloads)[id].taskExited))
      ensures downloads == if reserved then old(downloads)[id := entry] else old(downloads)
      ensures entry == Progress(Downloading, false) ==>
                forall s: State | s.entries == old(downloads) :: downloads == Apply(s, Reserve(id)).entries
    {
      if id in downloads {
        var existing := downloads[id];
        if existing.status == Downloading || (existing.status == Cancelled && !existing.taskExited) {
          return false;
        }
      }
      downloads := downloads[id := entry];
      return true;
    }

    /** The part of a start that runs under the lock. */
    method BeginDownload(id: Id) returns (ok: bool)
      modifies this
      ensures !ok <==> id in old(downloads)
                       && (old(downloads)[id].status == Downloading
                           || (old(downloads)[id].status == Cancelled && !old(downloads)[id].taskExited))
      ensures forall s: State | s.entries == old(downloads) :: downloads == Apply(s, Begin(id)).entries
    {
      if id in downloads {
        var existing := downloads[id];
        if existing.status == Downloading { return false; }
        if existing.status == Cancelled && !existing.taskExited { return false; }
      }
      downloads := downloads[id := Progress(Downloading, false)];
      return true;
    }

    /** What a task does under the lock when it ends. */
    method FinishDownload(id: Id, succeeded: bool)
      modifies this
      ensures forall s: State | s.entries == old(downloads) && id in s.running ::
                downloads == Apply(s, Finish(id, succeeded)).entries
    {
      if id in downloads {
        var progress := downloads[id];
        if succeeded {
          progress := progress.(status := Completed);
        } else if progress.status != Cancelled {
          progress := progress.(status := Failed);
        }
        downloads := downloads[id := progress.(taskExited := true)];
      }
    }

    method CancelDownload(id: Id) returns (found: bool)
      modifies this
      ensures found <==> id in old(downloads)
      ensures forall s: State | s.entries == old(downloads) :: downloads == Apply(s, Cancel(id)).entries
    {
      found := id in downloads;
      if found { downloads := downloads[id := downloads[id].(status := Cancelled)]; }
    }

    method ClearCompleted(id: Id)
      modifies this
      ensures forall s: State | s.entries == old(downloads) :: downloads == Apply(s, Clear(id)).entries
    {
      if id in downloads {
        var progress := downloads[id];
        var isTerminal := progress.status == Completed || progress.status == Failed || progress.status == Cancelled;
        if isTerminal && progress.taskExited { downloads := downloads - {id}; }
      }
    }
  }
}
