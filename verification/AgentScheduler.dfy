/**
 The in-process scheduler of AgentRuntime: one event loop, one worker task per
 run, a flag that asks a busy worker to look again. Reads of the store happen in
 threads, so a worker resumes with a value that may be old.
 */
module AgentScheduler {

  type RunId = nat
  type SubmissionId = nat
  type TaskId = nat

  /** A run as it was returned to a caller: `generation` counts the acceptances that made it PENDING. */
  datatype Snapshot = Snapshot(run: RunId, submission: SubmissionId, pending: bool, generation: nat,
                               ownSubmission: bool)

  datatype Stored = Stored(submission: SubmissionId, pending: bool, generation: nat)

  /** Where the coroutine of a worker is suspended, or how it ended. */
  datatype Pc =
    | Created(pending: bool)
    | Advancing
    | Reading
    | HasRead(pending: bool)
    | ReadingAgain
    | HasReadAgain(pending: bool)
    | Failing
    | Finished
    | Raised

  datatype Task = Task(run: RunId, submission: SubmissionId, pc: Pc) {
    predicate Done() { pc in {Finished, Raised} }
  }

  /** `calls` are accepted snapshots on their way to `schedule`; `owed` are the runs whose current
      PENDING state was passed to `schedule`; `raised` are the runs one of whose workers failed. */
  datatype Loop = Loop(store: map<RunId, Stored>, running: map<(RunId, SubmissionId), TaskId>, again: set<RunId>,
                       tasks: map<TaskId, Task>, calls: set<Snapshot>, owed: set<RunId>, raised: set<RunId>)

  datatype Event =
    | Accept(run: RunId, submission: SubmissionId)
    | Replay(run: RunId, ownSubmission: bool)
    | Schedule(snapshot: Snapshot, task: TaskId)
    | Begin(task: TaskId)
    | AdvanceReturns(task: TaskId)
    | ThreadReads(task: TaskId)
    | ResumeAfterRead(task: TaskId)
    | ResumeAfterSecondRead(task: TaskId)
    | Fails(task: TaskId)
    | FailureHandled(task: TaskId)
    | DoneCallback(task: TaskId)
    | LeavesPending(run: RunId)

  predicate Busy(l: Loop, run: RunId) {
    exists key | key in l.running :: key.0 == run && l.running[key] in l.tasks && !l.tasks[l.running[key]].Done()
  }

  function SetPc(l: Loop, task: TaskId, pc: Pc): Loop
    requires task in l.tasks
  {
    l.(tasks := l.tasks[task := l.tasks[task].(pc := pc)])
  }

  /** From the top of the loop to the next await. */
  function LoopTop(l: Loop, task: TaskId, pending: bool): Loop
    requires task in l.tasks
  {
    SetPc(l, task, if pending then Advancing else Reading).(again := l.again - {l.tasks[task].run})
  }

  function ScheduleStep(l: Loop, snapshot: Snapshot, task: TaskId): Loop {
    var run := snapshot.run;
    if !snapshot.pending || !snapshot.ownSubmission then l
    else
      var owing := if run in l.store && l.store[run].pending && l.store[run].generation == snapshot.generation
                   then l.owed + {run} else l.owed;
      if Busy(l, run) then l.(again := l.again + {run}, owed := owing)
      else if task in l.tasks then l
      else l.(tasks := l.tasks[task := Task(run, snapshot.submission, Created(snapshot.pending))],
              running := l.running[(run, snapshot.submission) := task], owed := owing)
  }

  function ResumeStep(l: Loop, task: TaskId, pending: bool): Loop
    requires task in l.tasks
  {
    var run := l.tasks[task].run;
    if !pending && run !in l.again then SetPc(l, task, Finished)
    else if run in l.again then SetPc(l, task, ReadingAgain)
    else LoopTop(l, task, pending)
  }

  function Step(l: Loop, e: Event): Loop {
    match e
    case Accept(run, submission) =>
      if run in l.store && !l.store[run].pending then
        var stored := Stored(submission, true, l.store[run].generation + 1);
        l.(store := l.store[run := stored], owed := l.owed - {run},
           calls := l.calls + {Snapshot(run, submission, true, stored.generation, true)})
      else l
    case Replay(run, ownSubmission) =>
      if run in l.store then
        var stored := l.store[run];
        l.(calls := l.calls + {Snapshot(run, stored.submission, stored.pending, stored.generation, ownSubmission)})
      else l
    case Schedule(snapshot, task) =>
      if snapshot in l.calls then ScheduleStep(l.(calls := l.calls - {snapshot}), snapshot, task) else l
    case Begin(task) =>
      if task in l.tasks && l.tasks[task].pc.Created? then LoopTop(l, task, l.tasks[task].pc.pending) else l
    case AdvanceReturns(task) =>
      if task in l.tasks && l.tasks[task].pc == Advancing then SetPc(l, task, Reading) else l
    case ThreadReads(task) =>
      if task !in l.tasks || l.tasks[task].run !in l.store then l
      else
        var pending := l.store[l.tasks[task].run].pending;
        if l.tasks[task].pc == Reading then SetPc(l, task, HasRead(pending))
        else if l.tasks[task].pc == ReadingAgain then SetPc(l, task, HasReadAgain(pending))
        else l
    case ResumeAfterRead(task) =>
      if task in l.tasks && l.tasks[task].pc.HasRead? then ResumeStep(l, task, l.tasks[task].pc.pending) else l
    case ResumeAfterSecondRead(task) =>
      if task in l.tasks && l.tasks[task].pc.HasReadAgain? then LoopTop(l, task, l.tasks[task].pc.pending) else l
    case Fails(task) =>
      if task in l.tasks && !l.tasks[task].Done() then SetPc(l, task, Failing).(raised := l.raised + {l.tasks[task].run}) else l
    case FailureHandled(task) =>
      if task in l.tasks && l.tasks[task].pc == Failing then
        SetPc(l, task, Raised).(again := l.again - {l.tasks[task].run})
      else l
    case DoneCallback(task) =>
      if task in l.tasks && l.tasks[task].Done() then
        var key := (l.tasks[task].run, l.tasks[task].submission);
        if key in l.running && l.running[key] == task then l.(running := l.running - {key}) else l
      else l
    case LeavesPending(run) =>
      if run in l.store then l.(store := l.store[run := l.store[run].(pending := false)]) else l
  }

  function After(l: Loop, events: seq<Event>): Loop {
    if events == [] then l else Step(After(l, events[..|events| - 1]), events[|events| - 1])
  }

  ghost predicate Initial(l: Loop) {
    && l.running == map[] && l.again == {} && l.tasks == map[] && l.calls == {} && l.owed == {} && l.raised == {}
  }

  // ---- the invariant ----

  /** Whatever this worker does next, it reads the store again before it ends. */
  predicate LooksAgain(l: Loop, task: Task) {
    match task.pc
    case HasRead(pending) => pending || task.run in l.again
    case Failing => false
    case Finished => false
    case Raised => false
    case _ => true
  }

  ghost predicate Registered(l: Loop) {
    forall t | t in l.tasks && !l.tasks[t].Done() ::
      (l.tasks[t].run, l.tasks[t].submission) in l.running && l.running[(l.tasks[t].run, l.tasks[t].submission)] == t
  }

  ghost predicate Keyed(l: Loop) {
    forall key | key in l.running ::
      l.running[key] in l.tasks && (l.tasks[l.running[key]].run, l.tasks[l.running[key]].submission) == key
  }

  ghost predicate OneWorker(l: Loop) {
    forall t, u | t in l.tasks && u in l.tasks && !l.tasks[t].Done() && !l.tasks[u].Done() && l.tasks[t].run == l.tasks[u].run :: t == u
  }

  ghost predicate Owing(l: Loop) {
    forall run | run in l.owed && run in l.store && l.store[run].pending && run !in l.raised ::
      exists t | t in l.tasks :: l.tasks[t].run == run && LooksAgain(l, l.tasks[t])
  }

  /** A failing worker belongs to a run marked as raised. */
  ghost predicate FailuresKnown(l: Loop) {
    forall t | t in l.tasks && l.tasks[t].pc in {Failing, Raised} :: l.tasks[t].run in l.raised
  }

  ghost predicate Inv(l: Loop) {
    Registered(l) && Keyed(l) && OneWorker(l) && Owing(l) && FailuresKnown(l)
  }

  // ---- it is kept ----

  /** Moving one worker, and perhaps its flag, only concerns its own run. */
  lemma Moved(l: Loop, next: Loop, t: TaskId, pc: Pc)
    requires Inv(l) && t in l.tasks && !l.tasks[t].Done()
    requires next.tasks == l.tasks[t := l.tasks[t].(pc := pc)] && next.running == l.running
    requires next.store == l.store && next.owed == l.owed && l.raised <= next.raised
    requires next.again == l.again || next.again == l.again - {l.tasks[t].run}
    requires pc in {Failing, Raised} ==> l.tasks[t].run in next.raised
    requires var run := l.tasks[t].run;
             run in l.owed && run in l.store && l.store[run].pending && run !in next.raised && LooksAgain(l, l.tasks[t])
             ==> LooksAgain(next, next.tasks[t])
    ensures Inv(next)
  {
    forall run | run in next.owed && run in next.store && next.store[run].pending && run !in next.raised
      ensures exists u | u in next.tasks :: next.tasks[u].run == run && LooksAgain(next, next.tasks[u])
    {
      var u :| u in l.tasks && l.tasks[u].run == run && LooksAgain(l, l.tasks[u]);
      assert u != t ==> l.tasks[t].run != run;
      assert next.tasks[u].run == run && LooksAgain(next, next.tasks[u]);
    }
  }

  /** A busy worker is flagged: it will look again. */
  lemma FlaggedKeeps(l: Loop, run: RunId, owed: set<RunId>)
    requires Inv(l) && Busy(l, run) && owed <= l.owed + {run}
    ensures Inv(l.(again := l.again + {run}, owed := owed))
  {
    var next := l.(again := l.again + {run}, owed := owed);
    var key :| key in l.running && key.0 == run && l.running[key] in l.tasks && !l.tasks[l.running[key]].Done();
    var t := l.running[key];
    forall r | r in next.owed && r in next.store && next.store[r].pending && r !in next.raised
      ensures exists u | u in next.tasks :: next.tasks[u].run == r && LooksAgain(next, next.tasks[u])
    {
      if r == run {
        assert LooksAgain(next, next.tasks[t]);
      } else {
        var u :| u in l.tasks && l.tasks[u].run == r && LooksAgain(l, l.tasks[u]);
        assert LooksAgain(next, next.tasks[u]);
      }
    }
  }

  lemma NoWorker(l: Loop, run: RunId)
    requires Registered(l) && !Busy(l, run)
    ensures forall t | t in l.tasks && !l.tasks[t].Done() :: l.tasks[t].run != run
  {
    forall t | t in l.tasks && !l.tasks[t].Done() ensures l.tasks[t].run != run {
      assert (l.tasks[t].run, l.tasks[t].submission) in l.running;
    }
  }

  lemma WorkerAddedKeeps(l: Loop, worker: Task, task: TaskId, owed: set<RunId>)
    requires Inv(l) && !Busy(l, worker.run) && task !in l.tasks && worker.pc.Created? && owed <= l.owed + {worker.run}
    ensures Inv(l.(tasks := l.tasks[task := worker], running := l.running[(worker.run, worker.submission) := task], owed := owed))
  {
    var next := l.(tasks := l.tasks[task := worker], running := l.running[(worker.run, worker.submission) := task], owed := owed);
    NoWorker(l, worker.run);
    forall r | r in next.owed && r in next.store && next.store[r].pending && r !in next.raised
      ensures exists u | u in next.tasks :: next.tasks[u].run == r && LooksAgain(next, next.tasks[u])
    {
      if r == worker.run {
        assert LooksAgain(next, next.tasks[task]);
      } else {
        var u :| u in l.tasks && l.tasks[u].run == r && LooksAgain(l, l.tasks[u]);
        assert next.tasks[u] == l.tasks[u];
      }
    }
  }

  lemma ScheduleKeeps(l: Loop, snapshot: Snapshot, task: TaskId)
    requires Inv(l)
    ensures Inv(ScheduleStep(l, snapshot, task))
  {
    var next, run := ScheduleStep(l, snapshot, task), snapshot.run;
    if next != l {
      if Busy(l, run) {
        FlaggedKeeps(l, run, next.owed);
      } else {
        WorkerAddedKeeps(l, Task(run, snapshot.submission, Created(true)), task, next.owed);
      }
    }
  }

  /** The store changed for one run, in a way that owes nothing new. */
  lemma StoreMoved(l: Loop, next: Loop)
    requires Inv(l)
    requires next.tasks == l.tasks && next.running == l.running && next.again == l.again && next.raised == l.raised
    requires next.owed <= l.owed
    requires forall run | run in next.owed && run in next.store && next.store[run].pending :: run in l.store && l.store[run].pending
    ensures Inv(next)
  {
    forall run | run in next.owed && run in next.store && next.store[run].pending && run !in next.raised
      ensures exists t | t in next.tasks :: next.tasks[t].run == run && LooksAgain(next, next.tasks[t])
    {
      var t :| t in l.tasks && l.tasks[t].run == run && LooksAgain(l, l.tasks[t]);
      assert LooksAgain(next, next.tasks[t]);
    }
  }

  lemma CallbackKeeps(l: Loop, task: TaskId)
    requires Inv(l)
    ensures Inv(Step(l, DoneCallback(task)))
  {
    var next := Step(l, DoneCallback(task));
    if next != l {
      forall run | run in next.owed && run in next.store && next.store[run].pending && run !in next.raised
        ensures exists t | t in next.tasks :: next.tasks[t].run == run && LooksAgain(next, next.tasks[t])
      {
        var t :| t in l.tasks && l.tasks[t].run == run && LooksAgain(l, l.tasks[t]);
        assert LooksAgain(next, next.tasks[t]);
      }
    }
  }

  lemma TopKeeps(l: Loop, task: TaskId, pending: bool)
    requires Inv(l) && task in l.tasks && !l.tasks[task].Done()
    ensures Inv(LoopTop(l, task, pending))
  {
    Moved(l, LoopTop(l, task, pending), task, if pending then Advancing else Reading);
  }

  lemma ResumeKeeps(l: Loop, task: TaskId, pending: bool)
    requires Inv(l) && task in l.tasks && l.tasks[task].pc == HasRead(pending)
    ensures Inv(ResumeStep(l, task, pending))
  {
    var run := l.tasks[task].run;
    if !pending && run !in l.again {
      Moved(l, ResumeStep(l, task, pending), task, Finished);
    } else if run in l.again {
      Moved(l, ResumeStep(l, task, pending), task, ReadingAgain);
    } else {
      TopKeeps(l, task, pending);
    }
  }

  lemma ReadKeeps(l: Loop, task: TaskId)
    requires Inv(l)
    ensures Inv(Step(l, ThreadReads(task)))
  {
    if task in l.tasks && l.tasks[task].run in l.store {
      var pending := l.store[l.tasks[task].run].pending;
      if l.tasks[task].pc == Reading {
        Moved(l, SetPc(l, task, HasRead(pending)), task, HasRead(pending));
      } else if l.tasks[task].pc == ReadingAgain {
        Moved(l, SetPc(l, task, HasReadAgain(pending)), task, HasReadAgain(pending));
      }
    }
  }

  lemma FailureKeeps(l: Loop, task: TaskId)
    requires Inv(l)
    ensures Inv(Step(l, Fails(task))) && Inv(Step(l, FailureHandled(task)))
  {
    if Step(l, Fails(task)) != l { Moved(l, Step(l, Fails(task)), task, Failing); }
    if Step(l, FailureHandled(task)) != l { Moved(l, Step(l, FailureHandled(task)), task, Raised); }
  }

  lemma StepKeeps(l: Loop, e: Event)
    requires Inv(l)
    ensures Inv(Step(l, e))
  {
    var next := Step(l, e);
    match e
    case Accept(run, submission) => StoreMoved(l, next);
    case Replay(run, ownSubmission) => StoreMoved(l, next);
    case LeavesPending(run) => StoreMoved(l, next);
    case Schedule(snapshot, task) =>
      if snapshot in l.calls {
        StoreMoved(l, l.(calls := l.calls - {snapshot}));
        ScheduleKeeps(l.(calls := l.calls - {snapshot}), snapshot, task);
      }
    case DoneCallback(task) => CallbackKeeps(l, task);
    case Begin(task) =>
      if task in l.tasks && l.tasks[task].pc.Created? { TopKeeps(l, task, l.tasks[task].pc.pending); }
    case AdvanceReturns(task) =>
      if task in l.tasks && l.tasks[task].pc == Advancing { Moved(l, SetPc(l, task, Reading), task, Reading); }
    case ThreadReads(task) => ReadKeeps(l, task);
    case ResumeAfterRead(task) =>
      if task in l.tasks && l.tasks[task].pc.HasRead? { ResumeKeeps(l, task, l.tasks[task].pc.pending); }
    case ResumeAfterSecondRead(task) =>
      if task in l.tasks && l.tasks[task].pc.HasReadAgain? { TopKeeps(l, task, l.tasks[task].pc.pending); }
    case Fails(task) => FailureKeeps(l, task);
    case FailureHandled(task) => FailureKeeps(l, task);
  }

  lemma {:induction false} Reachable(l: Loop, events: seq<Event>)
    requires Initial(l)
    ensures Inv(After(l, events))
  {
    if events != [] {
      Reachable(l, events[..|events| - 1]);
      StepKeeps(After(l, events[..|events| - 1]), events[|events| - 1]);
    }
  }

  // ---- what follows for every run of the loop ----

  /** A run never has two unfinished workers, and `schedule` can see the one it has. */
  lemma AtMostOneWorker(l: Loop, events: seq<Event>, t: TaskId, u: TaskId)
    requires Initial(l)
    requires var now := After(l, events);
             t in now.tasks && u in now.tasks && !now.tasks[t].Done() && !now.tasks[u].Done() && now.tasks[t].run == now.tasks[u].run
    ensures t == u && Busy(After(l, events), After(l, events).tasks[t].run)
  {
    Reachable(l, events);
    var now := After(l, events);
    var key := (now.tasks[t].run, now.tasks[t].submission);
    assert key in now.running && now.running[key] == t;
  }

  /** No wakeup is lost: once every worker of a run is done and none raised, a run whose PENDING
      acceptance was passed to `schedule` is no longer PENDING. */
  lemma NoLostWakeup(l: Loop, events: seq<Event>, run: RunId)
    requires Initial(l)
    requires var now := After(l, events);
             && run in now.owed && run in now.store && run !in now.raised
             && forall t | t in now.tasks && now.tasks[t].run == run :: now.tasks[t].Done()
    ensures !After(l, events).store[run].pending
  {
    Reachable(l, events);
  }

  /** What `owed` records: handling an acceptance that is still the current one. */
  lemma ScheduledIsOwed(l: Loop, snapshot: Snapshot, task: TaskId)
    requires snapshot in l.calls && snapshot.pending && snapshot.ownSubmission
    requires snapshot.run in l.store && l.store[snapshot.run] == Stored(l.store[snapshot.run].submission, true, snapshot.generation)
    requires Busy(l, snapshot.run) || task !in l.tasks
    ensures snapshot.run in Step(l, Schedule(snapshot, task)).owed
  {
    var before := l.(calls := l.calls - {snapshot});
    assert Busy(before, snapshot.run) == Busy(l, snapshot.run);
  }

  // ---- no flag is left behind ----

  /** A run is flagged only while a worker is there to see it. */
  ghost predicate FlagsSeen(l: Loop) {
    forall run | run in l.again :: exists t :: t in l.tasks && l.tasks[t].run == run && !l.tasks[t].Done()
  }

  lemma FlagsMoved(l: Loop, next: Loop, t: TaskId)
    requires FlagsSeen(l) && t in l.tasks && t in next.tasks && next.tasks == l.tasks[t := next.tasks[t]]
    requires next.tasks[t].run == l.tasks[t].run && next.again <= l.again
    requires next.tasks[t].Done() ==> l.tasks[t].Done() || l.tasks[t].run !in next.again
    ensures FlagsSeen(next)
  {
    forall run | run in next.again ensures exists u :: u in next.tasks && next.tasks[u].run == run && !next.tasks[u].Done() {
      var u :| u in l.tasks && l.tasks[u].run == run && !l.tasks[u].Done();
      assert u in next.tasks && next.tasks[u].run == run && !next.tasks[u].Done();
    }
  }

  lemma FlagSet(l: Loop, snapshot: Snapshot, task: TaskId)
    requires FlagsSeen(l) && Keyed(l)
    ensures FlagsSeen(ScheduleStep(l, snapshot, task))
  {
    var next := ScheduleStep(l, snapshot, task);
    if next.tasks == l.tasks {
      forall run | run in next.again ensures exists t :: t in next.tasks && next.tasks[t].run == run && !next.tasks[t].Done() {
        if run !in l.again { BusyHasWorker(l, run); }
      }
    } else {
      forall run | run in next.again ensures exists t :: t in next.tasks && next.tasks[t].run == run && !next.tasks[t].Done() {
        var t :| t in l.tasks && l.tasks[t].run == run && !l.tasks[t].Done();
        assert t in next.tasks && next.tasks[t] == l.tasks[t];
      }
    }
  }

  lemma BusyHasWorker(l: Loop, run: RunId)
    requires Keyed(l) && Busy(l, run)
    ensures exists t :: t in l.tasks && l.tasks[t].run == run && !l.tasks[t].Done()
  {
    var key :| key in l.running && key.0 == run && l.running[key] in l.tasks && !l.tasks[l.running[key]].Done();
    assert l.tasks[l.running[key]].run == run;
  }

  lemma StepKeepsFlags(l: Loop, e: Event)
    requires FlagsSeen(l) && Keyed(l)
    ensures FlagsSeen(Step(l, e))
  {
    var next := Step(l, e);
    match e
    case Schedule(snapshot, task) =>
      if snapshot in l.calls {
        assert FlagsSeen(l.(calls := l.calls - {snapshot})) && Keyed(l.(calls := l.calls - {snapshot}));
        FlagSet(l.(calls := l.calls - {snapshot}), snapshot, task);
      }
    case Accept(run, submission) => assert next.tasks == l.tasks && next.again == l.again;
    case Replay(run, ownSubmission) => assert next.tasks == l.tasks && next.again == l.again;
    case LeavesPending(run) => assert next.tasks == l.tasks && next.again == l.again;
    case DoneCallback(task) => assert next.tasks == l.tasks && next.again == l.again;
    case _ => if next != l { FlagsMoved(l, next, e.task); }
  }

  /** A flag never outlives the worker it is for, so none sends a later worker round in vain. */
  lemma {:induction false} NoFlagLeftBehind(l: Loop, events: seq<Event>)
    requires Initial(l)
    ensures FlagsSeen(After(l, events))
  {
    if events != [] {
      NoFlagLeftBehind(l, events[..|events| - 1]);
      Reachable(l, events[..|events| - 1]);
      StepKeepsFlags(After(l, events[..|events| - 1]), events[|events| - 1]);
    }
  }

  // ---- workers end ----

  /** What this worker does next, nothing else happening. */
  function Own(l: Loop, t: TaskId): Event
    requires t in l.tasks
  {
    match l.tasks[t].pc
    case Created(_) => Begin(t)
    case Advancing => AdvanceReturns(t)
    case HasRead(_) => ResumeAfterRead(t)
    case HasReadAgain(_) => ResumeAfterSecondRead(t)
    case Failing => FailureHandled(t)
    case _ => ThreadReads(t)
  }

  function Alone(l: Loop, t: TaskId, steps: nat): Loop
    decreases steps
  {
    if steps == 0 || t !in l.tasks then l else Alone(Step(l, Own(l, t)), t, steps - 1)
  }

  /** How many steps are left once there is nothing to do. */
  function Left(l: Loop, task: Task): nat {
    var again := task.run in l.again;
    match task.pc
    case Created(pending) => if pending then 4 else 3
    case Advancing => if again then 7 else 3
    case Reading => if again then 6 else 2
    case HasRead(pending) => if again then 5 else if pending then 4 else 1
    case ReadingAgain => 4
    case HasReadAgain(pending) => if pending then 4 else 3
    case _ => 0
  }

  lemma OwnStepLeadsOn(l: Loop, t: TaskId)
    requires t in l.tasks && !l.tasks[t].Done() && l.tasks[t].pc != Failing
    requires l.tasks[t].run in l.store && !l.store[l.tasks[t].run].pending
    ensures var n := Step(l, Own(l, t));
            && t in n.tasks && n.tasks[t].run == l.tasks[t].run && n.store == l.store
            && n.tasks[t].pc != Failing && n.tasks[t].pc != Raised && (n.tasks[t].Done() <==> Left(l, l.tasks[t]) == 1)
            && (!n.tasks[t].Done() ==> Left(n, n.tasks[t]) < Left(l, l.tasks[t]))
  {
  }

  /** A worker of a run that is not PENDING ends within seven of its own steps, unless it is disturbed. */
  lemma {:induction false} IdleWorkerEnds(l: Loop, t: TaskId)
    requires t in l.tasks && !l.tasks[t].Done() && l.tasks[t].pc != Failing
    requires l.tasks[t].run in l.store && !l.store[l.tasks[t].run].pending
    ensures exists steps :: 1 <= steps <= 7 && t in Alone(l, t, steps).tasks && Alone(l, t, steps).tasks[t].pc == Finished
  {
    var steps := EndsAfter(l, t);
    assert Alone(l, t, steps).tasks[t].pc == Finished;
  }

  lemma {:induction false} EndsAfter(l: Loop, t: TaskId) returns (steps: nat)
    requires t in l.tasks && !l.tasks[t].Done() && l.tasks[t].pc != Failing
    requires l.tasks[t].run in l.store && !l.store[l.tasks[t].run].pending
    ensures 1 <= steps <= Left(l, l.tasks[t])
    ensures t in Alone(l, t, steps).tasks && Alone(l, t, steps).tasks[t].pc == Finished
    decreases Left(l, l.tasks[t])
  {
    var n := Step(l, Own(l, t));
    OwnStepLeadsOn(l, t);
    if n.tasks[t].Done() {
      steps := 1;
      assert Alone(n, t, 0) == n;
    } else {
      var rest := EndsAfter(n, t);
      steps := rest + 1;
    }
  }

  // ---- the code between two awaits ----

  /** The fields of the runtime that scheduling touches; `l` is the event loop they belong to. */
  class Scheduler {
    var running: map<(RunId, SubmissionId), TaskId>
    var again: set<RunId>
    var tasks: map<TaskId, Task>

    constructor ()
      ensures running == map[] && again == {} && tasks == map[]
    {
      running, again, tasks := map[], {}, map[];
    }

    ghost predicate Shows(l: Loop)
      reads this
    {
      running == l.running && again == l.again && tasks == l.tasks
    }

    /** `schedule`; `newTask` is the task that `create_task` would make. */
    method Schedule(run: Snapshot, newTask: TaskId, ghost l: Loop)
      requires Shows(l) && newTask !in tasks
      modifies this
      ensures Shows(ScheduleStep(l, run, newTask))
    {
      if !run.pending || !run.ownSubmission {
        return;
      }
      var busy := false;
      var keys := running.Keys;
      while keys != {} && !busy
        invariant Shows(l) && keys <= running.Keys
        invariant busy ==> Busy(l, run.run)
        invariant !busy ==> forall key | key in running.Keys - keys ::
                    !(key.0 == run.run && running[key] in tasks && !tasks[running[key]].Done())
        decreases |keys|
      {
        var key :| key in keys;
        busy := key.0 == run.run && running[key] in tasks && !tasks[running[key]].Done();
        keys := keys - {key};
      }
      if busy {
        again := again + {run.run};
        return;
      }
      tasks := tasks[newTask := Task(run.run, run.submission, Created(run.pending))];
      running := running[(run.run, run.submission) := newTask];
    }

    /** A worker resumes with what the thread read: it ends, looks again, or goes round. */
    method ResumeAfterFirstRead(task: TaskId, ghost l: Loop)
      requires Shows(l) && task in tasks && tasks[task].pc.HasRead?
      modifies this
      ensures Shows(Step(l, ResumeAfterRead(task)))
    {
      var Task(run, submission, pc) := tasks[task];
      if !pc.pending && run !in again {
        again := again - {run};
        tasks := tasks[task := Task(run, submission, Finished)];
      } else if run in again {
        tasks := tasks[task := Task(run, submission, ReadingAgain)];
      } else {
        again := again - {run};
        tasks := tasks[task := Task(run, submission, if pc.pending then Advancing else Reading)];
      }
    }
  }
}
