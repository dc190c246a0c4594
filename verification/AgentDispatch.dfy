/**
 One AgentRun under every interleaving: workers holding private copies of the
 document, shielded receipt tasks, store transactions by others, cancellation,
 crashes and lost acknowledgements. One event is one stretch between two awaits.
 */
module AgentDispatch {
  import opened Options
  import opened AgentStores

  // ---- what a worker does to its own copy ----

  datatype Request = Request(estimate: nat, window: nat, maxOutput: nat, resources: bool)

  function Min(a: int, b: int): int {
    if a < b then a else b
  }

  function Minimum(request: Request): nat {
    if request.resources then 512 else 64
  }

  /** The output limit `before_model` computes from the context it managed to trim. */
  function OutputLimit(run: Run, request: Request): int {
    var ceiling := Min(run.budget.maxLlmTokens - run.llmTokens, request.window);
    Min(request.maxOutput, ceiling - request.estimate)
  }

  predicate MayReserve(run: Run, request: Request) {
    && run.llmTokens < run.budget.maxLlmTokens
    && |run.calls| < run.budget.maxModelCalls
    && OutputLimit(run, request) >= Minimum(request)
  }

  function Reserve(run: Run, request: Request): Run
    requires MayReserve(run, request)
  {
    run.(calls := run.calls + [ModelCall(CALL_RUNNING, request.estimate, OutputLimit(run, request), 0)])
  }

  datatype Work =
    | ReserveCall(request: Request)
    | SettleCall(index: nat, succeeded: bool, usage: nat)
    | NewRecord(callId: CallId, fingerprint: Fingerprint)
    | Prepare(invocation: Invocation)
    | AskConfirmation
    | Confirm
    | AskUser(again: bool)
    | Succeed

  /** None where the code raises instead. */
  function Apply(run: Run, work: Work): Option<Run> {
    match work
    case ReserveCall(request) =>
      if MayReserve(run, request) then Some(Reserve(run, request)) else None
    case SettleCall(index, succeeded, usage) =>
      if index < |run.calls| && run.calls[index].status == CALL_RUNNING then
        var call := run.calls[index].(status := if succeeded then CALL_SUCCEEDED else CALL_FAILED, usage := usage);
        Some(run.(calls := run.calls[index := call], llmTokens := run.llmTokens + usage))
      else None
    case NewRecord(callId, fingerprint) =>
      if run.pending.None? && (forall i | 0 <= i < |run.executions| :: run.executions[i].callId != callId)
         && run.toolExecutions < run.budget.maxToolExecutions then
        Some(run.(pending := Some(Record(callId, fingerprint, None, PREPARING, false, false, false, None))))
      else None
    case Prepare(invocation) =>
      if run.pending.Some? && run.pending.value.invocation.None? then
        Some(run.(pending := Some(run.pending.value.(invocation := Some(invocation),
                                  status := if invocation.guarded then NEEDS_CONFIRMATION else READY))))
      else None
    case AskConfirmation =>
      if run.pending.Some? && run.pending.value.status == NEEDS_CONFIRMATION && !run.pending.value.confirmed then
        Some(run.(status := WAITING_FOR_CONFIRMATION, pending := Some(run.pending.value.(asked := true)),
                  waiting := run.waiting + if run.pending.value.asked then 0 else 1))
      else None
    case Confirm =>
      if run.status == RUNNING && run.pending.Some? && run.pending.value.status == NEEDS_CONFIRMATION
         && !run.pending.value.confirmed && run.response == Some(Decision(run.pending.value.callId, run.waiting, true)) then
        Some(run.(pending := Some(run.pending.value.(confirmed := true)), response := None))
      else None
    case AskUser(again) => Some(run.(status := WAITING_FOR_USER, waiting := run.waiting + if again then 0 else 1))
    case Succeed => Some(run.(status := SUCCEEDED))
  }

  predicate MayFence(run: Run) {
    && run.pending.Some? && !run.pending.value.dispatched && run.pending.value.invocation.Some?
    && (run.pending.value.status == NEEDS_CONFIRMATION ==> run.pending.value.confirmed)
    && run.llmTokens < run.budget.maxLlmTokens
    && run.toolExecutions < run.budget.maxToolExecutions
  }

  function Fenced(run: Run): Run
    requires MayFence(run)
  {
    run.(pending := Some(run.pending.value.(dispatched := true, status := DISPATCHED)),
         toolExecutions := run.toolExecutions + 1)
  }

  // ---- the system ----

  /** Saving(Some(c)): the save under way is the dispatch fence of call c. */
  datatype Pc = Idle | Saving(fence: Option<CallId>) | MayExecute(callId: CallId) | Failing | Closing | Dead
  datatype Worker = Worker(copy: Run, pc: Pc)
  datatype Task = Task(record: Record, executed: bool)

  /** Who may still make the one gateway call that an acknowledged fence allows. */
  datatype Holder = ByWorker(worker: nat) | ByTask(task: nat) | Used

  /** `log` lists the calls of the gateway's `execute`. `grants`, `careful` and `approvals`, what the user has
      approved, only observe. */
  datatype Sys = Sys(row: Run, workers: map<nat, Worker>, tasks: map<nat, Task>, log: seq<Call>,
                     grants: map<CallId, Holder>, careful: bool, approvals: set<Subject>)

  datatype Event =
    | Start(w: nat, token: nat, answer: Option<bool>)
    | Local(w: nat, work: Work)
    | Fence(w: nat)
    | Save(w: nat, fault: Fault)
    | Abort(w: nat, recoverable: bool)
    | Cancelled(w: nat)
    | Refresh(w: nat)
    | Spawn(w: nat, t: nat)
    | Execute(t: nat)
    | ContinueBatch(w: nat)
    | Store(transaction: Transaction)
    | Kill(w: nat)
    | Crash

  function SetWorker(s: Sys, w: nat, copy: Run, pc: Pc): Sys {
    s.(workers := s.workers[w := Worker(copy, pc)])
  }

  /** A reservation next to an unfinished one, or usage beyond the reservation, is not careful. */
  predicate CarefulWork(run: Run, work: Work) {
    match work
    case ReserveCall(_) => Outstanding(run.calls) == 0
    case SettleCall(index, _, usage) =>
      index < |run.calls| ==> usage <= run.calls[index].inputReserved + run.calls[index].outputLimit
    case _ => true
  }

  function SubjectOf(record: Record): set<Subject> {
    if record.invocation.Some? then {Subject(record.invocation.value, record.fingerprint)} else {}
  }

  /** A user's approval, newly taken by the store. */
  predicate Approves(row: Run, t: Transaction) {
    t.DoDecide? && t.approved && row.pending.Some? && Transact(row, t) != row
  }

  /** `advance` begins with a recorded decision only if it is about the waiting call; with `answer`, it takes the
      user's decision itself. A waiting run may also be started again without one. */
  predicate MayStart(row: Run, answer: Option<bool>) {
    match row.status
    case PENDING =>
      answer.None? &&
      (row.response.Some? ==> row.pending.Some? && !row.pending.value.confirmed
                              && row.response.value.callId == row.pending.value.callId && row.response.value.waiting == row.waiting)
    case WAITING_FOR_CONFIRMATION => answer.Some? ==> row.pending.Some?
    case WAITING_FOR_USER => answer.None?
    case _ => false
  }

  function Claimed(row: Run, token: nat, answer: Option<bool>): Run
    requires MayStart(row, answer)
  {
    var claimed := row.(status := RUNNING, claim := Some(token));
    if answer.None? then claimed
    else claimed.(response := Some(Decision(row.pending.value.callId, row.waiting, answer.value)))
  }

  function LocalStep(s: Sys, w: nat, work: Work): Sys
    requires w in s.workers
  {
    var worker := s.workers[w];
    var next := Apply(worker.copy, work);
    if next.None? then s
    else if worker.pc == Idle then
      SetWorker(s, w, next.value, Saving(None)).(careful := s.careful && CarefulWork(worker.copy, work))
    else if worker.pc == Failing && work.SettleCall? then
      SetWorker(s, w, next.value, Failing).(careful := s.careful && CarefulWork(worker.copy, work))
    else s
  }

  function SaveStep(s: Sys, w: nat, fault: Fault): Sys
    requires w in s.workers
  {
    var Worker(copy, pc) := s.workers[w];
    if !pc.Saving? && pc !in {Failing, Closing} then s
    else if fault == LOST_BEFORE_COMMIT then SetWorker(s, w, copy, if pc == Closing then Dead else Failing)
    else if SaveReply(s.row, copy) != Saved then
      SetWorker(s, w, copy, if pc == Failing || SaveReply(s.row, copy) == Rejected then Failing else Dead)
    else
      var stored := s.(row := Stored(copy));
      if fault == LOST_AFTER_COMMIT then SetWorker(stored, w, copy, if pc == Closing then Dead else Failing)
      else match pc
        case Saving(Some(c)) => SetWorker(stored, w, Stored(copy), MayExecute(c)).(grants := s.grants[c := ByWorker(w)])
        case Saving(None) => SetWorker(stored, w, Stored(copy), Idle)
        case Failing => SetWorker(stored, w, Stored(copy), Failing)
        case _ => SetWorker(stored, w, Stored(copy), Dead)
  }

  function Step(s: Sys, e: Event): Sys {
    match e
    case Start(w, token, answer) =>
      if w !in s.workers && MayStart(s.row, answer) then
        SetWorker(s, w, Claimed(s.row, token, answer), Saving(None)).(
          approvals := s.approvals + if answer == Some(true) then SubjectOf(s.row.pending.value) else {})
      else s
    case Local(w, work) => if w in s.workers then LocalStep(s, w, work) else s
    case Fence(w) =>
      if w in s.workers && s.workers[w].pc == Idle && MayFence(s.workers[w].copy) then
        var copy := s.workers[w].copy;
        SetWorker(s, w, Fenced(copy), Saving(Some(copy.pending.value.callId)))
      else s
    case Save(w, fault) => if w in s.workers then SaveStep(s, w, fault) else s
    case Abort(w, recoverable) =>
      if w in s.workers && s.workers[w].pc !in {Closing, Dead} then
        SetWorker(s, w, s.workers[w].copy.(status := if recoverable then INTERRUPTED else TERMINATED, errorCode := OTHER_ERROR), Closing)
      else s
    case Cancelled(w) =>
      if w !in s.workers then s
      else if s.row.status == RUNNING then
        SetWorker(s, w, s.row.(status := INTERRUPTED, errorCode := PROCESS_INTERRUPTED), Closing)
      else SetWorker(s, w, s.workers[w].copy, Dead)
    case Refresh(w) =>
      if w in s.workers && s.workers[w].pc == Idle then SetWorker(s, w, s.row, Idle) else s
    case Spawn(w, t) =>
      if w in s.workers && s.workers[w].pc.MayExecute? && s.workers[w].copy.pending.Some? && t !in s.tasks then
        var Worker(copy, pc) := s.workers[w];
        SetWorker(s, w, copy, Idle).(tasks := s.tasks[t := Task(copy.pending.value, false)],
                                     grants := s.grants[pc.callId := ByTask(t)])
      else s
    case Execute(t) =>
      if t in s.tasks && !s.tasks[t].executed then
        var record := s.tasks[t].record;
        s.(tasks := s.tasks[t := Task(record, true)], log := s.log + [CallOf(record)],
           grants := s.grants[record.callId := Used])
      else s
    case ContinueBatch(w) =>
      if w in s.workers && s.workers[w].pc == Idle && s.workers[w].copy.Dispatched()
         && s.workers[w].copy.pending.value.fingerprint.tool == TC4 then
        s.(log := s.log + [CallOf(s.workers[w].copy.pending.value)])
      else s
    case Store(transaction) =>
      s.(row := Transact(s.row, transaction),
         approvals := s.approvals + if Approves(s.row, transaction) then SubjectOf(s.row.pending.value) else {})
    case Kill(w) => s.(workers := s.workers - {w})
    case Crash => s.(workers := map[], tasks := map[])
  }

  function After(s: Sys, events: seq<Event>): Sys {
    if events == [] then s else Step(After(s, events[..|events| - 1]), events[|events| - 1])
  }

  ghost predicate Initial(s: Sys) {
    && Sound(s.row) && s.workers == map[] && s.tasks == map[] && s.log == [] && s.grants == map[]
    && (s.careful ==> Capped(s.row)) && Cleared(s.row, s.approvals)
  }

  // ---- the invariant ----

  /** A worker that is not behind the store differs from it only by what it has done since. */
  ghost predicate Ahead(row: Run, worker: Worker) {
    var copy := worker.copy;
    && Sound(copy) && copy.budget == row.budget && Advances(row.calls, copy.calls)
    && match worker.pc
       case Idle => copy == row
       case MayExecute(_) => copy == row
       case Saving(None) => Crossed(copy) == Crossed(row)
       case Saving(Some(c)) => copy.Dispatched() && copy.pending.value.callId == c && AtFence(row, copy)
       case _ => Crossed(copy) == Crossed(row) || (copy.Dispatched() && AtFence(row, copy))
  }

  ghost predicate AtFence(row: Run, copy: Run)
    requires copy.Dispatched()
  {
    Crossed(copy) == Crossed(row) + [CallOf(copy.pending.value)]
  }

  ghost predicate WorkerInv(row: Run, worker: Worker) {
    && worker.copy.version <= row.version
    && (worker.pc != Dead && worker.copy.version == row.version ==> Ahead(row, worker))
    && (worker.pc == Idle || worker.pc.MayExecute? ==> Crossed(worker.copy) <= Crossed(row))
    && (worker.pc.MayExecute? ==> worker.copy.Dispatched() && worker.copy.pending.value.callId == worker.pc.callId)
  }

  ghost predicate GrantInv(s: Sys) {
    && (forall c | c in s.grants :: exists i | 0 <= i < |Crossed(s.row)| :: Crossed(s.row)[i].callId == c)
    && (forall w | w in s.workers && s.workers[w].pc.MayExecute? ::
          s.workers[w].pc.callId in s.grants && s.grants[s.workers[w].pc.callId] == ByWorker(w))
    && (forall t | t in s.tasks && !s.tasks[t].executed ::
          && CallOf(s.tasks[t].record) in Crossed(s.row)
          && s.tasks[t].record.callId in s.grants && s.grants[s.tasks[t].record.callId] == ByTask(t))
  }

  ghost predicate LogInv(s: Sys) {
    && (forall i | 0 <= i < |s.log| ::
          && s.log[i] in Crossed(s.row)
          && (s.log[i].tool != TC4 ==> s.log[i].callId in s.grants && s.grants[s.log[i].callId] == Used))
    && AtMostOnce(s.log)
  }

  ghost predicate AtMostOnce(log: seq<Call>) {
    forall i, j | 0 <= i < j < |log| && log[i].callId == log[j].callId :: log[i].tool == log[j].tool == TC4
  }

  ghost predicate CapInv(s: Sys) {
    s.careful ==>
      && Capped(s.row)
      && forall w | w in s.workers && s.workers[w].pc != Dead && s.workers[w].copy.version == s.row.version :: Capped(s.workers[w].copy)
  }

  ghost predicate Inv(s: Sys) {
    && Sound(s.row)
    && (forall w | w in s.workers :: WorkerInv(s.row, s.workers[w]))
    && GrantInv(s) && LogInv(s) && CapInv(s)
  }

  // ---- it is kept ----

  lemma ApplyKeeps(run: Run, work: Work)
    requires Sound(run) && Apply(run, work).Some?
    ensures var next := Apply(run, work).value;
            && Sound(next) && Crossed(next) == Crossed(run) && next.version == run.version && next.budget == run.budget
            && Advances(run.calls, next.calls)
            && (Capped(run) && CarefulWork(run, work) ==> Capped(next))
  {
    var next := Apply(run, work).value;
    match work
    case ReserveCall(request) => CallAdded(run.calls, next.calls[|run.calls|]);
    case SettleCall(index, succeeded, usage) => CallReplaced(run.calls, index, next.calls[index]);
    case _ =>
      assert next.calls == run.calls;
  }

  lemma FencedCrosses(run: Run)
    requires Sound(run) && MayFence(run)
    ensures var next := Fenced(run);
            && Sound(next) && next.Dispatched() && AtFence(run, next) && next.version == run.version
            && next.budget == run.budget && (Capped(run) ==> Capped(next))
  {
    var next := Fenced(run);
    assert Crossed(next) == Crossed(run) + [CallOf(next.pending.value)];
    forall i | 0 <= i < |run.executions| ensures Crossed(next)[i].callId != next.pending.value.callId {
      assert Crossed(next)[i] == CallOf(run.executions[i]);
    }
  }

  lemma Replaced(s: Sys, w: nat, copy: Run, pc: Pc)
    requires Inv(s) && WorkerInv(s.row, Worker(copy, pc)) && !pc.MayExecute?
    requires s.careful && pc != Dead && copy.version == s.row.version ==> Capped(copy)
    ensures Inv(SetWorker(s, w, copy, pc))
  {
  }

  lemma RowMoved(s: Sys, row: Run)
    requires Inv(s) && Sound(row) && row.version > s.row.version && Crossed(s.row) <= Crossed(row)
    requires s.careful ==> Capped(row)
    ensures Inv(s.(row := row))
  {
    var next := s.(row := row);
    forall c | c in s.grants ensures exists i | 0 <= i < |Crossed(row)| :: Crossed(row)[i].callId == c {
      var i :| 0 <= i < |Crossed(s.row)| && Crossed(s.row)[i].callId == c;
      assert Crossed(row)[i].callId == c;
    }
    assert forall call | call in Crossed(s.row) :: call in Crossed(row);
    assert WorkersBehind(next);
  }

  ghost predicate WorkersBehind(s: Sys) {
    forall w | w in s.workers :: s.workers[w].copy.version < s.row.version && WorkerInv(s.row, s.workers[w])
  }

  lemma LocalWorker(row: AgentStores.Run, worker: Worker, work: Work)
    requires WorkerInv(row, worker) && Apply(worker.copy, work).Some?
    requires worker.pc == Idle || (worker.pc == Failing && work.SettleCall?)
    ensures WorkerInv(row, Worker(Apply(worker.copy, work).value, if worker.pc == Idle then Saving(None) else Failing))
  {
    var next := Apply(worker.copy, work).value;
    if worker.copy.version == row.version {
      ApplyKeeps(worker.copy, work);
      AdvancesThrough(row.calls, worker.copy.calls, next.calls);
      if work.SettleCall? { assert next.pending == worker.copy.pending; }
    }
    assert next.version == worker.copy.version;
  }

  lemma AdvancesThrough(a: seq<ModelCall>, b: seq<ModelCall>, c: seq<ModelCall>)
    requires Advances(a, b) && Advances(b, c)
    ensures Advances(a, c)
  {
  }

  /** Capped is asked of the copies only as long as all reservations are careful. */
  lemma LessCareful(s: Sys, careful: bool)
    requires Inv(s)
    ensures Inv(s.(careful := s.careful && careful))
  {
  }

  lemma WorkedKeeps(s: Sys, w: nat, work: Work, pc: Pc)
    requires Inv(s) && w in s.workers && Apply(s.workers[w].copy, work).Some?
    requires if s.workers[w].pc == Idle then pc == Saving(None) else s.workers[w].pc == Failing && work.SettleCall? && pc == Failing
    ensures Inv(SetWorker(s.(careful := s.careful && CarefulWork(s.workers[w].copy, work)), w,
                          Apply(s.workers[w].copy, work).value, pc))
  {
    var worker := s.workers[w];
    var next := Apply(worker.copy, work).value;
    LocalWorker(s.row, worker, work);
    if worker.copy.version == s.row.version { ApplyKeeps(worker.copy, work); }
    assert next.version == worker.copy.version;
    LessCareful(s, CarefulWork(worker.copy, work));
    Replaced(s.(careful := s.careful && CarefulWork(worker.copy, work)), w, next, pc);
  }

  lemma LocalKeeps(s: Sys, w: nat, work: Work)
    requires Inv(s) && w in s.workers
    ensures Inv(LocalStep(s, w, work))
  {
    if Apply(s.workers[w].copy, work).Some? {
      if s.workers[w].pc == Idle {
        WorkedKeeps(s, w, work, Saving(None));
      } else if s.workers[w].pc == Failing && work.SettleCall? {
        WorkedKeeps(s, w, work, Failing);
      }
    }
  }

  lemma FenceKeeps(s: Sys, w: nat)
    requires Inv(s)
    ensures Inv(Step(s, Fence(w)))
  {
    if w in s.workers && s.workers[w].pc == Idle && MayFence(s.workers[w].copy) {
      var copy := s.workers[w].copy;
      if copy.version == s.row.version { FencedCrosses(copy); }
      Replaced(s, w, Fenced(copy), Saving(Some(copy.pending.value.callId)));
    }
  }

  /** A save that takes effect starts from the row it replaces. */
  lemma CommitKeeps(s: Sys, w: nat)
    requires Inv(s) && w in s.workers && (s.workers[w].pc.Saving? || s.workers[w].pc in {Failing, Closing})
    requires SaveReply(s.row, s.workers[w].copy) == Saved
    ensures Inv(s.(row := Stored(s.workers[w].copy)))
    ensures Crossed(Stored(s.workers[w].copy)) == Crossed(s.workers[w].copy)
  {
    var copy := s.workers[w].copy;
    assert Ahead(s.row, s.workers[w]);
    assert Crossed(Stored(copy)) == Crossed(copy);
    RowMoved(s, Stored(copy));
  }

  lemma SaveKeeps(s: Sys, w: nat, fault: Fault)
    requires Inv(s) && w in s.workers
    ensures Inv(SaveStep(s, w, fault))
  {
    var Worker(copy, pc) := s.workers[w];
    if !pc.Saving? && pc !in {Failing, Closing} {
    } else if fault == LOST_BEFORE_COMMIT {
      Replaced(s, w, copy, if pc == Closing then Dead else Failing);
    } else if SaveReply(s.row, copy) != Saved {
      Replaced(s, w, copy, if pc == Failing || SaveReply(s.row, copy) == Rejected then Failing else Dead);
    } else {
      CommitKeeps(s, w);
      var stored := s.(row := Stored(copy));
      if fault == LOST_AFTER_COMMIT {
        Replaced(stored, w, copy, if pc == Closing then Dead else Failing);
      } else if pc.Saving? && pc.fence.Some? {
        GrantKeeps(s, w, pc.fence.value);
      } else {
        Replaced(stored, w, Stored(copy), if pc == Failing then Failing else if pc == Closing then Dead else Idle);
      }
    }
  }

  /** An acknowledged fence grants a call that nobody held before. */
  lemma GrantKeeps(s: Sys, w: nat, c: CallId)
    requires Inv(s) && w in s.workers && s.workers[w].pc == Saving(Some(c))
    requires SaveReply(s.row, s.workers[w].copy) == Saved
    ensures Inv(SaveStep(s, w, FINE))
  {
    var copy := s.workers[w].copy;
    CommitKeeps(s, w);
    FreshCall(s, w, c);
    Granted(s.(row := Stored(copy)), w, c);
  }

  lemma FreshCall(s: Sys, w: nat, c: CallId)
    requires Inv(s) && w in s.workers && s.workers[w].pc == Saving(Some(c))
    requires SaveReply(s.row, s.workers[w].copy) == Saved
    ensures c !in s.grants && s.workers[w].copy.Dispatched() && s.workers[w].copy.pending.value.callId == c
  {
    var copy, n := s.workers[w].copy, |Crossed(s.row)|;
    assert Ahead(s.row, s.workers[w]) && AtFence(s.row, copy);
    assert Distinct(Crossed(copy)) && Crossed(copy)[n].callId == c;
    assert forall i | 0 <= i < n :: Crossed(s.row)[i] == Crossed(copy)[i];
  }

  lemma Granted(s: Sys, w: nat, c: CallId)
    requires Inv(s) && w in s.workers && c !in s.grants
    requires s.row.Dispatched() && s.row.pending.value.callId == c
    ensures Inv(SetWorker(s, w, s.row, MayExecute(c)).(grants := s.grants[c := ByWorker(w)]))
  {
    var next := SetWorker(s, w, s.row, MayExecute(c)).(grants := s.grants[c := ByWorker(w)]);
    assert Crossed(s.row)[|Crossed(s.row)| - 1].callId == c;
    assert GrantInv(next);
    assert LogInv(next);
    assert CapInv(next);
  }

  lemma SpawnKeeps(s: Sys, w: nat, t: nat)
    requires Inv(s)
    ensures Inv(Step(s, Spawn(w, t)))
  {
    if w in s.workers && s.workers[w].pc.MayExecute? && s.workers[w].copy.pending.Some? && t !in s.tasks {
      var Worker(copy, pc) := s.workers[w];
      var k := |Crossed(copy)| - 1;
      assert Crossed(copy)[k] == CallOf(copy.pending.value) == Crossed(s.row)[k];
      assert CallOf(copy.pending.value) in Crossed(s.row);
      Replaced(s, w, copy, Idle);
      HandedOver(SetWorker(s, w, copy, Idle), w, t, copy.pending.value);
    }
  }

  lemma HandedOver(s: Sys, w: nat, t: nat, record: Record)
    requires Inv(s) && t !in s.tasks && CallOf(record) in Crossed(s.row)
    requires record.callId in s.grants && s.grants[record.callId] == ByWorker(w)
    requires w in s.workers && !s.workers[w].pc.MayExecute?
    ensures Inv(s.(tasks := s.tasks[t := Task(record, false)], grants := s.grants[record.callId := ByTask(t)]))
  {
    var next := s.(tasks := s.tasks[t := Task(record, false)], grants := s.grants[record.callId := ByTask(t)]);
    forall u | u in next.workers && next.workers[u].pc.MayExecute?
      ensures next.workers[u].pc.callId in next.grants && next.grants[next.workers[u].pc.callId] == ByWorker(u)
    {
      assert s.grants[s.workers[u].pc.callId] == ByWorker(u);
    }
    assert GrantInv(next);
    assert LogInv(next);
    assert CapInv(next);
  }

  lemma ExecuteKeeps(s: Sys, t: nat)
    requires Inv(s)
    ensures Inv(Step(s, Execute(t)))
  {
    if t in s.tasks && !s.tasks[t].executed {
      var next := Step(s, Execute(t));
      var call := CallOf(s.tasks[t].record);
      assert s.grants[call.callId] == ByTask(t);
      forall i | 0 <= i < |s.log| && s.log[i].callId == call.callId
        ensures s.log[i].tool == call.tool == TC4
      {
        SameTool(s.row, s.log[i], call);
      }
      assert LogInv(next);
    }
  }

  lemma SameTool(run: Run, a: Call, b: Call)
    requires Sound(run) && a in Crossed(run) && b in Crossed(run) && a.callId == b.callId
    ensures a == b
  {
  }

  lemma ContinueKeeps(s: Sys, w: nat)
    requires Inv(s)
    ensures Inv(Step(s, ContinueBatch(w)))
  {
    var next := Step(s, ContinueBatch(w));
    if next != s {
      var copy := s.workers[w].copy;
      var call := CallOf(copy.pending.value);
      assert Crossed(copy)[|Crossed(copy)| - 1] == call == Crossed(s.row)[|Crossed(copy)| - 1];
      assert call in Crossed(s.row);
      ContinuedKeeps(s, call);
    }
  }

  lemma ContinuedKeeps(s: Sys, call: Call)
    requires Inv(s) && call in Crossed(s.row) && call.tool == TC4
    ensures Inv(s.(log := s.log + [call]))
  {
    forall i | 0 <= i < |s.log| && s.log[i].callId == call.callId ensures s.log[i].tool == TC4 {
      SameTool(s.row, s.log[i], call);
    }
    assert LogInv(s.(log := s.log + [call]));
  }

  lemma StoreKeeps(s: Sys, t: Transaction)
    requires Inv(s)
    ensures Inv(Step(s, Store(t)))
  {
    TransactionsKeep(s.row, t);
    if Transact(s.row, t) == s.row {
      assert s.(row := s.row) == s;
    } else {
      RowMoved(s, Transact(s.row, t));
    }
  }

  lemma AbortKeeps(s: Sys, w: nat, recoverable: bool)
    requires Inv(s)
    ensures Inv(Step(s, Abort(w, recoverable)))
  {
    if w in s.workers && s.workers[w].pc !in {Closing, Dead} {
      Replaced(s, w, s.workers[w].copy.(status := if recoverable then INTERRUPTED else TERMINATED, errorCode := OTHER_ERROR), Closing);
    }
  }

  lemma CancelledKeeps(s: Sys, w: nat)
    requires Inv(s)
    ensures Inv(Step(s, Cancelled(w)))
  {
    if w in s.workers {
      if s.row.status == RUNNING {
        Replaced(s, w, s.row.(status := INTERRUPTED, errorCode := PROCESS_INTERRUPTED), Closing);
      } else {
        Replaced(s, w, s.workers[w].copy, Dead);
      }
    }
  }

  lemma StartKeeps(s: Sys, w: nat, token: nat, answer: Option<bool>)
    requires Inv(s)
    ensures Inv(Step(s, Start(w, token, answer)))
  {
    if w !in s.workers && MayStart(s.row, answer) {
      Replaced(s, w, Claimed(s.row, token, answer), Saving(None));
    }
  }

  lemma StepKeeps(s: Sys, e: Event)
    requires Inv(s)
    ensures Inv(Step(s, e))
  {
    match e
    case Start(w, token, answer) => StartKeeps(s, w, token, answer);
    case Local(w, work) => if w in s.workers { LocalKeeps(s, w, work); }
    case Fence(w) => FenceKeeps(s, w);
    case Save(w, fault) => if w in s.workers { SaveKeeps(s, w, fault); }
    case Abort(w, recoverable) => AbortKeeps(s, w, recoverable);
    case Cancelled(w) => CancelledKeeps(s, w);
    case Refresh(w) => if w in s.workers && s.workers[w].pc == Idle { Replaced(s, w, s.row, Idle); }
    case Spawn(w, t) => SpawnKeeps(s, w, t);
    case Execute(t) => ExecuteKeeps(s, t);
    case ContinueBatch(w) => ContinueKeeps(s, w);
    case Store(transaction) => StoreKeeps(s, transaction);
    case Kill(w) =>
    case Crash =>
  }

  lemma {:induction false} Reachable(s: Sys, events: seq<Event>)
    requires Initial(s)
    ensures Inv(After(s, events))
  {
    if events != [] {
      Reachable(s, events[..|events| - 1]);
      StepKeeps(After(s, events[..|events| - 1]), events[|events| - 1]);
    }
  }

  // ---- what follows for every run ----

  // ---- approval ----

  /** A guarded call's subject is one the user approved. */
  predicate Authorised(record: Record, approvals: set<Subject>) {
    record.invocation.Some? && record.invocation.value.guarded
    ==> Subject(record.invocation.value, record.fingerprint) in approvals
  }

  /** The user was asked about this call, a guarded one, and has not been heard. */
  predicate Undecided(record: Record) {
    record.invocation.Some? && record.invocation.value.guarded && record.asked && !record.confirmed && !record.dispatched
  }

  predicate PendingCleared(record: Record, approvals: set<Subject>) {
    && (record.confirmed || record.dispatched ==> Authorised(record, approvals))
    && (record.confirmed || record.dispatched || record.asked ==> record.invocation.Some?)
    && (record.asked || record.confirmed ==> record.invocation.value.guarded)
    && (record.status == NEEDS_CONFIRMATION <==>
          !record.dispatched && record.invocation.Some? && record.invocation.value.guarded)
  }

  /** Whatever was dispatched needed no approval or has it; a recorded decision is about the waiting call. */
  predicate Cleared(run: Run, approvals: set<Subject>) {
    && (forall i | 0 <= i < |run.executions| :: Authorised(run.executions[i], approvals))
    && (run.pending.Some? ==> PendingCleared(run.pending.value, approvals))
    && (run.status == WAITING_FOR_CONFIRMATION ==> run.pending.Some? && Undecided(run.pending.value))
    && (run.response.Some? ==>
          && run.pending.Some? && Undecided(run.pending.value) && run.response.value.callId == run.pending.value.callId
          && (run.response.value.approved ==> Authorised(run.pending.value, approvals)))
  }

  predicate AllCleared(s: Sys) {
    Cleared(s.row, s.approvals) && forall w | w in s.workers :: Cleared(s.workers[w].copy, s.approvals)
  }

  lemma ApplyClears(run: Run, work: Work, approvals: set<Subject>)
    requires Cleared(run, approvals) && Apply(run, work).Some?
    ensures Cleared(Apply(run, work).value, approvals)
  {
  }

  lemma FenceClears(run: Run, approvals: set<Subject>)
    requires Cleared(run, approvals) && MayFence(run)
    ensures Cleared(Fenced(run), approvals)
  {
  }

  lemma TransactionClears(row: Run, t: Transaction, approvals: set<Subject>)
    requires Cleared(row, approvals)
    ensures Cleared(Transact(row, t), approvals + if Approves(row, t) then SubjectOf(row.pending.value) else {})
  {
  }

  lemma MoreApproved(run: Run, approvals: set<Subject>, more: set<Subject>)
    requires Cleared(run, approvals)
    ensures Cleared(run, approvals + more)
  {
  }

  lemma AllMoreApproved(s: Sys, more: set<Subject>)
    requires AllCleared(s)
    ensures AllCleared(s.(approvals := s.approvals + more))
  {
    MoreApproved(s.row, s.approvals, more);
    forall w | w in s.workers ensures Cleared(s.workers[w].copy, s.approvals + more) {
      MoreApproved(s.workers[w].copy, s.approvals, more);
    }
  }

  lemma CopyCleared(s: Sys, w: nat, copy: Run, pc: Pc)
    requires AllCleared(s) && Cleared(copy, s.approvals)
    ensures AllCleared(SetWorker(s, w, copy, pc))
  {
  }

  lemma ClaimClears(row: Run, token: nat, answer: Option<bool>, approvals: set<Subject>)
    requires Cleared(row, approvals) && MayStart(row, answer)
    ensures Cleared(Claimed(row, token, answer), approvals + if answer == Some(true) then SubjectOf(row.pending.value) else {})
  {
  }

  lemma StoredClears(run: Run, approvals: set<Subject>)
    requires Cleared(run, approvals)
    ensures Cleared(Stored(run), approvals)
  {
  }

  lemma SaveClears(s: Sys, w: nat, fault: Fault)
    requires AllCleared(s) && w in s.workers
    ensures AllCleared(SaveStep(s, w, fault))
  {
    var Worker(copy, pc) := s.workers[w];
    if !pc.Saving? && pc !in {Failing, Closing} {
    } else if fault == LOST_BEFORE_COMMIT || SaveReply(s.row, copy) != Saved {
      NotSavedClears(s, w, fault);
    } else {
      StoredClears(copy, s.approvals);
      SavedClears(s.(row := Stored(copy)), s, w, fault);
    }
  }

  lemma NotSavedClears(s: Sys, w: nat, fault: Fault)
    requires AllCleared(s) && w in s.workers && (fault == LOST_BEFORE_COMMIT || SaveReply(s.row, s.workers[w].copy) != Saved)
    ensures AllCleared(SaveStep(s, w, fault))
  {
    var copy := s.workers[w].copy;
    CopyCleared(s, w, copy, Dead);
    CopyCleared(s, w, copy, Failing);
  }

  lemma SavedClears(stored: Sys, s: Sys, w: nat, fault: Fault)
    requires AllCleared(stored) && w in s.workers && stored == s.(row := Stored(s.workers[w].copy))
    requires fault != LOST_BEFORE_COMMIT && SaveReply(s.row, s.workers[w].copy) == Saved
    requires s.workers[w].pc.Saving? || s.workers[w].pc in {Failing, Closing}
    ensures AllCleared(SaveStep(s, w, fault))
  {
    var Worker(copy, pc) := s.workers[w];
    if fault == LOST_AFTER_COMMIT {
      CopyCleared(stored, w, copy, if pc == Closing then Dead else Failing);
    } else {
      StoredClears(copy, s.approvals);
      match pc
      case Saving(Some(c)) => CopyCleared(stored, w, Stored(copy), MayExecute(c));
      case Saving(None) => CopyCleared(stored, w, Stored(copy), Idle);
      case Failing => CopyCleared(stored, w, Stored(copy), Failing);
      case _ => CopyCleared(stored, w, Stored(copy), Dead);
    }
  }

  lemma EndClears(run: Run, status: RunStatus, code: ErrorCode, approvals: set<Subject>)
    requires Cleared(run, approvals) && status != WAITING_FOR_CONFIRMATION
    ensures Cleared(run.(status := status, errorCode := code), approvals)
  {
  }

  lemma LocalClears(s: Sys, w: nat, work: Work)
    requires AllCleared(s) && w in s.workers
    ensures AllCleared(LocalStep(s, w, work))
  {
    if Apply(s.workers[w].copy, work).Some? {
      ApplyClears(s.workers[w].copy, work, s.approvals);
    }
  }

  lemma StartClears(s: Sys, w: nat, token: nat, answer: Option<bool>)
    requires AllCleared(s)
    ensures AllCleared(Step(s, Start(w, token, answer)))
  {
    if w !in s.workers && MayStart(s.row, answer) {
      var more := if answer == Some(true) then SubjectOf(s.row.pending.value) else {};
      ClaimClears(s.row, token, answer, s.approvals);
      AllMoreApproved(s, more);
      CopyCleared(s.(approvals := s.approvals + more), w, Claimed(s.row, token, answer), Saving(None));
    }
  }

  lemma StoreClears(s: Sys, t: Transaction)
    requires AllCleared(s)
    ensures AllCleared(Step(s, Store(t)))
  {
    var more := if Approves(s.row, t) then SubjectOf(s.row.pending.value) else {};
    TransactionClears(s.row, t, s.approvals);
    AllMoreApproved(s, more);
  }

  lemma FenceStepClears(s: Sys, w: nat)
    requires AllCleared(s)
    ensures AllCleared(Step(s, Fence(w)))
  {
    if w in s.workers && MayFence(s.workers[w].copy) { FenceClears(s.workers[w].copy, s.approvals); }
  }

  lemma EndStepClears(s: Sys, e: Event)
    requires AllCleared(s) && (e.Abort? || e.Cancelled? || e.Refresh?)
    ensures AllCleared(Step(s, e))
  {
    match e
    case Abort(w, recoverable) =>
      if w in s.workers { EndClears(s.workers[w].copy, if recoverable then INTERRUPTED else TERMINATED, OTHER_ERROR, s.approvals); }
    case Cancelled(w) => EndClears(s.row, INTERRUPTED, PROCESS_INTERRUPTED, s.approvals);
    case _ =>
  }

  lemma StepClears(s: Sys, e: Event)
    requires AllCleared(s)
    ensures AllCleared(Step(s, e))
  {
    match e
    case Start(w, token, answer) => StartClears(s, w, token, answer);
    case Local(w, work) => if w in s.workers { LocalClears(s, w, work); }
    case Save(w, fault) => if w in s.workers { SaveClears(s, w, fault); }
    case Store(t) => StoreClears(s, t);
    case Fence(w) => FenceStepClears(s, w);
    case _ => if e.Abort? || e.Cancelled? || e.Refresh? { EndStepClears(s, e); }
  }

  lemma {:induction false} RunClears(s: Sys, events: seq<Event>)
    requires Initial(s)
    ensures AllCleared(After(s, events))
  {
    if events != [] {
      RunClears(s, events[..|events| - 1]);
      StepClears(After(s, events[..|events| - 1]), events[|events| - 1]);
    }
  }

  /** The records of all calls that crossed the dispatch fence. */
  function Dispatches(run: Run): seq<Record> {
    run.executions + if run.Dispatched() then [run.pending.value] else []
  }

  /** The run holds the dispatched record of this call, and it needs no approval or has it. */
  ghost predicate MayHappen(run: Run, call: Call, approvals: set<Subject>) {
    exists i :: 0 <= i < |Dispatches(run)| && CallOf(Dispatches(run)[i]) == call && Authorised(Dispatches(run)[i], approvals)
  }

  lemma DispatchesAuthorised(run: Run, approvals: set<Subject>)
    requires Cleared(run, approvals)
    ensures forall record | record in Dispatches(run) :: Authorised(record, approvals)
    ensures forall call | call in Crossed(run) :: MayHappen(run, call, approvals)
  {
    forall call | call in Crossed(run) ensures MayHappen(run, call, approvals) {
      var i :| 0 <= i < |Crossed(run)| && Crossed(run)[i] == call;
      assert CallOf(Dispatches(run)[i]) == call;
    }
  }

  /** No call that needs the user's approval is dispatched without it, and none reaches the gateway before the
      store holds its dispatched record and, if needed, the approval. */
  lemma {:induction false} ApprovedBeforeExecute(s: Sys, events: seq<Event>, e: Event)
    requires Initial(s)
    ensures var before, now := After(s, events), Step(After(s, events), e);
            && (forall record | record in Dispatches(before.row) :: Authorised(record, before.approvals))
            && (forall i | |before.log| <= i < |now.log| :: MayHappen(before.row, now.log[i], before.approvals))
  {
    RunClears(s, events);
    FenceBeforeExecute(s, events, e);
    var before := After(s, events);
    DispatchesAuthorised(before.row, before.approvals);
  }

  /** Only the user approves, and only the guarded call about which the stored run is waiting for him. */
  lemma {:induction false} OnlyUsersApprove(s: Sys, events: seq<Event>, e: Event, x: Subject)
    requires Initial(s) && x !in After(s, events).approvals && x in Step(After(s, events), e).approvals
    ensures var before := After(s, events);
            && before.row.status == WAITING_FOR_CONFIRMATION && before.row.pending.Some?
            && Concerns(before.row.pending.value, x) && x.invocation.guarded
            && !before.row.pending.value.confirmed && !before.row.pending.value.dispatched
            && match e
               case Start(_, _, answer) => answer == Some(true)
               case Store(DoDecide(waiting, subject, approved)) => approved && subject == x && waiting == before.row.waiting
               case _ => false
  {
    RunClears(s, events);
    var before := After(s, events);
    if e.Save? {
      if e.w in before.workers { SaveApprovesNothing(before, e.w, e.fault); }
    } else if e.Local? {
      if e.w in before.workers { LocalApprovesNothing(before, e.w, e.work); }
    }
  }

  lemma SaveApprovesNothing(s: Sys, w: nat, fault: Fault)
    requires w in s.workers
    ensures SaveStep(s, w, fault).approvals == s.approvals
  {
  }

  lemma LocalApprovesNothing(s: Sys, w: nat, work: Work)
    requires w in s.workers
    ensures LocalStep(s, w, work).approvals == s.approvals
  {
  }

  /** A finished run stays as it finished; only a stopped one still takes the receipt of a dispatched call. */
  lemma TerminalIsFinal(s: Sys, e: Event)
    requires s.row.Terminal()
    ensures var row, n := s.row, Step(s, e).row;
            && n.status == row.status && n.errorCode == row.errorCode && n.submission == row.submission
            && n.calls == row.calls && n.llmTokens == row.llmTokens && n.toolExecutions == row.toolExecutions
            && (n != row ==> row.errorCode == USER_STOPPED && row.Dispatched() && e.Store?)
  {
    if e.Save? {
      if e.w in s.workers { SaveFrame(s, e.w, e.fault); }
    } else if e.Store? {
      match e.transaction
      case DoReceipt(_, _) =>
      case DoMark(_) =>
      case DoDecide(_, _, _) =>
      case _ =>
    } else {
      StepFrame(s, e);
    }
  }

  /** No call is fenced once the tokens or the tool executions are used up, or before it was prepared, or twice. */
  lemma FenceNeeds(s: Sys, w: nat)
    requires Step(s, Fence(w)) != s
    ensures w in s.workers && s.workers[w].pc == Idle
    ensures var copy := s.workers[w].copy;
            && copy.llmTokens < copy.budget.maxLlmTokens && copy.toolExecutions < copy.budget.maxToolExecutions
            && copy.pending.Some? && copy.pending.value.invocation.Some? && !copy.pending.value.dispatched
  {
  }

  /** A worker takes up only a run that waits for one, and with a recorded decision only if that is about the call
      and the question that are pending. */
  lemma StartNeeds(s: Sys, w: nat, token: nat, answer: Option<bool>)
    requires Step(s, Start(w, token, answer)) != s
    ensures w !in s.workers
    ensures s.row.status == PENDING || s.row.status == WAITING_FOR_CONFIRMATION || s.row.status == WAITING_FOR_USER
    ensures s.row.status == PENDING && s.row.response.Some? ==>
              && s.row.pending.Some? && !s.row.pending.value.confirmed
              && s.row.response.value.callId == s.row.pending.value.callId && s.row.response.value.waiting == s.row.waiting
    ensures answer.Some? ==> s.row.status == WAITING_FOR_CONFIRMATION
    ensures var copy := Step(s, Start(w, token, answer)).workers[w].copy;
            copy.status == RUNNING && copy.claim == Some(token) && copy.version == s.row.version
  {
  }

  /** A call is new: none is pending, its id was never used, and there is budget for it. */
  lemma NewCallNeeds(run: AgentStores.Run, callId: CallId, fingerprint: Fingerprint)
    requires Apply(run, NewRecord(callId, fingerprint)).Some?
    ensures run.pending.None? && run.toolExecutions < run.budget.maxToolExecutions
    ensures forall call | call in Crossed(run) :: call.callId != callId
  {
  }

  /** Whatever happens, a run only moves on: versions grow with every change, what is used up is never given back,
      the limits stay, and the status follows the life of a run. */
  lemma {:induction false} RunMovesOn(s: Sys, events: seq<Event>, e: Event)
    requires Initial(s)
    ensures var row, n := After(s, events).row, Step(After(s, events), e).row;
            && n.budget == row.budget && n.llmTokens >= row.llmTokens && n.toolExecutions >= row.toolExecutions
            && (n != row ==> n.version == row.version + 1)
            && (n.status != row.status ==> Leads(row.status, n.status))
  {
    Reachable(s, events);
    var now := After(s, events);
    if e.Store? {
      TransactionMovesOn(now.row, e.transaction);
    } else if e.Save? {
      if e.w in now.workers {
        SaveFrame(now, e.w, e.fault);
        SavedExactly(now.row, now.workers[e.w].copy);
      }
    } else {
      StepFrame(now, e);
    }
  }

  lemma TransactionMovesOn(row: AgentStores.Run, t: Transaction)
    requires Sound(row)
    ensures var n := Transact(row, t);
            && n.budget == row.budget && n.llmTokens >= row.llmTokens && n.toolExecutions >= row.toolExecutions
            && (n != row ==> n.version == row.version + 1)
            && (n.status != row.status ==> Leads(row.status, n.status))
  {
    TransactionsKeep(row, t);
  }

  predicate Leads(before: RunStatus, after: RunStatus) {
    && before != SUCCEEDED && before != TERMINATED
    && match after
       case PENDING => before in {INTERRUPTED, WAITING_FOR_USER, WAITING_FOR_CONFIRMATION}
       case RUNNING => before in {PENDING, WAITING_FOR_USER, WAITING_FOR_CONFIRMATION}
       case INTERRUPTED => true
       case TERMINATED => true
       case _ => before == RUNNING
  }

  /** Undisturbed, a question is stored, and its answer makes the run PENDING under a new submission. */
  lemma QuestionIsAnswered(s: Sys, w: nat, submission: nat)
    requires w in s.workers && s.workers[w] == Worker(s.row, Idle) && s.row.status == RUNNING
    ensures var asked := Step(Step(s, Local(w, AskUser(false))), Save(w, FINE));
            && asked.row.status == WAITING_FOR_USER && asked.row.waiting == s.row.waiting + 1
            && asked.row.version == s.row.version + 1
            && var n := Step(asked, Store(DoAnswer(asked.row.waiting, submission)));
               n.row.status == PENDING && n.row.submission == submission && n.row.version == s.row.version + 2
  {
    var local := Step(s, Local(w, AskUser(false)));
    assert local.row == s.row && local.workers[w].pc == Saving(None);
    assert local.workers[w].copy == s.row.(status := WAITING_FOR_USER, waiting := s.row.waiting + 1);
  }

  /** Undisturbed, an answer ends the run successfully. */
  lemma SuccessIsStored(s: Sys, w: nat)
    requires w in s.workers && s.workers[w] == Worker(s.row, Idle) && s.row.status == RUNNING
    ensures Step(Step(s, Local(w, Succeed)), Save(w, FINE)).row == s.row.(status := SUCCEEDED, version := s.row.version + 1)
  {
    var local := Step(s, Local(w, Succeed));
    assert local.row == s.row && local.workers[w] == Worker(s.row.(status := SUCCEEDED), Saving(None));
  }

  function AskedBy(s: Sys, w: nat): Sys {
    Step(Step(s, Local(w, AskConfirmation)), Save(w, FINE))
  }

  function TakenUpBy(s: Sys, v: nat): Sys {
    Step(Step(Step(Step(s, Start(v, v, None)), Save(v, FINE)), Local(v, Confirm)), Save(v, FINE))
  }

  /** Undisturbed, a guarded call is put to the user, and his approval reaches the worker that takes the run up. */
  lemma ApprovalLeadsOn(s: Sys, w: nat, v: nat)
    requires w in s.workers && s.workers[w] == Worker(s.row, Idle) && s.row.status == RUNNING && v !in s.workers
    requires s.row.pending.Some? && s.row.pending.value.status == NEEDS_CONFIRMATION && s.row.response.None?
    requires s.row.pending.value.invocation.Some? && !s.row.pending.value.asked && !s.row.pending.value.confirmed
    ensures var record := s.row.pending.value;
            var subject := Subject(record.invocation.value, record.fingerprint);
            var asked := AskedBy(s, w);
            var decided := Step(asked, Store(DoDecide(asked.row.waiting, subject, true)));
            var n := TakenUpBy(decided, v);
            && asked.row.status == WAITING_FOR_CONFIRMATION && decided.row.status == PENDING && subject in decided.approvals
            && n.row.status == RUNNING && n.row.response == None && v in n.workers && n.workers[v] == Worker(n.row, Idle)
            && n.row.pending == Some(record.(asked := true, confirmed := true))
  {
    var record := s.row.pending.value;
    var subject := Subject(record.invocation.value, record.fingerprint);
    var waiting := s.row.(status := WAITING_FOR_CONFIRMATION, pending := Some(record.(asked := true)), waiting := s.row.waiting + 1);
    var asked := Asked(s, w, waiting);
    Decided(asked, subject);
    TakenUp(Step(asked, Store(DoDecide(asked.row.waiting, subject, true))), v);
  }

  lemma Decided(s: Sys, subject: Subject)
    requires s.row.status == WAITING_FOR_CONFIRMATION && s.row.pending.Some? && s.row.pending.value.asked
    requires !s.row.pending.value.confirmed && Concerns(s.row.pending.value, subject) && s.row.response.None?
    ensures var n := Step(s, Store(DoDecide(s.row.waiting, subject, true)));
            && n.row == s.row.(status := PENDING, version := s.row.version + 1,
                               response := Some(Decision(s.row.pending.value.callId, s.row.waiting, true)))
            && subject in n.approvals && n.workers == s.workers
  {
  }

  lemma Asked(s: Sys, w: nat, waiting: AgentStores.Run) returns (n: Sys)
    requires w in s.workers && s.workers[w] == Worker(s.row, Idle) && s.row.status == RUNNING
    requires Apply(s.row, AskConfirmation) == Some(waiting)
    ensures n == AskedBy(s, w)
    ensures n.row == Stored(waiting) && n.workers.Keys == s.workers.Keys
  {
    var local := Step(s, Local(w, AskConfirmation));
    assert local.row == s.row && local.workers[w] == Worker(waiting, Saving(None));
    n := Step(local, Save(w, FINE));
  }

  lemma TakenUp(s: Sys, v: nat)
    requires s.row.status == PENDING && v !in s.workers && s.row.pending.Some? && !s.row.pending.value.confirmed
    requires s.row.pending.value.status == NEEDS_CONFIRMATION
    requires s.row.response == Some(Decision(s.row.pending.value.callId, s.row.waiting, true))
    ensures var n := TakenUpBy(s, v);
            && n.row.status == RUNNING && n.row.response == None && v in n.workers && n.workers[v] == Worker(n.row, Idle)
            && n.row.pending == Some(s.row.pending.value.(confirmed := true))
  {
    var started := Step(s, Start(v, v, None));
    var claimed := s.row.(status := RUNNING, claim := Some(v));
    assert started.row == s.row && started.workers[v] == Worker(claimed, Saving(None));
    var taken := Step(started, Save(v, FINE));
    assert taken.row == Stored(claimed) && taken.workers[v] == Worker(taken.row, Idle);
    var local := Step(taken, Local(v, Confirm));
    var confirmed := taken.row.(pending := Some(s.row.pending.value.(confirmed := true)), response := None);
    assert local.row == taken.row && local.workers[v] == Worker(confirmed, Saving(None));
  }

  /** A worker that fails ends its run: interrupted if that may pass, else for good. */
  lemma FailureEndsRun(s: Sys, w: nat, recoverable: bool)
    requires w in s.workers && s.workers[w] == Worker(s.row, Idle) && s.row.status == RUNNING
    ensures var n := Step(Step(s, Abort(w, recoverable)), Save(w, FINE));
            && n.row.status == (if recoverable then INTERRUPTED else TERMINATED) && n.row.version == s.row.version + 1
            && n.row.errorCode == OTHER_ERROR && n.row.calls == s.row.calls && n.row.pending == s.row.pending
            && n.workers[w].pc == Dead && n.log == s.log
  {
    var aborted := Step(s, Abort(w, recoverable));
    var copy := s.row.(status := if recoverable then INTERRUPTED else TERMINATED, errorCode := OTHER_ERROR);
    assert aborted.workers[w] == Worker(copy, Closing) && aborted.row == s.row && aborted.log == s.log;
  }

  /** A running run is written only by the worker that claimed it, from the version it read last. */
  lemma OnlyClaimantSaves(s: Sys, w: nat, fault: Fault)
    requires s.row.status == RUNNING && Step(s, Save(w, fault)).row != s.row
    ensures w in s.workers && s.workers[w].copy.claim == s.row.claim && s.workers[w].copy.version == s.row.version
    ensures Step(s, Save(w, fault)).row == s.workers[w].copy.(version := s.row.version + 1)
  {
    SaveFrame(s, w, fault);
  }

  /** The gateway executes a tool call at most once (a TC4 batch may be continued), and only calls
      whose dispatch is already persisted; the counter is the number of fences and within budget. */
  lemma {:induction false} DispatchAtMostOnce(s: Sys, events: seq<Event>)
    requires Initial(s)
    ensures var now := After(s, events);
            && (forall i, j | 0 <= i < j < |now.log| && now.log[i].callId == now.log[j].callId :: now.log[i].tool == TC4)
            && (forall i | 0 <= i < |now.log| :: now.log[i] in Crossed(now.row))
            && now.row.toolExecutions == |Crossed(now.row)| <= now.row.budget.maxToolExecutions
            && Distinct(Crossed(now.row))
  {
    Reachable(s, events);
  }

  /** A call reaches the gateway only after the store holds its fence: already before the step. */
  lemma {:induction false} FenceBeforeExecute(s: Sys, events: seq<Event>, e: Event)
    requires Initial(s)
    ensures var before, now := After(s, events), Step(After(s, events), e);
            before.log <= now.log && forall i | |before.log| <= i < |now.log| :: now.log[i] in Crossed(before.row)
  {
    Reachable(s, events);
    LogGrows(After(s, events), e);
  }

  lemma SaveFrame(s: Sys, w: nat, fault: Fault)
    requires w in s.workers
    ensures SaveStep(s, w, fault).log == s.log
    ensures SaveStep(s, w, fault).row == s.row
            || (SaveReply(s.row, s.workers[w].copy) == Saved && s.workers[w].pc != Dead
                && SaveStep(s, w, fault).row == Stored(s.workers[w].copy))
  {
  }

  lemma LocalFrame(s: Sys, w: nat, work: Work)
    requires w in s.workers
    ensures LocalStep(s, w, work).log == s.log && LocalStep(s, w, work).row == s.row
  {
  }

  /** Only the gateway calls write the log, only saves and transactions write the row. */
  lemma StepFrame(s: Sys, e: Event)
    ensures !e.Execute? && !e.ContinueBatch? ==> Step(s, e).log == s.log
    ensures !e.Save? && !e.Store? ==> Step(s, e).row == s.row
  {
    if e.Save? {
      if e.w in s.workers { SaveFrame(s, e.w, e.fault); }
    } else if e.Local? {
      if e.w in s.workers { LocalFrame(s, e.w, e.work); }
    }
  }

  lemma LogGrows(s: Sys, e: Event)
    requires Inv(s)
    ensures var now := Step(s, e); s.log <= now.log && forall i | |s.log| <= i < |now.log| :: now.log[i] in Crossed(s.row)
  {
    if e.ContinueBatch? {
      if Step(s, e) != s {
        var copy := s.workers[e.w].copy;
        assert Crossed(copy)[|Crossed(copy)| - 1] == CallOf(copy.pending.value) == Crossed(s.row)[|Crossed(copy)| - 1];
      }
    } else if !e.Execute? {
      StepFrame(s, e);
    }
  }

  /** Undisturbed, a call that may be fenced is fenced in the store and then handed to the gateway. */
  lemma FencedCallIsExecuted(s: Sys, w: nat, t: nat)
    requires w in s.workers && s.workers[w] == Worker(s.row, Idle) && MayFence(s.row) && t !in s.tasks
    requires SaveReply(s.row, Fenced(s.row)) == Saved
    ensures var n := Step(Step(Step(Step(s, Fence(w)), Save(w, FINE)), Spawn(w, t)), Execute(t));
            && n.row == Stored(Fenced(s.row)) && n.log == s.log + [CallOf(Fenced(s.row).pending.value)]
            && n.workers[w] == Worker(n.row, Idle)
  {
    var fenced := Step(s, Fence(w));
    var call := s.row.pending.value.callId;
    assert fenced.workers[w] == Worker(Fenced(s.row), Saving(Some(call)));
    var saved := Step(fenced, Save(w, FINE));
    assert saved.workers[w] == Worker(Stored(Fenced(s.row)), MayExecute(call)) && saved.log == s.log;
    var spawned := Step(saved, Spawn(w, t));
    assert spawned.tasks[t] == Task(saved.row.pending.value, false) && spawned.workers[w] == Worker(saved.row, Idle);
  }

  // ---- the token ledger ----

  /** A reservation never promises more than is left; all that was charged is the settled usage. */
  lemma {:induction false} LedgerHolds(s: Sys, events: seq<Event>, request: Request)
    requires Initial(s)
    ensures var run := After(s, events).row;
            && run.llmTokens == Settled(run.calls) && |run.calls| <= run.budget.maxModelCalls
            && (MayReserve(run, request) ==>
                  && (if request.resources then 512 else 64) <= OutputLimit(run, request) <= request.maxOutput
                  && request.estimate + OutputLimit(run, request) <= request.window
                  && run.llmTokens + request.estimate + OutputLimit(run, request) <= run.budget.maxLlmTokens)
  {
    Reachable(s, events);
  }

  /** A call is charged once: after it settled, no step changes it. */
  lemma {:induction false} SettledOnce(s: Sys, events: seq<Event>, e: Event)
    requires Initial(s)
    ensures Advances(After(s, events).row.calls, Step(After(s, events), e).row.calls)
  {
    Reachable(s, events);
    StepAdvances(After(s, events), e);
  }

  lemma StepAdvances(s: Sys, e: Event)
    requires Inv(s)
    ensures Advances(s.row.calls, Step(s, e).row.calls)
  {
    if e.Store? {
      TransactionsKeep(s.row, e.transaction);
    } else if e.Save? {
      if e.w in s.workers {
        SaveFrame(s, e.w, e.fault);
        SaveAdvances(s, e.w);
      }
    } else {
      StepFrame(s, e);
    }
  }

  lemma SaveAdvances(s: Sys, w: nat)
    requires Inv(s) && w in s.workers
    ensures SaveReply(s.row, s.workers[w].copy) == Saved && s.workers[w].pc != Dead ==>
              Advances(s.row.calls, Stored(s.workers[w].copy).calls)
  {
    assert WorkerInv(s.row, s.workers[w]);
  }

  /** While no reservation was made next to an unfinished call and no usage exceeded its
      reservation, the cap holds, even if every unfinished call uses all it reserved. */
  lemma CapHolds(s: Sys, events: seq<Event>)
    requires Initial(s) && After(s, events).careful
    ensures var run := After(s, events).row;
            run.llmTokens + Outstanding(run.calls) <= run.budget.maxLlmTokens
  {
    Reachable(s, events);
  }

  /** The code's own check protects the cap against every request, whatever its estimate, exactly when no
      call is unfinished. */
  lemma CheckSufficesExactly(run: AgentStores.Run, estimate: nat)
    requires Capped(run) && |run.calls| < run.budget.maxModelCalls && run.llmTokens + estimate + 64 <= run.budget.maxLlmTokens
    ensures (forall request | MayReserve(run, request) && request.estimate == estimate :: Capped(Reserve(run, request)))
            <==> Outstanding(run.calls) == 0
  {
    forall request | MayReserve(run, request)
      ensures Outstanding(Reserve(run, request).calls) == Outstanding(run.calls) + request.estimate + OutputLimit(run, request)
    {
      CallAdded(run.calls, ModelCall(CALL_RUNNING, request.estimate, OutputLimit(run, request), 0));
    }
    var left := run.budget.maxLlmTokens - run.llmTokens;
    var all := Request(estimate, left, left - estimate, false);
    assert MayReserve(run, all) && OutputLimit(run, all) == left - estimate;
    if Outstanding(run.calls) > 0 { assert !Capped(Reserve(run, all)); }
  }

  lemma Then(start: Sys, events: seq<Event>, s: Sys, e: Event) returns (longer: seq<Event>, now: Sys)
    requires s == After(start, events)
    ensures now == After(start, longer) && now == Step(s, e)
  {
    longer, now := events + [e], Step(s, e);
    assert longer[..|longer| - 1] == events;
  }

  lemma Claim(start: Sys, events: seq<Event>, s: Sys, w: nat) returns (longer: seq<Event>, now: Sys)
    requires s == After(start, events) && w !in s.workers && s.row.status == PENDING && s.row.response.None?
    ensures now == After(start, longer)
    ensures now.row == s.row.(status := RUNNING, claim := Some(w), version := s.row.version + 1)
    ensures now.workers == s.workers[w := Worker(now.row, Idle)]
  {
    StartedAndSaved(s, w);
    longer, now := Then(start, events, s, Start(w, w, None));
    longer, now := Then(start, longer, now, Save(w, FINE));
  }

  lemma StartedAndSaved(s: Sys, w: nat)
    requires w !in s.workers && s.row.status == PENDING && s.row.response.None?
    ensures var n := Step(Step(s, Start(w, w, None)), Save(w, FINE));
            && n.row == s.row.(status := RUNNING, claim := Some(w), version := s.row.version + 1)
            && n.workers == s.workers[w := Worker(n.row, Idle)]
  {
    var copy := s.row.(status := RUNNING, claim := Some(w));
    var started := Step(s, Start(w, w, None));
    assert started.workers == s.workers[w := Worker(copy, Saving(None))] && started.row == s.row;
  }

  /** A worker claims a PENDING run and reserves all the tokens that are not yet charged. */
  lemma ReserveRest(start: Sys, events: seq<Event>, s: Sys, w: nat, estimate: nat) returns (longer: seq<Event>, now: Sys)
    requires s == After(start, events) && w !in s.workers && s.row.status == PENDING && s.row.response.None?
    requires s.row.llmTokens == 0
    requires estimate + 64 <= s.row.budget.maxLlmTokens && |s.row.calls| < s.row.budget.maxModelCalls
    ensures now == After(start, longer)
    ensures now.row == s.row.(status := RUNNING, claim := Some(w), version := s.row.version + 2,
                              calls := s.row.calls + [Whole(s.row.budget, estimate)])
    ensures now.workers == s.workers[w := Worker(now.row, Idle)]
  {
    var cap := s.row.budget.maxLlmTokens;
    longer, now := Claim(start, events, s, w);
    var claimed, request := now.row, Request(estimate, cap, cap - estimate, false);
    assert MayReserve(claimed, request) && OutputLimit(claimed, request) == cap - estimate;
    longer, now := ReserveAndSave(start, longer, now, w, request);
  }

  lemma ReserveAndSave(start: Sys, events: seq<Event>, s: Sys, w: nat, request: Request)
    returns (longer: seq<Event>, now: Sys)
    requires s == After(start, events) && w in s.workers && s.workers[w] == Worker(s.row, Idle)
    requires s.row.status == RUNNING && MayReserve(s.row, request)
    ensures now == After(start, longer) && now.row == Stored(Reserve(s.row, request))
    ensures now.workers == s.workers[w := Worker(now.row, Idle)]
  {
    longer, now := Then(start, events, s, Local(w, ReserveCall(request)));
    assert now.workers[w] == Worker(Reserve(s.row, request), Saving(None)) && now.row == s.row;
    longer, now := Then(start, longer, now, Save(w, FINE));
  }

  /** A call with this estimate and all the rest as its output. */
  function Whole(budget: Budget, estimate: nat): ModelCall
    requires estimate <= budget.maxLlmTokens
  {
    ModelCall(CALL_RUNNING, estimate, budget.maxLlmTokens - estimate, 0)
  }

  /** Cancelled between reserving and calling, a worker interrupts the run with its call unfinished. */
  lemma CancelAndResume(start: Sys, events: seq<Event>, s: Sys, w: nat) returns (longer: seq<Event>, now: Sys)
    requires s == After(start, events) && w in s.workers && s.workers[w] == Worker(s.row, Idle)
    requires s.row.status == RUNNING && s.row.pending.None? && s.row.resumedVersion.None?
    requires s.row.llmTokens < s.row.budget.maxLlmTokens && |s.row.calls| < s.row.budget.maxModelCalls
    ensures now == After(start, longer) && now.row.status == PENDING
    ensures now.row.calls == s.row.calls && now.row.llmTokens == s.row.llmTokens && now.row.budget == s.row.budget
    ensures now.row.response == s.row.response && now.row.submission == s.row.submission && now.workers.Keys == s.workers.Keys
  {
    var version := s.row.version + 1;
    CancelledThenResumed(s, w);
    longer, now := Then(start, events, s, Cancelled(w));
    longer, now := Then(start, longer, now, Save(w, FINE));
    longer, now := Then(start, longer, now, Store(DoResume(s.row.submission, version, version)));
  }

  lemma CancelledThenResumed(s: Sys, w: nat)
    requires w in s.workers && s.workers[w] == Worker(s.row, Idle)
    requires s.row.status == RUNNING && s.row.pending.None? && s.row.resumedVersion.None?
    requires s.row.llmTokens < s.row.budget.maxLlmTokens && |s.row.calls| < s.row.budget.maxModelCalls
    ensures var version := s.row.version + 1;
            var n := Step(Step(Step(s, Cancelled(w)), Save(w, FINE)), Store(DoResume(s.row.submission, version, version)));
            && n.row.status == PENDING && n.row.calls == s.row.calls && n.row.llmTokens == s.row.llmTokens
            && n.row.budget == s.row.budget && n.row.response == s.row.response && n.row.submission == s.row.submission
            && n.workers.Keys == s.workers.Keys
  {
    var copy := s.row.(status := INTERRUPTED, errorCode := PROCESS_INTERRUPTED);
    var cancelled := SetWorker(s, w, copy, Closing);
    assert Step(s, Cancelled(w)) == cancelled;
    var saved := Step(cancelled, Save(w, FINE));
    assert saved.row == Stored(copy) && saved.workers.Keys == s.workers.Keys;
  }

  /** Cancelled between reserving and calling the model, a run is interrupted with its call
      unfinished. Resumed, it may reserve everything again, and stopping charges both. */
  lemma CapCanBeExceeded(s: Sys, estimate: nat) returns (events: seq<Event>)
    requires Initial(s) && s.row.status == PENDING && s.row.calls == [] && s.row.pending.None? && s.row.resumedVersion.None?
    requires s.row.budget.maxModelCalls >= 2 && estimate + 64 <= s.row.budget.maxLlmTokens && s.row.llmTokens == 0
    ensures After(s, events).row.llmTokens == 2 * s.row.budget.maxLlmTokens
  {
    var first := Whole(s.row.budget, estimate);
    var now;
    assert After(s, []) == s;
    events, now := ReserveRest(s, [], s, 0, estimate);
    assert now.row.calls == [first];
    events, now := CancelAndResume(s, events, now, 0);
    events, now := ReserveRest(s, events, now, 1, estimate);
    assert now.row.calls == [first, first];
    events := SettleAndStop(s, events, now, estimate);
  }

  lemma SettleAndStop(start: Sys, events: seq<Event>, s: Sys, estimate: nat) returns (longer: seq<Event>)
    requires s == After(start, events) && 1 in s.workers && s.workers[1] == Worker(s.row, Idle)
    requires s.row.status == RUNNING && s.row.llmTokens == 0 && estimate <= s.row.budget.maxLlmTokens
    requires s.row.calls == [Whole(s.row.budget, estimate), Whole(s.row.budget, estimate)]
    ensures After(start, longer).row.llmTokens == 2 * s.row.budget.maxLlmTokens
  {
    var cap := s.row.budget.maxLlmTokens;
    var calls := s.row.calls[1 := Whole(s.row.budget, estimate).(status := CALL_SUCCEEDED, usage := cap)];
    CallReplaced(s.row.calls, 1, calls[1]);
    assert Outstanding(s.row.calls) == 2 * cap by {
      assert s.row.calls == [] + [s.row.calls[0]] + [s.row.calls[1]];
      CallAdded([], s.row.calls[0]);
      CallAdded([] + [s.row.calls[0]], s.row.calls[1]);
    }
    var now;
    longer, now := Then(start, events, s, Local(1, SettleCall(1, true, cap)));
    assert now.workers[1] == Worker(s.row.(calls := calls, llmTokens := cap), Saving(None));
    longer, now := Then(start, longer, now, Save(1, FINE));
    assert now.row == s.row.(calls := calls, llmTokens := cap, version := s.row.version + 1);
    longer, now := Then(start, longer, now, Store(DoStop(s.row.submission)));
  }
}
