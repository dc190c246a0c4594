/**
 The persisted AgentRun document and the short transactions on it. Every
 transaction is a function from the stored row to the next one; the store class
 runs them on its row, retrying a save whose outcome it could not see.
 */
module AgentStores {
  import opened Options

  datatype RunStatus = PENDING | RUNNING | WAITING_FOR_USER | WAITING_FOR_CONFIRMATION | INTERRUPTED | SUCCEEDED | TERMINATED
  datatype RecordStatus = PREPARING | NEEDS_CONFIRMATION | READY | DISPATCHED | OUTCOME_UNKNOWN | OBSERVED
  datatype CallStatus = CALL_RUNNING | CALL_SUCCEEDED | CALL_FAILED
  datatype ErrorCode = NO_ERROR | USER_STOPPED | PROCESS_INTERRUPTED | TOOL_OUTCOME_UNKNOWN | OTHER_ERROR

  type CallId = nat
  type Tool = nat
  const TC4: Tool := 0

  /** The fingerprint covers the tool, so equal fingerprints mean the same tool. */
  datatype Fingerprint = Fingerprint(tool: Tool, arguments: nat)

  /** Whether an invocation needs the user's approval is fixed when it is created. */
  datatype Invocation = Invocation(id: nat, guarded: bool)

  /** `asked`: the user was asked to approve this call. */
  datatype Record = Record(callId: CallId, fingerprint: Fingerprint, invocation: Option<Invocation>,
                           status: RecordStatus, asked: bool, confirmed: bool, dispatched: bool, observation: Option<nat>)

  /** What the user approves; the version of a confirmation is its hash. */
  datatype Subject = Subject(invocation: Invocation, fingerprint: Fingerprint)
  datatype Decision = Decision(callId: CallId, waiting: nat, approved: bool)
  datatype Observation = Observation(id: nat, invocation: Invocation, unknown: bool)
  datatype ModelCall = ModelCall(status: CallStatus, inputReserved: nat, outputLimit: nat, usage: nat)
  datatype Budget = Budget(maxModelCalls: nat, maxToolExecutions: nat, maxLlmTokens: nat)

  datatype Run = Run(
    status: RunStatus, version: nat, claim: Option<nat>, submission: nat, operation: Option<nat>,
    budget: Budget, llmTokens: nat, toolExecutions: nat,
    pending: Option<Record>, executions: seq<Record>, observations: seq<Observation>,
    calls: seq<ModelCall>, errorCode: ErrorCode, resumedVersion: Option<nat>,
    waiting: nat, response: Option<Decision>)
  {
    predicate Terminal() { status in {SUCCEEDED, TERMINATED} }

    predicate Dispatched() { pending.Some? && pending.value.dispatched }

    predicate Observed(invocation: Invocation) {
      exists i | 0 <= i < |observations| :: observations[i].invocation == invocation
    }
  }

  // ---- AgentRun.validate_transition ----

  predicate AllowedTransition(previous: RunStatus, next: RunStatus) {
    match previous
    case PENDING => next in {RUNNING, INTERRUPTED, TERMINATED}
    case RUNNING => next in {RUNNING, WAITING_FOR_USER, WAITING_FOR_CONFIRMATION, INTERRUPTED, SUCCEEDED, TERMINATED}
    case INTERRUPTED => next in {PENDING, INTERRUPTED, TERMINATED}
    case WAITING_FOR_USER => next in {PENDING, RUNNING, TERMINATED}
    case WAITING_FOR_CONFIRMATION => next in {PENDING, RUNNING, TERMINATED}
    case SUCCEEDED => false
    case TERMINATED => false
  }

  predicate ValidTransition(previous: Run, next: Run) {
    && AllowedTransition(previous.status, next.status)
    && next.budget == previous.budget
    && next.llmTokens >= previous.llmTokens && next.toolExecutions >= previous.toolExecutions
  }

  // ---- transactions ----

  datatype Reply = Saved | Conflict | Rejected | Unavailable

  /** The compare-and-set of `_save_once`, before the row is written. */
  function SaveReply(row: Run, run: Run): Reply {
    if row.version != run.version then Conflict
    else if row.status == RUNNING && row.claim != run.claim then Conflict
    else if !ValidTransition(row, run) then Rejected
    else Saved
  }

  function Stored(run: Run): Run {
    run.(version := run.version + 1)
  }

  /** A save is admitted over the version it was read at, while RUNNING only from the claim's owner, and if it
      neither revives a finished run, nor skips a stage, nor lowers what was used, nor moves the limits. */
  lemma SavedExactly(row: Run, run: Run)
    ensures SaveReply(row, run) == Conflict <==> row.version != run.version || (row.status == RUNNING && row.claim != run.claim)
    ensures SaveReply(row, run) != Unavailable
    ensures SaveReply(row, run) == Saved ==>
              && row.status != SUCCEEDED && row.status != TERMINATED && run.budget == row.budget
              && run.llmTokens >= row.llmTokens && run.toolExecutions >= row.toolExecutions
              && (run.status == SUCCEEDED ==> row.status == RUNNING)
              && (run.status == WAITING_FOR_USER || run.status == WAITING_FOR_CONFIRMATION ==> row.status == RUNNING)
              && (run.status == RUNNING ==> row.status != INTERRUPTED)
              && (run.status == PENDING ==> row.status != PENDING && row.status != RUNNING)
    ensures run.version == row.version && row.status == RUNNING && run.claim == row.claim && run.status != PENDING
            && run.budget == row.budget && run.llmTokens >= row.llmTokens && run.toolExecutions >= row.toolExecutions
            ==> SaveReply(row, run) == Saved
  {
  }

  /** A finished model call keeps its usage; an unfinished one is charged its whole reservation. */
  function Charge(calls: seq<ModelCall>): seq<ModelCall> {
    seq(|calls|, i requires 0 <= i < |calls| =>
      if calls[i].status == CALL_RUNNING
      then calls[i].(status := CALL_FAILED, usage := calls[i].inputReserved + calls[i].outputLimit)
      else calls[i])
  }

  function Outstanding(calls: seq<ModelCall>): nat {
    if calls == [] then 0
    else Outstanding(calls[1..]) +
         if calls[0].status == CALL_RUNNING then calls[0].inputReserved + calls[0].outputLimit else 0
  }

  function Settled(calls: seq<ModelCall>): nat {
    if calls == [] then 0
    else Settled(calls[1..]) + if calls[0].status == CALL_RUNNING then 0 else calls[0].usage
  }

  /** `recover_interrupted` on one PENDING or RUNNING row. */
  function Recovered(row: Run): Run {
    row.(calls := Charge(row.calls), llmTokens := row.llmTokens + Outstanding(row.calls),
         status := INTERRUPTED, claim := None, version := row.version + 1,
         errorCode := if row.Dispatched() then TOOL_OUTCOME_UNKNOWN else PROCESS_INTERRUPTED,
         pending := if row.Dispatched() then Some(row.pending.value.(status := OUTCOME_UNKNOWN)) else row.pending)
  }

  function Recover(row: Run): Run {
    if row.status in {PENDING, RUNNING} then Recovered(row) else row
  }

  function Stop(row: Run, submission: nat): Run {
    if row.submission != submission || row.status !in {PENDING, RUNNING, INTERRUPTED} then row
    else row.(calls := Charge(row.calls), llmTokens := row.llmTokens + Outstanding(row.calls),
              status := TERMINATED, errorCode := USER_STOPPED, version := row.version + 1)
  }

  /** `recovery_action` other than NONE; the clock only matters for active time, which is left out. */
  predicate Resumable(run: Run) {
    && run.status == INTERRUPTED
    && (run.Dispatched() || (run.llmTokens < run.budget.maxLlmTokens && |run.calls| < run.budget.maxModelCalls))
  }

  function Resume(row: Run, submission: nat, version: nat, requested: nat): Run {
    if row.submission != submission || row.resumedVersion == Some(requested) then row
    else if row.version != version || !Resumable(row) then row
    else if row.Dispatched() && row.pending.value.fingerprint.tool != TC4 then row
    else row.(status := PENDING, errorCode := NO_ERROR, resumedVersion := Some(requested), version := row.version + 1)
  }

  /** The answer to the question that the run is waiting with is a new submission. */
  function Answer(row: Run, waiting: nat, submission: nat): Run {
    if row.status != WAITING_FOR_USER || row.waiting != waiting then row
    else row.(status := PENDING, submission := submission, version := row.version + 1)
  }

  predicate Concerns(record: Record, subject: Subject) {
    record.invocation == Some(subject.invocation) && record.fingerprint == subject.fingerprint
  }

  /** `accept_confirmation`: the decision on the call that the user was asked about, kept for the next worker. */
  function Decide(row: Run, waiting: nat, subject: Subject, approved: bool): Run {
    if row.waiting != waiting || row.pending.None? || !row.pending.value.asked || !Concerns(row.pending.value, subject) then row
    else
      var decision := Decision(row.pending.value.callId, waiting, approved);
      if row.response == Some(decision) || (approved && row.pending.value.confirmed) then row
      else if row.status != WAITING_FOR_CONFIRMATION then row
      else row.(status := PENDING, response := Some(decision), version := row.version + 1)
  }

  function MarkOutcomeUnknown(row: Run, record: Record): Run {
    if !row.Dispatched() || row.pending.value.invocation != record.invocation
       || row.pending.value.fingerprint != record.fingerprint then row
    else if row.Terminal() && row.errorCode != USER_STOPPED then row
    else
      var marked := row.(pending := Some(row.pending.value.(status := OUTCOME_UNKNOWN)), version := row.version + 1);
      if row.Terminal() then marked else marked.(status := INTERRUPTED, errorCode := TOOL_OUTCOME_UNKNOWN)
  }

  /** `receipt` moves the dispatched record into `executions` together with its observation. */
  predicate OwnsReceipt(row: Run, record: Record, observation: Observation) {
    && !observation.unknown
    && row.Dispatched() && record.invocation == Some(observation.invocation)
    && row.pending.value.invocation == record.invocation
    && row.pending.value.callId == record.callId
    && row.pending.value.fingerprint == record.fingerprint
    && row.status in {RUNNING, INTERRUPTED, TERMINATED}
    && (row.status == TERMINATED ==> row.errorCode == USER_STOPPED)
  }

  function Receipt(row: Run, record: Record, observation: Observation): Run {
    if row.Observed(observation.invocation) || !OwnsReceipt(row, record, observation) then row
    else row.(observations := row.observations + [observation],
              executions := row.executions + [record.(status := OBSERVED, dispatched := true, observation := Some(observation.id))],
              pending := None, version := row.version + 1,
              errorCode := if row.status == INTERRUPTED && row.errorCode == TOOL_OUTCOME_UNKNOWN
                           then PROCESS_INTERRUPTED else row.errorCode)
  }

  // ---- what every transaction keeps ----

  datatype Call = Call(callId: CallId, tool: Tool)

  function CallOf(record: Record): Call {
    Call(record.callId, record.fingerprint.tool)
  }

  /** The tool calls that crossed the dispatch fence, in order. */
  function Crossed(run: Run): seq<Call> {
    seq(|run.executions|, i requires 0 <= i < |run.executions| => CallOf(run.executions[i])) +
    if run.Dispatched() then [CallOf(run.pending.value)] else []
  }

  ghost predicate Distinct(calls: seq<Call>) {
    forall i, j | 0 <= i < j < |calls| :: calls[i].callId != calls[j].callId
  }

  ghost predicate Sound(run: Run) {
    && run.toolExecutions == |Crossed(run)| <= run.budget.maxToolExecutions
    && Distinct(Crossed(run))
    && (run.pending.Some? ==> forall i | 0 <= i < |run.executions| :: run.executions[i].callId != run.pending.value.callId)
    && run.llmTokens == Settled(run.calls)
    && |run.calls| <= run.budget.maxModelCalls
  }

  /** The token cap holds even if every unfinished call uses its whole reservation. */
  predicate Capped(run: Run) {
    run.llmTokens + Outstanding(run.calls) <= run.budget.maxLlmTokens
  }

  /** Calls are only added, and a settled one is final. */
  ghost predicate Advances(calls: seq<ModelCall>, later: seq<ModelCall>) {
    && |calls| <= |later|
    && forall i | 0 <= i < |calls| ::
         && later[i].inputReserved == calls[i].inputReserved && later[i].outputLimit == calls[i].outputLimit
         && (calls[i].status != CALL_RUNNING ==> later[i] == calls[i])
  }

  lemma {:induction false} ChargeSettles(calls: seq<ModelCall>)
    ensures Settled(Charge(calls)) == Settled(calls) + Outstanding(calls)
    ensures Outstanding(Charge(calls)) == 0
  {
    if calls != [] {
      assert Charge(calls)[1..] == Charge(calls[1..]);
      ChargeSettles(calls[1..]);
    }
  }

  lemma {:induction false} CallAdded(calls: seq<ModelCall>, call: ModelCall)
    ensures Settled(calls + [call]) == Settled(calls) + if call.status == CALL_RUNNING then 0 else call.usage
    ensures Outstanding(calls + [call]) == Outstanding(calls) +
            if call.status == CALL_RUNNING then call.inputReserved + call.outputLimit else 0
  {
    if calls != [] {
      assert (calls + [call])[1..] == calls[1..] + [call];
      CallAdded(calls[1..], call);
    } else {
      assert [] + [call] == [call];
    }
  }

  lemma {:induction false} CallReplaced(calls: seq<ModelCall>, i: nat, call: ModelCall)
    requires i < |calls| && calls[i].status == CALL_RUNNING && call.status != CALL_RUNNING
    ensures Settled(calls[i := call]) == Settled(calls) + call.usage
    ensures Outstanding(calls[i := call]) == Outstanding(calls) - (calls[i].inputReserved + calls[i].outputLimit)
  {
    if i > 0 {
      assert calls[i := call][1..] == calls[1..][i - 1 := call];
      CallReplaced(calls[1..], i - 1, call);
    } else {
      assert calls[0 := call][1..] == calls[1..];
    }
  }

  lemma ReceiptKeepsFence(row: Run, record: Record, observation: Observation)
    requires OwnsReceipt(row, record, observation) && !row.Observed(observation.invocation)
    ensures Crossed(Receipt(row, record, observation)) == Crossed(row)
  {
  }

  datatype Transaction =
    | DoRecover
    | DoStop(submission: nat)
    | DoResume(submission: nat, version: nat, requested: nat)
    | DoAnswer(waiting: nat, submission: nat)
    | DoDecide(waiting: nat, subject: Subject, approved: bool)
    | DoMark(record: Record)
    | DoReceipt(record: Record, observation: Observation)

  function Transact(row: Run, t: Transaction): Run {
    match t
    case DoRecover => Recover(row)
    case DoStop(submission) => Stop(row, submission)
    case DoResume(submission, version, requested) => Resume(row, submission, version, requested)
    case DoAnswer(waiting, submission) => Answer(row, waiting, submission)
    case DoDecide(waiting, subject, approved) => Decide(row, waiting, subject, approved)
    case DoMark(record) => MarkOutcomeUnknown(row, record)
    case DoReceipt(record, observation) => Receipt(row, record, observation)
  }

  /** No transaction of the store crosses a fence, loses one, or miscounts; each one that changes
      anything takes a new version. Only recovery and stopping charge unfinished calls. */
  lemma TransactionsKeep(row: Run, t: Transaction)
    requires Sound(row)
    ensures Sound(Transact(row, t))
    ensures Crossed(Transact(row, t)) == Crossed(row)
    ensures Transact(row, t) == row || Transact(row, t).version == row.version + 1
    ensures Transact(row, t).budget == row.budget && Advances(row.calls, Transact(row, t).calls)
    ensures Capped(row) ==> Capped(Transact(row, t))
  {
    ChargeSettles(row.calls);
    if t.DoReceipt? && Receipt(row, t.record, t.observation) != row {
      ReceiptKeepsFence(row, t.record, t.observation);
    }
  }

  // ---- what each transaction does ----

  /** Every unfinished call is charged what it reserved; a finished one is left alone. */
  predicate AllCharged(before: seq<ModelCall>, after: seq<ModelCall>) {
    && |after| == |before|
    && forall i | 0 <= i < |before| ::
         if before[i].status == CALL_RUNNING then
           && after[i].status == CALL_FAILED && after[i].usage == before[i].inputReserved + before[i].outputLimit
           && after[i].inputReserved == before[i].inputReserved && after[i].outputLimit == before[i].outputLimit
         else after[i] == before[i]
  }

  /** The tokens of all unfinished calls have been moved to what was used, and nothing else was. */
  predicate Metered(before: Run, after: Run) {
    && AllCharged(before.calls, after.calls) && (forall call | call in after.calls :: call.status != CALL_RUNNING)
    && after.llmTokens == before.llmTokens + Outstanding(before.calls)
    && Outstanding(after.calls) == 0 && Settled(after.calls) == Settled(before.calls) + Outstanding(before.calls)
  }

  /** Neither the work done so far nor the limits change. */
  predicate KeepsWork(before: Run, after: Run) {
    && after.executions == before.executions && after.observations == before.observations
    && after.toolExecutions == before.toolExecutions && after.budget == before.budget
    && after.submission == before.submission && after.operation == before.operation
    && after.waiting == before.waiting && after.resumedVersion == before.resumedVersion
  }

  /** After a crash a run that was under way is interrupted, free to be claimed, and has paid for what it cannot
      account for; the outcome of a dispatched call is unknown. */
  lemma RecoveryExactly(row: Run)
    ensures var n := Transact(row, DoRecover);
            if row.status != PENDING && row.status != RUNNING then n == row
            else
              && n.status == INTERRUPTED && n.claim == None && n.version == row.version + 1
              && Metered(row, n) && KeepsWork(row, n) && n.response == row.response
              && (if row.pending.Some? && row.pending.value.dispatched
                  then n.errorCode == TOOL_OUTCOME_UNKNOWN && n.pending == Some(row.pending.value.(status := OUTCOME_UNKNOWN))
                  else n.errorCode == PROCESS_INTERRUPTED && n.pending == row.pending)
  {
    ChargeSettles(row.calls);
  }

  /** A stopped run ends at once and has paid for its unfinished calls; a dispatched call stays, so that its
      receipt can still be taken. */
  lemma StopExactly(row: Run, submission: nat)
    ensures var n := Transact(row, DoStop(submission));
            if row.submission != submission || (row.status != PENDING && row.status != RUNNING && row.status != INTERRUPTED)
            then n == row
            else
              && n.status == TERMINATED && n.errorCode == USER_STOPPED && n.version == row.version + 1
              && Metered(row, n) && KeepsWork(row, n)
              && n.pending == row.pending && n.claim == row.claim && n.response == row.response
  {
    ChargeSettles(row.calls);
  }

  /** A run with a dispatched call goes on only if the call is a TC4 batch, which can be continued; any other waits
      for its receipt. Without one it goes on while the budget allows another model call. */
  lemma ResumeExactly(row: Run, submission: nat, version: nat, requested: nat)
    ensures var n := Transact(row, DoResume(submission, version, requested));
            if && row.status == INTERRUPTED && row.submission == submission && row.version == version
               && row.resumedVersion != Some(requested)
               && (if row.pending.Some? && row.pending.value.dispatched then row.pending.value.fingerprint.tool == TC4
                   else row.llmTokens < row.budget.maxLlmTokens && |row.calls| < row.budget.maxModelCalls)
            then
              && n.status == PENDING && n.errorCode == NO_ERROR && n.resumedVersion == Some(requested)
              && n.version == row.version + 1 && n.calls == row.calls && n.llmTokens == row.llmTokens
              && n.pending == row.pending && n.response == row.response && n.claim == row.claim
              && KeepsWork(row, n.(resumedVersion := row.resumedVersion))
            else n == row
  {
  }

  /** Asking twice for one resumption resumes once. */
  lemma ResumedOnce(row: Run, submission: nat, version: nat, requested: nat, again: nat)
    ensures var n := Transact(row, DoResume(submission, version, requested));
            n != row ==> Transact(n, DoResume(submission, again, requested)) == n
  {
  }

  /** An unknown outcome interrupts the run that owns the call; a stopped one only notes it, and every other run
      is not concerned. */
  lemma MarkExactly(row: Run, record: Record)
    ensures var n := Transact(row, DoMark(record));
            if || row.pending.None? || !row.pending.value.dispatched
               || row.pending.value.invocation != record.invocation || row.pending.value.fingerprint != record.fingerprint
               || ((row.status == SUCCEEDED || row.status == TERMINATED) && row.errorCode != USER_STOPPED)
            then n == row
            else
              && n.pending == Some(row.pending.value.(status := OUTCOME_UNKNOWN)) && n.version == row.version + 1
              && n.calls == row.calls && n.llmTokens == row.llmTokens && n.claim == row.claim && KeepsWork(row, n)
              && (if row.status == SUCCEEDED || row.status == TERMINATED then n.status == row.status && n.errorCode == USER_STOPPED
                  else n.status == INTERRUPTED && n.errorCode == TOOL_OUTCOME_UNKNOWN)
  {
  }

  /** A receipt closes the call it belongs to, and a run that was interrupted for its unknown outcome may then be
      resumed, whatever the tool. */
  lemma ReceiptExactly(row: Run, record: Record, observation: Observation)
    requires OwnsReceipt(row, record, observation) && !row.Observed(observation.invocation)
    ensures var n := Transact(row, DoReceipt(record, observation));
            && n.pending == None && n.observations == row.observations + [observation]
            && |n.executions| == |row.executions| + 1 && n.executions[..|row.executions|] == row.executions
            && (var done := n.executions[|row.executions|];
                && CallOf(done) == CallOf(row.pending.value) && done.invocation == Some(observation.invocation)
                && done.fingerprint == row.pending.value.fingerprint
                && done.status == OBSERVED && done.dispatched && done.observation == Some(observation.id))
            && n.status == row.status && n.version == row.version + 1 && n.toolExecutions == row.toolExecutions
            && n.calls == row.calls && n.llmTokens == row.llmTokens && n.budget == row.budget
            && (row.status == INTERRUPTED && row.errorCode == TOOL_OUTCOME_UNKNOWN ==>
                  n.errorCode == PROCESS_INTERRUPTED
                  && (row.llmTokens < row.budget.maxLlmTokens && |row.calls| < row.budget.maxModelCalls
                      && row.resumedVersion != Some(n.version) ==>
                        Transact(n, DoResume(n.submission, n.version, n.version)).status == PENDING))
            && (!(row.status == INTERRUPTED && row.errorCode == TOOL_OUTCOME_UNKNOWN) ==> n.errorCode == row.errorCode)
  {
  }

  /** A receipt is taken only for a call that is dispatched and under way, or whose run was stopped; otherwise
      nothing happens. */
  lemma ReceiptNeedsOwner(row: Run, record: Record, observation: Observation)
    ensures Transact(row, DoReceipt(record, observation)) != row <==>
              && !observation.unknown && (forall o | o in row.observations :: o.invocation != observation.invocation)
              && row.pending.Some? && row.pending.value.dispatched
              && row.pending.value.invocation == record.invocation == Some(observation.invocation)
              && row.pending.value.callId == record.callId && row.pending.value.fingerprint == record.fingerprint
              && (row.status == RUNNING || row.status == INTERRUPTED
                  || (row.status == TERMINATED && row.errorCode == USER_STOPPED))
  {
    var n := Transact(row, DoReceipt(record, observation));
    assert n != row ==> n.version != row.version;
    assert row.Observed(observation.invocation) <==> exists o | o in row.observations :: o.invocation == observation.invocation;
  }

  /** An answer belongs to the question that is waiting; it starts a new submission of the run. */
  lemma AnswerExactly(row: Run, waiting: nat, submission: nat)
    ensures var n := Transact(row, DoAnswer(waiting, submission));
            if row.status == WAITING_FOR_USER && row.waiting == waiting then
              && n.status == PENDING && n.submission == submission && n.version == row.version + 1
              && n.pending == row.pending && n.calls == row.calls && n.llmTokens == row.llmTokens
              && KeepsWork(row, n.(submission := row.submission))
            else n == row
  {
  }

  /** What the user says is taken once, for what the run is waiting for, and makes it PENDING. */
  lemma DecisionExactly(row: Run, waiting: nat, subject: Subject, approved: bool)
    ensures var n := Transact(row, DoDecide(waiting, subject, approved));
            if && row.status == WAITING_FOR_CONFIRMATION && row.waiting == waiting && row.pending.Some?
               && row.pending.value.asked && Concerns(row.pending.value, subject) && !(approved && row.pending.value.confirmed)
               && row.response != Some(Decision(row.pending.value.callId, waiting, approved))
            then
              && n.status == PENDING && n.response == Some(Decision(row.pending.value.callId, waiting, approved))
              && n.version == row.version + 1 && n.pending == row.pending && KeepsWork(row, n)
            else n == row
  {
  }

  // ---- others between two attempts ----

  /** A transaction, or a save by another writer: its copy comes from the row and lacks no observation. */
  datatype Rival = ByTransaction(transaction: Transaction) | BySave(run: Run)

  function Moved(row: Run, rival: Rival): Run {
    match rival
    case ByTransaction(t) => Transact(row, t)
    case BySave(run) => if SaveReply(row, run) == Saved && row.observations <= run.observations then Stored(run) else row
  }

  function MovedAll(row: Run, rivals: seq<Rival>): Run
    decreases |rivals|
  {
    if rivals == [] then row else Moved(MovedAll(row, rivals[..|rivals| - 1]), rivals[|rivals| - 1])
  }

  /** Operation identities are never used twice. */
  predicate Foreign(rivals: seq<Rival>, operation: nat) {
    forall i | 0 <= i < |rivals| && rivals[i].BySave? :: rivals[i].run.operation != Some(operation)
  }

  function Gap(rivals: seq<seq<Rival>>, k: nat): seq<Rival> {
    if k < |rivals| then rivals[k] else []
  }

  lemma {:induction false} MovedTogether(row: Run, a: seq<Rival>, b: seq<Rival>)
    ensures MovedAll(MovedAll(row, a), b) == MovedAll(row, a + b)
    decreases |b|
  {
    if b == [] {
      assert a + b == a;
    } else {
      var last := |b| - 1;
      assert (a + b)[..|a + b| - 1] == a + b[..last];
      MovedTogether(row, a, b[..last]);
    }
  }

  lemma MovedOnce(row: Run, rival: Rival)
    ensures Moved(row, rival) == row || Moved(row, rival).version == row.version + 1
    ensures row.observations <= Moved(row, rival).observations
    ensures Moved(row, rival).operation == row.operation || (rival.BySave? && Moved(row, rival).operation == rival.run.operation)
  {
  }

  /** Versions tell whether anything happened; observations stay, and so does the mark of the last save. */
  lemma {:induction false} MovedOnward(row: Run, rivals: seq<Rival>, operation: nat)
    ensures var n := MovedAll(row, rivals);
            && n.version >= row.version && (n.version == row.version ==> n == row) && row.observations <= n.observations
            && (Foreign(rivals, operation) && n.operation == Some(operation) ==> row.operation == Some(operation))
    decreases |rivals|
  {
    if rivals != [] {
      var last := |rivals| - 1;
      MovedOnward(row, rivals[..last], operation);
      MovedOnce(MovedAll(row, rivals[..last]), rivals[last]);
      assert forall i | 0 <= i < last :: rivals[..last][i] == rivals[i];
    }
  }

  function FirstWith(observations: seq<Observation>, invocation: Invocation): Option<Observation> {
    if observations == [] then None
    else if observations[0].invocation == invocation then Some(observations[0])
    else FirstWith(observations[1..], invocation)
  }

  lemma {:induction false} FirstStays(a: seq<Observation>, b: seq<Observation>, invocation: Invocation)
    requires a <= b
    ensures FirstWith(a, invocation).Some? <==> exists i | 0 <= i < |a| :: a[i].invocation == invocation
    ensures FirstWith(a, invocation).Some? ==> FirstWith(b, invocation) == FirstWith(a, invocation)
  {
    if a != [] {
      FirstStays(a[1..], b[1..], invocation);
      assert forall i | 0 < i < |a| :: a[i] == a[1..][i - 1];
    }
  }

  lemma {:induction false} FirstIsNew(a: seq<Observation>, observation: Observation)
    requires forall i | 0 <= i < |a| :: a[i].invocation != observation.invocation
    ensures FirstWith(a + [observation], observation.invocation) == Some(observation)
  {
    if a == [] {
      assert a + [observation] == [observation];
    } else {
      assert (a + [observation])[1..] == a[1..] + [observation];
      FirstIsNew(a[1..], observation);
    }
  }

  // ---- the store ----

  /** What happens to one attempt: the transaction itself, and whether the row can be read back. */
  datatype Fault = FINE | LOST_BEFORE_COMMIT | LOST_AFTER_COMMIT
  datatype Attempt = Attempt(fault: Fault, readable: bool)

  class SQLAlchemyAgentStore {
    var row: Run

    constructor (row: Run)
      ensures this.row == row
    {
      this.row := row;
    }

    method Interfere(rivals: seq<Rival>)
      modifies this
      ensures row == MovedAll(old(row), rivals)
    {
      for k := 0 to |rivals|
        invariant row == MovedAll(old(row), rivals[..k])
      {
        row := Moved(row, rivals[k]);
        assert rivals[..k + 1][..k] == rivals[..k];
      }
      assert rivals[..|rivals|] == rivals;
    }

    /** `save`: three attempts under one operation identity, with others before each of them and before the
        row is read back. `took` says that the document was written, between `first` and `later`. */
    method Save(run: Run, operation: nat, attempts: seq<Attempt>, rivals: seq<seq<Rival>>)
      returns (reply: Reply, saved: Run, ghost took: bool, ghost first: seq<Rival>, ghost later: seq<Rival>)
      requires |attempts| == 3 && row.operation != Some(operation)
      requires forall k | 0 <= k < |rivals| :: Foreign(rivals[k], operation)
      modifies this
      ensures var marked, at := run.(operation := Some(operation)), MovedAll(old(row), first);
              && (if took then SaveReply(at, marked) == Saved && row == MovedAll(Stored(marked), later) else row == at)
              && (reply == Saved ==> took && row == Stored(marked) == saved)
              && (reply == Conflict ==> if took then row.version > run.version + 1 else SaveReply(row, marked) == Conflict)
              && (reply == Rejected ==> !took && SaveReply(row, marked) == Rejected)
              && (reply != Saved ==> saved == marked)
      ensures rivals == [] ==> first == [] && later == []
    {
      var marked := run.(operation := Some(operation));
      saved, took, first, later := marked, false, [], [];
      for attempt := 0 to 3
        invariant saved == marked && !took && row == MovedAll(old(row), first) && later == []
        invariant row.operation != Some(operation) && (rivals == [] ==> first == [])
      {
        Before(Gap(rivals, 2 * attempt), operation);
        MovedTogether(old(row), first, Gap(rivals, 2 * attempt));
        first := first + Gap(rivals, 2 * attempt);
        var fault := attempts[attempt].fault;
        if fault != LOST_BEFORE_COMMIT {
          reply := SaveReply(row, marked);
          if reply == Saved {
            row, took := Stored(marked), true;
          }
          if fault == FINE || reply != Saved {
            saved := if reply == Saved then row else marked;
            return;
          }
        }
        Before(Gap(rivals, 2 * attempt + 1), operation);
        if took {
          later := Gap(rivals, 2 * attempt + 1);
        } else {
          MovedTogether(old(row), first, Gap(rivals, 2 * attempt + 1));
          first := first + Gap(rivals, 2 * attempt + 1);
        }
        if !attempts[attempt].readable {
          reply := Unavailable;
          return;
        }
        if row.operation == Some(operation) {
          if row.version != run.version + 1 {
            reply := Conflict;
            return;
          }
          reply, saved := Saved, row;
          return;
        }
        if row.version != run.version {
          reply := Conflict;
          return;
        }
      }
      reply := Unavailable;
    }

    /** Others move the row; what that tells about it. */
    method Before(rivals: seq<Rival>, operation: nat)
      requires Foreign(rivals, operation)
      modifies this
      ensures row == MovedAll(old(row), rivals)
      ensures row.version >= old(row).version && (row.version == old(row).version ==> row == old(row))
      ensures old(row).observations <= row.observations
      ensures row.operation == Some(operation) ==> old(row).operation == Some(operation)
    {
      MovedOnward(row, rivals, operation);
      Interfere(rivals);
    }

    /** `recover_interrupted` for this row. */
    method RecoverInterrupted()
      modifies this
      ensures row == Transact(old(row), DoRecover)
    {
      if row.status !in {PENDING, RUNNING} {
        return;
      }
      var calls, tokens := ChargeCalls(row.calls, row.llmTokens);
      var run := row.(calls := calls, llmTokens := tokens, status := INTERRUPTED, claim := None, errorCode := PROCESS_INTERRUPTED);
      if run.Dispatched() {
        run := run.(pending := Some(run.pending.value.(status := OUTCOME_UNKNOWN)), errorCode := TOOL_OUTCOME_UNKNOWN);
      }
      row := run.(version := run.version + 1);
    }

    method StopRun(submission: nat) returns (stopped: bool)
      modifies this
      ensures row == Transact(old(row), DoStop(submission))
      ensures stopped ==> row.errorCode == USER_STOPPED
    {
      if row.submission != submission {
        return false;
      }
      if row.status !in {PENDING, RUNNING, INTERRUPTED} {
        return row.errorCode == USER_STOPPED;
      }
      var calls, tokens := ChargeCalls(row.calls, row.llmTokens);
      row := row.(calls := calls, llmTokens := tokens, status := TERMINATED, errorCode := USER_STOPPED,
                  version := row.version + 1);
      stopped := true;
    }

    /** `receipt`: a lost acknowledgement is recognised by the observation it left, whatever others did since. */
    method ReceiveReceipt(record: Record, observation: Observation, faults: seq<Fault>, rivals: seq<seq<Rival>>)
      returns (reply: Reply, ghost took: bool, ghost first: seq<Rival>, ghost later: seq<Rival>)
      requires |faults| == 3 && !observation.unknown && record.invocation == Some(observation.invocation)
      modifies this
      ensures var at := MovedAll(old(row), first);
              if took then
                && !at.Observed(observation.invocation) && OwnsReceipt(at, record, observation)
                && row == MovedAll(Receipt(at, record, observation), later)
                && (reply == Saved || reply == Unavailable)
              else row == at
      ensures reply == Saved ==> row.Observed(observation.invocation)
      ensures reply == Conflict ==> row.Observed(observation.invocation) || !OwnsReceipt(row, record, observation)
      ensures reply != Rejected && (rivals == [] ==> first == [] && later == [])
    {
      took, first, later := false, [], [];
      for attempt := 0 to 3
        invariant if took then Received(old(row), first, later, record, observation)
                  else row == MovedAll(old(row), first) && later == []
        invariant rivals == [] ==> first == [] && later == []
      {
        took, first, later := Onward(old(row), took, first, later, Gap(rivals, 2 * attempt), record, observation);
        if faults[attempt] != LOST_BEFORE_COMMIT {
          if !row.Observed(observation.invocation) {
            if !OwnsReceipt(row, record, observation) {
              reply := Conflict;
              return;
            }
            FirstIsNew(row.observations, observation);
            row, took := Receipt(row, record, observation), true;
            assert row.observations[|row.observations| - 1] == observation;
          }
          if faults[attempt] == FINE {
            reply := Saved;
            return;
          }
        }
        took, first, later := Onward(old(row), took, first, later, Gap(rivals, 2 * attempt + 1), record, observation);
        var found := FirstWith(row.observations, observation.invocation);
        FirstStays(row.observations, row.observations, observation.invocation);
        if found.Some? {
          reply := if found.value.id != observation.id then Conflict else Saved;
          return;
        }
        if row.pending.None? || row.pending.value.invocation != record.invocation {
          reply := Conflict;
          return;
        }
      }
      reply := Unavailable;
    }

    /** The receipt is in the row, first of its invocation. */
    ghost predicate Received(start: Run, first: seq<Rival>, later: seq<Rival>, record: Record, observation: Observation)
      reads this
    {
      var at := MovedAll(start, first);
      && !at.Observed(observation.invocation) && OwnsReceipt(at, record, observation)
      && row == MovedAll(Receipt(at, record, observation), later)
      && row.Observed(observation.invocation)
      && FirstWith(row.observations, observation.invocation) == Some(observation)
    }

    method Onward(ghost start: Run, ghost took: bool, ghost first: seq<Rival>, ghost later: seq<Rival>, rivals: seq<Rival>,
                  record: Record, observation: Observation)
      returns (ghost t: bool, ghost f: seq<Rival>, ghost l: seq<Rival>)
      requires if took then Received(start, first, later, record, observation) else row == MovedAll(start, first) && later == []
      modifies this
      ensures t == took && row == MovedAll(old(row), rivals) && f == (if took then first else first + rivals) && l == (if took then later + rivals else later)
      ensures if took then Received(start, f, l, record, observation) else row == MovedAll(start, f) && l == []
    {
      t, f, l := took, if took then first else first + rivals, if took then later + rivals else later;
      MovedTogether(start, first, rivals);
      MovedOnward(row, rivals, 0);
      Interfere(rivals);
      if took {
        MovedTogether(Receipt(MovedAll(start, first), record, observation), later, rivals);
        FirstStays(old(row).observations, row.observations, observation.invocation);
        FirstStays(row.observations, row.observations, observation.invocation);
      }
    }
  }

  /** The loop that charges unfinished calls, in `recover_interrupted` and in `stop`. */
  method ChargeCalls(calls: seq<ModelCall>, tokens: nat) returns (charged: seq<ModelCall>, total: nat)
    ensures charged == Charge(calls) && total == tokens + Outstanding(calls)
    ensures Settled(calls) + (total - tokens) == Settled(charged) && Outstanding(charged) == 0
  {
    charged, total := calls, tokens;
    for i := 0 to |calls|
      invariant |charged| == |calls| && forall j | i <= j < |calls| :: charged[j] == calls[j]
      invariant forall j | 0 <= j < i :: charged[j] == Charge(calls)[j]
      invariant total == tokens + Outstanding(calls[..i])
    {
      var call := calls[i];
      assert calls[..i + 1] == calls[..i] + [call];
      CallAdded(calls[..i], call);
      if call.status == CALL_RUNNING {
        charged := charged[i := call.(status := CALL_FAILED, usage := call.inputReserved + call.outputLimit)];
        total := total + call.inputReserved + call.outputLimit;
      }
    }
    assert calls[..|calls|] == calls;
    ChargeSettles(calls);
  }
}
