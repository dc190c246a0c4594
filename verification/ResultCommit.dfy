/**
 Committing a tool result: one transaction writes the result, its links, the run and the task; it is
 repeated at most twice, and a commit may take effect yet report failure. Other commits may come between.
 */
module ResultCommits {
  import opened Options

  type ResultId = nat
  type RunId = nat
  type TaskId = nat
  type AssetId = nat
  type Time = nat
  type Error = nat
  type Name = string

  datatype Status = PENDING | RUNNING | SUCCEEDED | PARTIALLY_SUCCEEDED | FAILED

  /** `identity` stands for everything a receipt and its run must agree on; `summary` for the stored output summary. */
  datatype Run = Run(task: TaskId, attemptNo: nat, status: Status, requested: seq<Name>, completed: seq<Name>,
                     failed: seq<Name>,
                     identity: nat, summary: nat, completedAt: Option<Time>, error: Option<Error>)
  datatype Task = Task(status: Status, selectedRun: Option<RunId>, selectedResult: Option<ResultId>,
                       completedAt: Option<Time>, error: Option<Error>)
  datatype ToolResult = ToolResult(resultId: ResultId, task: TaskId, run: RunId, status: Status, requested: seq<Name>,
                                   completed: seq<Name>, failed: seq<Name>, createdAt: Time, error: Option<Error>)
  datatype Link = Link(result: ResultId, asset: AssetId, order: nat, createdAt: Time)
  datatype Asset = Asset(available: bool, task: TaskId, run: RunId, requestedOutput: bool)
  datatype Db = Db(runs: map<RunId, Run>, tasks: map<TaskId, Task>, results: map<ResultId, ToolResult>,
                   links: map<ResultId, seq<Link>>, assets: map<AssetId, Asset>)

  datatype Policy = INITIAL | RETRY
  datatype Tool = ZTA35G | EBSD

  function OutputsFor(tool: Tool): set<Name> {
    if tool == EBSD then {"yield_strength"} else {"sem_image", "mechanical_properties"}
  }

  /** The receipt of a tool run with its output, and the assets stored for the output's images. */
  datatype Receipt = Receipt(tool: Tool, run: RunId, task: TaskId, identity: nat, summary: nat, policy: Policy,
                             requested: seq<Name>, completed: seq<Name>, failed: seq<Name>, error: Option<Error>,
                             images: seq<bool>, assets: seq<AssetId>)

  // ---- output lists ----

  function Elements(names: seq<Name>): set<Name> {
    set n | n in names
  }

  lemma ElementsGrow(names: seq<Name>, name: Name)
    ensures Elements(names + [name]) == Elements(names) + {name}
  {
  }

  function Dedupe(names: seq<Name>): (r: seq<Name>)
    ensures Elements(r) == Elements(names)
  {
    if names == [] then []
    else
      var init, last := Dedupe(names[..|names| - 1]), names[|names| - 1];
      ElementsGrow(names[..|names| - 1], last);
      ElementsGrow(init, last);
      assert names == names[..|names| - 1] + [last];
      if last in init then init else init + [last]
  }

  /** The chosen names in the order of the list, as `ToolResult` stores them. */
  function InOrder(names: seq<Name>, chosen: seq<Name>): (r: seq<Name>)
    ensures Elements(r) == Elements(names) * Elements(chosen)
  {
    if names == [] then []
    else
      var init, last := InOrder(names[..|names| - 1], chosen), names[|names| - 1];
      ElementsGrow(names[..|names| - 1], last);
      ElementsGrow(init, last);
      assert names == names[..|names| - 1] + [last];
      if last in chosen then init + [last] else init
  }

  function StatusOf(completed: seq<Name>, requested: seq<Name>): Status {
    if |completed| == |requested| then SUCCEEDED else if completed != [] then PARTIALLY_SUCCEEDED else FAILED
  }

  predicate Distinct(names: seq<Name>) {
    forall i, j | 0 <= i < j < |names| :: names[i] != names[j]
  }

  predicate Partition(r: Receipt) {
    && Elements(r.completed) !! Elements(r.failed)
    && Elements(r.completed) + Elements(r.failed) == Elements(r.requested)
  }

  // ---- the transaction ----

  predicate HasResult(db: Db, run: RunId) {
    exists id | id in db.results :: db.results[id].run == run
  }

  /** The run selected so far must still read as its result does. */
  predicate SelectionReads(db: Db, task: TaskId, selected: Run, run: RunId, id: ResultId) {
    && id in db.results
    && var result := db.results[id];
       && result.task == task && result.run == run && result.status == selected.status
       && selected.status == (if selected.completed == selected.requested && selected.failed == [] then SUCCEEDED
                              else if selected.completed != [] then PARTIALLY_SUCCEEDED else FAILED)
       && result.requested == selected.requested && result.completed == selected.completed && result.failed == selected.failed
  }

  predicate RetryAllowed(db: Db, task: TaskId, run: RunId)
    requires task in db.tasks && run in db.runs
  {
    var t := db.tasks[task];
    && (forall other | other in db.runs && db.runs[other].task == task ::
          (db.runs[other].status == PENDING || db.runs[other].status == RUNNING) <==> other == run)
    && (forall other | other in db.runs && db.runs[other].task == task && other != run ::
          db.runs[run].attemptNo > db.runs[other].attemptNo)
    && match t.selectedRun
       case None =>
         && t.selectedResult.None? && db.runs[run].attemptNo == 1
         && (forall other | other in db.runs && db.runs[other].task == task :: other == run)
       case Some(selected) =>
         && selected in db.runs && db.runs[selected].task == task && selected != run
         && (match t.selectedResult
             case None => db.runs[selected].status == FAILED && !HasResult(db, selected)
             case Some(id) => SelectionReads(db, task, db.runs[selected], selected, id))
  }

  predicate AssetsFit(db: Db, r: Receipt) {
    && |r.assets| == |r.images|
    && (forall i, j | 0 <= i < j < |r.assets| :: r.assets[i] != r.assets[j])
    && (forall i | 0 <= i < |r.assets| ::
          r.assets[i] in db.assets && db.assets[r.assets[i]] == Asset(true, r.task, r.run, r.images[i]))
    && ("mechanical_properties" in r.completed ==> r.assets != [])
    && Requested(r.images) == (if "sem_image" in r.completed then 1 else 0)
  }

  function Requested(images: seq<bool>): nat {
    if images == [] then 0 else (if images[0] then 1 else 0) + Requested(images[1..])
  }

  /** What must hold of task, run, receipt and assets; otherwise the commit is a conflict. */
  predicate Valid(db: Db, r: Receipt)
    requires r.task in db.tasks && r.run in db.runs
  {
    var task, run := db.tasks[r.task], db.runs[r.run];
    && (r.policy == INITIAL ==> task.selectedRun.None? && task.selectedResult.None?)
    && (r.policy == RETRY ==> RetryAllowed(db, r.task, r.run))
    && task.status == RUNNING && run.status == RUNNING
    && run.summary == r.summary && run.identity == r.identity && run.requested == r.requested
    && Partition(r) && !HasResult(db, r.run) && AssetsFit(db, r)
    && (StatusOf(r.completed, r.requested) == SUCCEEDED <==> r.error.None?)
  }

  datatype Prepared = Ready(result: ToolResult, links: seq<Link>, run: Run, task: Task) | Conflict | NotFound | Rejected

  /** What `ToolRun` and `ToolResult` accept: registered names, each list without repetition. */
  predicate WellFormed(r: Receipt) {
    && r.requested != [] && Elements(r.requested) <= OutputsFor(r.tool)
    && Distinct(r.requested) && Distinct(r.completed) && Distinct(r.failed)
  }

  /** `ToolResult` rejects lists whose status changes when they are put in order. */
  function Prepare(db: Db, r: Receipt, id: ResultId, at: Time): Prepared {
    if r.task !in db.tasks || r.run !in db.runs || db.runs[r.run].task != r.task then NotFound
    else if !Valid(db, r) then Conflict
    else
      var requested := Dedupe(r.requested);
      var completed, failed := InOrder(requested, r.completed), InOrder(requested, r.failed);
      var status := StatusOf(r.completed, r.requested);
      if !WellFormed(r) || StatusOf(completed, requested) != status then Rejected
      else Ready(
        ToolResult(id, r.task, r.run, status, requested, completed, failed, at, r.error),
        seq(|r.assets|, i requires 0 <= i < |r.assets| => Link(id, r.assets[i], i, at)),
        db.runs[r.run].(status := status, completed := r.completed, failed := r.failed, completedAt := Some(at), error := r.error),
        db.tasks[r.task].(status := status, selectedRun := Some(r.run), selectedResult := Some(id),
                          completedAt := Some(at), error := r.error))
  }

  function Apply(db: Db, p: Prepared): Db
    requires p.Ready?
  {
    Db(db.runs[p.result.run := p.run], db.tasks[p.result.task := p.task], db.results[p.result.resultId := p.result],
       db.links[p.result.resultId := p.links], db.assets)
  }

  /** The database refuses a second row with the same result id. */
  predicate Commits(db: Db, r: Receipt, id: ResultId, at: Time) {
    Prepare(db, r, id, at).Ready? && id !in db.results
  }

  // ---- what every commit keeps ----

  /** A result stands beside its links and its run, and they say the same. */
  predicate Whole(db: Db, result: ToolResult) {
    && result.run in db.runs && result.resultId in db.links
    && var run := db.runs[result.run];
       && run.task == result.task && run.status == result.status && run.completedAt == Some(result.createdAt)
       && run.error == result.error && run.status != RUNNING && run.status != PENDING
       && Elements(run.requested) == Elements(result.requested)
       && Elements(run.completed) == Elements(result.completed) && Elements(run.failed) == Elements(result.failed)
       && (forall i | 0 <= i < |db.links[result.resultId]| ::
             && db.links[result.resultId][i].result == result.resultId && db.links[result.resultId][i].order == i
             && db.links[result.resultId][i].createdAt == result.createdAt)
  }

  predicate OnePerRun(results: map<ResultId, ToolResult>) {
    forall i, j | i in results && j in results && results[i].run == results[j].run :: i == j
  }

  predicate Selects(results: map<ResultId, ToolResult>, t: TaskId, task: Task) {
    task.selectedResult.Some? ==>
      && task.selectedResult.value in results && results[task.selectedResult.value].task == t
      && task.selectedRun == Some(results[task.selectedResult.value].run)
  }

  /** At most one result for each run; every result whole; every selection an existing result of that task. */
  predicate Consistent(db: Db) {
    && db.links.Keys == db.results.Keys && OnePerRun(db.results)
    && (forall id | id in db.results :: db.results[id].resultId == id && Whole(db, db.results[id]))
    && (forall t | t in db.tasks :: Selects(db.results, t, db.tasks[t]))
  }

  /** The task shows this result as its outcome. */
  predicate Selected(db: Db, result: ToolResult) {
    && result.resultId in db.results && db.results[result.resultId] == result
    && result.task in db.tasks
    && db.tasks[result.task].selectedResult == Some(result.resultId) && db.tasks[result.task].selectedRun == Some(result.run)
    && db.tasks[result.task].status == result.status
    && db.tasks[result.task].completedAt == Some(result.createdAt) && db.tasks[result.task].error == result.error
  }

  lemma NewResultIsWhole(db: Db, r: Receipt, id: ResultId, at: Time)
    requires Commits(db, r, id, at)
    ensures Whole(Apply(db, Prepare(db, r, id, at)), Prepare(db, r, id, at).result)
  {
    var p := Prepare(db, r, id, at);
    assert Elements(p.result.completed) == Elements(r.requested) * Elements(r.completed) == Elements(r.completed);
    assert Elements(p.result.failed) == Elements(r.requested) * Elements(r.failed) == Elements(r.failed);
  }

  lemma OldResultStaysWhole(db: Db, r: Receipt, id: ResultId, at: Time, other: ResultId)
    requires Consistent(db) && Commits(db, r, id, at) && other in db.results
    ensures db.results[other].run != r.run && Whole(Apply(db, Prepare(db, r, id, at)), db.results[other])
  {
    assert Whole(db, db.results[other]);
    assert !HasResult(db, r.run);
  }

  lemma {:induction false} CommitKeeps(db: Db, r: Receipt, id: ResultId, at: Time)
    requires Consistent(db) && Commits(db, r, id, at)
    ensures Consistent(Apply(db, Prepare(db, r, id, at)))
  {
    var p := Prepare(db, r, id, at);
    NewResultIsWhole(db, r, id, at);
    forall other | other in db.results
      ensures db.results[other].run != p.result.run && Whole(Apply(db, p), db.results[other])
    {
      OldResultStaysWhole(db, r, id, at, other);
    }
    AppliedIsConsistent(db, p, id);
  }

  lemma AppliedIsConsistent(db: Db, p: Prepared, id: ResultId)
    requires Consistent(db) && p.Ready? && p.result.resultId == id && id !in db.results && Whole(Apply(db, p), p.result)
    requires forall other | other in db.results :: db.results[other].run != p.result.run && Whole(Apply(db, p), db.results[other])
    requires p.task.selectedResult == Some(id) && p.task.selectedRun == Some(p.result.run)
    ensures Consistent(Apply(db, p))
  {
    var n := Apply(db, p);
    forall t | t in n.tasks ensures Selects(n.results, t, n.tasks[t]) {
      assert t in db.tasks ==> Selects(db.results, t, db.tasks[t]);
    }
    forall other | other in n.results ensures n.results[other].resultId == other && Whole(n, n.results[other]) {
      assert other != id ==> other in db.results;
    }
    StillOnePerRun(db.results, id, p.result);
  }

  lemma StillOnePerRun(results: map<ResultId, ToolResult>, id: ResultId, result: ToolResult)
    requires OnePerRun(results) && forall other | other in results :: results[other].run != result.run
    ensures OnePerRun(results[id := result])
  {
  }

  // ---- outcomes ----

  /** The result says of the tool's outputs and of its error what the receipt says. */
  predicate Reports(result: ToolResult, r: Receipt) {
    && result.requested == r.requested && result.error == r.error
    && Elements(result.completed) == Elements(r.completed) && Elements(result.failed) == Elements(r.failed)
    && (result.status == SUCCEEDED <==> r.failed == []) && (result.status == SUCCEEDED <==> result.error == None)
    && (result.status == FAILED <==> r.completed == [])
    && (result.status == PARTIALLY_SUCCEEDED <==> r.completed != [] && r.failed != [])
  }

  /** The result has exactly the images of the receipt, in their order, and none is missing or another's. */
  predicate Linked(db: Db, r: Receipt, id: ResultId) {
    && id in db.links && |db.links[id]| == |r.assets|
    && forall i | 0 <= i < |r.assets| ::
         && db.links[id][i].asset == r.assets[i] && db.links[id][i].result == id && db.links[id][i].order == i
         && r.assets[i] in db.assets && db.assets[r.assets[i]].available
         && db.assets[r.assets[i]].task == r.task && db.assets[r.assets[i]].run == r.run
  }

  /** The caller's result is selected with all its images, and its run carries the output partition as received. */
  predicate Outcome(db: Db, r: Receipt, id: ResultId, at: Time, result: ToolResult) {
    && Selected(db, result) && Whole(db, result) && Reports(result, r) && Linked(db, r, id)
    && result.resultId == id && result.run == r.run && result.task == r.task && result.createdAt == at
    && db.runs[r.run].completed == r.completed && db.runs[r.run].failed == r.failed
    && db.runs[r.run].identity == r.identity && db.runs[r.run].summary == r.summary
    && db.runs[r.run].requested == r.requested && db.runs[r.run].error == db.tasks[r.task].error == r.error
  }

  lemma PreparedReports(db: Db, r: Receipt, id: ResultId, at: Time)
    requires Prepare(db, r, id, at).Ready?
    ensures Reports(Prepare(db, r, id, at).result, r)
  {
    var p := Prepare(db, r, id, at);
    DedupeDistinct(r.requested);
    SizeOfDistinct(r.requested);
    SizeOfDistinct(r.completed);
    SizeOfDistinct(r.failed);
    assert |Elements(r.requested)| == |Elements(r.completed)| + |Elements(r.failed)|;
    assert p.result.status == StatusOf(r.completed, r.requested);
    assert Elements(p.result.completed) == Elements(r.requested) * Elements(r.completed) == Elements(r.completed);
    assert Elements(p.result.failed) == Elements(r.requested) * Elements(r.failed) == Elements(r.failed);
  }

  lemma {:induction false} SizeOfDistinct(names: seq<Name>)
    requires Distinct(names)
    ensures |Elements(names)| == |names|
  {
    if names != [] {
      var init, last := names[..|names| - 1], names[|names| - 1];
      SizeOfDistinct(init);
      ElementsGrow(init, last);
      assert names == init + [last] && last !in init;
      assert last !in Elements(init);
    }
  }

  /** A promised picture is there: exactly one image is the requested one if `sem_image` completed, and none
      otherwise; measured properties come with an image. */
  lemma CommitHasItsImages(db: Db, r: Receipt, id: ResultId, at: Time)
    requires Commits(db, r, id, at)
    ensures var n := Apply(db, Prepare(db, r, id, at));
            && Linked(n, r, id)
            && ("sem_image" in r.completed <==> exists i :: 0 <= i < |n.links[id]| && n.assets[n.links[id][i].asset].requestedOutput)
            && (forall i, j | 0 <= i < j < |n.links[id]| ::
                  !(n.assets[n.links[id][i].asset].requestedOutput && n.assets[n.links[id][j].asset].requestedOutput))
            && ("mechanical_properties" in r.completed ==> n.links[id] != [])
            && (forall i, j | 0 <= i < j < |n.links[id]| :: n.links[id][i].asset != n.links[id][j].asset)
  {
    RequestedOnce(r.images);
    var n := Apply(db, Prepare(db, r, id, at));
    assert forall i | 0 <= i < |n.links[id]| :: n.assets[n.links[id][i].asset].requestedOutput == r.images[i];
  }

  lemma {:induction false} RequestedOnce(images: seq<bool>)
    ensures Requested(images) == 0 <==> forall i | 0 <= i < |images| :: !images[i]
    ensures Requested(images) == 1 ==> forall i, j | 0 <= i < j < |images| :: !(images[i] && images[j])
  {
    if images != [] {
      RequestedOnce(images[1..]);
      assert forall i | 0 < i < |images| :: images[i] == images[1..][i - 1];
    }
  }

  lemma CommitIsOutcome(db: Db, r: Receipt, id: ResultId, at: Time)
    requires Commits(db, r, id, at)
    ensures Outcome(Apply(db, Prepare(db, r, id, at)), r, id, at, Prepare(db, r, id, at).result)
  {
    PreparedReports(db, r, id, at);
    NewResultIsWhole(db, r, id, at);
  }

  /** A result once shown is replaced only by a retry, whose attempt is the newest and the only one under way; the
      old result stays in the database. */
  lemma OnlyNewerAttemptReplaces(db: Db, r: Receipt, id: ResultId, at: Time, shown: RunId)
    requires Consistent(db) && Commits(db, r, id, at) && db.tasks[r.task].selectedRun == Some(shown)
    ensures var n := Apply(db, Prepare(db, r, id, at));
            && r.policy == RETRY && shown in db.runs && shown != r.run && n.runs[shown] == db.runs[shown]
            && (forall other | other in db.runs && db.runs[other].task == r.task && other != r.run ::
                  && db.runs[other].attemptNo < db.runs[r.run].attemptNo
                  && db.runs[other].status != PENDING && db.runs[other].status != RUNNING)
            && (forall i | i in db.results :: i in n.results && n.results[i] == db.results[i] && n.links[i] == db.links[i])
            && n.tasks[r.task].selectedRun == Some(r.run)
  {
  }

  /** Once a task shows a result, no other commit touches it: neither task nor run is RUNNING any more. */
  lemma OutcomeStays(db: Db, r: Receipt, id: ResultId, at: Time, result: ToolResult, rival: Rival)
    requires Outcome(db, r, id, at, result) && Commits(db, rival.receipt, rival.id, rival.at)
    ensures Outcome(Apply(db, Prepare(db, rival.receipt, rival.id, rival.at)), r, id, at, result)
  {
  }

  lemma WrittenStands(db: Db, r: Receipt, id: ResultId, at: Time)
    requires Commits(db, r, id, at)
    ensures Standing(Apply(db, Prepare(db, r, id, at)), Prepare(db, r, id, at))
  {
  }

  /** What recovery compares is enough to know the commit took effect. */
  lemma RecoveredIsOutcome(db: Db, before: Db, r: Receipt, id: ResultId, at: Time)
    requires Prepare(before, r, id, at).Ready?
    requires Standing(db, Prepare(before, r, id, at))
    ensures Outcome(db, r, id, at, Prepare(before, r, id, at).result)
  {
    PreparedReports(before, r, id, at);
  }

  predicate Keeps(db: Db, result: ToolResult, asset: AssetId) {
    asset in db.assets && db.assets[asset].available && db.assets[asset].task == result.task && db.assets[asset].run == result.run
  }

  /** Result, links, run, task and assets are all as this commit would have left them. */
  predicate Standing(db: Db, expected: Prepared)
    requires expected.Ready?
  {
    var result := expected.result;
    && result.resultId in db.results && db.results[result.resultId] == result
    && result.resultId in db.links && db.links[result.resultId] == expected.links
    && result.run in db.runs && db.runs[result.run] == expected.run
    && result.task in db.tasks && db.tasks[result.task] == expected.task
    && (forall i | 0 <= i < |expected.links| :: Keeps(db, result, expected.links[i].asset))
  }

  // ---- what a later retry can still read ----

  predicate Subsequence(part: seq<Name>, names: seq<Name>)
    decreases |names|
  {
    if part == [] then true
    else if names == [] then false
    else if part[|part| - 1] == names[|names| - 1] then Subsequence(part[..|part| - 1], names[..|names| - 1])
    else Subsequence(part, names[..|names| - 1])
  }

  /** A retry requires the run selected before it to read as its result. That is so exactly when the
      output had listed its names in requested order: the result is put in order, the run is not. */
  lemma RetryCanReadExactly(db: Db, r: Receipt, id: ResultId, at: Time)
    requires Commits(db, r, id, at)
    ensures var n := Apply(db, Prepare(db, r, id, at));
            SelectionReads(n, r.task, n.runs[r.run], r.run, id)
            <==> Subsequence(r.completed, r.requested) && Subsequence(r.failed, r.requested)
  {
    DedupeDistinct(r.requested);
    InOrderIsSubsequence(r.requested, r.completed);
    InOrderIsSubsequence(r.requested, r.failed);
    if Subsequence(r.completed, r.requested) && Subsequence(r.failed, r.requested) {
      SubsequenceIsInOrder(r.requested, r.completed);
      SubsequenceIsInOrder(r.requested, r.failed);
      SubsequenceOfSameLength(r.completed, r.requested);
      assert r.completed == r.requested ==> Elements(r.failed) == {};
      assert r.failed != [] ==> r.failed[0] in Elements(r.failed);
    }
  }

  lemma {:induction false} DedupeDistinct(names: seq<Name>)
    ensures Distinct(Dedupe(names)) && (Distinct(names) ==> Dedupe(names) == names)
  {
    if names != [] {
      var init, last := names[..|names| - 1], names[|names| - 1];
      DedupeDistinct(init);
      assert last in Dedupe(init) <==> last in Elements(Dedupe(init));
      assert last in init <==> last in Elements(init);
    }
  }

  lemma {:induction false} InOrderIsSubsequence(names: seq<Name>, chosen: seq<Name>)
    ensures Subsequence(InOrder(names, chosen), names)
  {
    if names != [] {
      InOrderIsSubsequence(names[..|names| - 1], chosen);
      if names[|names| - 1] in chosen {
        assert InOrder(names, chosen)[..|InOrder(names, chosen)| - 1] == InOrder(names[..|names| - 1], chosen);
      } else {
        var r := InOrder(names, chosen);
        assert r != [] ==> r[|r| - 1] in Elements(r);
        Skips(r, names);
      }
    }
  }

  lemma {:induction false} SubsequenceElements(part: seq<Name>, names: seq<Name>)
    requires Subsequence(part, names)
    ensures |part| <= |names| && forall n | n in part :: n in names
    decreases |names|
  {
    if part != [] {
      if part[|part| - 1] == names[|names| - 1] {
        SubsequenceElements(part[..|part| - 1], names[..|names| - 1]);
        assert part == part[..|part| - 1] + [names[|names| - 1]];
      } else {
        SubsequenceElements(part, names[..|names| - 1]);
      }
    }
  }

  lemma Skips(part: seq<Name>, names: seq<Name>)
    requires names != [] && Subsequence(part, names[..|names| - 1])
    requires part != [] ==> part[|part| - 1] != names[|names| - 1]
    ensures Subsequence(part, names)
  {
  }

  lemma {:induction false} OnlyMembersMatter(names: seq<Name>, chosen: seq<Name>, other: seq<Name>)
    requires forall n | n in names :: n in chosen <==> n in other
    ensures InOrder(names, chosen) == InOrder(names, other)
  {
    if names != [] { OnlyMembersMatter(names[..|names| - 1], chosen, other); }
  }

  lemma {:induction false} SubsequenceIsInOrder(names: seq<Name>, part: seq<Name>)
    requires Distinct(names) && Subsequence(part, names)
    ensures InOrder(names, part) == part
    decreases |names|
  {
    if names != [] {
      var init, last := names[..|names| - 1], names[|names| - 1];
      assert last !in init;
      if part != [] && part[|part| - 1] == last {
        var front := part[..|part| - 1];
        SubsequenceIsInOrder(init, front);
        OnlyMembersMatter(init, part, front);
        assert part == front + [last];
      } else {
        SubsequenceElements(part, init);
        SubsequenceIsInOrder(init, part);
      }
    }
  }

  lemma {:induction false} SubsequenceOfSameLength(part: seq<Name>, names: seq<Name>)
    requires Subsequence(part, names)
    ensures |part| == |names| ==> part == names
    decreases |names|
  {
    if part != [] {
      var init := names[..|names| - 1];
      if part[|part| - 1] == names[|names| - 1] {
        SubsequenceOfSameLength(part[..|part| - 1], init);
      } else {
        SubsequenceElements(part, init);
      }
    }
  }

  // ---- which outputs block a retry ----

  /** What the client lets pass of a runtime's answer with this status. */
  predicate ClientAccepts(r: Receipt, status: Status) {
    && Distinct(r.completed) && Distinct(r.failed) && Partition(r)
    && match status
       case SUCCEEDED => r.completed == r.requested && r.failed == []
       case PARTIALLY_SUCCEEDED => r.completed != [] && r.failed != []
       case FAILED => r.completed == []
       case _ => false
  }

  lemma {:induction false} FewNames(names: seq<Name>, all: set<Name>)
    requires Distinct(names) && Elements(names) <= all
    ensures |names| <= |all|
    decreases |names|
  {
    if names != [] {
      var init, last := names[..|names| - 1], names[|names| - 1];
      assert names == init + [last] && last in Elements(names) && last !in init;
      FewNames(init, all - {last});
    }
  }

  lemma InTwo(part: seq<Name>, names: seq<Name>)
    requires Distinct(part) && Distinct(names) && 1 <= |names| <= 2 && Elements(part) <= Elements(names)
    ensures Subsequence(part, names) <==> !(|part| == 2 && part[0] != names[0])
  {
    FewNames(part, Elements(names));
    FewNames(names, Elements(names));
    SizeOfElements(names);
    forall i | 0 <= i < |part| ensures part[i] in names {
      assert part[i] in Elements(part);
      assert part[i] in Elements(names);
    }
    if |part| == 1 {
      OneInTwo(part[0], names);
      assert part == [part[0]];
    } else if |part| == 2 {
      TwoInTwo(part, names);
    }
  }

  lemma OneInTwo(name: Name, names: seq<Name>)
    requires 1 <= |names| <= 2 && name in names
    ensures Subsequence([name], names)
  {
    assert [name][..0] == [];
    if |names| == 2 { assert names[..1] == [names[0]]; }
  }

  lemma TwoInTwo(part: seq<Name>, names: seq<Name>)
    requires |part| == 2 && |names| == 2 && names[0] != names[1]
    requires (part[0] == names[0] && part[1] == names[1]) || (part[0] == names[1] && part[1] == names[0])
    ensures Subsequence(part, names) <==> part[0] == names[0]
  {
    var one, first := part[..1], names[..1];
    assert one == [part[0]] && first == [names[0]] && one[..0] == [] && first[..0] == [];
    assert !Subsequence(one, []) && (Subsequence(one, first) <==> part[0] == names[0]);
    assert part[1] == names[0] ==> !Subsequence(part, first);
  }

  lemma {:induction false} SizeOfElements(names: seq<Name>)
    ensures |Elements(names)| <= |names|
  {
    if names != [] {
      SizeOfElements(names[..|names| - 1]);
      ElementsGrow(names[..|names| - 1], names[|names| - 1]);
      assert names == names[..|names| - 1] + [names[|names| - 1]];
    }
  }

  /** Of all outputs the client lets pass, one kind blocks the retry: a failed run whose two registered
      outputs are listed in the other order than they were requested. */
  lemma OnlyReversedFailuresBlock(db: Db, r: Receipt, status: Status, id: ResultId, at: Time)
    requires Commits(db, r, id, at) && ClientAccepts(r, status)
    ensures var n := Apply(db, Prepare(db, r, id, at));
            !SelectionReads(n, r.task, n.runs[r.run], r.run, id)
            <==> |r.requested| == 2 && r.completed == [] && r.failed == [r.requested[1], r.requested[0]]
  {
    RetryCanReadExactly(db, r, id, at);
    FewNames(r.requested, OutputsFor(r.tool));
    assert |OutputsFor(r.tool)| <= 2;
    InTwo(r.completed, r.requested);
    InTwo(r.failed, r.requested);
    PartsOfTwo(r);
  }

  lemma PartsOfTwo(r: Receipt)
    requires Distinct(r.requested) && Distinct(r.completed) && Distinct(r.failed) && Partition(r) && 1 <= |r.requested| <= 2
    ensures |r.completed| == 2 ==> r.failed == []
    ensures |r.failed| == 2 ==> r.completed == [] && |r.requested| == 2
    ensures |r.failed| == 2 && r.failed[0] != r.requested[0] ==> r.failed == [r.requested[1], r.requested[0]]
    ensures |r.completed| == 2 && r.completed[0] != r.requested[0] ==> r.completed != r.requested
  {
    SizeOfElements(r.requested);
    FewNames(r.failed, Elements(r.requested));
    FewNames(r.completed, Elements(r.requested));
    var both := r.failed + r.completed;
    forall i, j | 0 <= i < j < |both| ensures both[i] != both[j] {
      assert i < |r.failed| ==> both[i] in Elements(r.failed);
      assert j >= |r.failed| ==> both[j] in Elements(r.completed);
    }
    assert Elements(both) == Elements(r.failed) + Elements(r.completed);
    FewNames(both, Elements(r.requested));
    assert forall i | 0 <= i < |r.failed| :: r.failed[i] in Elements(r.failed) && r.failed[i] in Elements(r.requested);
  }

  /** Both outputs of the one tool that has two fail and are listed in the other order: the commit
      succeeds and selects the result of a FAILED task, and yet no retry of it can follow. */
  lemma ReversedFailureBlocksRetry(a: Name, b: Name, error: Error, db: Db, r: Receipt)
    requires {a, b} == {"sem_image", "mechanical_properties"} && a != b
    requires r == Receipt(ZTA35G, 0, 0, 0, 0, INITIAL, [a, b], [], [b, a], Some(error), [], [])
    requires db == Db(map[0 := Run(0, 1, RUNNING, [a, b], [], [], 0, 0, None, None)],
                      map[0 := Task(RUNNING, None, None, None, None)], map[], map[], map[])
    ensures ClientAccepts(r, FAILED) && Consistent(db) && Commits(db, r, 0, 1)
    ensures var n := Apply(db, Prepare(db, r, 0, 1));
            && Outcome(n, r, 0, 1, Prepare(db, r, 0, 1).result) && n.tasks[0].status == FAILED
            && !SelectionReads(n, r.task, n.runs[r.run], r.run, 0)
  {
    ReversedFailureCommits(a, b, error, db, r);
    CommitIsOutcome(db, r, 0, 1);
    OnlyReversedFailuresBlock(db, r, FAILED, 0, 1);
  }

  lemma ReversedFailureCommits(a: Name, b: Name, error: Error, db: Db, r: Receipt)
    requires {a, b} == {"sem_image", "mechanical_properties"} && a != b
    requires r.tool == ZTA35G && r.policy == INITIAL && r.task == 0 && r.run == 0 && r.images == [] && r.assets == []
    requires r.requested == [a, b] && r.completed == [] && r.failed == [b, a] && r.error == Some(error)
    requires db.runs == map[0 := Run(0, 1, RUNNING, [a, b], [], [], r.identity, r.summary, None, None)]
    requires db.tasks == map[0 := Task(RUNNING, None, None, None, None)] && db.results == map[]
    ensures Commits(db, r, 0, 1) && ClientAccepts(r, FAILED)
  {
    assert Elements([b, a]) == {a, b} == Elements([a, b]) && Elements([]) == {};
    ReversedFailureIsValid(a, b, db, r);
    DedupeDistinct(r.requested);
    assert Elements(InOrder(r.requested, [])) == {};
    NoElements(InOrder(r.requested, []));
  }

  lemma ReversedFailureIsValid(a: Name, b: Name, db: Db, r: Receipt)
    requires a != b && r.policy == INITIAL && r.task == 0 && r.run == 0 && r.images == [] && r.assets == []
    requires r.requested == [a, b] && r.completed == [] && r.failed == [b, a] && r.error.Some?
    requires db.runs == map[0 := Run(0, 1, RUNNING, [a, b], [], [], r.identity, r.summary, None, None)]
    requires db.tasks == map[0 := Task(RUNNING, None, None, None, None)] && db.results == map[]
    ensures Valid(db, r)
  {
    assert Elements([b, a]) == {a, b} == Elements([a, b]) && Elements([]) == {};
  }

  lemma NoElements(names: seq<Name>)
    ensures Elements(names) == {} <==> names == []
  {
    if names != [] { assert names[0] in Elements(names); }
  }

  // ---- the service ----

  datatype Rival = Rival(receipt: Receipt, id: ResultId, at: Time)

  /** A commit is acknowledged, undone, or done without acknowledgement. */
  datatype Ending = FINE | UNDONE | LOST

  /** One attempt's circumstances: whether each database access answers, how the commit ends, who comes between. */
  datatype Attempt = Attempt(before: seq<Rival>, load: bool, commit: Ending, between: seq<Rival>, read: bool,
                             after: seq<Rival>, reread: bool)

  datatype Reply = Returned(result: ToolResult) | PersistenceFailed | Raised(reason: Prepared) | Unavailable

  predicate Alone(a: Attempt) {
    a.before == [] && a.between == [] && a.after == []
  }

  /** Nothing fails but the commit itself, which is undone. */
  predicate Undone(a: Attempt) {
    Alone(a) && a.load && a.commit == UNDONE && a.read && a.reread
  }

  /** The commit takes effect and the reads around it work. */
  predicate Heard(a: Attempt) {
    Alone(a) && a.load && a.commit != UNDONE && a.read
  }

  /** The k-th attempt is heard and every one before it was cleanly undone. */
  predicate HeardFirst(attempts: seq<Attempt>, k: nat)
    requires k < |attempts|
  {
    Heard(attempts[k]) && forall j | 0 <= j < k :: Undone(attempts[j])
  }

  ghost predicate Grew(before: Db, after: Db) {
    exists r, id, at :: Commits(before, r, id, at) && after == Apply(before, Prepare(before, r, id, at))
  }

  ghost predicate Adjacent(dbs: seq<Db>, i: nat)
    requires 0 < i < |dbs|
  {
    Grew(dbs[i - 1], dbs[i])
  }

  /** Nothing was written, or result, links, run and task all were. */
  predicate AllOrNothing(before: Db, after: Db, r: Receipt, id: ResultId, at: Time) {
    after == before || (Commits(before, r, id, at) && after == Apply(before, Prepare(before, r, id, at)))
  }

  ghost predicate Grown(dbs: seq<Db>) {
    && (forall i | 0 <= i < |dbs| :: Consistent(dbs[i]))
    && (forall i | 0 < i < |dbs| :: Adjacent(dbs, i))
  }

  lemma HistoryGrows(dbs: seq<Db>, db: Db, r: Receipt, id: ResultId, at: Time)
    requires dbs != [] && Grown(dbs) && dbs[|dbs| - 1] == db && Commits(db, r, id, at)
    ensures Grown(dbs + [Apply(db, Prepare(db, r, id, at))])
  {
    CommitKeeps(db, r, id, at);
    OneStepMore(dbs, Apply(db, Prepare(db, r, id, at)));
  }

  lemma OneStepMore(dbs: seq<Db>, next: Db)
    requires dbs != [] && Grown(dbs) && Consistent(next) && Grew(dbs[|dbs| - 1], next)
    ensures Grown(dbs + [next])
  {
    forall i | 0 < i < |dbs + [next]| ensures Adjacent(dbs + [next], i) {
      assert i < |dbs| ==> Adjacent(dbs, i);
    }
  }

  class ResultService {
    var db: Db
    ghost var history: seq<Db>
    ghost var tried: seq<(ResultId, Time)>

    /** Every state the database was in is consistent, and each came from the one before by one whole commit. */
    ghost predicate Valid()
      reads this
    {
      history != [] && history[|history| - 1] == db && Grown(history)
    }

    constructor (db: Db)
      requires Consistent(db)
      ensures Valid() && this.db == db && history == [db] && tried == []
    {
      this.db, history, tried := db, [db], [];
    }

    method Write(r: Receipt, id: ResultId, at: Time)
      requires Valid() && Commits(db, r, id, at)
      modifies this`db, this`history
      ensures Valid() && db == Apply(old(db), Prepare(old(db), r, id, at)) && history == old(history) + [db]
    {
      HistoryGrows(history, db, r, id, at);
      db := Apply(db, Prepare(db, r, id, at));
      history := history + [db];
    }

    method Interfere(rivals: seq<Rival>, ghost r: Receipt, ghost id: ResultId, ghost at: Time, ghost result: ToolResult)
      requires Valid()
      modifies this`db, this`history
      ensures Valid() && old(history) <= history && (rivals == [] ==> db == old(db))
      ensures Outcome(old(db), r, id, at, result) ==> Outcome(db, r, id, at, result)
    {
      var k := 0;
      while k < |rivals|
        invariant k <= |rivals| && Valid() && old(history) <= history && (rivals == [] ==> db == old(db))
        invariant Outcome(old(db), r, id, at, result) ==> Outcome(db, r, id, at, result)
      {
        var rival := rivals[k];
        if Commits(db, rival.receipt, rival.id, rival.at) {
          if Outcome(db, r, id, at, result) { OutcomeStays(db, r, id, at, result, rival); }
          Write(rival.receipt, rival.id, rival.at);
        }
        k := k + 1;
      }
    }

    method AssetsKept(result: ToolResult, links: seq<Link>) returns (kept: bool)
      ensures kept <==> forall i | 0 <= i < |links| :: Keeps(db, result, links[i].asset)
    {
      var i := 0;
      while i < |links|
        invariant i <= |links| && forall j | 0 <= j < i :: Keeps(db, result, links[j].asset)
      {
        if !Keeps(db, result, links[i].asset) {
          return false;
        }
        i := i + 1;
      }
      kept := true;
    }

    /** After an uncertain commit, prepared when the database was in its k-th state: an answer means that
        the whole of it took effect, a conflict that something else stands in its place. */
    method Recover(expected: Prepared, read: bool, ghost k: nat, ghost r: Receipt, ghost id: ResultId, ghost at: Time)
      returns (reply: Reply)
      requires Valid() && k < |history| && expected == Prepare(history[k], r, id, at) && expected.Ready?
      ensures reply.Returned? ==> reply.result == expected.result && Outcome(db, r, id, at, reply.result)
      ensures reply.Raised? ==> read && id in db.results && !Standing(db, expected)
      ensures reply.PersistenceFailed? ==> !read || id !in db.results
      ensures reply != Unavailable && (read && Standing(db, expected) ==> reply.Returned?)
    {
      var result := expected.result;
      if !read || result.resultId !in db.results {
        return PersistenceFailed;
      }
      if db.results[result.resultId] != result || db.links[result.resultId] != expected.links || result.run !in db.runs || result.task !in db.tasks
         || db.runs[result.run] != expected.run || db.tasks[result.task] != expected.task {
        return Raised(Conflict);
      }
      var kept := AssetsKept(result, expected.links);
      if !kept {
        return Raised(Conflict);
      }
      RecoveredIsOutcome(db, history[k], r, id, at);
      reply := Returned(db.results[result.resultId]);
    }

    /** After a commit that was heard to succeed the result is read back; otherwise it is recovered. */
    method ReadBack(p: Prepared, heard: bool, read: bool, ghost k: nat, ghost r: Receipt, ghost id: ResultId, ghost at: Time)
      returns (reply: Reply)
      requires Valid() && k < |history| && p == Prepare(history[k], r, id, at) && p.Ready?
      requires heard ==> Outcome(db, r, id, at, p.result)
      ensures reply.Returned? ==> Outcome(db, r, id, at, reply.result)
      ensures read && (heard || Standing(db, p)) ==> reply.Returned?
      ensures id !in db.results ==> reply == PersistenceFailed
    {
      var result := p.result;
      if !heard {
        reply := Recover(p, read, k, r, id, at);
      } else if !read || result.resultId !in db.results {
        reply := PersistenceFailed;
      } else {
        reply := Returned(db.results[result.resultId]);
      }
    }

    /** The commit takes effect unless it is undone or its result id is taken. */
    method Try(r: Receipt, id: ResultId, at: Time, commit: Ending) returns (written: bool)
      requires Valid() && Prepare(db, r, id, at).Ready?
      modifies this`db, this`history
      ensures Valid() && old(history) <= history && written == (id !in old(db).results && commit != UNDONE)
      ensures db == if written then Apply(old(db), Prepare(old(db), r, id, at)) else old(db)
      ensures var p := Prepare(old(db), r, id, at);
              written ==> Standing(db, p) && Outcome(db, r, id, at, p.result)
    {
      written := id !in db.results && commit != UNDONE;
      if written {
        CommitIsOutcome(db, r, id, at);
        WrittenStands(db, r, id, at);
        Write(r, id, at);
      }
    }

    /** From the prepared commit on: write, then read back or recover. */
    method Finish(r: Receipt, id: ResultId, at: Time, a: Attempt) returns (reply: Reply)
      requires Valid() && Prepare(db, r, id, at).Ready?
      modifies this`db, this`history
      ensures Valid() && old(history) <= history
      ensures reply.Returned? ==> Outcome(db, r, id, at, reply.result)
      ensures a.between == [] ==>
                db == if id in old(db).results || a.commit == UNDONE then old(db) else Apply(old(db), Prepare(old(db), r, id, at))
      ensures a.between == [] && a.read && id !in old(db).results ==>
                if a.commit == UNDONE then reply == PersistenceFailed else reply.Returned?
    {
      var p := Prepare(db, r, id, at);
      var written := Try(r, id, at, a.commit);
      Interfere(a.between, r, id, at, p.result);
      assert history[|old(history)| - 1] == old(db);
      reply := ReadBack(p, written && a.commit == FINE, a.read, |old(history)| - 1, r, id, at);
    }

    method CommitOnce(r: Receipt, id: ResultId, at: Time, a: Attempt) returns (reply: Reply)
      requires Valid()
      modifies this
      ensures Valid() && old(history) <= history && tried == old(tried) + [(id, at)]
      ensures reply.Returned? ==> Outcome(db, r, id, at, reply.result)
      ensures Alone(a) ==> AllOrNothing(old(db), db, r, id, at)
      ensures Undone(a) && Commits(old(db), r, id, at) ==> reply == PersistenceFailed && db == old(db)
      ensures Heard(a) && Commits(old(db), r, id, at) ==> reply.Returned?
    {
      tried := tried + [(id, at)];
      Interfere(a.before, r, id, at, ToolResult(id, 0, 0, PENDING, [], [], [], at, None));
      if !a.load {
        return PersistenceFailed;
      }
      var p := Prepare(db, r, id, at);
      if !p.Ready? {
        return Raised(p);
      }
      reply := Finish(r, id, at, a);
    }

    /** Read again: nothing there, and the run as before? */
    method AskAgain(r: Receipt, id: ResultId, at: Time, a: Attempt) returns (known: bool, absent: bool)
      requires Valid()
      modifies this`db, this`history
      ensures Valid() && old(history) <= history && (a.after == [] ==> db == old(db)) && known == a.reread
      ensures absent <==> known && !HasResult(db, r.run) && r.run in db.runs && db.runs[r.run].status == RUNNING
                          && db.runs[r.run].summary == r.summary
    {
      Interfere(a.after, r, id, at, ToolResult(id, 0, 0, PENDING, [], [], [], at, None));
      known := a.reread;
      absent := known && !HasResult(db, r.run) && r.run in db.runs && db.runs[r.run].status == RUNNING
                && db.runs[r.run].summary == r.summary;
    }

    /** Up to three attempts under one result id and time; only a confirmed absence is tried again. */
    method CommitResult(r: Receipt, id: ResultId, at: Time, attempts: seq<Attempt>) returns (reply: Reply)
      requires Valid() && |attempts| == 3
      modifies this
      ensures Valid() && old(history) <= history
      ensures old(tried) <= tried && |tried| <= |old(tried)| + 3
      ensures forall i | |old(tried)| <= i < |tried| :: tried[i] == (id, at)
      ensures reply.Returned? ==> Outcome(db, r, id, at, reply.result)
      ensures (forall k | 0 <= k < 3 :: Alone(attempts[k])) ==> AllOrNothing(old(db), db, r, id, at)
      ensures Commits(old(db), r, id, at) && (exists k | 0 <= k < 3 :: HeardFirst(attempts, k)) ==> reply.Returned?
    {
      reply := PersistenceFailed;
      var attempt := 0;
      while attempt < 3
        invariant attempt <= 3 && reply == PersistenceFailed && Valid() && old(history) <= history
        invariant old(tried) <= tried && |tried| == |old(tried)| + attempt
        invariant forall i | |old(tried)| <= i < |tried| :: tried[i] == (id, at)
        invariant (forall k | 0 <= k < 3 :: Alone(attempts[k])) ==> db == old(db)
        invariant Commits(old(db), r, id, at) && (forall j | 0 <= j < attempt :: Undone(attempts[j])) ==> db == old(db)
        invariant Commits(old(db), r, id, at) ==> forall k | 0 <= k < attempt :: !HeardFirst(attempts, k)
      {
        var a := attempts[attempt];
        reply := CommitOnce(r, id, at, a);
        if reply != PersistenceFailed {
          return;
        }
        var known, absent := AskAgain(r, id, at, a);
        if !known {
          return Unavailable;
        }
        if !absent || attempt == 2 {
          return;
        }
        attempt := attempt + 1;
      }
    }
  }
}
