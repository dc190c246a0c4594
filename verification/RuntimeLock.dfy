/**
 The execution lock and the shutdown of the inference runtime: any number of request threads of three
 tools, of receipt clean-ups and of closers, interleaved one read, write or lock operation at a time.
 */
module RuntimeLocks {
  import opened Options

  type Thread = nat
  datatype Engine = Main | Ebsd | Tc4

  /** What a request does while it holds the execution lock. */
  datatype Work = Infer(engine: Engine) | SweepReceipts

  datatype Pc =
    | FirstCheck(engine: Engine)
    | SecondCheck
    | TryLock(work: Work)
    | LastCheck(engine: Engine)
    | Ready(work: Work)
    | Working(work: Work)
    | Leave
    | WantClose
    | InClose
    | WantExecution
    | CloseTc4
    | CloseEbsd
    | CloseMain
    | MarkMain
    | LeaveExecution
    | CloseServer
    | LeaveClose
    | Done

  datatype Mark = Start(thread: Thread, work: Work) | End(thread: Thread, work: Work) | Close(engine: Engine)

  /** What `create_runtime_server` managed to load. Receipts may be open without the TC4 model. */
  datatype Loaded = Loaded(engines: set<Engine>, receipts: bool)

  datatype Runtime = Runtime(
    loaded: Loaded,
    threads: map<Thread, Pc>,
    executionLock: Option<Thread>,
    closeLock: Option<Thread>,
    closed: bool,
    engineClosed: bool,
    serverClosed: bool,
    log: seq<Mark>)

  /** A main engine that fails to load is closed before the server starts. */
  function Created(loaded: Loaded): Runtime {
    Runtime(loaded, map[], None, None, false, Main !in loaded.engines, false,
            if Main in loaded.engines then [] else [Close(Main)])
  }

  // ---- one step ----

  /** `Proceed(t, ok)` runs thread t to its next shared access; `ok` is false for a malformed request
      and for an engine whose `close` raises. */
  datatype Event = Request(thread: Thread, work: Work) | Closer(thread: Thread) | Proceed(thread: Thread, ok: bool)

  function Go(s: Runtime, t: Thread, pc: Pc): Runtime {
    s.(threads := s.threads[t := pc])
  }

  function Note(s: Runtime, mark: Mark): Runtime {
    s.(log := s.log + [mark])
  }

  function Infers(s: Runtime, t: Thread, pc: Pc, ok: bool): Runtime {
    match pc
    case FirstCheck(engine) =>
      if s.closed || engine !in s.loaded.engines || !ok then Go(s, t, Done)
      else Go(s, t, if engine == Main then SecondCheck else TryLock(Infer(engine)))
    case SecondCheck => Go(s, t, if s.closed then Done else TryLock(Infer(Main)))
    case TryLock(work) =>
      if s.executionLock.Some? then Go(s, t, Done)
      else Go(s.(executionLock := Some(t)), t, if work.Infer? then LastCheck(work.engine) else Ready(work))
    case LastCheck(engine) => Go(s, t, if s.closed then Leave else Ready(Infer(engine)))
    case Ready(work) => Go(Note(s, Start(t, work)), t, Working(work))
    case Working(work) => Go(Note(s, End(t, work)), t, Leave)
    case Leave => Go(s.(executionLock := None), t, Done)
    case _ => s
  }

  /** An engine whose `close` raises is still closed; the ones after it are skipped. */
  function Shuts(s: Runtime, t: Thread, engine: Engine, next: Pc, ok: bool): Runtime {
    if engine !in s.loaded.engines then Go(s, t, next)
    else Go(Note(s, Close(engine)), t, if ok then next else LeaveExecution)
  }

  function Closes(s: Runtime, t: Thread, pc: Pc, ok: bool): Runtime {
    match pc
    case WantClose => if s.closeLock.Some? then s else Go(s.(closeLock := Some(t)), t, InClose)
    case InClose => if s.closed then Go(s, t, LeaveClose) else Go(s.(closed := true), t, WantExecution)
    case WantExecution => if s.executionLock.Some? then s else Go(s.(executionLock := Some(t)), t, CloseTc4)
    case CloseTc4 => Shuts(s, t, Tc4, CloseEbsd, ok)
    case CloseEbsd => Shuts(s, t, Ebsd, CloseMain, ok)
    case CloseMain => if s.engineClosed then Go(s, t, LeaveExecution) else Go(Note(s, Close(Main)), t, MarkMain)
    case MarkMain => Go(s.(engineClosed := true), t, LeaveExecution)
    case LeaveExecution => Go(s.(executionLock := None), t, CloseServer)
    case CloseServer => Go(s.(serverClosed := true), t, LeaveClose)
    case LeaveClose => Go(s.(closeLock := None), t, Done)
    case _ => s
  }

  predicate OfRequest(pc: Pc) {
    pc.FirstCheck? || pc.SecondCheck? || pc.TryLock? || pc.LastCheck? || pc.Ready? || pc.Working? || pc.Leave?
  }

  /** A step that cannot be taken, such as waiting for a lock that is held, changes nothing. */
  function Step(s: Runtime, e: Event): Runtime {
    match e
    case Request(t, work) =>
      if t in s.threads || (work.SweepReceipts? && !s.loaded.receipts) then s
      else Go(s, t, if work.Infer? then FirstCheck(work.engine) else TryLock(work))
    case Closer(t) => if t in s.threads then s else Go(s, t, WantClose)
    case Proceed(t, ok) =>
      if t !in s.threads then s
      else if OfRequest(s.threads[t]) then Infers(s, t, s.threads[t], ok)
      else Closes(s, t, s.threads[t], ok)
  }

  function After(s: Runtime, events: seq<Event>): Runtime
    decreases |events|
  {
    if events == [] then s else Step(After(s, events[..|events| - 1]), events[|events| - 1])
  }

  // ---- what the log must show ----

  predicate Ended(log: seq<Mark>, i: nat, j: nat)
    requires i <= j <= |log|
  {
    i < j && log[i].Start? && End(log[i].thread, log[i].work) in log[i + 1..j]
  }

  /** Before any work starts and before any engine is closed, all earlier work has ended. */
  predicate Alone(log: seq<Mark>) {
    forall i, j | 0 <= i < j < |log| && log[i].Start? && !log[j].End? :: Ended(log, i, j)
  }

  /** No engine is closed twice. Once a closer closed any engine, no inference starts; the only close that
      inference may follow is that of a main engine that failed to load, and then it is another engine's. */
  predicate ClosedForGood(loaded: Loaded, log: seq<Mark>) {
    forall i, j | 0 <= i < j < |log| && log[i].Close? ::
      && log[j] != log[i]
      && (log[j].Start? && log[j].work.Infer? ==> log[i].engine !in loaded.engines && log[j].work.engine in loaded.engines)
  }

  // ---- the invariant ----

  predicate HoldsExecution(pc: Pc) {
    pc.LastCheck? || pc.Ready? || pc.Working? || pc.Leave? || pc.CloseTc4? || pc.CloseEbsd? || pc.CloseMain? || pc.MarkMain?
    || pc.LeaveExecution?
  }

  predicate HoldsClose(pc: Pc) {
    pc.InClose? || pc.LeaveClose? || Closing(pc)
  }

  predicate Closing(pc: Pc) {
    pc.WantExecution? || pc.CloseTc4? || pc.CloseEbsd? || pc.CloseMain? || pc.MarkMain? || pc.LeaveExecution? || pc.CloseServer?
  }

  /** The closer has not come to this engine yet. */
  predicate Before(engine: Engine, pc: Pc) {
    || pc.WantExecution? || pc.CloseTc4?
    || (engine != Tc4 && pc.CloseEbsd?)
    || (engine == Main && pc.CloseMain?)
  }

  predicate Mid(pc: Pc) {
    (pc.Ready? || pc.Working?) && pc.work.Infer?
  }

  predicate Locked(s: Runtime, t: Thread)
    requires t in s.threads
  {
    var pc := s.threads[t];
    && (HoldsExecution(pc) <==> s.executionLock == Some(t))
    && (HoldsClose(pc) <==> s.closeLock == Some(t))
    && (Closing(pc) ==> s.closed)
    && (pc.MarkMain? ==> Main in s.loaded.engines)
    && ((pc.LastCheck? || pc.SecondCheck?) ==> (if pc.LastCheck? then pc.engine else Main) in s.loaded.engines)
    && ((pc.TryLock? || pc.Ready? || pc.Working?) && pc.work.Infer? ==> pc.work.engine in s.loaded.engines)
  }

  predicate LocksFit(s: Runtime) {
    && (forall t | t in s.threads :: Locked(s, t))
    && (s.executionLock.Some? ==> s.executionLock.value in s.threads)
    && (s.closeLock.Some? ==> s.closeLock.value in s.threads)
  }

  /** Work that has not ended is what its thread is doing now. */
  predicate LogFits(s: Runtime) {
    && Alone(s.log) && ClosedForGood(s.loaded, s.log)
    && (forall i | 0 <= i < |s.log| && s.log[i].Start? && !Ended(s.log, i, |s.log|) ::
          s.log[i].thread in s.threads && s.threads[s.log[i].thread] == Working(s.log[i].work))
  }

  /** Nobody is ahead of a closed engine, whether to work or to close it again. */
  predicate NobodyAhead(s: Runtime, engine: Engine) {
    s.closed && forall t | t in s.threads :: !Before(engine, s.threads[t]) && !Mid(s.threads[t])
  }

  predicate Inv(s: Runtime) {
    && LocksFit(s) && LogFits(s)
    && (forall engine | Close(engine) in s.log && engine in s.loaded.engines :: NobodyAhead(s, engine))
    && (Close(Main) in s.log && Main in s.loaded.engines && !s.engineClosed ==>
          s.closeLock.Some? && s.closeLock.value in s.threads && s.threads[s.closeLock.value].MarkMain?)
    && (Main !in s.loaded.engines ==> s.engineClosed)
  }

  // ---- every step keeps the invariant ----

  lemma EndedGrows(log: seq<Mark>, mark: Mark, i: nat, j: nat)
    requires i <= j <= |log|
    ensures Ended(log + [mark], i, j) == Ended(log, i, j)
    ensures Ended(log, i, |log|) ==> Ended(log + [mark], i, |log| + 1)
    ensures i < |log| && log[i].Start? && mark == End(log[i].thread, log[i].work) ==> Ended(log + [mark], i, |log| + 1)
  {
    var longer := log + [mark];
    assert i < j ==> longer[i + 1..j] == log[i + 1..j];
    if i < |log| {
      assert longer[i + 1..|log| + 1] == log[i + 1..|log|] + [mark];
    }
  }

  lemma LogGrows(loaded: Loaded, log: seq<Mark>, mark: Mark)
    requires Alone(log) && ClosedForGood(loaded, log)
    requires !mark.End? ==> forall i | 0 <= i < |log| && log[i].Start? :: Ended(log, i, |log|)
    requires mark.Close? ==> mark !in log
    requires mark.Start? && mark.work.Infer? ==>
               mark.work.engine in loaded.engines && forall engine | Close(engine) in log :: engine !in loaded.engines
    ensures Alone(log + [mark]) && ClosedForGood(loaded, log + [mark])
  {
    var longer := log + [mark];
    forall i, j | 0 <= i < j < |longer| && longer[i].Start? && !longer[j].End? ensures Ended(longer, i, j) {
      EndedGrows(log, mark, i, j);
      assert j < |log| ==> log[j] == longer[j];
    }
    forall i, j | 0 <= i < j < |longer| && longer[i].Close?
      ensures longer[j] != longer[i]
      ensures longer[j].Start? && longer[j].work.Infer? ==>
                longer[i].engine !in loaded.engines && longer[j].work.engine in loaded.engines
    {
      assert log[i] == longer[i] && log[i] in log;
      assert j < |log| ==> log[j] == longer[j];
    }
  }

  /** A thread moves, possibly taking or leaving a lock, and the log stays as it is. */
  predicate Moved(s: Runtime, t: Thread, n: Runtime) {
    && t in n.threads && n.threads == s.threads[t := n.threads[t]]
    && n.loaded == s.loaded
    && (s.closed ==> n.closed) && (s.engineClosed ==> n.engineClosed)
    && (n.executionLock != s.executionLock ==>
          if s.executionLock.None? then n.executionLock == Some(t) else s.executionLock == Some(t) && n.executionLock.None?)
    && (n.closeLock != s.closeLock ==>
          if s.closeLock.None? then n.closeLock == Some(t) else s.closeLock == Some(t) && n.closeLock.None?)
  }

  lemma LocksKept(s: Runtime, t: Thread, n: Runtime)
    requires LocksFit(s) && Moved(s, t, n) && Locked(n, t)
    ensures LocksFit(n)
  {
    forall u | u in n.threads ensures Locked(n, u) {
      if u != t { assert Locked(s, u); }
    }
  }

  /** A step that neither writes the log nor brings a thread closer to work or to a close than it may be. */
  predicate Quiet(s: Runtime, t: Thread, n: Runtime) {
    && Moved(s, t, n) && Locked(n, t) && n.log == s.log
    && (t in s.threads ==> !s.threads[t].Working?)
    && (Mid(n.threads[t]) ==> !s.closed || (t in s.threads && Mid(s.threads[t])))
    && (n.threads[t].WantExecution? ==> !s.closed)
    && (forall engine | engine in s.loaded.engines && Before(engine, n.threads[t]) && !n.threads[t].WantExecution? ::
          t in s.threads && Before(engine, s.threads[t]))
    && (t in s.threads && s.threads[t].MarkMain? ==> n.engineClosed)
  }

  lemma QuietStepKeeps(s: Runtime, t: Thread, n: Runtime)
    requires Inv(s) && Quiet(s, t, n)
    ensures Inv(n)
  {
    LocksKept(s, t, n);
    forall engine | Close(engine) in n.log && engine in n.loaded.engines ensures NobodyAhead(n, engine) {
      assert NobodyAhead(s, engine);
      assert !Before(engine, n.threads[t]) && !Mid(n.threads[t]);
    }
  }

  lemma RequestStepIsQuiet(s: Runtime, t: Thread, ok: bool)
    requires t in s.threads && Locked(s, t) && OfRequest(s.threads[t]) && !s.threads[t].Ready? && !s.threads[t].Working?
    ensures Quiet(s, t, Infers(s, t, s.threads[t], ok))
  {
  }

  lemma ClosingStepIsQuiet(s: Runtime, t: Thread, ok: bool)
    requires t in s.threads && Locked(s, t) && HoldsExecution(s.threads[t]) && Closing(s.threads[t])
    requires s.threads[t].CloseTc4? ==> Tc4 !in s.loaded.engines
    requires s.threads[t].CloseEbsd? ==> Ebsd !in s.loaded.engines
    requires s.threads[t].CloseMain? ==> s.engineClosed
    ensures Quiet(s, t, Closes(s, t, s.threads[t], ok))
  {
  }

  lemma WaitingStepIsQuiet(s: Runtime, t: Thread, ok: bool)
    requires t in s.threads && Locked(s, t) && !OfRequest(s.threads[t]) && Closes(s, t, s.threads[t], ok) != s
    requires !HoldsExecution(s.threads[t])
    ensures Quiet(s, t, Closes(s, t, s.threads[t], ok))
  {
  }

  /** Whoever holds the execution lock and is not working is alone. */
  lemma AllEnded(s: Runtime, t: Thread)
    requires Inv(s) && t in s.threads && HoldsExecution(s.threads[t]) && !s.threads[t].Working?
    ensures forall i | 0 <= i < |s.log| && s.log[i].Start? :: Ended(s.log, i, |s.log|)
  {
    assert Locked(s, t);
    forall i | 0 <= i < |s.log| && s.log[i].Start? ensures Ended(s.log, i, |s.log|) {
      assert s.log[i].thread in s.threads ==> Locked(s, s.log[i].thread);
    }
  }

  lemma StartFits(s: Runtime, t: Thread, n: Runtime)
    requires Inv(s) && t in s.threads && s.threads[t].Ready?
    requires n == Go(Note(s, Start(t, s.threads[t].work)), t, Working(s.threads[t].work))
    ensures LogFits(n)
  {
    var mark := Start(t, s.threads[t].work);
    assert Locked(s, t);
    AllEnded(s, t);
    forall engine | Close(engine) in s.log && engine in s.loaded.engines ensures !s.threads[t].work.Infer? {
      assert NobodyAhead(s, engine);
    }
    LogGrows(s.loaded, s.log, mark);
    forall i | 0 <= i < |n.log| && n.log[i].Start? && !Ended(n.log, i, |n.log|) ensures i == |s.log| {
      if i < |s.log| { EndedGrows(s.log, mark, i, |s.log|); }
    }
  }

  lemma EndFits(s: Runtime, t: Thread, n: Runtime)
    requires Inv(s) && t in s.threads && s.threads[t].Working?
    requires n == Go(Note(s, End(t, s.threads[t].work)), t, Leave)
    ensures LogFits(n)
  {
    var mark := End(t, s.threads[t].work);
    assert Locked(s, t);
    LogGrows(s.loaded, s.log, mark);
    forall i | 0 <= i < |n.log| && n.log[i].Start? ensures Ended(n.log, i, |n.log|) {
      assert s.log[i].thread in s.threads ==> Locked(s, s.log[i].thread);
      EndedGrows(s.log, mark, i, |s.log|);
    }
  }

  lemma WorkKeeps(s: Runtime, t: Thread, ok: bool)
    requires Inv(s) && t in s.threads && (s.threads[t].Ready? || s.threads[t].Working?)
    ensures Inv(Infers(s, t, s.threads[t], ok))
  {
    var n := Infers(s, t, s.threads[t], ok);
    assert Locked(s, t);
    LocksKept(s, t, n);
    if s.threads[t].Ready? { StartFits(s, t, n); } else { EndFits(s, t, n); }
    forall engine | Close(engine) in n.log && engine in n.loaded.engines ensures NobodyAhead(n, engine) {
      assert NobodyAhead(s, engine);
    }
  }

  lemma CloseFits(s: Runtime, t: Thread, engine: Engine, n: Runtime)
    requires Inv(s) && t in s.threads && engine in s.loaded.engines && Before(engine, s.threads[t])
    requires HoldsExecution(s.threads[t]) && n.log == s.log + [Close(engine)] && n.loaded == s.loaded
    ensures LogFits(n)
  {
    AllEnded(s, t);
    assert Close(engine) in s.log ==> NobodyAhead(s, engine);
    LogGrows(s.loaded, s.log, Close(engine));
    forall i | 0 <= i < |n.log| && n.log[i].Start? ensures Ended(n.log, i, |n.log|) {
      EndedGrows(s.log, Close(engine), i, |s.log|);
    }
  }

  lemma NothingAhead(s: Runtime, t: Thread, engine: Engine, n: Runtime)
    requires Inv(s) && t in s.threads && engine in s.loaded.engines && n.closed == s.closed
    requires HoldsExecution(s.threads[t]) && Closing(s.threads[t]) && Before(engine, s.threads[t])
    requires t in n.threads && n.threads == s.threads[t := n.threads[t]] && !Mid(n.threads[t]) && !Before(engine, n.threads[t])
    requires forall other :: !Before(other, s.threads[t]) ==> !Before(other, n.threads[t])
    ensures forall other | other in s.loaded.engines && (other == engine || Close(other) in s.log) :: NobodyAhead(n, other)
  {
    assert Locked(s, t);
    forall other | other in s.loaded.engines && (other == engine || Close(other) in s.log) ensures NobodyAhead(n, other) {
      assert other != engine ==> NobodyAhead(s, other);
      forall u | u in n.threads ensures !Before(other, n.threads[u]) && !Mid(n.threads[u]) {
        assert u in s.threads && Locked(s, u);
      }
    }
  }

  /** Closing an engine: the lock is held, so nothing works, and nothing will start again. */
  lemma CloseKeeps(s: Runtime, t: Thread, engine: Engine, next: Pc)
    requires Inv(s) && t in s.threads && engine in s.loaded.engines && !(engine == Main && s.engineClosed)
    requires s.threads[t] == (match engine case Tc4 => CloseTc4 case Ebsd => CloseEbsd case Main => CloseMain)
    requires if engine == Main then next == MarkMain else
               next == LeaveExecution || next == (if engine == Tc4 then CloseEbsd else CloseMain)
    ensures Inv(Go(Note(s, Close(engine)), t, next))
  {
    var n := Go(Note(s, Close(engine)), t, next);
    assert Locked(s, t);
    LocksKept(s, t, n);
    CloseFits(s, t, engine, n);
    NothingAhead(s, t, engine, n);
  }

  lemma RequestStepKeeps(s: Runtime, t: Thread, ok: bool)
    requires Inv(s) && t in s.threads && OfRequest(s.threads[t])
    ensures Inv(Infers(s, t, s.threads[t], ok))
  {
    assert Locked(s, t);
    if s.threads[t].Ready? || s.threads[t].Working? {
      WorkKeeps(s, t, ok);
    } else {
      RequestStepIsQuiet(s, t, ok);
      QuietStepKeeps(s, t, Infers(s, t, s.threads[t], ok));
    }
  }

  lemma CloserStepKeeps(s: Runtime, t: Thread, ok: bool)
    requires Inv(s) && t in s.threads && !OfRequest(s.threads[t])
    ensures Inv(Closes(s, t, s.threads[t], ok))
  {
    assert Locked(s, t);
    var n := Closes(s, t, s.threads[t], ok);
    if s.threads[t].CloseTc4? && Tc4 in s.loaded.engines {
      CloseKeeps(s, t, Tc4, if ok then CloseEbsd else LeaveExecution);
    } else if s.threads[t].CloseEbsd? && Ebsd in s.loaded.engines {
      CloseKeeps(s, t, Ebsd, if ok then CloseMain else LeaveExecution);
    } else if s.threads[t].CloseMain? && !s.engineClosed {
      CloseKeeps(s, t, Main, MarkMain);
    } else if n != s {
      if HoldsExecution(s.threads[t]) { ClosingStepIsQuiet(s, t, ok); } else { WaitingStepIsQuiet(s, t, ok); }
      QuietStepKeeps(s, t, n);
    }
  }

  lemma StepKeeps(s: Runtime, e: Event)
    requires Inv(s)
    ensures Inv(Step(s, e))
  {
    match e
    case Proceed(t, ok) =>
      if t in s.threads {
        if OfRequest(s.threads[t]) { RequestStepKeeps(s, t, ok); } else { CloserStepKeeps(s, t, ok); }
      }
    case Request(t, work) =>
      if Step(s, e) != s { QuietStepKeeps(s, t, Step(s, e)); }
    case Closer(t) =>
      if Step(s, e) != s { QuietStepKeeps(s, t, Step(s, e)); }
  }

  lemma {:induction false} Reachable(loaded: Loaded, events: seq<Event>)
    ensures Inv(After(Created(loaded), events))
  {
    if events == [] {
    } else {
      Reachable(loaded, events[..|events| - 1]);
      StepKeeps(After(Created(loaded), events[..|events| - 1]), events[|events| - 1]);
    }
  }

  // ---- what every run shows ----

  /** Inference of the three tools, receipt clean-ups and closes never overlap. */
  lemma WorkIsExclusive(loaded: Loaded, events: seq<Event>, i: nat, j: nat)
    requires i < j < |After(Created(loaded), events).log|
    requires After(Created(loaded), events).log[i].Start? && !After(Created(loaded), events).log[j].End?
    ensures exists k | i < k < j ::
              After(Created(loaded), events).log[k]
              == End(After(Created(loaded), events).log[i].thread, After(Created(loaded), events).log[i].work)
  {
    Reachable(loaded, events);
    var log := After(Created(loaded), events).log;
    assert Ended(log, i, j);
    var k :| 0 <= k < j - i - 1 && log[i + 1..j][k] == End(log[i].thread, log[i].work);
    assert log[i + 1 + k] == log[i + 1..j][k];
  }

  /** The main engine is closed at most once, load failure included, and so is every other one;
      after a closer's first close no inference starts. */
  lemma ClosesOnceAndForGood(loaded: Loaded, events: seq<Event>)
    ensures ClosedForGood(loaded, After(Created(loaded), events).log)
    ensures Main !in loaded.engines ==> forall i | 0 <= i < |After(Created(loaded), events).log| ::
              After(Created(loaded), events).log[i] == Close(Main) ==> i == 0
  {
    Reachable(loaded, events);
    Kept(loaded, events);
    FirstClose(loaded, After(Created(loaded), events).log);
  }

  lemma FirstClose(loaded: Loaded, log: seq<Mark>)
    requires ClosedForGood(loaded, log) && (Main !in loaded.engines ==> [Close(Main)] <= log)
    ensures Main !in loaded.engines ==> forall i | 0 <= i < |log| :: log[i] == Close(Main) ==> i == 0
  {
    if Main !in loaded.engines { assert log[0] == Close(Main); }
  }

  lemma StepAppends(s: Runtime, e: Event)
    ensures Step(s, e).loaded == s.loaded && s.log <= Step(s, e).log
  {
    if e.Proceed? && e.thread in s.threads {
      if OfRequest(s.threads[e.thread]) {
        InfersAppends(s, e.thread, s.threads[e.thread], e.ok);
      } else {
        ClosesAppends(s, e.thread, s.threads[e.thread], e.ok);
      }
    }
  }

  lemma InfersAppends(s: Runtime, t: Thread, pc: Pc, ok: bool)
    ensures Infers(s, t, pc, ok).loaded == s.loaded && s.log <= Infers(s, t, pc, ok).log
  {
  }

  lemma ClosesAppends(s: Runtime, t: Thread, pc: Pc, ok: bool)
    ensures Closes(s, t, pc, ok).loaded == s.loaded && s.log <= Closes(s, t, pc, ok).log
  {
  }

  lemma {:induction false} Kept(loaded: Loaded, events: seq<Event>)
    ensures After(Created(loaded), events).loaded == loaded
    ensures Created(loaded).log <= After(Created(loaded), events).log
  {
    if events == [] {
    } else {
      Kept(loaded, events[..|events| - 1]);
      StepAppends(After(Created(loaded), events[..|events| - 1]), events[|events| - 1]);
    }
  }

  /** With the lock free, a receipt clean-up gets to work, also after the engines were closed: it does not
      look at `closed`. An inference of a loaded engine does so exactly while the runtime is open. */
  lemma CleanupIgnoresShutdown(s: Runtime, t: Thread, work: Work)
    requires t !in s.threads && s.executionLock.None? && s.loaded.receipts
    requires work.Infer? ==> work.engine in s.loaded.engines
    ensures var n := After(s, [Request(t, work)] + Turns(t));
            if work.SweepReceipts? || !s.closed then s.log + [Start(t, work)] <= n.log else n.log == s.log
  {
    AfterTurns(s, Request(t, work), t);
    var n := Step(s, Request(t, work));
    if work.SweepReceipts? {
      SweepStarts(n, t);
    } else if s.closed {
      InferenceRefused(n, t);
    } else {
      InferenceStarts(n, t);
    }
  }

  lemma SweepStarts(s: Runtime, t: Thread)
    requires t in s.threads && s.threads[t] == TryLock(SweepReceipts) && s.executionLock.None?
    ensures s.log + [Start(t, SweepReceipts)] <= Turn(Turn(Turn(Turn(Turn(s, t), t), t), t), t).log
  {
    var s1 := Turn(s, t);
    assert s1.threads[t] == Ready(SweepReceipts) && s1.log == s.log;
    var s2 := Turn(s1, t);
    assert s2.threads[t] == Working(SweepReceipts) && s2.log == s.log + [Start(t, SweepReceipts)];
    var s3 := Turn(s2, t);
    assert s3.threads[t] == Leave && s2.log <= s3.log;
    assert Turn(s3, t).threads[t] == Done && Turn(s3, t).log == s3.log;
  }

  lemma InferenceRefused(s: Runtime, t: Thread)
    requires t in s.threads && s.threads[t].FirstCheck? && s.closed
    ensures Turn(Turn(Turn(Turn(Turn(s, t), t), t), t), t).log == s.log
  {
    var s1 := Turn(s, t);
    assert s1.threads[t] == Done && s1.log == s.log;
    assert Turn(s1, t) == s1;
  }

  lemma InferenceStarts(s: Runtime, t: Thread)
    requires t in s.threads && s.threads[t].FirstCheck? && !s.closed && s.executionLock.None?
    requires s.threads[t].engine in s.loaded.engines
    ensures s.log + [Start(t, Infer(s.threads[t].engine))] <= Turn(Turn(Turn(Turn(Turn(s, t), t), t), t), t).log
  {
    var engine := s.threads[t].engine;
    var s1 := Turn(s, t);
    if engine == Main {
      assert s1 == Go(s, t, SecondCheck);
      assert Turn(s1, t) == Go(s1, t, TryLock(Infer(engine)));
      LockedWorkStarts(Turn(s1, t), t, engine);
    } else {
      assert s1 == Go(s, t, TryLock(Infer(engine)));
      LockedWorkStarts(s1, t, engine);
      TurnAppends(Turn(Turn(Turn(s1, t), t), t), t);
    }
  }

  lemma LockedWorkStarts(s: Runtime, t: Thread, engine: Engine)
    requires t in s.threads && s.threads[t] == TryLock(Infer(engine)) && !s.closed && s.executionLock.None?
    ensures Turn(Turn(Turn(s, t), t), t).log == s.log + [Start(t, Infer(engine))]
  {
    var s1 := Turn(s, t);
    assert s1 == Go(s.(executionLock := Some(t)), t, LastCheck(engine));
    assert Turn(s1, t) == Go(s1, t, Ready(Infer(engine)));
  }

  lemma TurnAppends(s: Runtime, t: Thread)
    ensures s.log <= Turn(s, t).log
  {
    StepAppends(s, Proceed(t, true));
  }

  function Turns(t: Thread): seq<Event> {
    [Proceed(t, true), Proceed(t, true), Proceed(t, true), Proceed(t, true), Proceed(t, true)]
  }

  function Turn(s: Runtime, t: Thread): Runtime {
    Step(s, Proceed(t, true))
  }

  lemma AfterTurns(s: Runtime, e: Event, t: Thread)
    ensures After(s, [e] + Turns(t)) == Turn(Turn(Turn(Turn(Turn(Step(s, e), t), t), t), t), t)
  {
    var events := [e] + Turns(t);
    assert events[..5][..4] == events[..4] && events[..4][..3] == events[..3] && events[..3][..2] == events[..2];
    assert events[..2][..1] == events[..1] == [e];
    assert After(s, events[..1]) == Step(s, e);
    assert After(s, events[..2]) == Turn(After(s, events[..1]), t);
    assert After(s, events[..3]) == Turn(After(s, events[..2]), t);
    assert After(s, events[..4]) == Turn(After(s, events[..3]), t);
    assert After(s, events[..5]) == Turn(After(s, events[..4]), t);
  }

  // ---- one thread at a time ----

  /** The marks of one close: an engine whose `close` raises keeps the later ones from being closed. */
  function CloseMarks(loaded: Loaded, engineClosed: bool, tc4: bool, ebsd: bool): seq<Mark> {
    (if Tc4 in loaded.engines then [Close(Tc4)] else [])
    + (if Tc4 !in loaded.engines || tc4 then LaterMarks(loaded, engineClosed, ebsd) else [])
  }

  function LaterMarks(loaded: Loaded, engineClosed: bool, ebsd: bool): seq<Mark> {
    (if Ebsd in loaded.engines then [Close(Ebsd)] else [])
    + (if (Ebsd !in loaded.engines || ebsd) && !engineClosed then [Close(Main)] else [])
  }

  /** Which engines these marks close, each once, TC4 before EBSD before the main one. */
  lemma CloseMarksExactly(loaded: Loaded, engineClosed: bool, tc4: bool, ebsd: bool)
    ensures var marks := CloseMarks(loaded, engineClosed, tc4, ebsd);
            && (Close(Tc4) in marks <==> Tc4 in loaded.engines)
            && (Close(Ebsd) in marks <==> Ebsd in loaded.engines && (Tc4 in loaded.engines ==> tc4))
            && (Close(Main) in marks <==> !engineClosed && (Tc4 in loaded.engines ==> tc4) && (Ebsd in loaded.engines ==> ebsd))
            && (forall i | 0 <= i < |marks| :: marks[i].Close?)
            && (forall i, j | 0 <= i < j < |marks| :: marks[j] != Close(Tc4) && marks[i] != Close(Main))
  {
    var first := if Tc4 in loaded.engines then [Close(Tc4)] else [];
    var later := LaterMarks(loaded, engineClosed, ebsd);
    assert CloseMarks(loaded, engineClosed, tc4, ebsd) == first + if Tc4 !in loaded.engines || tc4 then later else [];
    assert later == (if Ebsd in loaded.engines then [Close(Ebsd)] else [])
                    + (if (Ebsd !in loaded.engines || ebsd) && !engineClosed then [Close(Main)] else []);
  }

  /** A closer that holds the lock closes every loaded engine that is still open, unless one raises. */
  lemma CloserClosesAll(s: Runtime, t: Thread)
    requires t in s.threads && s.threads[t] == CloseTc4
    ensures var n := Turn(Turn(Turn(s, t), t), t);
            && n.log == s.log + CloseMarks(s.loaded, s.engineClosed, true, true)
            && t in n.threads && n.threads[t] == if s.engineClosed then LeaveExecution else MarkMain
  {
    EngineCloses(s, t, Tc4);
    EngineCloses(Turn(s, t), t, Ebsd);
    MainCloses(Turn(Turn(s, t), t), t);
  }

  lemma EngineCloses(s: Runtime, t: Thread, engine: Engine)
    requires t in s.threads && engine != Main && s.threads[t] == if engine == Tc4 then CloseTc4 else CloseEbsd
    ensures var n := Turn(s, t);
            && t in n.threads && n.threads[t] == (if engine == Tc4 then CloseEbsd else CloseMain)
            && n.log == s.log + (if engine in s.loaded.engines then [Close(engine)] else [])
            && n.loaded == s.loaded && n.engineClosed == s.engineClosed
  {
  }

  lemma MainCloses(s: Runtime, t: Thread)
    requires t in s.threads && s.threads[t] == CloseMain
    ensures var n := Turn(s, t);
            && t in n.threads && n.threads[t] == (if s.engineClosed then LeaveExecution else MarkMain)
            && n.log == s.log + if s.engineClosed then [] else [Close(Main)]
  {
  }

  // ---- the code of one thread, with the others running in between ----

  /** The work a thread has started and ended. */
  function Mine(log: seq<Mark>, t: Thread): seq<Mark> {
    if log == [] then []
    else
      var mark := log[|log| - 1];
      Mine(log[..|log| - 1], t) + if !mark.Close? && mark.thread == t then [mark] else []
  }

  ghost predicate Wrote(log: seq<Mark>, t: Thread, marks: seq<Mark>) {
    forall l | l == log :: Mine(l, t) == marks
  }

  lemma WroteNext(log: seq<Mark>, t: Thread, marks: seq<Mark>, mark: Mark)
    requires Wrote(log, t, marks)
    ensures Wrote(log + [mark], t, marks + if !mark.Close? && mark.thread == t then [mark] else [])
  {
    assert Mine(log, t) == marks;
    assert (log + [mark])[..|log|] == log;
  }

  /** Others have moved, this thread has not; the runtime stays closed. */
  ghost predicate Spared(t: Thread, s: Runtime, n: Runtime) {
    && (t in n.threads <==> t in s.threads) && (t in s.threads ==> n.threads[t] == s.threads[t])
    && (forall marks | Wrote(s.log, t, marks) :: Wrote(n.log, t, marks)) && s.log <= n.log
    && n.loaded == s.loaded && (s.closed ==> n.closed) && (s.serverClosed ==> n.serverClosed)
  }

  lemma MovedSpares(s: Runtime, n: Runtime, u: Thread, t: Thread)
    requires u != t && u in n.threads && n.threads == s.threads[u := n.threads[u]]
    requires n.loaded == s.loaded && (s.closed ==> n.closed) && (s.serverClosed ==> n.serverClosed)
    requires n.log == s.log || exists mark: Mark :: n.log == s.log + [mark] && (mark.Close? || mark.thread == u)
    ensures Spared(t, s, n)
  {
    if n.log != s.log {
      var mark: Mark :| n.log == s.log + [mark] && (mark.Close? || mark.thread == u);
      forall marks | Wrote(s.log, t, marks) ensures Wrote(n.log, t, marks) { WroteNext(s.log, t, marks, mark); }
    }
  }

  lemma OthersSpare(s: Runtime, e: Event, t: Thread)
    requires e.thread != t
    ensures Spared(t, s, Step(s, e))
  {
    var n := Step(s, e);
    if n != s {
      match e
      case Proceed(u, ok) =>
        if OfRequest(s.threads[u]) {
          InfersMarks(s, u, s.threads[u], ok);
          MovedSpares(s, n, u, t);
        } else {
          ClosesMarks(s, u, s.threads[u], ok);
          MovedSpares(s, n, u, t);
        }
      case _ => MovedSpares(s, n, e.thread, t);
    }
  }

  lemma InfersMarks(s: Runtime, u: Thread, pc: Pc, ok: bool)
    requires Infers(s, u, pc, ok) != s
    ensures var n := Infers(s, u, pc, ok);
            && u in n.threads && n.threads == s.threads[u := n.threads[u]] && n.loaded == s.loaded && n.closed == s.closed
            && n.serverClosed == s.serverClosed
            && (n.log == s.log || exists mark: Mark :: n.log == s.log + [mark] && (mark.Close? || mark.thread == u))
  {
    assert pc.Ready? ==> Infers(s, u, pc, ok).log == s.log + [Start(u, pc.work)];
    assert pc.Working? ==> Infers(s, u, pc, ok).log == s.log + [End(u, pc.work)];
  }

  lemma ClosesMarks(s: Runtime, u: Thread, pc: Pc, ok: bool)
    requires Closes(s, u, pc, ok) != s
    ensures var n := Closes(s, u, pc, ok);
            && u in n.threads && n.threads == s.threads[u := n.threads[u]] && n.loaded == s.loaded && (s.closed ==> n.closed)
            && (s.serverClosed ==> n.serverClosed)
            && (n.log == s.log || exists mark: Mark :: n.log == s.log + [mark] && (mark.Close? || mark.thread == u))
  {
    var n := Closes(s, u, pc, ok);
    var engine := if pc.CloseTc4? then Tc4 else if pc.CloseEbsd? then Ebsd else Main;
    assert n.log == s.log || n.log == s.log + [Close(engine)];
  }

  /** Nobody but the holder of the execution lock works or closes anything. */
  lemma LockKeepsLog(s: Runtime, e: Event, t: Thread)
    requires LocksFit(s) && s.executionLock == Some(t) && e.thread != t
    ensures var n := Step(s, e); n.log == s.log && n.engineClosed == s.engineClosed && n.executionLock == s.executionLock
  {
    if e.Proceed? && e.thread in s.threads {
      assert Locked(s, e.thread);
      assert !HoldsExecution(s.threads[e.thread]);
    }
  }

  lemma {:induction false} NewcomerIsIdle(loaded: Loaded, events: seq<Event>, t: Thread)
    ensures t !in After(Created(loaded), events).threads ==> Wrote(After(Created(loaded), events).log, t, [])
  {
    if events == [] {
      WroteNext([], t, [], Close(Main));
      assert [] + [Close(Main)] == [Close(Main)];
    } else {
      NewcomerIsIdle(loaded, events[..|events| - 1], t);
      IdleOrKnown(After(Created(loaded), events[..|events| - 1]), events[|events| - 1], t);
    }
  }

  lemma IdleOrKnown(s: Runtime, e: Event, t: Thread)
    requires t !in s.threads ==> Wrote(s.log, t, [])
    ensures t !in Step(s, e).threads ==> Wrote(Step(s, e).log, t, [])
  {
    if e.thread != t {
      OthersSpare(s, e, t);
    } else if t in s.threads && e.Proceed? {
      if OfRequest(s.threads[t]) { InfersStays(s, t, s.threads[t], e.ok); } else { ClosesStays(s, t, s.threads[t], e.ok); }
    }
  }

  lemma InfersStays(s: Runtime, t: Thread, pc: Pc, ok: bool)
    requires t in s.threads
    ensures t in Infers(s, t, pc, ok).threads
  {
  }

  lemma ClosesStays(s: Runtime, t: Thread, pc: Pc, ok: bool)
    requires t in s.threads
    ensures t in Closes(s, t, pc, ok).threads
  {
  }

  /** What the others do before the step number `k` of a thread. */
  function Gap(others: seq<seq<Event>>, k: nat): seq<Event> {
    if k < |others| then others[k] else []
  }

  datatype Reply = Ran | RefusedClosed | RefusedNotReady | RefusedBusy
  datatype Shut = ClosedNow | ClosedBefore | StillWaiting

  /** `s` is where the machine gets by `events`; quantified, so that proofs look into the run only on request. */
  ghost predicate Reaches(loaded: Loaded, events: seq<Event>, s: Runtime) {
    forall run | run == events :: After(Created(loaded), run) == s
  }

  lemma Onward(loaded: Loaded, events: seq<Event>, s: Runtime, e: Event)
    requires Reaches(loaded, events, s)
    ensures Reaches(loaded, events + [e], Step(s, e))
  {
    assert (events + [e])[..|events + [e]| - 1] == events;
    assert After(Created(loaded), events) == s;
  }

  lemma ReachedIsSound(loaded: Loaded, events: seq<Event>, s: Runtime)
    requires Reaches(loaded, events, s)
    ensures Inv(s) && s.loaded == loaded && forall t | t !in s.threads :: Wrote(s.log, t, [])
  {
    assert After(Created(loaded), events) == s;
    Reachable(loaded, events);
    Kept(loaded, events);
    forall t | t !in s.threads ensures Wrote(s.log, t, []) { NewcomerIsIdle(loaded, events, t); }
  }

  class RuntimeServer {
    const loaded: Loaded
    var threads: map<Thread, Pc>
    var executionLock: Option<Thread>
    var closeLock: Option<Thread>
    var closed: bool
    var engineClosed: bool
    var serverClosed: bool
    var log: seq<Mark>
    ghost var events: seq<Event>

    function View(): Runtime
      reads this
    {
      Runtime(loaded, threads, executionLock, closeLock, closed, engineClosed, serverClosed, log)
    }

    /** The server is where the machine is after the same events. */
    ghost predicate Valid()
      reads this
    {
      Reaches(loaded, events, View())
    }

    ghost predicate Stands(t: Thread, pc: Pc, marks: seq<Mark>)
      reads this
    {
      Valid() && t in threads && threads[t] == pc && Wrote(log, t, marks)
    }

    /** `create_runtime_server`, as far as the models came up. */
    constructor (loaded: Loaded)
      ensures Valid() && events == [] && this.loaded == loaded && !closed && threads == map[]
    {
      this.loaded, threads, executionLock, closeLock := loaded, map[], None, None;
      closed, engineClosed, serverClosed := false, Main !in loaded.engines, false;
      log := if Main in loaded.engines then [] else [Close(Main)];
      events := [];
    }

    /** What a thread just did is the machine's step `e`. */
    method Goes(t: Thread, pc: Pc, ghost e: Event, ghost was: Runtime)
      requires Reaches(loaded, events, was) && Go(View(), t, pc) == Step(was, e)
      modifies this`threads, this`events
      ensures Valid() && View() == Go(old(View()), t, pc) && events == old(events) + [e]
    {
      threads := threads[t := pc];
      Onward(loaded, events, was, e);
      events := events + [e];
    }

    /** Others get ahead, in whatever order. */
    method Others(t: Thread, turns: seq<Event>)
      requires Valid()
      modifies this
      ensures Valid() && old(events) <= events && Spared(t, old(View()), View())
      ensures turns == [] ==> View() == old(View())
      ensures old(executionLock) == Some(t) ==>
                log == old(log) && engineClosed == old(engineClosed) && executionLock == Some(t)
    {
      var k := 0;
      while k < |turns|
        invariant k <= |turns| && Valid() && old(events) <= events && Spared(t, old(View()), View())
        invariant turns == [] ==> View() == old(View())
        invariant old(executionLock) == Some(t) ==>
                    log == old(log) && engineClosed == old(engineClosed) && executionLock == Some(t)
      {
        if turns[k].thread != t { Other(t, turns[k]); }
        k := k + 1;
      }
    }

    method Other(t: Thread, e: Event)
      requires Valid() && e.thread != t
      modifies this
      ensures Valid() && events == old(events) + [e] && Spared(t, old(View()), View())
      ensures old(executionLock) == Some(t) ==>
                log == old(log) && engineClosed == old(engineClosed) && executionLock == Some(t)
    {
      ReachedIsSound(loaded, events, View());
      OthersSpare(View(), e, t);
      if executionLock == Some(t) { LockKeepsLog(View(), e, t); }
      var n := Step(View(), e);
      StepAppends(View(), e);
      threads, executionLock, closeLock, closed := n.threads, n.executionLock, n.closeLock, n.closed;
      engineClosed, serverClosed, log := n.engineClosed, n.serverClosed, n.log;
      Onward(loaded, events, old(View()), e);
      events := events + [e];
    }

    /** The checks before the lock; None means go on. */
    method Check(t: Thread, engine: Engine, ok: bool, others: seq<Event>) returns (refused: Option<Reply>)
      requires Stands(t, FirstCheck(engine), [])
      modifies this
      ensures old(events) <= events && (old(closed) ==> closed && refused == Some(RefusedClosed))
      ensures refused.None? ==> Stands(t, TryLock(Infer(engine)), []) && ok && engine in loaded.engines
      ensures refused.Some? ==> Stands(t, Done, [])
      ensures refused == Some(RefusedClosed) ==> closed
      ensures refused == Some(RefusedNotReady) ==> !ok || engine !in loaded.engines
      ensures refused.Some? ==> refused.value == RefusedClosed || refused.value == RefusedNotReady
      ensures others == [] ==> t in threads && View() == Go(old(View()), t, threads[t])
    {
      ghost var was := View();
      if closed {
        Goes(t, Done, Proceed(t, ok), was);
        return Some(RefusedClosed);
      }
      if engine !in loaded.engines || !ok {
        Goes(t, Done, Proceed(t, ok), was);
        return Some(RefusedNotReady);
      }
      if engine != Main {
        Goes(t, TryLock(Infer(engine)), Proceed(t, ok), was);
        return None;
      }
      Goes(t, SecondCheck, Proceed(t, ok), was);
      refused := CheckAgain(t, ok, others);
    }

    /** The main tool's handler looks at `closed` again after it read the request. */
    method CheckAgain(t: Thread, ok: bool, others: seq<Event>) returns (refused: Option<Reply>)
      requires Stands(t, SecondCheck, [])
      modifies this
      ensures old(events) <= events && (old(closed) ==> closed)
      ensures if refused.None? then Stands(t, TryLock(Infer(Main)), [])
              else refused.value == RefusedClosed && closed && Stands(t, Done, [])
      ensures others == [] ==> t in threads && View() == Go(old(View()), t, threads[t]) && (refused.Some? ==> old(closed))
    {
      Others(t, others);
      ghost var was := View();
      if closed {
        Goes(t, Done, Proceed(t, ok), was);
        return Some(RefusedClosed);
      }
      Goes(t, TryLock(Infer(Main)), Proceed(t, ok), was);
      return None;
    }

    /** `execution_lock.acquire(blocking=False)`. */
    method TryAcquire(t: Thread, work: Work) returns (got: bool)
      requires Stands(t, TryLock(work), [])
      modifies this
      ensures old(events) <= events && closed == old(closed) && log == old(log)
      ensures got <==> old(executionLock).None?
      ensures Stands(t, if !got then Done else if work.Infer? then LastCheck(work.engine) else Ready(work), [])
    {
      ghost var was := View();
      got := executionLock.None?;
      if got {
        executionLock := Some(t);
        Goes(t, if work.Infer? then LastCheck(work.engine) else Ready(work), Proceed(t, true), was);
      } else {
        Goes(t, Done, Proceed(t, true), was);
      }
    }

    /** If the lock is not got, another thread holds it at the moment `at`. */
    method Contend(t: Thread, work: Work, others: seq<Event>) returns (got: bool, ghost at: nat)
      requires Stands(t, TryLock(work), [])
      modifies this
      ensures old(events) <= events && (old(closed) ==> closed)
      ensures Stands(t, if !got then Done else if work.Infer? then LastCheck(work.engine) else Ready(work), [])
      ensures |old(events)| <= at <= |events| && (!got ==> HeldByAnother(at, t))
      ensures others == [] ==> log == old(log) && closed == old(closed) && (got <==> old(executionLock).None?)
    {
      Others(t, others);
      ReachedIsSound(loaded, events, View());
      assert Locked(View(), t);
      ghost var before := events;
      at := |events|;
      assert before[..at] == before;
      got := TryAcquire(t, work);
      assert events[..at] == before;
    }

    ghost predicate HeldByAnother(at: nat, t: Thread)
      requires at <= |events|
      reads this
    {
      exists s: Runtime :: Reaches(loaded, events[..at], s) && s.executionLock.Some? && s.executionLock.value != t
    }

    method Begin(t: Thread, work: Work, others: seq<Event>)
      requires Stands(t, Ready(work), [])
      modifies this
      ensures old(events) <= events && (old(closed) ==> closed) && Stands(t, Working(work), [Start(t, work)])
      ensures others == [] ==> closed == old(closed) && log == old(log) + [Start(t, work)]
    {
      Others(t, others);
      ghost var was := View();
      WroteNext(log, t, [], Start(t, work));
      log := log + [Start(t, work)];
      Goes(t, Working(work), Proceed(t, true), was);
    }

    method Finish(t: Thread, work: Work, others: seq<Event>)
      requires Stands(t, Working(work), [Start(t, work)])
      modifies this
      ensures old(events) <= events && (old(closed) ==> closed) && Stands(t, Leave, [Start(t, work), End(t, work)])
      ensures others == [] ==> closed == old(closed) && log == old(log) + [End(t, work)]
    {
      Others(t, others);
      ghost var was := View();
      WroteNext(log, t, [Start(t, work)], End(t, work));
      log := log + [End(t, work)];
      Goes(t, Leave, Proceed(t, true), was);
    }

    /** `execution_lock.release()`. */
    method Release(t: Thread, others: seq<Event>, ghost marks: seq<Mark>)
      requires Stands(t, Leave, marks)
      modifies this
      ensures old(events) <= events && (old(closed) ==> closed) && Stands(t, Done, marks)
      ensures others == [] ==> closed == old(closed) && log == old(log)
    {
      Others(t, others);
      ghost var was := View();
      executionLock := None;
      Goes(t, Done, Proceed(t, true), was);
    }

    method Perform(t: Thread, work: Work, others: seq<seq<Event>>)
      requires Stands(t, Ready(work), [])
      modifies this
      ensures old(events) <= events && (old(closed) ==> closed)
      ensures Stands(t, Done, [Start(t, work), End(t, work)])
      ensures others == [] ==> closed == old(closed) && log == old(log) + [Start(t, work)] + [End(t, work)]
    {
      Begin(t, work, Gap(others, 4));
      Finish(t, work, Gap(others, 5));
      Release(t, Gap(others, 6), [Start(t, work), End(t, work)]);
    }

    /** With the lock held: one more look at `closed`, then the inference, which may raise. */
    method Inference(t: Thread, engine: Engine, others: seq<seq<Event>>) returns (ran: bool)
      requires Stands(t, LastCheck(engine), [])
      modifies this
      ensures old(events) <= events && (ran ==> !old(closed)) && (!ran || old(closed) ==> closed)
      ensures Stands(t, Done, if ran then [Start(t, Infer(engine)), End(t, Infer(engine))] else [])
      ensures others == [] ==> ran != old(closed) && closed == old(closed)
      ensures others == [] ==> log == if ran then old(log) + [Start(t, Infer(engine))] + [End(t, Infer(engine))] else old(log)
    {
      ran := LookAgain(t, engine, Gap(others, 3));
      if ran {
        Perform(t, Infer(engine), others);
      } else {
        Release(t, Gap(others, 4), []);
      }
    }

    method LookAgain(t: Thread, engine: Engine, others: seq<Event>) returns (open: bool)
      requires Stands(t, LastCheck(engine), [])
      modifies this
      ensures old(events) <= events && (open ==> !old(closed)) && (!open || old(closed) ==> closed)
      ensures Stands(t, if open then Ready(Infer(engine)) else Leave, [])
      ensures others == [] ==> open != old(closed) && closed == old(closed) && log == old(log)
    {
      Others(t, others);
      ghost var was := View();
      open := !closed;
      if open {
        Goes(t, Ready(Infer(engine)), Proceed(t, true), was);
      } else {
        Goes(t, Leave, Proceed(t, true), was);
      }
    }

    method Arrive(t: Thread, work: Work)
      requires Valid() && t !in threads && (work.SweepReceipts? ==> loaded.receipts)
      modifies this
      ensures Stands(t, if work.Infer? then FirstCheck(work.engine) else TryLock(work), [])
      ensures events == old(events) + [Request(t, work)] && View() == Go(old(View()), t, threads[t])
    {
      ghost var was := View();
      ReachedIsSound(loaded, events, View());
      Goes(t, if work.Infer? then FirstCheck(work.engine) else TryLock(work), Request(t, work), was);
    }

    /** A request for one of the three tools, with other threads running before each of its steps. */
    method Execute(t: Thread, engine: Engine, ok: bool, others: seq<seq<Event>>) returns (reply: Reply, ghost at: nat)
      requires Valid() && t !in threads
      modifies this
      ensures old(events) <= events && (old(closed) ==> reply == RefusedClosed)
      ensures Stands(t, Done, if reply == Ran then [Start(t, Infer(engine)), End(t, Infer(engine))] else [])
      ensures match reply
              case Ran => ok && engine in loaded.engines
              case RefusedClosed => closed
              case RefusedNotReady => !ok || engine !in loaded.engines
              case RefusedBusy => |old(events)| < at <= |events| && HeldByAnother(at, t)
      ensures others == [] ==>
                (reply == Ran <==> !old(closed) && ok && engine in loaded.engines && old(executionLock).None?)
      ensures others == [] ==>
                log == if reply == Ran then old(log) + [Start(t, Infer(engine))] + [End(t, Infer(engine))] else old(log)
    {
      at := 0;
      Arrive(t, Infer(engine));
      Others(t, Gap(others, 0));
      var refused := Check(t, engine, ok, Gap(others, 1));
      if refused.Some? {
        reply := refused.value;
      } else {
        reply, at := Compete(t, engine, others);
      }
    }

    /** Past the checks: for the lock, and with it. */
    method Compete(t: Thread, engine: Engine, others: seq<seq<Event>>) returns (reply: Reply, ghost at: nat)
      requires Stands(t, TryLock(Infer(engine)), [])
      modifies this
      ensures old(events) <= events && |old(events)| <= at <= |events|
      ensures Stands(t, Done, if reply == Ran then [Start(t, Infer(engine)), End(t, Infer(engine))] else [])
      ensures match reply
              case Ran => true
              case RefusedClosed => closed
              case RefusedNotReady => false
              case RefusedBusy => HeldByAnother(at, t)
      ensures others == [] ==> (reply == RefusedBusy <==> old(executionLock).Some?) && (reply == RefusedClosed ==> old(closed))
      ensures others == [] && old(executionLock).None? ==> (reply == Ran <==> !old(closed))
      ensures others == [] ==>
                log == if reply == Ran then old(log) + [Start(t, Infer(engine))] + [End(t, Infer(engine))] else old(log)
    {
      var got;
      got, at := Contend(t, Infer(engine), Gap(others, 2));
      if !got {
        return RefusedBusy, at;
      }
      var ran := Inference(t, engine, others);
      reply := if ran then Ran else RefusedClosed;
    }

    /** A receipt clean-up, which does not look at `closed`. */
    method Sweep(t: Thread, others: seq<seq<Event>>) returns (reply: Reply, ghost at: nat)
      requires Valid() && t !in threads
      modifies this
      ensures Valid() && old(events) <= events && reply != RefusedClosed
      ensures if loaded.receipts
              then reply != RefusedNotReady
                   && Stands(t, Done, if reply == Ran then [Start(t, SweepReceipts), End(t, SweepReceipts)] else [])
              else reply == RefusedNotReady && events == old(events)
      ensures reply == RefusedBusy ==> |old(events)| < at <= |events| && HeldByAnother(at, t)
      ensures others == [] && loaded.receipts ==> (reply == Ran <==> old(executionLock).None?)
    {
      at := 0;
      if !loaded.receipts {
        return RefusedNotReady, 0;
      }
      Arrive(t, SweepReceipts);
      var got;
      got, at := Contend(t, SweepReceipts, Gap(others, 2));
      if !got {
        return RefusedBusy, at;
      }
      Perform(t, SweepReceipts, others);
      return Ran, at;
    }

    // ---- close_runtime_server ----

    /** The closer waits for the lock; others may have it for longer than it is watched. */
    method AwaitClose(t: Thread, others: seq<seq<Event>>) returns (got: bool)
      requires Stands(t, WantClose, [])
      modifies this
      ensures old(events) <= events && (old(closed) ==> closed)
      ensures if got then Stands(t, InClose, []) else Stands(t, WantClose, []) && closeLock.Some?
      ensures others == [] ==> View() == Go(old(View()), t, threads[t]).(closeLock := closeLock) && (got <==> old(closeLock).None?)
    {
      var k := 0;
      while k < |others| && closeLock.Some?
        invariant k <= |others| && Stands(t, WantClose, []) && old(events) <= events && (old(closed) ==> closed)
        invariant others == [] ==> View() == old(View())
      {
        Others(t, others[k]);
        k := k + 1;
      }
      got := closeLock.None?;
      if got {
        ghost var was := View();
        closeLock := Some(t);
        Goes(t, InClose, Proceed(t, true), was);
      }
    }

    method AwaitExecution(t: Thread, others: seq<seq<Event>>) returns (got: bool)
      requires Stands(t, WantExecution, []) && closed
      modifies this
      ensures old(events) <= events && closed
      ensures if got then Stands(t, CloseTc4, []) && executionLock == Some(t) else Stands(t, WantExecution, []) && executionLock.Some?
      ensures others == [] ==>
                View() == Go(old(View()), t, threads[t]).(executionLock := executionLock) && (got <==> old(executionLock).None?)
    {
      var k := 0;
      while k < |others| && executionLock.Some?
        invariant k <= |others| && Stands(t, WantExecution, []) && old(events) <= events && closed
        invariant others == [] ==> View() == old(View())
      {
        Others(t, others[k]);
        k := k + 1;
      }
      got := executionLock.None?;
      if got {
        ghost var was := View();
        executionLock := Some(t);
        Goes(t, CloseTc4, Proceed(t, true), was);
      }
    }

    /** One of the two engines that may be missing; `ok` is false when its `close` raises. */
    method CloseOptional(t: Thread, engine: Engine, ok: bool, next: Pc) returns (on: bool)
      requires (engine == Tc4 && next == CloseEbsd) || (engine == Ebsd && next == CloseMain)
      requires Stands(t, if engine == Tc4 then CloseTc4 else CloseEbsd, []) && executionLock == Some(t)
      modifies this
      ensures old(events) <= events && closed == old(closed) && engineClosed == old(engineClosed) && executionLock == Some(t)
      ensures on == (engine !in loaded.engines || ok) && Stands(t, if on then next else LeaveExecution, [])
      ensures log == old(log) + if engine in loaded.engines then [Close(engine)] else []
    {
      ghost var was := View();
      on := true;
      if engine in loaded.engines {
        WroteNext(log, t, [], Close(engine));
        log := log + [Close(engine)];
        on := ok;
      }
      Goes(t, if on then next else LeaveExecution, Proceed(t, ok), was);
    }

    /** The main engine, unless it is marked as closed; it is marked even if its `close` raises. */
    method CloseMainEngine(t: Thread, others: seq<Event>)
      requires Stands(t, CloseMain, []) && executionLock == Some(t)
      modifies this
      ensures old(events) <= events && (old(closed) ==> closed) && engineClosed && executionLock == Some(t)
      ensures Stands(t, LeaveExecution, []) && log == old(log) + if old(engineClosed) then [] else [Close(Main)]
    {
      ghost var was := View();
      if engineClosed {
        Goes(t, LeaveExecution, Proceed(t, true), was);
        return;
      }
      WroteNext(log, t, [], Close(Main));
      log := log + [Close(Main)];
      Goes(t, MarkMain, Proceed(t, true), was);
      MarkMainClosed(t, others);
    }

    method MarkMainClosed(t: Thread, others: seq<Event>)
      requires Stands(t, MarkMain, []) && executionLock == Some(t)
      modifies this
      ensures old(events) <= events && (old(closed) ==> closed) && engineClosed && executionLock == Some(t)
      ensures Stands(t, LeaveExecution, []) && log == old(log)
    {
      Others(t, others);
      ghost var was := View();
      engineClosed := true;
      Goes(t, LeaveExecution, Proceed(t, true), was);
    }

    method CloseEngines(t: Thread, tc4: bool, ebsd: bool, others: seq<Event>)
      requires Stands(t, CloseTc4, []) && executionLock == Some(t) && closed
      modifies this
      ensures old(events) <= events && closed && Stands(t, LeaveExecution, [])
      ensures log == old(log) + CloseMarks(loaded, old(engineClosed), tc4, ebsd)
    {
      var on := CloseOptional(t, Tc4, tc4, CloseEbsd);
      if on { CloseLater(t, ebsd, others); }
    }

    method CloseLater(t: Thread, ebsd: bool, others: seq<Event>)
      requires Stands(t, CloseEbsd, []) && executionLock == Some(t) && closed
      modifies this
      ensures old(events) <= events && closed && Stands(t, LeaveExecution, [])
      ensures log == old(log) + LaterMarks(loaded, old(engineClosed), ebsd)
    {
      Others(t, others);
      var on := CloseOptional(t, Ebsd, ebsd, CloseMain);
      if on {
        Others(t, others);
        CloseMainEngine(t, others);
      }
    }

    /** The locks are left and the listening socket is closed, whatever raised. */
    method LeaveClosed(t: Thread, others: seq<seq<Event>>)
      requires Stands(t, LeaveExecution, []) && closed
      modifies this
      ensures old(events) <= events && closed && serverClosed && Stands(t, Done, []) && old(log) <= log
      ensures others == [] ==> log == old(log)
    {
      LeaveLock(t, Gap(others, 0));
      CloseSocket(t, Gap(others, 1));
      Unlock(t, Gap(others, 2));
    }

    method LeaveLock(t: Thread, others: seq<Event>)
      requires Stands(t, LeaveExecution, []) && closed
      modifies this
      ensures old(events) <= events && closed && Stands(t, CloseServer, []) && old(log) <= log
      ensures others == [] ==> log == old(log)
    {
      Others(t, others);
      ghost var was := View();
      executionLock := None;
      Goes(t, CloseServer, Proceed(t, true), was);
    }

    method CloseSocket(t: Thread, others: seq<Event>)
      requires Stands(t, CloseServer, []) && closed
      modifies this
      ensures old(events) <= events && closed && serverClosed && Stands(t, LeaveClose, []) && old(log) <= log
      ensures others == [] ==> log == old(log)
    {
      Others(t, others);
      ghost var was := View();
      serverClosed := true;
      Goes(t, LeaveClose, Proceed(t, true), was);
    }

    method Unlock(t: Thread, others: seq<Event>)
      requires Stands(t, LeaveClose, [])
      modifies this
      ensures old(events) <= events && Stands(t, Done, []) && old(log) <= log
      ensures (old(closed) ==> closed) && (old(serverClosed) ==> serverClosed) && (others == [] ==> log == old(log))
    {
      Others(t, others);
      ghost var was := View();
      closeLock := None;
      Goes(t, Done, Proceed(t, true), was);
    }

    /** With the close lock held: `closed` is looked at and set. */
    method CloseOnce(t: Thread, tc4: bool, ebsd: bool, others: seq<seq<Event>>) returns (shut: Shut, ghost at: nat)
      requires Stands(t, InClose, [])
      modifies this
      ensures old(events) <= events && closed && (old(closed) ==> shut == ClosedBefore) && |old(events)| <= at <= |events|
      ensures if shut == StillWaiting then Stands(t, WantExecution, []) && executionLock.Some? else Stands(t, Done, [])
      ensures shut == ClosedNow ==> serverClosed && ClosesFrom(at, t, tc4, ebsd)
      ensures others == [] ==> (shut == ClosedBefore <==> old(closed)) && (shut == StillWaiting ==> old(executionLock).Some?)
      ensures others == [] ==>
                log == if shut == ClosedNow then old(log) + CloseMarks(loaded, old(engineClosed), tc4, ebsd) else old(log)
    {
      var before := MarkClosed(t, Gap(others, 0));
      if before {
        at := |events|;
        Unlock(t, Gap(others, 1));
        shut := ClosedBefore;
      } else {
        shut, at := CloseAll(t, tc4, ebsd, others);
      }
    }

    method MarkClosed(t: Thread, others: seq<Event>) returns (before: bool)
      requires Stands(t, InClose, [])
      modifies this
      ensures old(events) <= events && closed && (old(closed) ==> before)
      ensures Stands(t, if before then LeaveClose else WantExecution, [])
      ensures others == [] ==> before == old(closed) && View() == Go(old(View()), t, threads[t]).(closed := true)
    {
      Others(t, others);
      ghost var was := View();
      before := closed;
      if closed {
        Goes(t, LeaveClose, Proceed(t, true), was);
      } else {
        closed := true;
        Goes(t, WantExecution, Proceed(t, true), was);
      }
    }

    method CloseAll(t: Thread, tc4: bool, ebsd: bool, others: seq<seq<Event>>) returns (shut: Shut, ghost at: nat)
      requires Stands(t, WantExecution, []) && closed
      modifies this
      ensures old(events) <= events && closed && shut != ClosedBefore && |old(events)| <= at <= |events|
      ensures if shut == StillWaiting then Stands(t, WantExecution, []) && executionLock.Some? else Stands(t, Done, [])
      ensures shut == ClosedNow ==> serverClosed && ClosesFrom(at, t, tc4, ebsd)
      ensures others == [] ==> (shut == StillWaiting <==> old(executionLock).Some?)
      ensures others == [] ==>
                log == if shut == ClosedNow then old(log) + CloseMarks(loaded, old(engineClosed), tc4, ebsd) else old(log)
    {
      var got := AwaitExecution(t, others);
      at := |events|;
      if !got {
        return StillWaiting, at;
      }
      CloseAndLeave(t, tc4, ebsd, others);
      return ClosedNow, at;
    }

    method CloseAndLeave(t: Thread, tc4: bool, ebsd: bool, others: seq<seq<Event>>)
      requires Stands(t, CloseTc4, []) && executionLock == Some(t) && closed
      modifies this
      ensures old(events) <= events && closed && serverClosed && Stands(t, Done, [])
      ensures ClosesFrom(|old(events)|, t, tc4, ebsd)
      ensures others == [] ==> log == old(log) + CloseMarks(loaded, old(engineClosed), tc4, ebsd)
    {
      ghost var before := events;
      CloseEngines(t, tc4, ebsd, Gap(others, 0));
      LeaveClosed(t, others);
      assert events[..|before|] == before;
      assert Reaches(loaded, before, old(View()));
    }

    /** At the moment `at` the thread has the execution lock, and the next that happens in the log is its closes. */
    ghost predicate ClosesFrom(at: nat, t: Thread, tc4: bool, ebsd: bool)
      requires at <= |events|
      reads this
    {
      exists s: Runtime ::
        && Reaches(loaded, events[..at], s) && s.executionLock == Some(t)
        && s.log + CloseMarks(loaded, s.engineClosed, tc4, ebsd) <= log
    }

    method TakeClose(t: Thread, others: seq<seq<Event>>) returns (got: bool)
      requires Valid() && t !in threads
      modifies this
      ensures old(events) <= events && (old(closed) ==> closed)
      ensures if got then Stands(t, InClose, []) else Stands(t, WantClose, []) && closeLock.Some?
      ensures others == [] ==> log == old(log) && closed == old(closed) && engineClosed == old(engineClosed)
      ensures others == [] ==> executionLock == old(executionLock) && (got <==> old(closeLock).None?)
    {
      ghost var was := View();
      ReachedIsSound(loaded, events, View());
      Goes(t, WantClose, Closer(t), was);
      got := AwaitClose(t, others);
    }

    /** `close_runtime_server`, with other threads, further closers included, running in between. */
    method Shutdown(t: Thread, tc4: bool, ebsd: bool, others: seq<seq<Event>>) returns (shut: Shut, ghost at: nat)
      requires Valid() && t !in threads
      modifies this
      ensures old(events) <= events && Valid() && |old(events)| <= at <= |events|
      ensures old(closed) ==> shut != ClosedNow
      ensures match shut
              case ClosedNow => closed && serverClosed && Stands(t, Done, []) && ClosesFrom(at, t, tc4, ebsd)
              case ClosedBefore => closed && Stands(t, Done, [])
              case StillWaiting =>
                (Stands(t, WantClose, []) && closeLock.Some?) || (Stands(t, WantExecution, []) && closed && executionLock.Some?)
      ensures others == [] && old(closeLock).None? && old(executionLock).None? ==>
                && shut == (if old(closed) then ClosedBefore else ClosedNow)
                && log == old(log) + if old(closed) then [] else CloseMarks(loaded, old(engineClosed), tc4, ebsd)
    {
      at := |events|;
      var got := TakeClose(t, others);
      if !got {
        return StillWaiting, at;
      }
      shut, at := CloseOnce(t, tc4, ebsd, others);
    }
  }
}
