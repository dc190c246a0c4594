/**
 Uploaded images, conversation deletion and the durable clean-up of stored objects. Uploads, deletes,
 drains, reconciliations and crashes interleave; each step is one transaction or one storage call.
 */
module UploadCleanups {
  import opened Options

  type Conversation = nat
  type Digest = nat

  /** The asset id is a hash of conversation and idempotency key; the object key follows from it. */
  datatype Asset = Asset(conversation: Conversation, key: nat)

  datatype AssetStatus = WAITING | AVAILABLE
  datatype Row = Row(digest: Digest, status: AssetStatus)
  datatype CleanupStatus = PENDING | COMPLETED | SAFETY_BLOCKED
  datatype Cleanup = Cleanup(digest: Digest, status: CleanupStatus)

  // ---- the in-process count of running uploads ----

  function Counted(active: map<Conversation, nat>, c: Conversation): nat {
    if c in active then active[c] else 0
  }

  function Entered(active: map<Conversation, nat>, c: Conversation): map<Conversation, nat> {
    active[c := Counted(active, c) + 1]
  }

  function Left(active: map<Conversation, nat>, c: Conversation): map<Conversation, nat> {
    if Counted(active, c) <= 1 then active - {c} else active[c := active[c] - 1]
  }

  /** `_upload_activity` and `upload_in_progress`. */
  class UploadGuard {
    var active: map<Conversation, nat>
    ghost var running: multiset<Conversation>

    ghost predicate Valid()
      reads this
    {
      (forall c: Conversation :: Counted(active, c) == running[c]) && forall c | c in active :: active[c] > 0
    }

    constructor ()
      ensures Valid() && running == multiset{} && active == map[]
    {
      active, running := map[], multiset{};
    }

    method Enter(c: Conversation)
      requires Valid()
      modifies this
      ensures Valid() && running == old(running) + multiset{c} && active == Entered(old(active), c)
    {
      active := active[c := (if c in active then active[c] else 0) + 1];
      running := running + multiset{c};
    }

    /** The entry is deleted with the last upload. */
    method Exit(c: Conversation)
      requires Valid() && c in running
      modifies this
      ensures Valid() && running == old(running) - multiset{c} && active == Left(old(active), c)
      ensures c in active <==> c in running
    {
      assert Counted(active, c) == running[c];
      var remaining := active[c] - 1;
      if remaining != 0 {
        active := active[c := remaining];
      } else {
        active := active - {c};
      }
      running := running - multiset{c};
    }

    method InProgress(c: Conversation) returns (busy: bool)
      requires Valid()
      ensures busy <==> c in running
    {
      busy := c in active && active[c] > 0;
      assert Counted(active, c) == running[c];
    }
  }

  // ---- the system ----

  datatype UploadPhase = Entering | Writing | Written | Leaving
  datatype Upload = Upload(asset: Asset, digest: Digest, phase: UploadPhase)

  datatype DrainPhase = Listed | Matched | Verdict(status: CleanupStatus)
  datatype Drainer = Drainer(asset: Asset, digest: Digest, phase: DrainPhase)

  /** `live` maps every existing conversation to its deletion fence. `locked` are the conversations whose row
      a delete holds. `late` are puts whose call is over without the storage having applied them. */
  datatype System = System(
    created: set<Conversation>,
    live: map<Conversation, bool>,
    assets: map<Asset, Row>,
    cleanups: map<Asset, Cleanup>,
    storage: map<Asset, Digest>,
    late: set<(Asset, Digest)>,
    active: map<Conversation, nat>,
    uploads: map<nat, Upload>,
    locked: set<Conversation>,
    drainers: map<nat, Drainer>,
    readers: map<nat, Asset>)

  const NOTHING := System({}, map[], map[], map[], map[], {}, map[], map[], {}, map[], map[])

  /** A commit that fails is undone; one that is lost took effect although its caller sees an error. */
  datatype Commit = FINE | FAILED | LOST

  /** A put is done, refused, done with an error, or left behind to be done later. */
  datatype PutResult = STORED | REFUSED | UNHEARD | DELAYED
  datatype HeadResult = SEEN | UNREADABLE | NO_ANSWER
  datatype RemoveResult = REMOVED | REMOVED_UNHEARD | KEPT

  datatype Event =
    | Create(conversation: Conversation)
    | Fence(conversation: Conversation, on: bool)
    | Enter(upload: nat, asset: Asset, digest: Digest)
    | Begin(upload: nat, commit: Commit)
    | Put(upload: nat, put: PutResult)
    | Confirm(upload: nat, commit: Commit)
    | Exit(upload: nat)
    | Lock(conversation: Conversation, closing: bool)
    | Delete(conversation: Conversation, commit: Commit)
    | List(drainer: nat, asset: Asset)
    | Head(drainer: nat, head: HeadResult)
    | Remove(drainer: nat, remove: RemoveResult)
    | Persist(drainer: nat, commit: Commit)
    | Look(reader: nat, asset: Asset)
    | Adopt(reader: nat, commit: Commit)
    | Crash
    | Land(asset: Asset, digest: Digest)

  function Turn(s: System, u: nat, phase: UploadPhase): System
    requires u in s.uploads
  {
    s.(uploads := s.uploads[u := s.uploads[u].(phase := phase)])
  }

  predicate Open(s: System, c: Conversation) {
    c in s.live && !s.live[c]
  }

  /** First transaction: an existing row must be this upload's, otherwise a new row is added. */
  function DoBegin(s: System, u: nat, commit: Commit): System
    requires u in s.uploads
  {
    var up := s.uploads[u];
    if up.phase != Entering || up.asset.conversation in s.locked then s
    else if !Open(s, up.asset.conversation) then Turn(s, u, Leaving)
    else if up.asset in s.assets then
      if s.assets[up.asset] == Row(up.digest, WAITING) then Turn(s, u, Writing) else Turn(s, u, Leaving)
    else
      var added := s.(assets := s.assets[up.asset := Row(up.digest, WAITING)]);
      match commit
      case FINE => Turn(added, u, Writing)
      case FAILED => Turn(s, u, Leaving)
      case LOST => Turn(added, u, Leaving)
  }

  function DoPut(s: System, u: nat, put: PutResult): System
    requires u in s.uploads
  {
    var up := s.uploads[u];
    if up.phase != Writing then s
    else match put
      case STORED => Turn(s.(storage := s.storage[up.asset := up.digest]), u, Written)
      case REFUSED => Turn(s, u, Leaving)
      case UNHEARD => Turn(s.(storage := s.storage[up.asset := up.digest]), u, Leaving)
      case DELAYED => Turn(s.(late := s.late + {(up.asset, up.digest)}), u, Leaving)
  }

  /** WAITING becomes AVAILABLE, unless the conversation is gone, fenced or locked. */
  function Confirmed(s: System, a: Asset, commit: Commit): System {
    if Open(s, a.conversation) && a in s.assets && s.assets[a].status == WAITING && commit != FAILED
    then s.(assets := s.assets[a := s.assets[a].(status := AVAILABLE)])
    else s
  }

  function DoConfirm(s: System, u: nat, commit: Commit): System
    requires u in s.uploads
  {
    var a := s.uploads[u].asset;
    if s.uploads[u].phase != Written || a.conversation in s.locked then s
    else Turn(Confirmed(s, a, commit), u, Leaving)
  }

  function DoExit(s: System, u: nat): System
    requires u in s.uploads
  {
    if s.uploads[u].phase != Leaving then s
    else s.(uploads := s.uploads - {u}, active := Left(s.active, s.uploads[u].asset.conversation))
  }

  /** The delete takes the row lock and then asks for running uploads. */
  function DoLock(s: System, c: Conversation, closing: bool): System {
    if c !in s.live || c in s.locked || s.live[c] != closing || Counted(s.active, c) > 0 then s
    else s.(locked := s.locked + {c})
  }

  function Queued(s: System, c: Conversation): map<Asset, Cleanup> {
    map a | a in s.assets && a.conversation == c :: Cleanup(s.assets[a].digest, PENDING)
  }

  /** One transaction turns every asset row of the conversation into a clean-up and deletes the conversation. */
  function DoDelete(s: System, c: Conversation, commit: Commit): System {
    if c !in s.locked then s
    else if commit == FAILED then s.(locked := s.locked - {c})
    else s.(locked := s.locked - {c},
            live := s.live - {c},
            assets := s.assets - (set a | a in s.assets && a.conversation == c),
            cleanups := s.cleanups + Queued(s, c))
  }

  function DoList(s: System, d: nat, a: Asset): System {
    if d in s.drainers || a !in s.cleanups || s.cleanups[a].status != PENDING then s
    else s.(drainers := s.drainers[d := Drainer(a, s.cleanups[a].digest, Listed)])
  }

  function Judged(s: System, d: nat, phase: DrainPhase): System
    requires d in s.drainers
  {
    s.(drainers := s.drainers[d := s.drainers[d].(phase := phase)])
  }

  function DoHead(s: System, d: nat, head: HeadResult): System
    requires d in s.drainers
  {
    var a := s.drainers[d].asset;
    if s.drainers[d].phase != Listed then s
    else match head
      case UNREADABLE => Judged(s, d, Verdict(SAFETY_BLOCKED))
      case NO_ANSWER => Judged(s, d, Verdict(PENDING))
      case SEEN =>
        if a !in s.storage then Judged(s, d, Verdict(COMPLETED))
        else if s.storage[a] != s.drainers[d].digest then Judged(s, d, Verdict(SAFETY_BLOCKED))
        else Judged(s, d, Matched)
  }

  function DoRemove(s: System, d: nat, remove: RemoveResult): System
    requires d in s.drainers
  {
    if s.drainers[d].phase != Matched then s
    else
      var removed := s.(storage := s.storage - {s.drainers[d].asset});
      match remove
      case REMOVED => Judged(removed, d, Verdict(COMPLETED))
      case REMOVED_UNHEARD => Judged(removed, d, Verdict(PENDING))
      case KEPT => Judged(s, d, Verdict(PENDING))
  }

  /** The update expects the record to be PENDING still. */
  function DoPersist(s: System, d: nat, commit: Commit): System
    requires d in s.drainers
  {
    var a := s.drainers[d].asset;
    if !s.drainers[d].phase.Verdict? then s
    else if commit == FAILED || a !in s.cleanups || s.cleanups[a].status != PENDING then s.(drainers := s.drainers - {d})
    else s.(drainers := s.drainers - {d},
            cleanups := s.cleanups[a := s.cleanups[a].(status := s.drainers[d].phase.status)])
  }

  /** Reconciling reads a WAITING asset and its object, without any lock. */
  function DoLook(s: System, r: nat, a: Asset): System {
    if r in s.readers || a !in s.assets || s.assets[a].status != WAITING || a !in s.storage
       || s.storage[a] != s.assets[a].digest then s
    else s.(readers := s.readers[r := a])
  }

  function DoAdopt(s: System, r: nat, commit: Commit): System
    requires r in s.readers
  {
    if s.readers[r].conversation in s.locked then s
    else Confirmed(s, s.readers[r], commit).(readers := s.readers - {r})
  }

  /** A crash drops what is in memory and rolls back open transactions; a put on its way may still arrive. */
  function DoCrash(s: System): System {
    s.(active := map[], uploads := map[], locked := {}, drainers := map[], readers := map[],
       late := s.late + (set u | u in s.uploads && s.uploads[u].phase == Writing :: (s.uploads[u].asset, s.uploads[u].digest)))
  }

  function Step(s: System, e: Event): System {
    match e
    case Create(c) => if c in s.created then s else s.(created := s.created + {c}, live := s.live[c := false])
    case Fence(c, on) => if c !in s.live || c in s.locked then s else s.(live := s.live[c := on])
    case Enter(u, a, digest) =>
      if u in s.uploads then s
      else s.(uploads := s.uploads[u := Upload(a, digest, Entering)], active := Entered(s.active, a.conversation))
    case Begin(u, commit) => if u in s.uploads then DoBegin(s, u, commit) else s
    case Put(u, put) => if u in s.uploads then DoPut(s, u, put) else s
    case Confirm(u, commit) => if u in s.uploads then DoConfirm(s, u, commit) else s
    case Exit(u) => if u in s.uploads then DoExit(s, u) else s
    case Lock(c, closing) => DoLock(s, c, closing)
    case Delete(c, commit) => DoDelete(s, c, commit)
    case List(d, a) => DoList(s, d, a)
    case Head(d, head) => if d in s.drainers then DoHead(s, d, head) else s
    case Remove(d, remove) => if d in s.drainers then DoRemove(s, d, remove) else s
    case Persist(d, commit) => if d in s.drainers then DoPersist(s, d, commit) else s
    case Look(r, a) => DoLook(s, r, a)
    case Adopt(r, commit) => if r in s.readers then DoAdopt(s, r, commit) else s
    case Crash => DoCrash(s)
    case Land(a, digest) =>
      if (a, digest) in s.late then s.(late := s.late - {(a, digest)}, storage := s.storage[a := digest]) else s
  }

  function After(s: System, events: seq<Event>): System
    decreases |events|
  {
    if events == [] then s else Step(After(s, events[..|events| - 1]), events[|events| - 1])
  }

  // ---- what must hold ----

  /** Every stored object is named by a live asset row or by a clean-up that is not completed, with its digest. */
  predicate Tracked(s: System) {
    forall a | a in s.storage ::
      || (a in s.assets && s.assets[a].digest == s.storage[a])
      || (a in s.cleanups && s.cleanups[a].status != COMPLETED && s.cleanups[a].digest == s.storage[a])
  }

  /** No available image has lost its object. */
  predicate Kept(s: System) {
    forall a | a in s.assets && s.assets[a].status == AVAILABLE :: a in s.storage
  }

  /** Rows belong to existing conversations, clean-ups to deleted ones. */
  predicate Owned(s: System) {
    && s.live.Keys <= s.created
    && (forall a | a in s.assets :: a.conversation in s.live)
    && (forall a | a in s.cleanups :: a.conversation in s.created && a.conversation !in s.live)
  }

  function Running(s: System, c: Conversation): set<nat> {
    set u | u in s.uploads && s.uploads[u].asset.conversation == c
  }

  predicate CountFits(s: System, c: Conversation) {
    Counted(s.active, c) == |Running(s, c)|
  }

  /** While a delete holds the row, every upload of the conversation is still before its first transaction. */
  predicate Excluded(s: System) {
    forall c | c in s.locked :: c in s.live && forall u | u in s.uploads && s.uploads[u].asset.conversation == c ::
        s.uploads[u].phase == Entering
  }

  predicate Uploads(s: System) {
    forall u | u in s.uploads && (s.uploads[u].phase == Writing || s.uploads[u].phase == Written) ::
      && s.uploads[u].asset in s.assets && s.assets[s.uploads[u].asset].digest == s.uploads[u].digest
      && (s.uploads[u].phase == Written ==> s.uploads[u].asset in s.storage)
  }

  predicate Drains(s: System) {
    forall d | d in s.drainers ::
      && s.drainers[d].asset in s.cleanups && s.drainers[d].digest == s.cleanups[s.drainers[d].asset].digest
      && (s.drainers[d].phase == Verdict(COMPLETED) && s.cleanups[s.drainers[d].asset].status == PENDING
          ==> s.drainers[d].asset !in s.storage)
  }

  /** A row, once added, lives on as a clean-up record with the same digest. */
  predicate Named(s: System, a: Asset) {
    a in s.assets || a in s.cleanups
  }

  predicate Reads(s: System) {
    forall r | r in s.readers :: Named(s, s.readers[r]) && (s.readers[r] in s.assets ==> s.readers[r] in s.storage)
  }

  predicate LateFits(s: System) {
    forall p | p in s.late ::
      && Named(s, p.0) && (p.0 in s.assets ==> s.assets[p.0].digest == p.1)
      && (p.0 in s.cleanups ==> s.cleanups[p.0].digest == p.1)
  }

  ghost predicate Inv(s: System) {
    && Tracked(s) && Kept(s) && Owned(s) && Excluded(s) && Uploads(s) && Drains(s) && Reads(s) && LateFits(s)
    && Counts(s)
  }

  ghost predicate Counts(s: System) {
    && (forall c: Conversation :: CountFits(s, c))
    && (forall c | c in s.active :: s.active[c] > 0)
  }

  /** The clean-up is completed, or a drainer found the object gone and is about to say so. */
  predicate Over(s: System, a: Asset) {
    && a in s.cleanups
    && (s.cleanups[a].status == COMPLETED
        || (s.cleanups[a].status == PENDING
            && exists d | d in s.drainers :: s.drainers[d].asset == a && s.drainers[d].phase == Verdict(COMPLETED)))
  }

  /** A put that arrives late still finds the clean-up of its object undecided. */
  predicate InTime(s: System, e: Event) {
    e.Land? && (e.asset, e.digest) in s.late ==> !Over(s, e.asset)
  }

  // ---- every step keeps the invariant ----

  lemma TurnCounts(s: System, u: nat, n: System)
    requires Counts(s) && u in s.uploads && n.active == s.active
    requires u in n.uploads && n.uploads[u].asset == s.uploads[u].asset && n.uploads == s.uploads[u := n.uploads[u]]
    ensures Counts(n)
  {
    forall c: Conversation ensures CountFits(n, c) {
      assert CountFits(s, c);
      assert Running(n, c) == Running(s, c);
    }
  }

  lemma SameCounts(s: System, n: System)
    requires Counts(s) && n.active == s.active && n.uploads == s.uploads
    ensures Counts(n)
  {
    forall c: Conversation ensures CountFits(n, c) {
      assert CountFits(s, c);
    }
  }

  lemma EnterCount(s: System, n: System, u: nat, up: Upload, c: Conversation)
    requires CountFits(s, c) && u !in s.uploads
    requires n.uploads == s.uploads[u := up] && n.active == Entered(s.active, up.asset.conversation)
    ensures CountFits(n, c)
  {
    assert Running(n, c) == Running(s, c) + if c == up.asset.conversation then {u} else {};
  }

  lemma EnterCounts(s: System, n: System, u: nat, up: Upload)
    requires Counts(s) && u !in s.uploads
    requires n.uploads == s.uploads[u := up] && n.active == Entered(s.active, up.asset.conversation)
    ensures Counts(n)
  {
    forall c: Conversation ensures CountFits(n, c) {
      EnterCount(s, n, u, up, c);
    }
  }

  lemma ExitCounts(s: System, u: nat)
    requires Counts(s) && u in s.uploads && s.uploads[u].phase == Leaving
    ensures Counts(DoExit(s, u))
  {
    var n, here := DoExit(s, u), s.uploads[u].asset.conversation;
    assert CountFits(s, here) && u in Running(s, here);
    forall c: Conversation ensures CountFits(n, c) {
      assert CountFits(s, c);
      assert Running(n, c) == Running(s, c) - if c == here then {u} else {};
    }
  }

  lemma TurnKeeps(s: System, u: nat, phase: UploadPhase)
    requires Inv(s) && u in s.uploads && s.uploads[u].asset.conversation !in s.locked
    requires phase == Writing || phase == Written ==>
               s.uploads[u].asset in s.assets && s.assets[s.uploads[u].asset].digest == s.uploads[u].digest
    requires phase == Written ==> s.uploads[u].asset in s.storage
    ensures Inv(Turn(s, u, phase))
  {
    TurnCounts(s, u, Turn(s, u, phase));
  }

  lemma RowAddedKeeps(s: System, a: Asset, digest: Digest)
    requires Inv(s) && Open(s, a.conversation) && a !in s.assets
    ensures Inv(s.(assets := s.assets[a := Row(digest, WAITING)]))
  {
    SameCounts(s, s.(assets := s.assets[a := Row(digest, WAITING)]));
    assert a !in s.cleanups && !Named(s, a);
  }

  /** The row is there, this upload's own, or the upload ends. */
  lemma BeginTurns(s: System, u: nat, commit: Commit)
    requires Inv(s) && u in s.uploads && s.uploads[u].phase == Entering && s.uploads[u].asset.conversation !in s.locked
    requires !Open(s, s.uploads[u].asset.conversation) || s.uploads[u].asset in s.assets || commit == FAILED
    ensures Inv(DoBegin(s, u, commit))
  {
    var up := s.uploads[u];
    if Open(s, up.asset.conversation) && up.asset in s.assets && s.assets[up.asset] == Row(up.digest, WAITING) {
      TurnKeeps(s, u, Writing);
    } else {
      TurnKeeps(s, u, Leaving);
    }
  }

  lemma BeginAdds(s: System, u: nat, commit: Commit)
    requires Inv(s) && u in s.uploads && s.uploads[u].phase == Entering && s.uploads[u].asset.conversation !in s.locked
    requires Open(s, s.uploads[u].asset.conversation) && s.uploads[u].asset !in s.assets && commit != FAILED
    ensures Inv(DoBegin(s, u, commit))
  {
    var up := s.uploads[u];
    var added := s.(assets := s.assets[up.asset := Row(up.digest, WAITING)]);
    RowAddedKeeps(s, up.asset, up.digest);
    if commit == FINE { TurnKeeps(added, u, Writing); } else { TurnKeeps(added, u, Leaving); }
  }

  lemma BeginKeeps(s: System, u: nat, commit: Commit)
    requires Inv(s) && u in s.uploads && DoBegin(s, u, commit) != s
    ensures Inv(DoBegin(s, u, commit))
  {
    if !Open(s, s.uploads[u].asset.conversation) || s.uploads[u].asset in s.assets || commit == FAILED {
      BeginTurns(s, u, commit);
    } else {
      BeginAdds(s, u, commit);
    }
  }

  lemma StoredKeeps(s: System, a: Asset, digest: Digest)
    requires Inv(s) && a in s.assets && s.assets[a].digest == digest
    ensures Inv(s.(storage := s.storage[a := digest]))
  {
    SameCounts(s, s.(storage := s.storage[a := digest]));
  }

  lemma DelayedKeeps(s: System, a: Asset, digest: Digest)
    requires Inv(s) && a in s.assets && s.assets[a].digest == digest
    ensures Inv(s.(late := s.late + {(a, digest)}))
  {
    SameCounts(s, s.(late := s.late + {(a, digest)}));
  }

  lemma PutKeeps(s: System, u: nat, put: PutResult)
    requires Inv(s) && u in s.uploads
    ensures Inv(DoPut(s, u, put))
  {
    var up := s.uploads[u];
    if up.phase == Writing {
      match put
      case REFUSED => TurnKeeps(s, u, Leaving);
      case DELAYED =>
        DelayedKeeps(s, up.asset, up.digest);
        TurnKeeps(s.(late := s.late + {(up.asset, up.digest)}), u, Leaving);
      case _ =>
        StoredKeeps(s, up.asset, up.digest);
        TurnKeeps(s.(storage := s.storage[up.asset := up.digest]), u, if put == STORED then Written else Leaving);
    }
  }

  lemma AvailableKeeps(s: System, a: Asset)
    requires Inv(s) && a in s.assets && a in s.storage
    ensures Inv(s.(assets := s.assets[a := s.assets[a].(status := AVAILABLE)]))
  {
    var n := s.(assets := s.assets[a := s.assets[a].(status := AVAILABLE)]);
    SameCounts(s, n);
    AvailableTracks(s, a);
    assert forall b :: Named(n, b) <==> Named(s, b);
  }

  lemma AvailableTracks(s: System, a: Asset)
    requires Tracked(s) && Kept(s) && Uploads(s) && a in s.assets && a in s.storage
    ensures var n := s.(assets := s.assets[a := s.assets[a].(status := AVAILABLE)]); Tracked(n) && Kept(n) && Uploads(n)
  {
  }

  lemma ConfirmedKeeps(s: System, a: Asset, commit: Commit)
    requires Inv(s) && (a in s.assets ==> a in s.storage)
    ensures Inv(Confirmed(s, a, commit))
  {
    if a in s.assets { AvailableKeeps(s, a); }
  }

  lemma ConfirmKeeps(s: System, u: nat, commit: Commit)
    requires Inv(s) && u in s.uploads
    ensures Inv(DoConfirm(s, u, commit))
  {
    if DoConfirm(s, u, commit) != s {
      ConfirmedKeeps(s, s.uploads[u].asset, commit);
      TurnKeeps(Confirmed(s, s.uploads[u].asset, commit), u, Leaving);
    }
  }

  lemma EnterKeeps(s: System, u: nat, a: Asset, digest: Digest)
    requires Inv(s)
    ensures Inv(Step(s, Enter(u, a, digest)))
  {
    if u !in s.uploads { EnterCounts(s, Step(s, Enter(u, a, digest)), u, Upload(a, digest, Entering)); }
  }

  lemma ExitKeeps(s: System, u: nat)
    requires Inv(s) && u in s.uploads
    ensures Inv(DoExit(s, u))
  {
    if s.uploads[u].phase == Leaving { ExitCounts(s, u); }
  }

  lemma NobodyUploads(s: System, c: Conversation)
    requires Inv(s) && Counted(s.active, c) == 0
    ensures forall u | u in s.uploads :: s.uploads[u].asset.conversation != c
  {
    assert CountFits(s, c);
    assert Running(s, c) == {};
    forall u | u in s.uploads ensures s.uploads[u].asset.conversation != c {
      assert u !in Running(s, c);
    }
  }

  lemma LockKeeps(s: System, c: Conversation)
    requires Inv(s) && c in s.live && forall u | u in s.uploads :: s.uploads[u].asset.conversation != c
    ensures Inv(s.(locked := s.locked + {c}))
  {
    SameCounts(s, s.(locked := s.locked + {c}));
  }

  lemma UnlockKeeps(s: System, c: Conversation)
    requires Inv(s)
    ensures Inv(s.(locked := s.locked - {c}))
  {
    SameCounts(s, s.(locked := s.locked - {c}));
  }

  /** The rows of a deleted conversation live on as clean-ups. */
  lemma RowsMove(s: System, c: Conversation, n: System)
    requires Inv(s) && c in s.live
    requires n == s.(live := s.live - {c},
                     assets := s.assets - (set a | a in s.assets && a.conversation == c),
                     cleanups := s.cleanups + Queued(s, c))
    ensures Tracked(n) && Kept(n) && Owned(n) && forall a | Named(s, a) :: Named(n, a)
    ensures forall a :: (a in n.assets <==> a in s.assets && a.conversation != c) && (a in n.assets ==> n.assets[a] == s.assets[a])
    ensures forall a | a in s.cleanups :: a in n.cleanups && n.cleanups[a] == s.cleanups[a]
  {
  }

  lemma ConversationGone(s: System, c: Conversation, n: System)
    requires Inv(s) && c in s.live && c !in s.locked
    requires forall u | u in s.uploads && s.uploads[u].asset.conversation == c :: s.uploads[u].phase == Entering
    requires n == s.(live := s.live - {c},
                     assets := s.assets - (set a | a in s.assets && a.conversation == c),
                     cleanups := s.cleanups + Queued(s, c))
    ensures Inv(n)
  {
    RowsMove(s, c, n);
    SameCounts(s, n);
  }

  lemma DeleteKeeps(s: System, c: Conversation, commit: Commit)
    requires Inv(s)
    ensures Inv(DoDelete(s, c, commit))
  {
    if c in s.locked {
      UnlockKeeps(s, c);
      if commit != FAILED {
        ConversationGone(s.(locked := s.locked - {c}), c, DoDelete(s, c, commit));
      }
    }
  }

  lemma ListKeeps(s: System, d: nat, a: Asset)
    requires Inv(s)
    ensures Inv(DoList(s, d, a))
  {
    SameCounts(s, DoList(s, d, a));
  }

  lemma JudgedKeeps(s: System, d: nat, phase: DrainPhase)
    requires Inv(s) && d in s.drainers && (phase == Verdict(COMPLETED) ==> s.drainers[d].asset !in s.storage)
    ensures Inv(Judged(s, d, phase))
  {
    SameCounts(s, Judged(s, d, phase));
  }

  lemma ObjectRemovedKeeps(s: System, a: Asset)
    requires Inv(s) && a in s.cleanups
    ensures Inv(s.(storage := s.storage - {a}))
  {
    SameCounts(s, s.(storage := s.storage - {a}));
    assert a !in s.assets;
  }

  lemma RemoveKeeps(s: System, d: nat, remove: RemoveResult)
    requires Inv(s) && d in s.drainers
    ensures Inv(DoRemove(s, d, remove))
  {
    if s.drainers[d].phase == Matched {
      var removed := s.(storage := s.storage - {s.drainers[d].asset});
      ObjectRemovedKeeps(s, s.drainers[d].asset);
      match remove
      case REMOVED => JudgedKeeps(removed, d, Verdict(COMPLETED));
      case REMOVED_UNHEARD => JudgedKeeps(removed, d, Verdict(PENDING));
      case KEPT => JudgedKeeps(s, d, Verdict(PENDING));
    }
  }

  lemma DrainerGone(s: System, d: nat)
    requires Inv(s)
    ensures Inv(s.(drainers := s.drainers - {d}))
  {
    SameCounts(s, s.(drainers := s.drainers - {d}));
  }

  lemma StatusKeeps(s: System, a: Asset, status: CleanupStatus)
    requires Inv(s) && a in s.cleanups && s.cleanups[a].status == PENDING && (status == COMPLETED ==> a !in s.storage)
    ensures Inv(s.(cleanups := s.cleanups[a := s.cleanups[a].(status := status)]))
  {
    var n := s.(cleanups := s.cleanups[a := s.cleanups[a].(status := status)]);
    SameCounts(s, n);
    StatusTracks(s, a, status);
    assert forall b :: Named(n, b) <==> Named(s, b);
  }

  lemma StatusTracks(s: System, a: Asset, status: CleanupStatus)
    requires Tracked(s) && Drains(s) && a in s.cleanups && s.cleanups[a].status == PENDING
    requires status == COMPLETED ==> a !in s.storage
    ensures var n := s.(cleanups := s.cleanups[a := s.cleanups[a].(status := status)]); Tracked(n) && Drains(n)
  {
  }

  lemma PersistKeeps(s: System, d: nat, commit: Commit)
    requires Inv(s) && d in s.drainers
    ensures Inv(DoPersist(s, d, commit))
  {
    var a, phase := s.drainers[d].asset, s.drainers[d].phase;
    if phase.Verdict? {
      DrainerGone(s, d);
      if commit != FAILED && s.cleanups[a].status == PENDING {
        StatusKeeps(s.(drainers := s.drainers - {d}), a, phase.status);
      }
    }
  }

  lemma HeadKeeps(s: System, d: nat, head: HeadResult)
    requires Inv(s) && d in s.drainers && s.drainers[d].phase == Listed
    ensures Inv(DoHead(s, d, head))
  {
    var a := s.drainers[d].asset;
    match head
    case UNREADABLE => JudgedKeeps(s, d, Verdict(SAFETY_BLOCKED));
    case NO_ANSWER => JudgedKeeps(s, d, Verdict(PENDING));
    case SEEN =>
      if a !in s.storage {
        JudgedKeeps(s, d, Verdict(COMPLETED));
      } else if s.storage[a] != s.drainers[d].digest {
        JudgedKeeps(s, d, Verdict(SAFETY_BLOCKED));
      } else {
        JudgedKeeps(s, d, Matched);
      }
  }

  lemma DrainKeeps(s: System, e: Event)
    requires Inv(s) && (e.List? || e.Head? || e.Remove? || e.Persist?)
    ensures Inv(Step(s, e))
  {
    if e.List? {
      ListKeeps(s, e.drainer, e.asset);
    } else if e.drainer in s.drainers {
      if e.Head? {
        if s.drainers[e.drainer].phase == Listed { HeadKeeps(s, e.drainer, e.head); }
      } else if e.Remove? {
        RemoveKeeps(s, e.drainer, e.remove);
      } else {
        PersistKeeps(s, e.drainer, e.commit);
      }
    }
  }

  lemma ReadersKeep(s: System, readers: map<nat, Asset>)
    requires Inv(s) && forall r | r in readers :: Named(s, readers[r]) && (readers[r] in s.assets ==> readers[r] in s.storage)
    ensures Inv(s.(readers := readers))
  {
    SameCounts(s, s.(readers := readers));
  }

  lemma ReadKeeps(s: System, e: Event)
    requires Inv(s) && (e.Look? || e.Adopt?)
    ensures Inv(Step(s, e))
  {
    if e.Look? {
      if Step(s, e) != s { ReadersKeep(s, s.readers[e.reader := e.asset]); }
    } else if e.reader in s.readers && s.readers[e.reader].conversation !in s.locked {
      var n := Confirmed(s, s.readers[e.reader], e.commit);
      ConfirmedKeeps(s, s.readers[e.reader], e.commit);
      assert Reads(n);
      ReadersKeep(n, n.readers - {e.reader});
    }
  }

  lemma CreateKeeps(s: System, c: Conversation)
    requires Inv(s) && c !in s.created
    ensures Inv(s.(created := s.created + {c}, live := s.live[c := false]))
  {
    SameCounts(s, s.(created := s.created + {c}, live := s.live[c := false]));
  }

  lemma FenceKeeps(s: System, c: Conversation, on: bool)
    requires Inv(s) && c in s.live
    ensures Inv(s.(live := s.live[c := on]))
  {
    SameCounts(s, s.(live := s.live[c := on]));
  }

  lemma StoredForCleanup(s: System, a: Asset, digest: Digest)
    requires Inv(s) && a in s.cleanups && s.cleanups[a].digest == digest && !Over(s, a)
    ensures Inv(s.(storage := s.storage[a := digest]))
  {
    SameCounts(s, s.(storage := s.storage[a := digest]));
  }

  lemma LandKeeps(s: System, a: Asset, digest: Digest)
    requires Inv(s) && InTime(s, Land(a, digest))
    ensures Inv(Step(s, Land(a, digest)))
  {
    if (a, digest) in s.late {
      assert Named(s, a);
      if a in s.assets { StoredKeeps(s, a, digest); } else { StoredForCleanup(s, a, digest); }
      NotLateKeeps(s.(storage := s.storage[a := digest]), (a, digest));
    }
  }

  lemma NotLateKeeps(s: System, p: (Asset, Digest))
    requires Inv(s)
    ensures Inv(s.(late := s.late - {p}))
  {
    SameCounts(s, s.(late := s.late - {p}));
  }

  lemma CrashKeeps(s: System)
    requires Inv(s)
    ensures Inv(DoCrash(s))
  {
    forall c: Conversation ensures CountFits(DoCrash(s), c) {
      assert Running(DoCrash(s), c) == {};
    }
  }

  lemma StepKeeps(s: System, e: Event)
    requires Inv(s) && InTime(s, e)
    ensures Inv(Step(s, e))
  {
    match e
    case Create(c) => if c !in s.created { CreateKeeps(s, c); }
    case Fence(c, on) => if c in s.live { FenceKeeps(s, c, on); }
    case Enter(u, a, digest) => EnterKeeps(s, u, a, digest);
    case Begin(u, commit) => if u in s.uploads && DoBegin(s, u, commit) != s { BeginKeeps(s, u, commit); }
    case Put(u, put) => if u in s.uploads { PutKeeps(s, u, put); }
    case Confirm(u, commit) => if u in s.uploads { ConfirmKeeps(s, u, commit); }
    case Exit(u) => if u in s.uploads { ExitKeeps(s, u); }
    case Lock(c, closing) => if DoLock(s, c, closing) != s { NobodyUploads(s, c); LockKeeps(s, c); }
    case Delete(c, commit) => DeleteKeeps(s, c, commit);
    case Look(r, a) => ReadKeeps(s, e);
    case Adopt(r, commit) => ReadKeeps(s, e);
    case Crash => CrashKeeps(s);
    case Land(a, digest) => LandKeeps(s, a, digest);
    case _ => DrainKeeps(s, e);
  }

  // ---- what a settled clean-up record outlives ----

  predicate Settled(s: System, a: Asset) {
    a in s.cleanups && s.cleanups[a].status != PENDING && a !in s.assets
  }

  /** The object is stored, its clean-up is completed, and nobody is left to look at it. */
  predicate Escaped(s: System, a: Asset) {
    && a in s.storage && a in s.cleanups && s.cleanups[a].status == COMPLETED
    && a !in s.assets && a.conversation in s.created && a.conversation !in s.live
    && (forall d | d in s.drainers :: s.drainers[d].asset != a)
    && (forall u | u in s.uploads && s.uploads[u].asset == a :: s.uploads[u].phase == Entering || s.uploads[u].phase == Leaving)
  }

  predicate Spares(s: System, n: System, a: Asset) {
    && a in s.cleanups && a in n.cleanups && n.cleanups[a] == s.cleanups[a]
    && (Escaped(s, a) ==> Escaped(n, a))
  }

  lemma TurnSpares(s: System, u: nat, phase: UploadPhase, a: Asset)
    requires Settled(s, a) && u in s.uploads && (Escaped(s, a) && s.uploads[u].asset == a ==> phase == Leaving)
    ensures Spares(s, Turn(s, u, phase), a)
  {
  }

  lemma RowSpares(s: System, b: Asset, row: Row, a: Asset)
    requires Settled(s, a) && Open(s, b.conversation)
    ensures Spares(s, s.(assets := s.assets[b := row]), a) && (Escaped(s, a) ==> b != a)
  {
  }

  lemma BeginSpares(s: System, u: nat, commit: Commit, a: Asset)
    requires Settled(s, a) && u in s.uploads && s.uploads[u].phase == Entering
    requires s.uploads[u].asset.conversation !in s.locked
    ensures Spares(s, DoBegin(s, u, commit), a)
  {
    var up := s.uploads[u];
    if !Open(s, up.asset.conversation) {
      TurnSpares(s, u, Leaving, a);
    } else {
      var added := s.(assets := s.assets[up.asset := Row(up.digest, WAITING)]);
      RowSpares(s, up.asset, Row(up.digest, WAITING), a);
      TurnSpares(s, u, Leaving, a);
      if up.asset in s.assets {
        TurnSpares(s, u, Writing, a);
      } else if up.asset != a {
        TurnSpares(added, u, Leaving, a);
        TurnSpares(added, u, Writing, a);
      }
    }
  }

  lemma StoredSpares(s: System, b: Asset, digest: Digest, a: Asset)
    requires Settled(s, a) && b != a
    ensures Spares(s, s.(storage := s.storage[b := digest]), a) && Spares(s, s.(late := s.late + {(b, digest)}), a)
  {
  }

  lemma PutElsewhereSpares(s: System, u: nat, put: PutResult, a: Asset)
    requires Settled(s, a) && u in s.uploads && s.uploads[u].phase == Writing && s.uploads[u].asset != a
    ensures Spares(s, DoPut(s, u, put), a)
  {
    var up := s.uploads[u];
    StoredSpares(s, up.asset, up.digest, a);
    match put
    case STORED => TurnSpares(s.(storage := s.storage[up.asset := up.digest]), u, Written, a);
    case REFUSED => TurnSpares(s, u, Leaving, a);
    case UNHEARD => TurnSpares(s.(storage := s.storage[up.asset := up.digest]), u, Leaving, a);
    case DELAYED => TurnSpares(s.(late := s.late + {(up.asset, up.digest)}), u, Leaving, a);
  }

  lemma PutHereSpares(s: System, u: nat, put: PutResult, a: Asset)
    requires Settled(s, a) && u in s.uploads && s.uploads[u].phase == Writing && s.uploads[u].asset == a
    ensures Spares(s, DoPut(s, u, put), a)
  {
    assert !Escaped(s, a);
  }

  lemma PutSpares(s: System, u: nat, put: PutResult, a: Asset)
    requires Settled(s, a) && u in s.uploads && s.uploads[u].phase == Writing
    ensures Spares(s, DoPut(s, u, put), a)
  {
    if s.uploads[u].asset == a { PutHereSpares(s, u, put, a); } else { PutElsewhereSpares(s, u, put, a); }
  }

  lemma ConfirmSpares(s: System, u: nat, commit: Commit, a: Asset)
    requires Settled(s, a) && u in s.uploads
    ensures Spares(s, DoConfirm(s, u, commit), a)
  {
    var b := s.uploads[u].asset;
    AdoptedSpares(s, b, commit, a);
    TurnSpares(Confirmed(s, b, commit), u, Leaving, a);
  }

  lemma AdoptedSpares(s: System, b: Asset, commit: Commit, a: Asset)
    requires Settled(s, a)
    ensures Spares(s, Confirmed(s, b, commit), a) && Settled(Confirmed(s, b, commit), a)
  {
  }

  lemma DeleteSpares(s: System, c: Conversation, commit: Commit, a: Asset)
    requires Settled(s, a)
    ensures Spares(s, DoDelete(s, c, commit), a)
  {
  }

  lemma ListSpares(s: System, d: nat, b: Asset, a: Asset)
    requires Settled(s, a)
    ensures Spares(s, DoList(s, d, b), a)
  {
  }

  lemma JudgedSpares(s: System, d: nat, phase: DrainPhase, a: Asset)
    requires Settled(s, a) && d in s.drainers
    ensures Spares(s, Judged(s, d, phase), a)
  {
  }

  lemma HeadSpares(s: System, d: nat, head: HeadResult, a: Asset)
    requires Settled(s, a) && d in s.drainers && s.drainers[d].phase == Listed
    ensures Spares(s, DoHead(s, d, head), a)
  {
    JudgedSpares(s, d, Verdict(SAFETY_BLOCKED), a);
    JudgedSpares(s, d, Verdict(PENDING), a);
    JudgedSpares(s, d, Verdict(COMPLETED), a);
    JudgedSpares(s, d, Matched, a);
  }

  lemma RemoveSpares(s: System, d: nat, remove: RemoveResult, a: Asset)
    requires Settled(s, a) && d in s.drainers
    ensures Spares(s, DoRemove(s, d, remove), a)
  {
  }

  lemma PersistSpares(s: System, d: nat, commit: Commit, a: Asset)
    requires Settled(s, a) && d in s.drainers
    ensures Spares(s, DoPersist(s, d, commit), a)
  {
    assert Spares(s, s.(drainers := s.drainers - {d}), a);
  }

  lemma AdoptSpares(s: System, r: nat, commit: Commit, a: Asset)
    requires Settled(s, a) && r in s.readers
    ensures Spares(s, DoAdopt(s, r, commit), a)
  {
  }

  lemma CallerSpares(s: System, e: Event, a: Asset)
    requires Settled(s, a) && (e.Enter? || e.Exit? || e.Look? || e.Crash?)
    ensures Spares(s, Step(s, e), a)
  {
  }

  lemma OutsideSpares(s: System, e: Event, a: Asset)
    requires Settled(s, a) && (e.Create? || e.Fence? || e.Lock? || e.Land?)
    ensures Spares(s, Step(s, e), a)
  {
    if e.Land? { LandSpares(s, e.asset, e.digest, a); }
  }

  lemma LandSpares(s: System, b: Asset, digest: Digest, a: Asset)
    requires Settled(s, a)
    ensures Spares(s, Step(s, Land(b, digest)), a)
  {
  }

  /** No step touches a settled record, nor anything that could lead back to its object. */
  lemma StepSpares(s: System, e: Event, a: Asset)
    requires Settled(s, a)
    ensures Spares(s, Step(s, e), a)
  {
    match e
    case Begin(u, commit) => if u in s.uploads && DoBegin(s, u, commit) != s { BeginSpares(s, u, commit, a); }
    case Put(u, put) => if u in s.uploads && s.uploads[u].phase == Writing { PutSpares(s, u, put, a); }
    case Confirm(u, commit) => if u in s.uploads { ConfirmSpares(s, u, commit, a); }
    case Delete(c, commit) => DeleteSpares(s, c, commit, a);
    case List(d, b) => ListSpares(s, d, b, a);
    case Head(d, head) => if d in s.drainers && DoHead(s, d, head) != s { HeadSpares(s, d, head, a); }
    case Remove(d, remove) => if d in s.drainers { RemoveSpares(s, d, remove, a); }
    case Persist(d, commit) => if d in s.drainers { PersistSpares(s, d, commit, a); }
    case Adopt(r, commit) => if r in s.readers { AdoptSpares(s, r, commit, a); }
    case _ => if e.Create? || e.Fence? || e.Lock? || e.Land? { OutsideSpares(s, e, a); } else { CallerSpares(s, e, a); }
  }

  // ---- what every run guarantees ----

  predicate AllInTime(s: System, events: seq<Event>)
    decreases |events|
  {
    events == [] || (AllInTime(s, events[..|events| - 1]) && InTime(After(s, events[..|events| - 1]), events[|events| - 1]))
  }

  lemma {:induction false} RunKeeps(s: System, events: seq<Event>)
    requires Inv(s) && AllInTime(s, events)
    ensures Inv(After(s, events))
    decreases |events|
  {
    if events != [] {
      RunKeeps(s, events[..|events| - 1]);
      StepKeeps(After(s, events[..|events| - 1]), events[|events| - 1]);
    }
  }

  lemma Reachable(events: seq<Event>)
    requires AllInTime(NOTHING, events)
    ensures Inv(After(NOTHING, events))
  {
    assert forall c: Conversation :: Running(NOTHING, c) == {};
    RunKeeps(NOTHING, events);
  }

  /** Nothing that was stored is ever forgotten, and nothing available is ever lost. */
  lemma {:induction false} EveryObjectIsTracked(events: seq<Event>)
    requires AllInTime(NOTHING, events)
    ensures Tracked(After(NOTHING, events)) && Kept(After(NOTHING, events))
  {
    Reachable(events);
  }

  /** A completed clean-up stays completed, and its object is absent from then on. */
  lemma {:induction false} CompletedMeansGone(events: seq<Event>, more: seq<Event>, a: Asset)
    requires AllInTime(NOTHING, events + more)
    requires a in After(NOTHING, events).cleanups && After(NOTHING, events).cleanups[a].status == COMPLETED
    ensures a in After(NOTHING, events + more).cleanups && After(NOTHING, events + more).cleanups[a].status == COMPLETED
    ensures a !in After(NOTHING, events + more).storage && a !in After(NOTHING, events + more).assets
    decreases |more|
  {
    Reachable(events + more);
    if more == [] {
      assert events + more == events;
    } else {
      var shorter := events + more[..|more| - 1];
      assert (events + more)[..|events + more| - 1] == shorter;
      CompletedMeansGone(events, more[..|more| - 1], a);
      StepSpares(After(NOTHING, shorter), more[|more| - 1], a);
    }
  }

  predicate Unfinished(s: System, a: Asset) {
    a in s.cleanups && s.cleanups[a].status != COMPLETED
  }

  /** Looking at the object of `a` for drainer `d`, the storage showed something that is not to be removed. */
  predicate Unsafe(s: System, e: Event, a: Asset) {
    && e.Head? && e.drainer in s.drainers && s.drainers[e.drainer].asset == a && s.drainers[e.drainer].phase == Listed
    && (e.head == UNREADABLE || (e.head == SEEN && a in s.storage && s.storage[a] != s.drainers[e.drainer].digest))
  }

  ghost predicate WasUnsafe(events: seq<Event>, a: Asset) {
    exists i :: 0 <= i < |events| && Unsafe(After(NOTHING, events[..i]), events[i], a)
  }

  lemma StillUnsafe(events: seq<Event>, a: Asset)
    requires events != [] && WasUnsafe(events[..|events| - 1], a)
    ensures WasUnsafe(events, a)
  {
    var i :| 0 <= i < |events| - 1 && Unsafe(After(NOTHING, events[..|events| - 1][..i]), events[..|events| - 1][i], a);
    assert events[..|events| - 1][..i] == events[..i];
  }

  predicate Blocked(s: System, a: Asset) {
    || (a in s.cleanups && s.cleanups[a].status == SAFETY_BLOCKED)
    || (exists d | d in s.drainers :: s.drainers[d].asset == a && s.drainers[d].phase == Verdict(SAFETY_BLOCKED))
  }

  lemma DrainStepBlocks(s: System, e: Event, a: Asset)
    requires (e.List? || e.Head? || e.Remove? || e.Persist?) && Blocked(Step(s, e), a) && !Blocked(s, a)
    ensures Unsafe(s, e, a)
  {
    if e.Head? {
      HeadBlocks(s, e.drainer, e.head, a);
    } else if e.Remove? {
      RemoveBlocks(s, e.drainer, e.remove, a);
    } else if e.Persist? {
      PersistBlocks(s, e.drainer, e.commit, a);
    }
  }

  lemma JudgedBlocks(s: System, d: nat, phase: DrainPhase, a: Asset)
    requires d in s.drainers
    ensures Blocked(Judged(s, d, phase), a) ==> Blocked(s, a) || (phase == Verdict(SAFETY_BLOCKED) && s.drainers[d].asset == a)
  {
    var n := Judged(s, d, phase);
    forall other | other in n.drainers && other != d ensures other in s.drainers && n.drainers[other] == s.drainers[other] {
    }
  }

  lemma HeadBlocks(s: System, d: nat, head: HeadResult, a: Asset)
    ensures Blocked(Step(s, Head(d, head)), a) ==> Blocked(s, a) || Unsafe(s, Head(d, head), a)
  {
    if d in s.drainers && s.drainers[d].phase == Listed {
      JudgedBlocks(s, d, Verdict(SAFETY_BLOCKED), a);
      JudgedBlocks(s, d, Verdict(PENDING), a);
      JudgedBlocks(s, d, Verdict(COMPLETED), a);
      JudgedBlocks(s, d, Matched, a);
    }
  }

  lemma RemoveBlocks(s: System, d: nat, remove: RemoveResult, a: Asset)
    ensures Blocked(Step(s, Remove(d, remove)), a) ==> Blocked(s, a)
  {
    if d in s.drainers {
      var removed := s.(storage := s.storage - {s.drainers[d].asset});
      JudgedBlocks(s, d, Verdict(PENDING), a);
      JudgedBlocks(removed, d, Verdict(PENDING), a);
      JudgedBlocks(removed, d, Verdict(COMPLETED), a);
      assert Blocked(removed, a) ==> Blocked(s, a);
    }
  }

  lemma VerdictBlocks(s: System, d: nat, b: Asset, status: CleanupStatus, a: Asset)
    ensures Blocked(s.(drainers := s.drainers - {d}), a) ==> Blocked(s, a)
    ensures b in s.cleanups ==>
              (Blocked(s.(cleanups := s.cleanups[b := s.cleanups[b].(status := status)]), a) ==>
                 Blocked(s, a) || (status == SAFETY_BLOCKED && a == b))
  {
  }

  lemma PersistBlocks(s: System, d: nat, commit: Commit, a: Asset)
    ensures Blocked(Step(s, Persist(d, commit)), a) ==> Blocked(s, a)
  {
    if d in s.drainers && s.drainers[d].phase.Verdict? {
      var b, status := s.drainers[d].asset, s.drainers[d].phase.status;
      var gone := s.(drainers := s.drainers - {d});
      VerdictBlocks(s, d, b, status, a);
      VerdictBlocks(gone, d, b, status, a);
    }
  }

  lemma BeginFrame(s: System, u: nat, commit: Commit)
    requires u in s.uploads
    ensures DoBegin(s, u, commit).cleanups == s.cleanups && DoBegin(s, u, commit).drainers == s.drainers
  {
    var a := s.uploads[u].asset;
    var added := s.(assets := s.assets[a := Row(s.uploads[u].digest, WAITING)]);
    TurnFrame(s, u);
    TurnFrame(added, u);
    if Open(s, a.conversation) && a !in s.assets && commit != FAILED {
      assert added.uploads == s.uploads && added.cleanups == s.cleanups && added.drainers == s.drainers;
    }
  }

  lemma TurnFrame(s: System, u: nat)
    requires u in s.uploads
    ensures forall phase :: Turn(s, u, phase).cleanups == s.cleanups && Turn(s, u, phase).drainers == s.drainers
  {
  }

  lemma PutFrame(s: System, u: nat, put: PutResult)
    requires u in s.uploads
    ensures DoPut(s, u, put).cleanups == s.cleanups && DoPut(s, u, put).drainers == s.drainers
  {
  }

  lemma ConfirmFrame(s: System, u: nat, commit: Commit)
    requires u in s.uploads
    ensures DoConfirm(s, u, commit).cleanups == s.cleanups && DoConfirm(s, u, commit).drainers == s.drainers
  {
  }

  lemma DeleteBlocks(s: System, c: Conversation, commit: Commit, a: Asset)
    ensures Blocked(DoDelete(s, c, commit), a) ==> Blocked(s, a)
  {
    assert DoDelete(s, c, commit).drainers == s.drainers;
  }

  lemma OtherStepBlocks(s: System, e: Event, a: Asset)
    requires !e.List? && !e.Head? && !e.Remove? && !e.Persist?
    ensures Blocked(Step(s, e), a) ==> Blocked(s, a)
  {
    match e
    case Begin(u, commit) => if u in s.uploads { BeginFrame(s, u, commit); }
    case Put(u, put) => if u in s.uploads { PutFrame(s, u, put); }
    case Confirm(u, commit) => if u in s.uploads { ConfirmFrame(s, u, commit); }
    case Delete(c, commit) => DeleteBlocks(s, c, commit, a);
    case _ => CallerBlocks(s, e, a);
  }

  lemma CallerBlocks(s: System, e: Event, a: Asset)
    requires e.Create? || e.Fence? || e.Enter? || e.Exit? || e.Lock? || e.Look? || e.Adopt? || e.Crash? || e.Land?
    ensures Blocked(Step(s, e), a) ==> Blocked(s, a)
  {
    var n := Step(s, e);
    assert n.cleanups == s.cleanups && (n.drainers == s.drainers || n.drainers == map[]);
  }

  /** Over every run, whatever lands when: a clean-up is blocked for safety only because its object could not be
      read or was another's. */
  lemma {:induction false} BlockedForCause(events: seq<Event>, a: Asset)
    requires Blocked(After(NOTHING, events), a)
    ensures WasUnsafe(events, a)
  {
    if events != [] {
      var before, last := events[..|events| - 1], |events| - 1;
      if Blocked(After(NOTHING, before), a) {
        BlockedForCause(before, a);
        StillUnsafe(events, a);
      } else {
        var e := events[last];
        if e.List? || e.Head? || e.Remove? || e.Persist? {
          DrainStepBlocks(After(NOTHING, before), e, a);
        } else {
          OtherStepBlocks(After(NOTHING, before), e, a);
        }
      }
    }
  }

  datatype Failure = OUTAGE | REFUSAL | SILENCE

  /** One drain that fails for want of the storage. */
  function FailedDrain(s: System, d: nat, failure: Failure): System {
    match failure
    case OUTAGE => Step(Step(s, Head(d, NO_ANSWER)), Persist(d, FINE))
    case REFUSAL => Step(Step(Step(s, Head(d, SEEN)), Remove(d, KEPT)), Persist(d, FINE))
    case SILENCE => Step(Step(Step(s, Head(d, SEEN)), Remove(d, REMOVED_UNHEARD)), Persist(d, FINE))
  }

  /** With puts in time, the object is never another's: only one that cannot be read blocks its clean-up. */
  lemma {:induction false} BlockedIsUnreadable(events: seq<Event>, a: Asset)
    requires AllInTime(NOTHING, events) && Blocked(After(NOTHING, events), a)
    ensures exists i :: 0 <= i < |events| && Unsafe(After(NOTHING, events[..i]), events[i], a)
                        && events[i] == Head(events[i].drainer, UNREADABLE)
  {
    BlockedForCause(events, a);
    var i :| 0 <= i < |events| && Unsafe(After(NOTHING, events[..i]), events[i], a);
    InTimeBefore(events, i);
    Reachable(events[..i]);
    ReadableMatches(After(NOTHING, events[..i]), events[i].drainer);
  }

  lemma ReadableMatches(s: System, d: nat)
    requires Inv(s) && d in s.drainers
    ensures s.drainers[d].asset in s.cleanups && s.drainers[d].digest == s.cleanups[s.drainers[d].asset].digest
    ensures s.drainers[d].asset in s.storage ==> s.storage[s.drainers[d].asset] == s.drainers[d].digest
  {
    assert s.drainers[d].asset !in s.assets;
  }

  lemma {:induction false} InTimeBefore(events: seq<Event>, i: nat)
    requires AllInTime(NOTHING, events) && i <= |events|
    ensures AllInTime(NOTHING, events[..i])
  {
    if i == |events| {
      assert events[..i] == events;
    } else {
      InTimeBefore(events[..|events| - 1], i);
      assert events[..|events| - 1][..i] == events[..i];
    }
  }

  /** An outage, a removal that was refused and one whose answer was lost leave the clean-up PENDING, and the next
      undisturbed drain completes it. */
  lemma {:induction false} OutageIsRetried(events: seq<Event>, d: nat, failure: Failure)
    requires AllInTime(NOTHING, events) && d in After(NOTHING, events).drainers
    requires After(NOTHING, events).drainers[d].phase == Listed && Waits(After(NOTHING, events), d, failure)
    ensures var s := After(NOTHING, events); var a, n := s.drainers[d].asset, FailedDrain(s, d, failure);
            && n.cleanups == s.cleanups && n.drainers == s.drainers - {d}
            && a !in Drained(n, d, a).storage && Drained(n, d, a).cleanups == s.cleanups[a := s.cleanups[a].(status := COMPLETED)]
  {
    var s := After(NOTHING, events);
    Reachable(events);
    ReadableMatches(s, d);
    FailedDrainWaits(s, d, failure);
    DrainCompletes(FailedDrain(s, d, failure), d, s.drainers[d].asset);
  }

  /** The clean-up is pending and, for a removal to fail, there is an object. */
  predicate Waits(s: System, d: nat, failure: Failure)
    requires d in s.drainers
  {
    var a := s.drainers[d].asset;
    a in s.cleanups && s.cleanups[a].status == PENDING && (failure != OUTAGE ==> a in s.storage)
  }

  lemma FailedDrainWaits(s: System, d: nat, failure: Failure)
    requires d in s.drainers && s.drainers[d].phase == Listed && Waits(s, d, failure)
    requires s.drainers[d].asset in s.storage ==> s.storage[s.drainers[d].asset] == s.drainers[d].digest
    ensures var n := FailedDrain(s, d, failure);
            && n.cleanups == s.cleanups && n.drainers == s.drainers - {d}
            && (n.storage == s.storage || n.storage == s.storage - {s.drainers[d].asset})
  {
    if failure == OUTAGE {
      var judged := Judged(s, d, Verdict(PENDING));
      assert Step(s, Head(d, NO_ANSWER)) == judged;
      PersistPending(judged, d);
      assert judged.drainers - {d} == s.drainers - {d};
    } else {
      var seen := Judged(s, d, Matched);
      HeadSees(s, d);
      var removed := seen.(storage := s.storage - {s.drainers[d].asset});
      var left := Judged(if failure == REFUSAL then seen else removed, d, Verdict(PENDING));
      assert Step(seen, Remove(d, if failure == REFUSAL then KEPT else REMOVED_UNHEARD)) == left;
      PersistPending(left, d);
      assert left.drainers - {d} == s.drainers - {d};
    }
  }

  lemma PersistPending(s: System, d: nat)
    requires d in s.drainers && s.drainers[d].phase == Verdict(PENDING)
    requires s.drainers[d].asset in s.cleanups && s.cleanups[s.drainers[d].asset].status == PENDING
    ensures Step(s, Persist(d, FINE)) == s.(drainers := s.drainers - {d})
  {
    var a := s.drainers[d].asset;
    assert s.cleanups[a := s.cleanups[a].(status := PENDING)] == s.cleanups;
  }

  /** The clean-up of an upload is blocked for safety only when its object cannot be read. */
  lemma {:induction false} MatchingIsSure(events: seq<Event>, d: nat)
    requires AllInTime(NOTHING, events) && d in After(NOTHING, events).drainers
    requires After(NOTHING, events).drainers[d].phase == Listed
    requires Unfinished(After(NOTHING, events), After(NOTHING, events).drainers[d].asset)
    ensures var n := DoHead(After(NOTHING, events), d, SEEN);
            n.drainers[d].phase == Matched || n.drainers[d].phase == Verdict(COMPLETED)
  {
    Reachable(events);
  }

  /** While a conversation is being closed, none of its rows is added or made available. */
  predicate NoNewRows(s: System, n: System, c: Conversation) {
    forall a: Asset | a in n.assets && a.conversation == c :: a in s.assets && n.assets[a] == s.assets[a]
  }

  lemma ConfirmedAddsNone(s: System, b: Asset, commit: Commit, c: Conversation)
    requires !Open(s, c)
    ensures NoNewRows(s, Confirmed(s, b, commit), c)
  {
  }

  lemma BeginAddsNone(s: System, u: nat, commit: Commit, c: Conversation)
    requires !Open(s, c) && u in s.uploads
    ensures NoNewRows(s, DoBegin(s, u, commit), c)
  {
    var b := s.uploads[u].asset;
    if Open(s, b.conversation) && b !in s.assets && commit != FAILED {
      var added := s.(assets := s.assets[b := Row(s.uploads[u].digest, WAITING)]);
      assert DoBegin(s, u, commit).assets == s.assets || DoBegin(s, u, commit).assets == added.assets;
    } else {
      BeginTurnsOnly(s, u, commit);
    }
  }

  lemma BeginTurnsOnly(s: System, u: nat, commit: Commit)
    requires u in s.uploads
    requires !Open(s, s.uploads[u].asset.conversation) || s.uploads[u].asset in s.assets || commit == FAILED
    ensures DoBegin(s, u, commit).assets == s.assets
  {
  }

  lemma PutLeavesRows(s: System, u: nat, put: PutResult)
    requires u in s.uploads
    ensures DoPut(s, u, put).assets == s.assets
  {
  }

  lemma HeadLeavesRows(s: System, d: nat, head: HeadResult)
    requires d in s.drainers
    ensures DoHead(s, d, head).assets == s.assets
  {
  }

  lemma RemoveLeavesRows(s: System, d: nat, remove: RemoveResult)
    requires d in s.drainers
    ensures DoRemove(s, d, remove).assets == s.assets
  {
  }

  lemma PersistLeavesRows(s: System, d: nat, commit: Commit)
    requires d in s.drainers
    ensures DoPersist(s, d, commit).assets == s.assets
  {
  }

  lemma DrainAddsNone(s: System, e: Event, c: Conversation)
    requires e.List? || e.Head? || e.Remove? || e.Persist?
    ensures NoNewRows(s, Step(s, e), c)
  {
    match e
    case Head(d, head) => if d in s.drainers { HeadLeavesRows(s, d, head); }
    case Remove(d, remove) => if d in s.drainers { RemoveLeavesRows(s, d, remove); }
    case Persist(d, commit) => if d in s.drainers { PersistLeavesRows(s, d, commit); }
    case List(d, a) =>
  }

  lemma UploadAddsNone(s: System, e: Event, c: Conversation)
    requires !Open(s, c) && (e.Begin? || e.Put? || e.Confirm? || e.Adopt?)
    ensures NoNewRows(s, Step(s, e), c)
  {
    match e
    case Begin(u, commit) => if u in s.uploads { BeginAddsNone(s, u, commit, c); }
    case Put(u, put) => if u in s.uploads { PutLeavesRows(s, u, put); }
    case Confirm(u, commit) => if u in s.uploads { ConfirmedAddsNone(s, s.uploads[u].asset, commit, c); }
    case Adopt(r, commit) => if r in s.readers { ConfirmedAddsNone(s, s.readers[r], commit, c); }
  }

  /** A conversation that is fenced or gone takes no image any more. */
  lemma ClosedTakesNothing(s: System, e: Event, c: Conversation)
    requires !Open(s, c)
    ensures NoNewRows(s, Step(s, e), c)
  {
    if e.List? || e.Head? || e.Remove? || e.Persist? {
      DrainAddsNone(s, e, c);
    } else if e.Begin? || e.Put? || e.Confirm? || e.Adopt? {
      UploadAddsNone(s, e, c);
    }
  }

  /** A delete begins only with the fence as its caller left it and no upload of the conversation running. */
  lemma {:induction false} DeleteWaitsForUploads(events: seq<Event>, c: Conversation, closing: bool)
    requires AllInTime(NOTHING, events) && Step(After(NOTHING, events), Lock(c, closing)) != After(NOTHING, events)
    ensures var s := After(NOTHING, events);
            && c in s.live && s.live[c] == closing && c !in s.locked
            && forall u | u in s.uploads :: s.uploads[u].asset.conversation != c
  {
    Reachable(events);
    NobodyUploads(After(NOTHING, events), c);
  }

  // ---- what undisturbed work achieves ----

  /** An object that is not the clean-up's, or cannot be read, stays, and the clean-up is blocked. */
  lemma ForeignObjectStays(s: System, d: nat, head: HeadResult)
    requires d in s.drainers && s.drainers[d].phase == Listed && head != NO_ANSWER
    requires s.drainers[d].asset in s.cleanups && s.cleanups[s.drainers[d].asset].status == PENDING
    requires head == SEEN ==> s.drainers[d].asset in s.storage && s.storage[s.drainers[d].asset] != s.drainers[d].digest
    ensures var a, n := s.drainers[d].asset, Step(Step(Step(s, Head(d, head)), Remove(d, REMOVED)), Persist(d, FINE));
            && n.cleanups == s.cleanups[a := s.cleanups[a].(status := SAFETY_BLOCKED)]
            && n.storage == s.storage && n.drainers == s.drainers - {d}
  {
    var judged := Judged(s, d, Verdict(SAFETY_BLOCKED));
    HeadBlocksIt(s, d, head);
    assert Step(judged, Remove(d, REMOVED)) == judged;
    assert judged.drainers - {d} == s.drainers - {d};
  }

  lemma HeadBlocksIt(s: System, d: nat, head: HeadResult)
    requires d in s.drainers && s.drainers[d].phase == Listed && head != NO_ANSWER
    requires head == SEEN ==> s.drainers[d].asset in s.storage && s.storage[s.drainers[d].asset] != s.drainers[d].digest
    ensures Step(s, Head(d, head)) == Judged(s, d, Verdict(SAFETY_BLOCKED))
  {
  }

  /** An upload whose last step was lost is made available by reconciling, from its object and nothing else. */
  lemma ReconcileAdopts(s: System, r: nat, a: Asset)
    requires r !in s.readers && Open(s, a.conversation) && a.conversation !in s.locked
    ensures var n := Step(Step(s, Look(r, a)), Adopt(r, FINE));
            n.assets == if a in s.assets && s.assets[a].status == WAITING && a in s.storage && s.storage[a] == s.assets[a].digest
                        then s.assets[a := Row(s.assets[a].digest, AVAILABLE)] else s.assets
  {
    var looked := Step(s, Look(r, a));
    assert looked == s || looked == s.(readers := s.readers[r := a]);
  }

  /** An undisturbed upload of a new image: its row is available, its object stored, its activity over. */
  lemma {:induction false} UploadTakesEffect(s: System, u: nat, a: Asset, digest: Digest)
    requires u !in s.uploads && Open(s, a.conversation) && a.conversation !in s.locked && a !in s.assets
    ensures var n := Uploaded(s, u, a, digest);
            && n.assets == s.assets[a := Row(digest, AVAILABLE)] && n.storage == s.storage[a := digest]
            && n.uploads == s.uploads && Counted(n.active, a.conversation) == Counted(s.active, a.conversation)
            && n.live == s.live && n.cleanups == s.cleanups
  {
    var entered := Step(s, Enter(u, a, digest));
    assert entered.uploads[u] == Upload(a, digest, Entering);
    var begun := Step(entered, Begin(u, FINE));
    assert begun.assets == s.assets[a := Row(digest, WAITING)] && begun.uploads[u] == Upload(a, digest, Writing);
    StoreAndConfirm(begun, u, a, digest);
    var n := Uploaded(s, u, a, digest);
    assert n.uploads == s.uploads;
  }

  function Uploaded(s: System, u: nat, a: Asset, digest: Digest): System {
    Stored(Step(Step(s, Enter(u, a, digest)), Begin(u, FINE)), u)
  }

  function Stored(s: System, u: nat): System {
    Step(Step(Step(s, Put(u, STORED)), Confirm(u, FINE)), Exit(u))
  }

  lemma StoreAndConfirm(s: System, u: nat, a: Asset, digest: Digest)
    requires u in s.uploads && s.uploads[u] == Upload(a, digest, Writing)
    requires Open(s, a.conversation) && a.conversation !in s.locked && a in s.assets && s.assets[a] == Row(digest, WAITING)
    ensures var n := Stored(s, u);
            && n.assets == s.assets[a := Row(digest, AVAILABLE)] && n.storage == s.storage[a := digest]
            && n.uploads == s.uploads - {u} && n.active == Left(s.active, a.conversation)
            && n.live == s.live && n.cleanups == s.cleanups
  {
    var put := Step(s, Put(u, STORED));
    assert put.uploads[u] == Upload(a, digest, Written) && put.storage == s.storage[a := digest];
    var confirmed := Step(put, Confirm(u, FINE));
    assert confirmed.uploads[u] == Upload(a, digest, Leaving);
    assert confirmed.assets == s.assets[a := Row(digest, AVAILABLE)];
  }

  /** A deletion turns every row into a pending clean-up, and draining one removes its object and completes it. */
  lemma {:induction false} DeletionCleansUp(s: System, c: Conversation, d: nat, a: Asset, commit: Commit)
    requires Inv(s) && c in s.live && c !in s.locked && !s.live[c] && Counted(s.active, c) == 0
    requires a in s.assets && a.conversation == c && d !in s.drainers && commit != FAILED
    ensures var gone := Step(Step(s, Lock(c, false)), Delete(c, commit)); var n := Drained(gone, d, a);
            && c !in n.live && (forall b | b in s.assets && b.conversation == c :: b !in n.assets && b in n.cleanups)
            && a !in n.storage && n.cleanups[a].status == COMPLETED && n.drainers == s.drainers
  {
    var gone := Step(Step(s, Lock(c, false)), Delete(c, commit));
    StepKeeps(s, Lock(c, false));
    StepKeeps(Step(s, Lock(c, false)), Delete(c, commit));
    assert gone.cleanups[a] == Cleanup(s.assets[a].digest, PENDING) && a !in gone.assets;
    assert gone.drainers == s.drainers && gone.storage == s.storage;
    DrainCompletes(gone, d, a);
  }

  function Drained(s: System, d: nat, a: Asset): System {
    Step(Step(Step(Step(s, List(d, a)), Head(d, SEEN)), Remove(d, REMOVED)), Persist(d, FINE))
  }

  lemma DrainCompletes(s: System, d: nat, a: Asset)
    requires a in s.cleanups && s.cleanups[a].status == PENDING && d !in s.drainers
    requires a in s.storage ==> s.storage[a] == s.cleanups[a].digest
    ensures var n := Drained(s, d, a);
            && n.cleanups == s.cleanups[a := s.cleanups[a].(status := COMPLETED)] && a !in n.storage
            && n.drainers == s.drainers && n.live == s.live && n.assets == s.assets
  {
    var drainer := Drainer(a, s.cleanups[a].digest, Listed);
    var listed := s.(drainers := s.drainers[d := drainer]);
    assert Step(s, List(d, a)) == listed;
    var removed := listed.(storage := s.storage - {a}, drainers := s.drainers[d := drainer.(phase := Verdict(COMPLETED))]);
    LookAndRemove(listed, d, removed);
    PersistCompletes(removed, d);
    assert removed.drainers - {d} == s.drainers;
  }

  lemma LookAndRemove(s: System, d: nat, n: System)
    requires d in s.drainers && s.drainers[d].phase == Listed
    requires s.drainers[d].asset in s.storage ==> s.storage[s.drainers[d].asset] == s.drainers[d].digest
    requires n == s.(storage := s.storage - {s.drainers[d].asset},
                     drainers := s.drainers[d := s.drainers[d].(phase := Verdict(COMPLETED))])
    ensures Step(Step(s, Head(d, SEEN)), Remove(d, REMOVED)) == n
  {
    HeadSees(s, d);
    var seen := Step(s, Head(d, SEEN));
    RemoveRemoves(seen, d);
    assert seen.drainers[d := n.drainers[d]] == n.drainers;
  }

  lemma PersistCompletes(s: System, d: nat)
    requires d in s.drainers && s.drainers[d].phase == Verdict(COMPLETED)
    requires s.drainers[d].asset in s.cleanups && s.cleanups[s.drainers[d].asset].status == PENDING
    ensures var a := s.drainers[d].asset;
            Step(s, Persist(d, FINE)) == s.(drainers := s.drainers - {d},
                                            cleanups := s.cleanups[a := s.cleanups[a].(status := COMPLETED)])
  {
  }

  lemma HeadSees(s: System, d: nat)
    requires d in s.drainers && s.drainers[d].phase == Listed
    requires s.drainers[d].asset in s.storage ==> s.storage[s.drainers[d].asset] == s.drainers[d].digest
    ensures Step(s, Head(d, SEEN)) == Judged(s, d, if s.drainers[d].asset in s.storage then Matched else Verdict(COMPLETED))
  {
  }

  lemma RemoveRemoves(s: System, d: nat)
    requires d in s.drainers
    requires s.drainers[d].phase == if s.drainers[d].asset in s.storage then Matched else Verdict(COMPLETED)
    ensures var n := Step(s, Remove(d, REMOVED));
            n == Judged(s.(storage := s.storage - {s.drainers[d].asset}), d, Verdict(COMPLETED))
  {
    if s.drainers[d].asset !in s.storage {
      assert s.storage - {s.drainers[d].asset} == s.storage;
      assert s.drainers == s.drainers[d := s.drainers[d].(phase := Verdict(COMPLETED))];
    }
  }

  // ---- a put that arrives too late ----

  /** `InTime` asks for no more than it must: a put on its way may land if and only if whatever then happens
      in time leaves everything tracked. */
  lemma {:induction false} InTimeExactly(events: seq<Event>, a: Asset, digest: Digest)
    requires AllInTime(NOTHING, events) && (a, digest) in After(NOTHING, events).late
    ensures var s := After(NOTHING, events); var n := Step(s, Land(a, digest));
            InTime(s, Land(a, digest)) <==> forall more | AllInTime(n, more) :: Tracked(After(n, more))
  {
    var s, n := After(NOTHING, events), Step(After(NOTHING, events), Land(a, digest));
    Reachable(events);
    if InTime(s, Land(a, digest)) {
      LandKeeps(s, a, digest);
      forall more | AllInTime(n, more) ensures Tracked(After(n, more)) { RunKeeps(n, more); }
    } else {
      var more := OverduePutEscapes(s, a, digest);
    }
  }

  lemma OverduePutEscapes(s: System, a: Asset, digest: Digest) returns (more: seq<Event>)
    requires Owned(s) && (a, digest) in s.late && Over(s, a)
    ensures var n := Step(s, Land(a, digest)); AllInTime(n, more) && !Tracked(After(n, more))
  {
    var n := Step(s, Land(a, digest));
    if s.cleanups[a].status == COMPLETED {
      more := [];
    } else {
      var d :| d in s.drainers && s.drainers[d].asset == a && s.drainers[d].phase == Verdict(COMPLETED);
      more := [Persist(d, FINE)];
      PersistCompletes(n, d);
      OneEvent(n, Persist(d, FINE));
    }
  }

  lemma OneEvent(s: System, e: Event)
    requires !e.Land?
    ensures AllInTime(s, [e]) && After(s, [e]) == Step(s, e)
  {
    assert [e][..0] == [];
  }

  /** Should a put arrive after the clean-up completed, its object is orphaned for ever: the guarantee
      rests on storage requests not outliving their call or process. */
  lemma {:induction false} LatePutEscapes(events: seq<Event>, a: Asset, digest: Digest, more: seq<Event>)
    requires AllInTime(NOTHING, events) && (a, digest) in After(NOTHING, events).late
    requires a in After(NOTHING, events).cleanups && After(NOTHING, events).cleanups[a].status == COMPLETED
    requires forall d | d in After(NOTHING, events).drainers :: After(NOTHING, events).drainers[d].asset != a
    ensures Escaped(After(Step(After(NOTHING, events), Land(a, digest)), more), a)
    ensures !Tracked(After(Step(After(NOTHING, events), Land(a, digest)), more))
    decreases |more|
  {
    var landed := Step(After(NOTHING, events), Land(a, digest));
    if more == [] {
      Reachable(events);
    } else {
      LatePutEscapes(events, a, digest, more[..|more| - 1]);
      StepSpares(After(landed, more[..|more| - 1]), more[|more| - 1], a);
    }
  }

  predicate Reaches(events: seq<Event>, s: System) {
    AllInTime(NOTHING, events) && After(NOTHING, events) == s
  }

  lemma Then(events: seq<Event>, s: System, e: Event, n: System)
    requires Reaches(events, s) && !e.Land? && Step(s, e) == n
    ensures Reaches(events + [e], n)
  {
    assert (events + [e])[..|events + [e]| - 1] == events;
  }

  function DelayedUpload(a: Asset, digest: Digest, u: nat): seq<Event> {
    [Create(a.conversation)] + [Enter(u, a, digest)] + [Begin(u, FINE)] + [Put(u, DELAYED)]
  }

  /** A put is given up on, its conversation deleted and its clean-up drained; then it lands. */
  function LateRun(a: Asset, digest: Digest, u: nat, d: nat): seq<Event> {
    DelayedUpload(a, digest, u) + [Exit(u)] + [Lock(a.conversation, false)] + [Delete(a.conversation, FINE)]
    + [List(d, a)] + [Head(d, SEEN)] + [Persist(d, FINE)]
  }

  lemma UploadDelayed(a: Asset, digest: Digest, u: nat)
    ensures Reaches(DelayedUpload(a, digest, u),
                    NOTHING.(created := {a.conversation}, live := map[a.conversation := false],
                             assets := map[a := Row(digest, WAITING)], late := {(a, digest)},
                             uploads := map[u := Upload(a, digest, Leaving)], active := map[a.conversation := 1]))
  {
    var c, begin := a.conversation, [Create(a.conversation)] + [Enter(u, a, digest)];
    var s := NOTHING.(created := {c}, live := map[c := false]);
    var entered := s.(uploads := map[u := Upload(a, digest, Entering)], active := map[c := 1]);
    var begun := entered.(assets := map[a := Row(digest, WAITING)], uploads := map[u := Upload(a, digest, Writing)]);
    assert [] + [Create(c)] == [Create(c)];
    Then([], NOTHING, Create(c), s);
    Then([Create(c)], s, Enter(u, a, digest), entered);
    BeginWrites(entered, begun, u);
    Then(begin, entered, Begin(u, FINE), begun);
    DelayLeaves(begun, u);
    Then(begin + [Begin(u, FINE)], begun, Put(u, DELAYED), Step(begun, Put(u, DELAYED)));
  }

  lemma BeginWrites(s: System, n: System, u: nat)
    requires u in s.uploads && s.uploads[u].phase == Entering && s.locked == {}
    requires Open(s, s.uploads[u].asset.conversation) && s.uploads[u].asset !in s.assets
    requires n == s.(assets := s.assets[s.uploads[u].asset := Row(s.uploads[u].digest, WAITING)],
                     uploads := s.uploads[u := s.uploads[u].(phase := Writing)])
    ensures Step(s, Begin(u, FINE)) == n
  {
  }

  lemma DelayLeaves(s: System, u: nat)
    requires u in s.uploads && s.uploads[u].phase == Writing
    ensures Step(s, Put(u, DELAYED)) == s.(late := s.late + {(s.uploads[u].asset, s.uploads[u].digest)},
                                           uploads := s.uploads[u := s.uploads[u].(phase := Leaving)])
  {
  }

  lemma RowGone(s: System, a: Asset, digest: Digest)
    requires s.live == map[a.conversation := false] && s.locked == {a.conversation} && s.cleanups == map[]
    requires s.assets == map[a := Row(digest, WAITING)]
    ensures Step(s, Delete(a.conversation, FINE))
            == s.(live := map[], locked := {}, assets := map[], cleanups := map[a := Cleanup(digest, PENDING)])
  {
    assert Queued(s, a.conversation) == map[a := Cleanup(digest, PENDING)];
  }

  lemma CleanupDrained(events: seq<Event>, s: System, a: Asset, digest: Digest, d: nat)
    requires Reaches(events, s) && s.drainers == map[] && s.storage == map[]
    requires s.cleanups == map[a := Cleanup(digest, PENDING)]
    ensures Reaches(events + [List(d, a)] + [Head(d, SEEN)] + [Persist(d, FINE)],
                    s.(cleanups := map[a := Cleanup(digest, COMPLETED)]))
  {
    var listed := s.(drainers := map[d := Drainer(a, digest, Listed)]);
    Then(events, s, List(d, a), listed);
    NothingFound(events + [List(d, a)], listed, a, digest, d);
  }

  lemma NothingFound(events: seq<Event>, s: System, a: Asset, digest: Digest, d: nat)
    requires Reaches(events, s) && s.drainers == map[d := Drainer(a, digest, Listed)] && s.storage == map[]
    requires s.cleanups == map[a := Cleanup(digest, PENDING)]
    ensures Reaches(events + [Head(d, SEEN)] + [Persist(d, FINE)],
                    s.(cleanups := map[a := Cleanup(digest, COMPLETED)], drainers := map[]))
  {
    var seen := s.(drainers := map[d := Drainer(a, digest, Verdict(COMPLETED))]);
    HeadSees(s, d);
    Then(events, s, Head(d, SEEN), seen);
    PersistCompletes(seen, d);
    assert seen.drainers - {d} == map[];
    assert seen.cleanups[a := Cleanup(digest, COMPLETED)] == map[a := Cleanup(digest, COMPLETED)];
    Then(events + [Head(d, SEEN)], seen, Persist(d, FINE), Step(seen, Persist(d, FINE)));
  }

  /** It does happen: the clean-up finds nothing and completes before the put lands. */
  lemma LatePutHappens(a: Asset, digest: Digest, u: nat, d: nat)
    ensures var events := LateRun(a, digest, u, d);
            && AllInTime(NOTHING, events)
            && forall more :: !Tracked(After(Step(After(NOTHING, events), Land(a, digest)), more))
  {
    LateRunDrains(a, digest, u, d);
    forall more {
      LatePutEscapes(LateRun(a, digest, u, d), a, digest, more);
    }
  }

  lemma LateRunDrains(a: Asset, digest: Digest, u: nat, d: nat)
    ensures Reaches(LateRun(a, digest, u, d), NOTHING.(created := {a.conversation}, late := {(a, digest)},
                                                       cleanups := map[a := Cleanup(digest, COMPLETED)]))
  {
    var events := DelayedUpload(a, digest, u);
    UploadDelayed(a, digest, u);
    var delayed := After(NOTHING, events);
    var left := delayed.(uploads := map[], active := map[]);
    Then(events, delayed, Exit(u), left);
    ConversationDeleted(events + [Exit(u)], left, a, digest);
    CleanupDrained(events + [Exit(u)] + [Lock(a.conversation, false)] + [Delete(a.conversation, FINE)],
                   left.(live := map[], assets := map[], cleanups := map[a := Cleanup(digest, PENDING)]), a, digest, d);
  }

  lemma ConversationDeleted(events: seq<Event>, s: System, a: Asset, digest: Digest)
    requires Reaches(events, s) && s.live == map[a.conversation := false] && s.locked == {} && s.cleanups == map[]
    requires s.active == map[] && s.assets == map[a := Row(digest, WAITING)]
    ensures Reaches(events + [Lock(a.conversation, false)] + [Delete(a.conversation, FINE)],
                    s.(live := map[], assets := map[], cleanups := map[a := Cleanup(digest, PENDING)]))
  {
    var c := a.conversation;
    var locked := s.(locked := {c});
    Then(events, s, Lock(c, false), locked);
    RowGone(locked, a, digest);
    Then(events + [Lock(c, false)], locked, Delete(c, FINE), Step(locked, Delete(c, FINE)));
  }
}
