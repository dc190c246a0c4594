/**
 The durable TC4 receipts. `ReceiptStore` runs one request at a time (its callers
 hold the execution lock), may crash before any durable step, and keeps a history
 of what was on disk, which is what an unlocked reader can see.
 */
module ReceiptStores {
  import opened Options

  type Identity = nat
  type Bytes = seq<bv8>

  datatype Status = OUTCOME_UNKNOWN | SUCCEEDED | FAILED | DELETED
  datatype Role = Overlay | Mask
  datatype Descriptor = Descriptor(sha256: nat, sizeBytes: nat)
  datatype Request = Request(requestId: Identity, context: nat, sha256: nat)
  datatype Receipt = Receipt(request: Request, status: Status, artifacts: map<Role, Descriptor>)

  /** One identity's directory: receipt.json and the two images. Temporary files are never read. */
  datatype Directory = Directory(receipt: Option<Receipt>, files: map<Role, Bytes>)
  type Disk = map<Identity, Directory>

  function At(disk: Disk, id: Identity): Directory {
    if id in disk then disk[id] else Directory(None, map[])
  }

  // ---- the state machine of one identity ----

  /** absent -> OUTCOME_UNKNOWN -> SUCCEEDED/FAILED -> DELETED, or absent -> DELETED. */
  predicate Moves(before: Option<Receipt>, after: Option<Receipt>) {
    match (before, after)
    case (None, None) => true
    case (None, Some(r)) => r.status in {OUTCOME_UNKNOWN, DELETED}
    case (Some(_), None) => false
    case (Some(r), Some(t)) =>
      && r.request == t.request
      && match r.status
         case OUTCOME_UNKNOWN => t == r || t.status in {SUCCEEDED, FAILED}
         case DELETED => t == r
         case _ => t == r || t.status == DELETED
  }

  predicate Shrinks(files: map<Role, Bytes>, after: map<Role, Bytes>) {
    forall role | role in after :: role in files && after[role] == files[role]
  }

  /** One durable step, seen from one identity. */
  predicate Evolves(before: Directory, after: Directory) {
    && Moves(before.receipt, after.receipt)
    && (before.receipt.Some? && before.receipt.value.status in {SUCCEEDED, FAILED} ==>
          if after.receipt.value.status == DELETED then Shrinks(before.files, after.files) else after.files == before.files)
    && (before.receipt.Some? && before.receipt.value.status == DELETED ==> Shrinks(before.files, after.files))
  }

  predicate Recorded(hash: Bytes -> nat, content: Bytes, descriptor: Descriptor) {
    descriptor.sha256 == hash(content) && descriptor.sizeBytes == |content|
  }

  /** A SUCCEEDED receipt stands beside both images it describes; without a receipt there is no image. */
  predicate Agrees(hash: Bytes -> nat, id: Identity, d: Directory) {
    match d.receipt
    case None => d.files == map[]
    case Some(r) =>
      && r.request.requestId == id
      && (if r.status == SUCCEEDED then
            && r.artifacts.Keys == d.files.Keys == {Overlay, Mask}
            && (forall role | role in d.files :: Recorded(hash, d.files[role], r.artifacts[role]))
          else r.artifacts == map[])
  }

  ghost predicate Sound(hash: Bytes -> nat, disk: Disk) {
    forall id: Identity :: Agrees(hash, id, At(disk, id))
  }

  /** No identity moves otherwise than one durable step allows. */
  ghost predicate Follows(before: Disk, after: Disk) {
    forall id: Identity :: Evolves(At(before, id), At(after, id))
  }

  ghost predicate Adjacent(disks: seq<Disk>, i: nat)
    requires 0 < i < |disks|
  {
    Follows(disks[i - 1], disks[i])
  }

  /** Everything that was ever on disk, one durable step after the other. */
  ghost predicate History(hash: Bytes -> nat, disks: seq<Disk>) {
    && (forall i | 0 <= i < |disks| :: Sound(hash, disks[i]))
    && (forall i | 0 < i < |disks| :: Adjacent(disks, i))
  }

  // ---- what a history guarantees ----

  predicate Precedes(before: Option<Receipt>, after: Option<Receipt>) {
    match (before, after)
    case (None, _) => true
    case (Some(_), None) => false
    case (Some(r), Some(t)) =>
      && r.request == t.request
      && (r.status in {SUCCEEDED, FAILED} ==> t == r || t.status == DELETED)
      && (r.status == DELETED ==> t == r)
  }

  /** The recorded request never changes and no status is ever taken back. */
  lemma {:induction false} StatusOnlyAdvances(hash: Bytes -> nat, disks: seq<Disk>, id: Identity, i: nat, j: nat)
    requires History(hash, disks) && i <= j < |disks|
    ensures Precedes(At(disks[i], id).receipt, At(disks[j], id).receipt)
    decreases j - i
  {
    if i < j {
      StatusOnlyAdvances(hash, disks, id, i, j - 1);
      assert Adjacent(disks, j);
    }
  }

  /** From SUCCEEDED on, an image is the recorded one for as long as it exists. */
  lemma {:induction false} ImagesNeverChange(hash: Bytes -> nat, disks: seq<Disk>, id: Identity, i: nat, j: nat)
    requires History(hash, disks) && i <= j < |disks|
    requires At(disks[i], id).receipt.Some? && At(disks[i], id).receipt.value.status in {SUCCEEDED, FAILED, DELETED}
    ensures Shrinks(At(disks[i], id).files, At(disks[j], id).files)
    decreases j - i
  {
    if i < j {
      ImagesNeverChange(hash, disks, id, i, j - 1);
      StatusOnlyAdvances(hash, disks, id, i, j - 1);
      assert Adjacent(disks, j);
    }
  }

  /** An unlocked `get` reads the receipt and later the image. Whatever ran in between, an image it
      finds is the recorded one: its digest check only fails if the disk is corrupted. */
  lemma UnlockedReadAgrees(hash: Bytes -> nat, disks: seq<Disk>, id: Identity, role: Role, i: nat, j: nat)
    requires History(hash, disks) && i <= j < |disks|
    requires At(disks[i], id).receipt.Some? && At(disks[i], id).receipt.value.status == SUCCEEDED
    requires role in At(disks[j], id).files
    ensures role in At(disks[i], id).receipt.value.artifacts
    ensures Recorded(hash, At(disks[j], id).files[role], At(disks[i], id).receipt.value.artifacts[role])
  {
    ImagesNeverChange(hash, disks, id, i, j);
    assert Sound(hash, disks[i]) && Agrees(hash, id, At(disks[i], id));
  }

  predicate Emptied(d: Directory) {
    d.receipt.Some? && d.receipt.value.status == DELETED && d.files == map[]
  }

  /** Once deleted and emptied, an identity stays so. */
  lemma DeletedForGood(hash: Bytes -> nat, disks: seq<Disk>, id: Identity, i: nat, j: nat)
    requires History(hash, disks) && i <= j < |disks|
    requires Emptied(At(disks[i], id))
    ensures At(disks[j], id) == At(disks[i], id)
  {
    StatusOnlyAdvances(hash, disks, id, i, j);
    ImagesNeverChange(hash, disks, id, i, j);
    assert At(disks[j], id).files.Keys == {};
  }

  lemma DirectoryMoves(hash: Bytes -> nat, disk: Disk, id: Identity, d: Directory)
    requires Sound(hash, disk) && Agrees(hash, id, d) && Evolves(At(disk, id), d)
    ensures Sound(hash, disk[id := d]) && Follows(disk, disk[id := d])
  {
    var after := disk[id := d];
    forall other: Identity ensures Agrees(hash, other, At(after, other)) && Evolves(At(disk, other), At(after, other)) {
      if other != id {
        assert At(after, other) == At(disk, other) && Agrees(hash, other, At(disk, other));
      }
    }
  }

  lemma HistoryGrows(hash: Bytes -> nat, disks: seq<Disk>, disk: Disk)
    requires History(hash, disks) && disks != [] && Sound(hash, disk) && Follows(disks[|disks| - 1], disk)
    ensures History(hash, disks + [disk])
  {
    var longer := disks + [disk];
    forall i | 0 < i < |longer| ensures Adjacent(longer, i) {
      assert i < |disks| ==> Adjacent(disks, i);
    }
  }

  // ---- the store ----

  datatype Inference = Computed(overlay: Bytes, mask: Bytes) | EngineRaised | Died

  /** What befalls one durable step, before it takes effect. */
  datatype Fault = NONE | IO_ERROR | CRASH
  datatype Outcome = Replied(receipt: Receipt) | Refused | Failed | Crashed

  predicate Smooth(faults: seq<Fault>) {
    forall i | 0 <= i < |faults| :: faults[i] == NONE
  }

  function Lost(fault: Fault): Outcome {
    if fault == CRASH then Crashed else Outcome.Failed
  }

  function Described(hash: Bytes -> nat, files: map<Role, Bytes>): map<Role, Descriptor> {
    map role | role in files :: Descriptor(hash(files[role]), |files[role]|)
  }

  /** The directory a first request leaves behind, whatever befell it. */
  predicate Attempted(request: Request, engine: Inference, d: Directory, r: Outcome) {
    && (d.receipt.None? || d.receipt.value.request == request)
    && (if r.Replied? then
          && d.receipt == Some(r.receipt)
          && (r.receipt.status == SUCCEEDED || r.receipt.status == Status.FAILED)
          && (r.receipt.status == SUCCEEDED ==>
                engine.Computed? && d.files == map[Overlay := engine.overlay, Mask := engine.mask])
        else
          !r.Refused? && (d.receipt.None? || d.receipt.value.status == OUTCOME_UNKNOWN))
  }

  datatype Call = Run(request: Request, engine: Inference, faults: seq<Fault>) | Delete(request: Request,
                      faults: seq<Fault>) {
    predicate Planned() {
      |faults| == if Run? then 4 else 3
    }
  }

  class ReceiptStore {
    const hash: Bytes -> nat
    var disk: Disk
    ghost var history: seq<Disk>
    ghost var runs: seq<Identity>

    /** `runs` lists the executions of the engine. */
    ghost predicate Valid()
      reads this
    {
      && history != [] && history[|history| - 1] == disk && History(hash, history)
      && (forall i | 0 <= i < |runs| :: At(disk, runs[i]).receipt.Some?)
      && (forall i, j | 0 <= i < j < |runs| :: runs[i] != runs[j])
    }

    constructor (hash: Bytes -> nat)
      ensures Valid() && disk == map[] && runs == [] && history == [map[]] && this.hash == hash
    {
      this.hash := hash;
      disk, runs, history := map[], [], [map[]];
    }

    /** The last step of `write`: the complete temporary file replaces the named one. */
    method Replace(id: Identity, d: Directory, fault: Fault) returns (done: bool)
      requires Valid() && Agrees(hash, id, d) && Evolves(At(disk, id), d)
      modifies this`disk, this`history
      ensures Valid() && done == (fault == NONE)
      ensures disk == (if done then old(disk)[id := d] else old(disk))
      ensures history == (if done then old(history) + [disk] else old(history))
    {
      done := fault == NONE;
      if done {
        DirectoryMoves(hash, disk, id, d);
        HistoryGrows(hash, history, disk[id := d]);
        forall i | 0 <= i < |runs| ensures At(disk[id := d], runs[i]).receipt.Some? {
          assert At(disk, runs[i]).receipt.Some?;
        }
        disk := disk[id := d];
        history := history + [disk];
      }
    }

    /** Both images go to disk while the receipt still says OUTCOME_UNKNOWN. */
    method StoreImages(receipt: Receipt, engine: Inference, faults: seq<Fault>) returns (lost: Fault)
      requires Valid() && engine.Computed? && |faults| == 2
      requires receipt.status == OUTCOME_UNKNOWN && At(disk, receipt.request.requestId) == Directory(Some(receipt), map[])
      modifies this`disk, this`history
      ensures Valid() && old(history) <= history
      ensures disk == old(disk)[receipt.request.requestId := At(disk, receipt.request.requestId)]
      ensures At(disk, receipt.request.requestId).receipt == Some(receipt)
      ensures lost == NONE <==> Smooth(faults)
      ensures lost == NONE ==>
                At(disk, receipt.request.requestId).files == map[Overlay := engine.overlay, Mask := engine.mask]
    {
      var id := receipt.request.requestId;
      assert Sound(hash, disk) && Agrees(hash, id, At(disk, id));
      var files := map[Overlay := engine.overlay];
      var done := Replace(id, Directory(Some(receipt), files), faults[0]);
      if !done {
        return faults[0];
      }
      done := Replace(id, Directory(Some(receipt), files[Mask := engine.mask]), faults[1]);
      return faults[1];
    }

    /** A first request runs the engine once, after its OUTCOME_UNKNOWN record is on disk;
        every later one is answered from that record. */
    method Execute(engine: Inference, request: Request, faults: seq<Fault>) returns (r: Outcome)
      requires Valid() && |faults| == 4
      modifies this
      ensures Valid() && old(history) <= history
      ensures forall id | id != request.requestId :: At(disk, id) == old(At(disk, id))
      ensures old(At(disk, request.requestId).receipt).Some? ==>
                && disk == old(disk) && runs == old(runs)
                && r == (if old(At(disk, request.requestId).receipt.value).request == request
                         then Replied(old(At(disk, request.requestId).receipt.value)) else Refused)
      ensures old(At(disk, request.requestId).receipt).None? ==>
                && Attempted(request, engine, At(disk, request.requestId), r)
                && (runs == old(runs) || runs == old(runs) + [request.requestId])
                && (Smooth(faults) && !engine.Died? ==> r.Replied? && (r.receipt.status == SUCCEEDED <==> engine.Computed?))
    {
      var id := request.requestId;
      assert Sound(hash, disk) && Agrees(hash, id, At(disk, id));
      var previous := At(disk, id).receipt;
      if previous.Some? {
        return if previous.value.request != request then Refused else Replied(previous.value);
      }
      r := First(engine, request, faults);
    }

    /** The record comes first; without it the engine does not run. */
    method First(engine: Inference, request: Request, faults: seq<Fault>) returns (r: Outcome)
      requires Valid() && |faults| == 4 && At(disk, request.requestId) == Directory(None, map[])
      modifies this
      ensures Valid() && old(history) <= history
      ensures disk == old(disk)[request.requestId := At(disk, request.requestId)] || disk == old(disk)
      ensures Attempted(request, engine, At(disk, request.requestId), r)
      ensures runs == old(runs) || runs == old(runs) + [request.requestId]
      ensures Smooth(faults) && !engine.Died? ==> r.Replied? && (r.receipt.status == SUCCEEDED <==> engine.Computed?)
    {
      var receipt := Receipt(request, OUTCOME_UNKNOWN, map[]);
      var done := Replace(request.requestId, Directory(Some(receipt), map[]), faults[0]);
      if !done {
        return Lost(faults[0]);
      }
      runs := runs + [request.requestId];
      if engine.Died? {
        return Crashed;
      }
      r := Infer(engine, receipt, faults[1..]);
    }

    /** What the engine returns is stored and the receipt finished. */
    method Infer(engine: Inference, receipt: Receipt, faults: seq<Fault>) returns (r: Outcome)
      requires Valid() && |faults| == 3 && !engine.Died?
      requires receipt.status == OUTCOME_UNKNOWN && At(disk, receipt.request.requestId) == Directory(Some(receipt), map[])
      modifies this`disk, this`history
      ensures Valid() && old(history) <= history
      ensures disk == old(disk)[receipt.request.requestId := At(disk, receipt.request.requestId)]
      ensures Attempted(receipt.request, engine, At(disk, receipt.request.requestId), r)
      ensures Smooth(faults) ==> r.Replied? && (r.receipt.status == SUCCEEDED <==> engine.Computed?)
    {
      var request, id := receipt.request, receipt.request.requestId;
      var lost := if engine.Computed? then NONE else IO_ERROR;
      if engine.Computed? {
        lost := StoreImages(receipt, engine, faults[..2]);
        if lost == CRASH {
          return Crashed;
        }
      }
      var files := At(disk, id).files;
      var final := if lost == NONE then Receipt(request, SUCCEEDED, Described(hash, files))
                   else Receipt(request, Status.FAILED, map[]);
      var done := Replace(id, Directory(Some(final), files), faults[2]);
      r := if done then Replied(final) else Lost(faults[2]);
    }

    /** The tombstone is written before any image goes. */
    method Cleanup(request: Request, faults: seq<Fault>) returns (r: Outcome)
      requires Valid() && |faults| == 3
      modifies this`disk, this`history
      ensures Valid() && old(history) <= history
      ensures forall id | id != request.requestId :: At(disk, id) == old(At(disk, id))
      ensures r == Refused <==>
                (&& old(At(disk, request.requestId).receipt).Some?
                 && (|| old(At(disk, request.requestId).receipt.value).request != request
                     || old(At(disk, request.requestId).receipt.value).status == OUTCOME_UNKNOWN))
      ensures r == Refused ==> disk == old(disk)
      ensures r.Replied? ==> At(disk, request.requestId) == Directory(Some(Receipt(request, DELETED, map[])), map[])
      ensures At(disk, request.requestId).files != old(At(disk, request.requestId)).files ==>
                At(disk, request.requestId).receipt == Some(Receipt(request, DELETED, map[]))
      ensures r != Refused && Smooth(faults) ==> r.Replied?
    {
      var id := request.requestId;
      assert Sound(hash, disk) && Agrees(hash, id, At(disk, id));
      var previous := At(disk, id).receipt;
      if previous.Some? && (previous.value.request != request || previous.value.status == OUTCOME_UNKNOWN) {
        return Refused;
      }
      var receipt := Receipt(request, DELETED, map[]);
      var files := At(disk, id).files;
      var done := Replace(id, Directory(Some(receipt), files), faults[0]);
      if !done {
        return Lost(faults[0]);
      }
      if Overlay in files {
        files := files - {Overlay};
        done := Replace(id, Directory(Some(receipt), files), faults[1]);
        if !done {
          return Lost(faults[1]);
        }
      }
      if Mask in files {
        files := files - {Mask};
        done := Replace(id, Directory(Some(receipt), files), faults[2]);
        if !done {
          return Lost(faults[2]);
        }
      }
      assert files == map[] by {
        forall role: Role ensures role !in files {
          if role != Overlay { assert role == Mask; }
        }
      }
      r := Replied(receipt);
    }

    /** Whatever requests arrive and whatever befalls them: the engine never runs twice for one identity,
        no status is taken back, and a deleted identity stays deleted and empty. */
    method Serve(calls: seq<Call>)
      requires Valid() && forall i | 0 <= i < |calls| :: calls[i].Planned()
      modifies this
      ensures Valid() && old(history) <= history
      ensures forall i, j | 0 <= i < j < |runs| :: runs[i] != runs[j]
      ensures forall id: Identity :: Precedes(At(old(disk), id).receipt, At(disk, id).receipt)
      ensures forall id: Identity :: Emptied(At(old(disk), id)) ==> At(disk, id) == At(old(disk), id)
    {
      var k := 0;
      while k < |calls|
        invariant k <= |calls| && Valid() && old(history) <= history
      {
        var call, r := calls[k], Refused;
        match call {
          case Run(request, engine, faults) => r := Execute(engine, request, faults);
          case Delete(request, faults) => r := Cleanup(request, faults);
        }
        k := k + 1;
      }
      var first := |old(history)| - 1;
      forall id: Identity ensures Precedes(At(old(disk), id).receipt, At(disk, id).receipt) {
        StatusOnlyAdvances(hash, history, id, first, |history| - 1);
      }
      forall id: Identity | Emptied(At(old(disk), id)) ensures At(disk, id) == At(old(disk), id) {
        DeletedForGood(hash, history, id, first, |history| - 1);
      }
    }
  }
}
