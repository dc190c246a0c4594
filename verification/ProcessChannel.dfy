/**
 The process view of one agent run: a channel of revisioned segments on the server, the document it
 saves, and the client that merges what an event stream sends it.
 */
module ProcessChannels {
  import opened Options

  /** Callers build a segment's id from its call and its kind, so the id fixes the kind. */
  datatype Id = Text(call: nat) | Reasoning(call: nat) | Preparing(call: nat) | Retry(call: nat) | Tool(call: nat)

  datatype Status = STREAMING | COMPLETE | INTERRUPTED
  datatype Purpose = PENDING | ANSWER | PROCESS

  /** `body` stands for text and presentation; `stateVersion` is 0 where the key is absent. */
  datatype Value = Value(id: Id, status: Status, purpose: Purpose, body: nat, stateVersion: nat)
  datatype Segment = Segment(value: Value, message: Option<nat>, sequence: nat, revision: nat)
  datatype Content = Content(revision: nat, segments: seq<Segment>)

  predicate Find(segments: seq<Segment>, id: Id, k: int) {
    0 <= k < |segments| && segments[k].value.id == id
  }

  predicate Settled(v: Value) {
    (v.id.Text? || v.id.Reasoning?) && v.status != STREAMING
  }

  /** Stale, identical and reopening values change nothing. */
  predicate Ignored(previous: Segment, v: Value) {
    v.stateVersion < previous.value.stateVersion || v == previous.value
    || (Settled(previous.value) && v.status == STREAMING)
  }

  // ---- one change of the content ----

  function Put(c: Content, v: Value, k: nat): Content
    requires k <= |c.segments|
  {
    var s := Segment(v, None, if k < |c.segments| then c.segments[k].sequence else |c.segments|, c.revision + 1);
    Content(c.revision + 1, if k < |c.segments| then c.segments[k := s] else c.segments + [s])
  }

  predicate Unfinished(s: Segment) {
    s.value.status == STREAMING || s.value.purpose == PENDING
  }

  function Closed(s: Segment, status: Status, message: Option<nat>, revision: nat): Segment {
    var v := s.value.(status := if s.value.status == STREAMING then status else s.value.status);
    if v.purpose == PENDING
    then s.(value := v.(purpose := if message.Some? then ANSWER else PROCESS), message := message, revision := revision)
    else s.(value := v, revision := revision)
  }

  /** The first n segments are closed, each with a revision of its own. */
  function Finished(c: Content, status: Status, message: Option<nat>, n: nat): (r: Content)
    requires n <= |c.segments|
    ensures |r.segments| == |c.segments| && c.revision <= r.revision
    ensures forall i | n <= i < |c.segments| :: r.segments[i] == c.segments[i]
  {
    if n == 0 then c
    else
      var d := Finished(c, status, message, n - 1);
      if Unfinished(c.segments[n - 1])
      then Content(d.revision + 1, d.segments[n - 1 := Closed(c.segments[n - 1], status, message, d.revision + 1)])
      else d
  }

  // ---- what the content always satisfies ----

  /** Sequences are 0, 1, 2 ..., ids and revisions are distinct, no revision exceeds the channel's. */
  predicate Shape(c: Content) {
    && (forall i | 0 <= i < |c.segments| :: c.segments[i].sequence == i && 1 <= c.segments[i].revision <= c.revision)
    && (forall i, j | 0 <= i < j < |c.segments| ::
          c.segments[i].value.id != c.segments[j].value.id && c.segments[i].revision != c.segments[j].revision)
  }

  predicate Follows(s: Segment, t: Segment) {
    && t.value.id == s.value.id && t.sequence == s.sequence && s.revision <= t.revision
    && (s.revision == t.revision ==> s == t)
    && (Settled(s.value) ==> Settled(t.value)) && s.value.stateVersion <= t.value.stateVersion
  }

  /** Segments are never dropped or moved, their content changes only under a higher revision, the state they
      show never goes back, and a settled text or reasoning never streams again. */
  predicate Later(before: seq<Segment>, after: seq<Segment>) {
    |before| <= |after| && forall i | 0 <= i < |before| :: Follows(before[i], after[i])
  }

  lemma PutKeeps(c: Content, v: Value, k: nat)
    requires Shape(c) && k <= |c.segments|
    requires if k < |c.segments| then c.segments[k].value.id == v.id && !Ignored(c.segments[k], v)
             else forall i | 0 <= i < |c.segments| :: c.segments[i].value.id != v.id
    ensures Shape(Put(c, v, k)) && Later(c.segments, Put(c, v, k).segments)
  {
    var n := Put(c, v, k);
    forall i | 0 <= i < |c.segments| ensures Follows(c.segments[i], n.segments[i]) {
    }
  }

  lemma LaterIsTransitive(a: seq<Segment>, b: seq<Segment>, c: seq<Segment>)
    requires Later(a, b) && Later(b, c)
    ensures Later(a, c)
  {
    forall i | 0 <= i < |a| ensures Follows(a[i], c[i]) {
      assert Follows(a[i], b[i]) && Follows(b[i], c[i]);
    }
  }

  lemma CloseOneKeeps(d: Content, k: nat, status: Status, message: Option<nat>)
    requires Shape(d) && k < |d.segments| && status != STREAMING
    ensures var n := Content(d.revision + 1, d.segments[k := Closed(d.segments[k], status, message, d.revision + 1)]);
            Shape(n) && Later(d.segments, n.segments) && !Unfinished(n.segments[k])
  {
  }

  lemma CloseStepKeeps(first: seq<Segment>, d: Content, k: nat, status: Status, message: Option<nat>, r: Content)
    requires Shape(d) && Later(first, d.segments) && k < |d.segments| && status != STREAMING
    requires r == if Unfinished(d.segments[k])
                  then Content(d.revision + 1, d.segments[k := Closed(d.segments[k], status, message, d.revision + 1)])
                  else d
    ensures Shape(r) && Later(first, r.segments)
  {
    if Unfinished(d.segments[k]) {
      CloseOneKeeps(d, k, status, message);
      LaterIsTransitive(first, d.segments, r.segments);
    }
  }

  lemma {:induction false} FinishedKeeps(c: Content, status: Status, message: Option<nat>, n: nat, r: Content)
    requires Shape(c) && n <= |c.segments| && status != STREAMING && r == Finished(c, status, message, n)
    ensures Shape(r) && Later(c.segments, r.segments)
    decreases n
  {
    if n > 0 {
      var d := Finished(c, status, message, n - 1);
      FinishedKeeps(c, status, message, n - 1, d);
      CloseStepKeeps(c.segments, d, n - 1, status, message, r);
    }
  }

  lemma {:induction false} FinishedSettles(c: Content, status: Status, message: Option<nat>, n: nat)
    requires n <= |c.segments| && status != STREAMING
    ensures forall i | 0 <= i < n :: !Unfinished(Finished(c, status, message, n).segments[i])
    ensures Finished(c, status, message, n).revision == c.revision ==> Finished(c, status, message, n) == c
    ensures forall i | 0 <= i < n :: Settles(c.segments[i], Finished(c, status, message, n).segments[i], status, message)
  {
    if n > 0 { FinishedSettles(c, status, message, n - 1); }
  }

  /** What was streaming ends, what was undecided belongs to the answer exactly if there is one; the rest of the
      segment, and a segment that is neither, stays. */
  predicate Settles(s: Segment, t: Segment, status: Status, message: Option<nat>) {
    && t.value.id == s.value.id && t.value.body == s.value.body && t.value.stateVersion == s.value.stateVersion
    && t.sequence == s.sequence
    && t.value.status == (if s.value.status == STREAMING then status else s.value.status)
    && (if s.value.purpose == PENDING then t.message == message && (t.value.purpose == ANSWER <==> message.Some?)
                                         && (t.value.purpose == PROCESS <==> message.None?)
        else t.value.purpose == s.value.purpose && t.message == s.message)
    && (s.value.status != STREAMING && s.value.purpose != PENDING ==> t == s)
  }

  lemma {:induction false} FinishedIdles(c: Content, status: Status, message: Option<nat>, n: nat)
    requires n <= |c.segments| && forall i | 0 <= i < n :: !Unfinished(c.segments[i])
    ensures Finished(c, status, message, n) == c
  {
    if n > 0 { FinishedIdles(c, status, message, n - 1); }
  }

  lemma FinishedAll(c: Content, status: Status, message: Option<nat>, r: Content)
    requires Shape(c) && status != STREAMING && r == Finished(c, status, message, |c.segments|)
    ensures Shape(r) && Later(c.segments, r.segments) && forall i | 0 <= i < |r.segments| :: !Unfinished(r.segments[i])
    ensures c.revision <= r.revision && (r.revision == c.revision ==> r == c)
    ensures (forall i | 0 <= i < |c.segments| :: !Unfinished(c.segments[i])) ==> r == c
  {
    FinishedKeeps(c, status, message, |c.segments|, r);
    FinishedSettles(c, status, message, |c.segments|);
    if forall i | 0 <= i < |c.segments| :: !Unfinished(c.segments[i]) {
      FinishedIdles(c, status, message, |c.segments|);
    }
  }

  // ---- the channel ----

  /** A save is not due, done, refused, or done although its caller sees an error. */
  datatype Saving = NOT_DUE | DONE | REFUSED | UNHEARD

  ghost predicate Chain(past: seq<seq<Segment>>) {
    forall i, j | 0 <= i <= j < |past| :: Later(past[i], past[j])
  }

  lemma ChainGrows(past: seq<seq<Segment>>, segments: seq<Segment>)
    requires past != [] && Chain(past) && Later(past[|past| - 1], segments)
    ensures Chain(past + [segments])
  {
    var longer := past + [segments];
    forall i, j | 0 <= i <= j < |longer| ensures Later(longer[i], longer[j]) {
      if j == |past| && i < j {
        LaterIsTransitive(past[i], past[|past| - 1], segments);
      }
    }
  }

  /** The segment at `k` shows exactly `v` under a new revision, and all others are as they were. */
  predicate Shows(before: Content, v: Value, k: nat, after: Content) {
    && k <= |before.segments| && k < |after.segments|
    && |after.segments| == (if k == |before.segments| then |before.segments| + 1 else |before.segments|)
    && after.revision == before.revision + 1
    && after.segments[k].value == v && after.segments[k].message == None
    && after.segments[k].revision == after.revision && after.segments[k].sequence == k
    && forall i | 0 <= i < |before.segments| && i != k :: after.segments[i] == before.segments[i]
  }

  /** An older state, the same value, or a settled text or reasoning that would stream again. */
  predicate Outdated(previous: Value, v: Value) {
    || v.stateVersion < previous.stateVersion || v == previous
    || ((v.id.Text? || v.id.Reasoning?) && previous.status != STREAMING && v.status == STREAMING)
  }

  /** A value replaces the segment with its id, in place, or is appended; or it is ignored. */
  ghost predicate Upserted(before: Content, v: Value, after: Content) {
    && (forall k | Find(before.segments, v.id, k) ::
          if Outdated(before.segments[k].value, v) then after == before else Shows(before, v, k, after))
    && ((forall i | 0 <= i < |before.segments| :: before.segments[i].value.id != v.id) ==>
          Shows(before, v, |before.segments|, after))
  }

  lemma UpsertedAt(before: Content, v: Value, k: nat)
    requires Shape(before) && k <= |before.segments|
    requires if k < |before.segments| then before.segments[k].value.id == v.id
             else forall i | 0 <= i < |before.segments| :: before.segments[i].value.id != v.id
    ensures Upserted(before, v, if k < |before.segments| && Ignored(before.segments[k], v) then before else Put(before, v, k))
  {
  }

  class Channel {
    var epoch: nat
    var revision: nat
    var saved: nat
    var segments: seq<Segment>
    var document: Content
    ghost var past: seq<seq<Segment>>

    function Now(): Content
      reads this
    {
      Content(revision, segments)
    }

    /** `document` is the row in the store; `past` lists what this epoch has shown so far. */
    ghost predicate Valid()
      reads this
    {
      && Shape(Now()) && Shape(document) && saved <= document.revision <= revision
      && (document.revision == revision ==> document.segments == segments)
      && past != [] && past[|past| - 1] == segments && Chain(past)
    }

    constructor ()
      ensures Valid() && Now() == document == Content(0, []) && saved == 0
    {
      epoch, revision, saved, segments, document := 0, 0, 0, [], Content(0, []);
      past := [[]];
    }

    /** The store takes a document only if its revision is higher than the row's. */
    method Save(saving: Saving) returns (ok: bool)
      requires Valid()
      modifies this`saved, this`document
      ensures Valid() && ok == (saving == NOT_DUE || saving == DONE || old(saved) == revision)
      ensures saving == DONE ==> saved == revision && document == Now()
      ensures saving != DONE ==> saved == old(saved)
      ensures document == old(document) || document == Now()
    {
      ok := true;
      if saving != NOT_DUE && saved != revision {
        if saving != REFUSED && revision > document.revision {
          document := Content(revision, segments);
        }
        ok := saving == DONE;
        if ok { saved := revision; }
      }
    }

    /** The content as it is now is shown, after everything shown before. */
    ghost method Record()
      requires past != [] && Chain(past) && Later(past[|past| - 1], segments)
      requires Shape(Now()) && Shape(document) && saved <= document.revision <= revision
      requires document.revision == revision ==> document.segments == segments
      modifies this`past
      ensures Valid() && past == old(past) + [segments]
    {
      ChainGrows(past, segments);
      past := past + [segments];
    }

    method Upsert(v: Value, saving: Saving) returns (ok: bool)
      requires Valid()
      modifies this`revision, this`segments, this`saved, this`document, this`past
      ensures Valid() && old(past) <= past
      ensures Upserted(old(Now()), v, Now()) && (Now() == old(Now()) ==> document == old(document))
    {
      var k := 0;
      while k < |segments| && segments[k].value.id != v.id
        invariant k <= |segments| && forall i | 0 <= i < k :: segments[i].value.id != v.id
      {
        k := k + 1;
      }
      UpsertedAt(Now(), v, k);
      if k < |segments| && Ignored(segments[k], v) {
        return true;
      }
      Change(v, k);
      ok := Save(saving);
    }

    method Change(v: Value, k: nat)
      requires Valid() && k <= |segments|
      requires if k < |segments| then segments[k].value.id == v.id && !Ignored(segments[k], v)
               else forall i | 0 <= i < |segments| :: segments[i].value.id != v.id
      modifies this`revision, this`segments, this`past
      ensures Valid() && old(past) <= past && Now() == Put(old(Now()), v, k)
    {
      PutKeeps(Now(), v, k);
      ghost var next := Put(Now(), v, k);
      var sequence := if k < |segments| then segments[k].sequence else |segments|;
      var content := Segment(v, None, sequence, revision + 1);
      revision := revision + 1;
      segments := if k < |segments| then segments[k := content] else segments + [content];
      assert Now() == next;
      Record();
    }

    method CloseAll(status: Status, message: Option<nat>)
      modifies this`revision, this`segments
      ensures Now() == Finished(old(Now()), status, message, |old(segments)|)
    {
      var i := 0;
      while i < |segments|
        invariant i <= |segments| == |old(segments)| && Now() == Finished(old(Now()), status, message, i)
      {
        if Unfinished(segments[i]) {
          revision := revision + 1;
          segments := segments[i := Closed(segments[i], status, message, revision)];
        }
        i := i + 1;
      }
    }

    /** Nothing is left streaming or pending; a second call changes nothing. */
    method Finish(interrupted: bool, message: Option<nat>, saving: Saving) returns (ok: bool)
      requires Valid() && saving != NOT_DUE
      modifies this`revision, this`segments, this`saved, this`document, this`past
      ensures Valid() && old(past) <= past
      ensures Now() == Finished(old(Now()), if interrupted then INTERRUPTED else COMPLETE, message, |old(segments)|)
      ensures forall i | 0 <= i < |segments| :: !Unfinished(segments[i])
      ensures |segments| == |old(segments)| && forall i | 0 <= i < |segments| ::
                Settles(old(segments)[i], segments[i], if interrupted then INTERRUPTED else COMPLETE, message)
      ensures (forall i | 0 <= i < |old(segments)| :: !Unfinished(old(segments)[i])) ==> Now() == old(Now())
      ensures saving == DONE ==> ok && saved == revision && document == Now()
    {
      var status := if interrupted then INTERRUPTED else COMPLETE;
      ghost var next := Finished(Now(), status, message, |segments|);
      FinishedAll(Now(), status, message, next);
      FinishedSettles(Now(), status, message, |segments|);
      CloseAll(status, message);
      assert Now() == next;
      Record();
      ok := Save(saving);
    }

    /** A saved, settled channel may be dropped and loaded again: only its epoch is new. */
    method EvictAndReload() returns (evicted: bool)
      requires Valid()
      modifies this
      ensures Valid()
      ensures evicted == (old(saved) == old(revision)
                          && forall i | 0 <= i < |old(segments)| :: old(segments)[i].value.status != STREAMING)
      ensures Now() == old(Now()) && document == old(document)
      ensures epoch == if evicted then old(epoch) + 1 else old(epoch)
    {
      evicted := saved == revision && forall i | 0 <= i < |segments| :: segments[i].value.status != STREAMING;
      if evicted { Load(); }
    }

    /** What `channel` builds when none is cached, after an eviction or in a new process. */
    method Load()
      requires Valid()
      modifies this
      ensures Valid() && Now() == document == old(document) && saved == revision && epoch == old(epoch) + 1 && past == [segments]
    {
      epoch, revision, saved, segments := epoch + 1, document.revision, document.revision, document.segments;
      past := [segments];
    }
  }
}
