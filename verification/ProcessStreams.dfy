/** The event stream of one run and the browser's merge of what it receives. */
module ProcessStreams {
  import opened Options
  import opened ProcessChannels

  type View = map<Id, Segment>

  function Taken(view: View, s: Segment): View {
    if s.value.id !in view || s.revision >= view[s.value.id].revision then view[s.value.id := s] else view
  }

  function Merged(view: View, segments: seq<Segment>): View {
    if segments == [] then view
    else Taken(Merged(view, segments[..|segments| - 1]), segments[|segments| - 1])
  }

  predicate Keyed(view: View) {
    forall id | id in view :: view[id].value.id == id
  }

  predicate Ascending(list: seq<Segment>) {
    forall i, j | 0 <= i < j < |list| :: list[i].sequence <= list[j].sequence && list[i].value.id != list[j].value.id
  }

  /** The list shows exactly the view, ordered by sequence. */
  predicate Lists(view: View, list: seq<Segment>) {
    && Ascending(list)
    && (forall i | 0 <= i < |list| :: list[i].value.id in view && view[list[i].value.id] == list[i])
    && (forall id | id in view :: view[id] in list)
  }

  // ---- what a merge comes to ----

  /** For every id a segment that was seen, with the highest revision that was seen. */
  predicate Best(view: View, segments: seq<Segment>, r: View) {
    && Keyed(r)
    && (forall s | s in segments :: s.value.id in r && r[s.value.id].revision >= s.revision)
    && (forall id | id in view :: id in r && r[id].revision >= view[id].revision)
    && (forall id | id in r :: r[id] in segments || (id in view && r[id] == view[id]))
  }

  lemma {:induction false} MergedIsBest(view: View, segments: seq<Segment>)
    requires Keyed(view)
    ensures Best(view, segments, Merged(view, segments))
  {
    if segments != [] {
      MergedIsBest(view, segments[..|segments| - 1]);
      assert segments == segments[..|segments| - 1] + [segments[|segments| - 1]];
    }
  }

  /** Of what was seen for an id, the revision fixes the content. */
  predicate Coherent(view: View, segments: seq<Segment>) {
    && (forall i, j | 0 <= i < j < |segments| && segments[i].value.id == segments[j].value.id ::
          segments[i].revision == segments[j].revision ==> segments[i] == segments[j])
    && (forall i | 0 <= i < |segments| && segments[i].value.id in view ::
          segments[i].revision == view[segments[i].value.id].revision ==> segments[i] == view[segments[i].value.id])
  }

  /** Within an epoch neither the order of the events nor their repetition matters. */
  lemma OrderDoesNotMatter(view: View, a: seq<Segment>, b: seq<Segment>)
    requires Keyed(view) && Coherent(view, a) && forall s :: s in a <==> s in b
    ensures Merged(view, a) == Merged(view, b)
  {
    MergedIsBest(view, a);
    MergedIsBest(view, b);
    BestIsUnique(view, a, b, Merged(view, a), Merged(view, b));
  }

  lemma BestIsUnique(view: View, a: seq<Segment>, b: seq<Segment>, m: View, n: View)
    requires Coherent(view, a) && (forall s :: s in a <==> s in b) && Best(view, a, m) && Best(view, b, n)
    ensures m == n
  {
    forall id ensures id in m <==> id in n {
      assert id in m && m[id] in a ==> m[id] in b;
      assert id in n && n[id] in b ==> n[id] in a;
    }
    forall id | id in m ensures m[id] == n[id] {
      SameRevision(view, a, b, m, n, id);
    }
  }

  lemma SameRevision(view: View, a: seq<Segment>, b: seq<Segment>, m: View, n: View, id: Id)
    requires Coherent(view, a) && (forall s :: s in a <==> s in b) && Best(view, a, m) && Best(view, b, n) && id in m && id in n
    ensures m[id] == n[id]
  {
    assert m[id] in a ==> m[id] in b;
    assert n[id] in b ==> n[id] in a;
    assert m[id].revision == n[id].revision;
  }

  lemma {:induction false} MergedTwice(view: View, a: seq<Segment>, b: seq<Segment>)
    ensures Merged(Merged(view, a), b) == Merged(view, a + b)
    decreases |b|
  {
    if b == [] {
      assert a + b == a;
    } else {
      MergedTwice(view, a, b[..|b| - 1]);
      assert (a + b)[..|a + b| - 1] == a + b[..|b| - 1];
    }
  }

  // ---- agreement with the server ----

  /** The part of a channel's shape that ordering needs. */
  predicate Ordered(segments: seq<Segment>) {
    && (forall i | 0 <= i < |segments| :: segments[i].sequence == i)
    && (forall i, j | 0 <= i < j < |segments| :: segments[i].value.id != segments[j].value.id)
  }

  /** Everything an epoch has shown is in order, because what it shows now is. */
  lemma PastIsOrdered(past: seq<seq<Segment>>, i: nat)
    requires Chain(past) && i < |past| && Ordered(past[|past| - 1])
    ensures Ordered(past[i])
  {
    var now := past[|past| - 1];
    assert Later(past[i], now);
    forall k | 0 <= k < |past[i]| ensures past[i][k].sequence == k && past[i][k].value.id == now[k].value.id {
      assert Follows(past[i][k], now[k]);
    }
  }

  /** A position on the server is the same segment for good. */
  lemma PastIsCoherent(past: seq<seq<Segment>>, i: nat, j: nat, p: nat, q: nat)
    requires past != [] && Chain(past) && Ordered(past[|past| - 1])
    requires i < |past| && j < |past| && p < |past[i]| && q < |past[j]|
    requires past[i][p].value.id == past[j][q].value.id
    ensures p == q && (past[i][p].revision == past[j][q].revision ==> past[i][p] == past[j][q])
    ensures past[i][p].revision < past[j][q].revision ==> i < j
  {
    var last := |past| - 1;
    assert Later(past[i], past[last]) && Later(past[j], past[last]);
    assert Follows(past[i][p], past[last][p]) && Follows(past[j][q], past[last][q]);
    if i <= j { assert Later(past[i], past[j]); } else { assert Later(past[j], past[i]); }
  }

  /** A settled text or reasoning is never shown streaming again. */
  lemma NeverReopens(past: seq<seq<Segment>>, i: nat, j: nat, k: nat)
    requires Chain(past) && i <= j < |past| && k < |past[i]| && Settled(past[i][k].value)
    ensures k < |past[j]| && past[j][k].value.id == past[i][k].value.id && past[j][k].value.status != STREAMING
  {
    assert Later(past[i], past[j]) && Follows(past[i][k], past[j][k]);
  }

  predicate Shown(past: seq<seq<Segment>>, s: Segment) {
    exists i | 0 <= i < |past| :: s in past[i]
  }

  /** Of what one epoch has shown, a client may receive anything in any order and as often as it likes. */
  lemma {:induction false} AnyOrderWithinEpoch(past: seq<seq<Segment>>, a: seq<Segment>, b: seq<Segment>)
    requires past != [] && Chain(past) && Ordered(past[|past| - 1])
    requires (forall s | s in a :: Shown(past, s)) && forall s :: s in a <==> s in b
    ensures Merged(map[], a) == Merged(map[], b)
  {
    forall i, j | 0 <= i < j < |a| && a[i].value.id == a[j].value.id && a[i].revision == a[j].revision ensures a[i] == a[j] {
      assert Shown(past, a[i]) && Shown(past, a[j]);
      var m :| 0 <= m < |past| && a[i] in past[m];
      var n :| 0 <= n < |past| && a[j] in past[n];
      var p :| 0 <= p < |past[m]| && past[m][p] == a[i];
      var q :| 0 <= q < |past[n]| && past[n][q] == a[j];
      PastIsCoherent(past, m, n, p, q);
    }
    OrderDoesNotMatter(map[], a, b);
  }

  predicate Known(view: View, segments: seq<Segment>) {
    && view.Keys == (set s | s in segments :: s.value.id)
    && forall s | s in segments :: s.value.id in view && view[s.value.id] == s
  }

  /** A client that has received, in whatever order, every current segment and otherwise only segments
      this epoch has shown, shows the server's content. */
  lemma CatchesUp(past: seq<seq<Segment>>, received: seq<Segment>)
    requires past != [] && Chain(past) && Ordered(past[|past| - 1])
    requires forall s | s in received :: Shown(past, s)
    requires forall s | s in past[|past| - 1] :: s in received
    ensures Known(Merged(map[], received), past[|past| - 1])
  {
    var now := past[|past| - 1];
    var view := Merged(map[], received);
    MergedIsBest(map[], received);
    forall id | id in view ensures view[id] in now {
      BestIsCurrent(past, received, view, id);
    }
    AllCurrentIsKnown(now, received, view);
  }

  lemma AllCurrentIsKnown(now: seq<Segment>, received: seq<Segment>, view: View)
    requires Ordered(now) && Best(map[], received, view)
    requires (forall id | id in view :: view[id] in now) && forall s | s in now :: s in received
    ensures Known(view, now)
  {
    forall s | s in now ensures s.value.id in view && view[s.value.id] == s {
      assert s in received;
      SameIdSameSegment(now, s, view[s.value.id]);
    }
    forall id ensures id in view <==> id in (set s | s in now :: s.value.id) {
      assert id in view ==> view[id] in now;
    }
  }

  lemma BestIsCurrent(past: seq<seq<Segment>>, received: seq<Segment>, view: View, id: Id)
    requires past != [] && Chain(past) && Best(map[], received, view) && id in view
    requires forall s | s in received :: Shown(past, s)
    requires forall s | s in past[|past| - 1] :: s in received
    ensures view[id] in past[|past| - 1]
  {
    var now := past[|past| - 1];
    assert Shown(past, view[id]);
    var i :| 0 <= i < |past| && view[id] in past[i];
    var p :| 0 <= p < |past[i]| && past[i][p] == view[id];
    assert Later(past[i], now) && Follows(past[i][p], now[p]);
    assert now[p] in received;
  }

  lemma SameIdSameSegment(segments: seq<Segment>, s: Segment, t: Segment)
    requires Ordered(segments) && s in segments && t in segments && s.value.id == t.value.id
    ensures s == t
  {
    var i :| 0 <= i < |segments| && segments[i] == s;
    var j :| 0 <= j < |segments| && segments[j] == t;
    assert i == j;
  }

  /** Sequences being 0, 1, 2 ..., sorting by them leaves one order only. */
  lemma SortedIsServerOrder(segments: seq<Segment>, view: View, list: seq<Segment>)
    requires Ordered(segments) && Known(view, segments) && Lists(view, list)
    ensures list == segments
  {
    forall s | s in list ensures s in segments {
      assert s.value.id in view.Keys;
    }
    forall s | s in segments ensures s in list {
      assert view[s.value.id] in list;
    }
    OneOrder(segments, list);
  }

  /** Two lists of the same segments, one numbered, one ascending, are the same list. */
  lemma OneOrder(segments: seq<Segment>, list: seq<Segment>)
    requires Ordered(segments) && Ascending(list) && (forall s :: s in list <==> s in segments)
    ensures list == segments
  {
    InPlace(segments, list, |list|);
    if segments != [] {
      var j := Position(list, segments[|segments| - 1]);
      assert list[j] == segments[j];
    }
  }

  lemma Position(list: seq<Segment>, s: Segment) returns (j: nat)
    requires s in list
    ensures j < |list| && list[j] == s
  {
    j :| 0 <= j < |list| && list[j] == s;
  }

  lemma {:induction false} InPlace(segments: seq<Segment>, list: seq<Segment>, n: nat)
    requires Ordered(segments) && Ascending(list) && (forall s :: s in list <==> s in segments) && n <= |list|
    ensures n <= |segments| && forall i | 0 <= i < n :: list[i] == segments[i]
  {
    if n > 0 {
      InPlace(segments, list, n - 1);
      var at := Position(segments, list[n - 1]);
      assert at >= n - 1;
      assert segments[n - 1] in segments;
      var j := Position(list, segments[n - 1]);
      assert j >= n - 1;
    }
  }

  // ---- the stream and the browser ----

  datatype Snapshot = Snapshot(epoch: nat, revision: nat, segments: seq<Segment>)
  datatype Message = Message(replace: bool, snapshot: Snapshot)

  /** The segments whose revision this listener has not been sent. */
  function Changed(segments: seq<Segment>, revisions: map<Id, nat>): seq<Segment> {
    if segments == [] then []
    else
      var last := segments[|segments| - 1];
      var init := Changed(segments[..|segments| - 1], revisions);
      if last.value.id !in revisions || last.revision > revisions[last.value.id] then init + [last] else init
  }

  lemma {:induction false} ChangedExactly(segments: seq<Segment>, revisions: map<Id, nat>)
    ensures forall s :: s in Changed(segments, revisions)
              <==> s in segments && (s.value.id !in revisions || s.revision > revisions[s.value.id])
  {
    if segments != [] {
      ChangedExactly(segments[..|segments| - 1], revisions);
      assert segments == segments[..|segments| - 1] + [segments[|segments| - 1]];
    }
  }

  predicate Covers(segments: seq<Segment>, revisions: map<Id, nat>) {
    forall id | id in revisions :: exists i | 0 <= i < |segments| :: segments[i].value.id == id
  }

  predicate DistinctSegments(segments: seq<Segment>) {
    forall s, t | s in segments && t in segments && s.value.id == t.value.id :: s == t
  }

  predicate Sent(revisions: map<Id, nat>, segments: seq<Segment>) {
    && (forall s | s in segments :: s.value.id in revisions && revisions[s.value.id] == s.revision)
    && Covers(segments, revisions)
  }

  /** Sending only what changed brings a client that shows the last snapshot to the new one. */
  lemma {:induction false} ChangesSuffice(view: View, before: seq<Segment>, after: seq<Segment>, revisions: map<Id, nat>)
    requires Known(view, before) && Later(before, after) && Ordered(after) && Sent(revisions, before)
    ensures Known(Merged(view, Changed(after, revisions)), after)
    ensures Changed(after, revisions) == [] ==> after == before
  {
    var changed := Changed(after, revisions);
    var merged := Merged(view, changed);
    ChangedExactly(after, revisions);
    KnownIsKeyed(view, before);
    MergedIsBest(view, changed);
    AllChangesArrive(view, before, after, revisions, merged);
    forall id | id in merged ensures exists s | s in after :: s.value.id == id {
      StillThere(view, before, after, changed, merged, id);
    }
    assert merged.Keys == (set s | s in after :: s.value.id);
    if changed == [] { NothingChanged(before, after, revisions); }
  }

  lemma AllChangesArrive(view: View, before: seq<Segment>, after: seq<Segment>, revisions: map<Id, nat>, merged: View)
    requires Known(view, before) && Later(before, after) && Ordered(after) && Sent(revisions, before)
    requires Best(view, Changed(after, revisions), merged)
    ensures forall s | s in after :: s.value.id in merged && merged[s.value.id] == s
  {
    forall s | s in after ensures s.value.id in merged && merged[s.value.id] == s {
      var i :| 0 <= i < |after| && after[i] == s;
      ChangeArrives(view, before, after, revisions, merged, i);
    }
  }

  lemma KnownIsKeyed(view: View, segments: seq<Segment>)
    requires Known(view, segments)
    ensures Keyed(view)
  {
    forall id | id in view ensures view[id].value.id == id {
      assert id in view.Keys;
    }
  }

  lemma StillThere(view: View, before: seq<Segment>, after: seq<Segment>, changed: seq<Segment>, merged: View, id: Id)
    requires Known(view, before) && Later(before, after) && Best(view, changed, merged) && id in merged
    requires forall s | s in changed :: s in after
    ensures exists s | s in after :: s.value.id == id
  {
    if merged[id] in changed {
      assert merged[id] in after && merged[id].value.id == id;
    } else {
      assert id in view.Keys;
      var s :| s in before && s.value.id == id;
      var i :| 0 <= i < |before| && before[i] == s;
      assert Follows(before[i], after[i]) && after[i] in after;
    }
  }

  lemma ChangeArrives(view: View, before: seq<Segment>, after: seq<Segment>, revisions: map<Id, nat>, merged: View,
                      i: nat)
    requires Known(view, before) && Later(before, after) && Ordered(after) && Sent(revisions, before)
    requires Best(view, Changed(after, revisions), merged) && i < |after|
    ensures after[i].value.id in merged && merged[after[i].value.id] == after[i]
  {
    var id, changed := after[i].value.id, Changed(after, revisions);
    ChangedExactly(after, revisions);
    assert after[i] in after;
    if i < |before| {
      assert before[i] in before && Follows(before[i], after[i]) && view[id] == before[i];
    } else {
      forall k | 0 <= k < |before| ensures before[k].value.id != id {
        assert Follows(before[k], after[k]);
      }
      assert id !in revisions && id !in view.Keys;
    }
    if merged[id] in changed {
      SameIdSameSegment(after, merged[id], after[i]);
    }
  }

  lemma NothingChanged(before: seq<Segment>, after: seq<Segment>, revisions: map<Id, nat>)
    requires Later(before, after) && Sent(revisions, before) && Ordered(after)
    requires forall s | s in after :: s.value.id in revisions && s.revision <= revisions[s.value.id]
    ensures after == before
  {
    forall i | 0 <= i < |after| ensures i < |before| && after[i] == before[i] {
      SegmentUnchanged(before, after, revisions, i);
    }
    if after != [] { SegmentUnchanged(before, after, revisions, |after| - 1); }
  }

  lemma SegmentUnchanged(before: seq<Segment>, after: seq<Segment>, revisions: map<Id, nat>, i: nat)
    requires Later(before, after) && Sent(revisions, before) && Ordered(after) && i < |after|
    requires forall s | s in after :: s.value.id in revisions && s.revision <= revisions[s.value.id]
    ensures i < |before| && after[i] == before[i]
  {
    var s := after[i];
    assert s in after && s.value.id in revisions && s.revision <= revisions[s.value.id];
    var k :| 0 <= k < |before| && before[k].value.id == s.value.id;
    assert before[k] in before && revisions[s.value.id] == before[k].revision;
    assert Follows(before[k], after[k]);
    SameIndex(after, k, i);
  }

  lemma SameIndex(segments: seq<Segment>, k: nat, i: nat)
    requires Ordered(segments) && k < |segments| && i < |segments|
    requires segments[k].value.id == segments[i].value.id
    ensures k == i
  {
  }

  /** The generator behind the event stream; one for each connection. */
  class Listener {
    var first: bool
    var revisions: map<Id, nat>
    var lastVersion: int

    constructor ()
      ensures first && revisions == map[] && lastVersion == -1
    {
      first, revisions, lastVersion := true, map[], -1;
    }

    /** The first message is a whole snapshot; later ones carry what changed, if anything did. */
    method Next(snapshot: Snapshot, version: nat) returns (message: Option<Message>)
      requires DistinctSegments(snapshot.segments) && Covers(snapshot.segments, revisions)
      modifies this
      ensures message.None? <==> !old(first) && Changed(snapshot.segments, old(revisions)) == [] && version <= old(lastVersion)
      ensures message.None? ==> first == old(first) && revisions == old(revisions)
      ensures message.Some? ==>
                && !first && Sent(revisions, snapshot.segments)
                && message.value == Message(old(first), snapshot.(segments :=
                     if old(first) then snapshot.segments else Changed(snapshot.segments, old(revisions))))
    {
      var changed := Changed(snapshot.segments, revisions);
      if !first && changed == [] && version <= lastVersion {
        return None;
      }
      message := Some(Message(first, snapshot.(segments := if first then snapshot.segments else changed)));
      Record(snapshot.segments);
      first, lastVersion := false, version;
    }

    method Record(segments: seq<Segment>)
      requires DistinctSegments(segments) && Covers(segments, revisions)
      modifies this`revisions
      ensures Sent(revisions, segments)
    {
      var i := 0;
      while i < |segments|
        invariant i <= |segments| && Covers(segments, revisions)
        invariant forall j | 0 <= j < i :: segments[j].value.id in revisions && revisions[segments[j].value.id] == segments[j].revision
      {
        assert forall j | 0 <= j < i :: segments[j] in segments && segments[i] in segments;
        revisions := revisions[segments[i].value.id := segments[i].revision];
        i := i + 1;
      }
    }
  }

  /** What the browser keeps of one run. */
  class Browser {
    var epoch: Option<nat>
    var segments: seq<Segment>
    ghost var view: View

    ghost predicate Valid()
      reads this
    {
      Keyed(view) && Lists(view, segments)
    }

    constructor ()
      ensures Valid() && epoch == None && segments == []
    {
      epoch, segments, view := None, [], map[];
    }

    /** A snapshot or another epoch starts over; anything else is merged by id and revision. */
    method Receive(message: Message)
      requires Valid()
      modifies this
      ensures Valid() && epoch == Some(message.snapshot.epoch)
      ensures view == Merged(if message.replace || old(epoch) != Some(message.snapshot.epoch) then map[] else old(view),
                             message.snapshot.segments)
    {
      var reset := message.replace || epoch != Some(message.snapshot.epoch);
      var kept: View := map[];
      if !reset { kept := Collect(); }
      var i := 0;
      var merged := kept;
      while i < |message.snapshot.segments|
        invariant i <= |message.snapshot.segments| && merged == Merged(kept, message.snapshot.segments[..i])
      {
        var segment := message.snapshot.segments[i];
        if segment.value.id !in merged || segment.revision >= merged[segment.value.id].revision {
          merged := merged[segment.value.id := segment];
        }
        i := i + 1;
        assert message.snapshot.segments[..i][..i - 1] == message.snapshot.segments[..i - 1];
      }
      assert message.snapshot.segments[..i] == message.snapshot.segments;
      MergedIsBest(kept, message.snapshot.segments);
      epoch, view := Some(message.snapshot.epoch), merged;
      segments := SortedBySequence(merged);
    }

    method Collect() returns (kept: View)
      requires Valid()
      ensures kept == view
    {
      kept := map[];
      var i := 0;
      while i < |segments|
        invariant i <= |segments| && kept.Keys == set j | 0 <= j < i :: segments[j].value.id
        invariant forall j | 0 <= j < i :: segments[j].value.id in kept && kept[segments[j].value.id] == segments[j]
      {
        kept := kept[segments[i].value.id := segments[i]];
        i := i + 1;
      }
      forall id ensures id in kept <==> id in view {
        assert id in view ==> view[id] in segments;
      }
    }
  }

  /** Insertion keeps the list ordered. */
  method SortedBySequence(view: View) returns (list: seq<Segment>)
    requires Keyed(view)
    ensures Lists(view, list)
  {
    list := [];
    var done: View := map[];
    var rest := view.Keys;
    while rest != {}
      invariant rest <= view.Keys && done.Keys == view.Keys - rest && Keyed(done) && Lists(done, list)
      invariant forall id | id in done :: done[id] == view[id]
      decreases |rest|
    {
      var id :| id in rest;
      list := Inserted(done, list, view[id]);
      done := done[id := view[id]];
      rest := rest - {id};
    }
    assert done == view;
  }

  method Inserted(view: View, list: seq<Segment>, s: Segment) returns (r: seq<Segment>)
    requires Lists(view, list) && s.value.id !in view
    ensures Lists(view[s.value.id := s], r)
  {
    var k := |list|;
    while k > 0 && list[k - 1].sequence > s.sequence
      invariant 0 <= k <= |list| && forall i | k <= i < |list| :: list[i].sequence > s.sequence
    {
      k := k - 1;
    }
    assert forall i | 0 <= i < k :: list[i].sequence <= list[k - 1].sequence;
    r := list[..k] + [s] + list[k..];
    InsertedLists(view, list, s, k, r);
  }

  lemma InsertedLists(view: View, list: seq<Segment>, s: Segment, k: nat, r: seq<Segment>)
    requires Lists(view, list) && s.value.id !in view && k <= |list| && r == list[..k] + [s] + list[k..]
    requires forall i | 0 <= i < k :: list[i].sequence <= s.sequence
    requires forall i | k <= i < |list| :: list[i].sequence > s.sequence
    ensures Lists(view[s.value.id := s], r)
  {
    var longer := view[s.value.id := s];
    forall i | 0 <= i < |r| ensures r[i].value.id in longer && longer[r[i].value.id] == r[i] {
      assert i < k ==> r[i] == list[i];
      assert i > k ==> r[i] == list[i - 1];
    }
    InsertedIsSorted(list, s, k, r);
    forall id | id in longer ensures longer[id] in r {
      assert id != s.value.id ==> view[id] in list;
      InsertedHasAll(list, s, k, r);
    }
  }

  lemma InsertedHasAll(list: seq<Segment>, s: Segment, k: nat, r: seq<Segment>)
    requires k <= |list| && r == list[..k] + [s] + list[k..]
    ensures s in r && forall t | t in list :: t in r
  {
    assert r[k] == s;
    forall t | t in list ensures t in r {
      var i :| 0 <= i < |list| && list[i] == t;
      assert r[if i < k then i else i + 1] == list[i];
    }
  }

  lemma InsertedIsSorted(list: seq<Segment>, s: Segment, k: nat, r: seq<Segment>)
    requires k <= |list| && r == list[..k] + [s] + list[k..] && Ascending(list)
    requires forall i | 0 <= i < k :: list[i].sequence <= s.sequence
    requires forall i | k <= i < |list| :: list[i].sequence > s.sequence
    requires forall i | 0 <= i < |list| :: list[i].value.id != s.value.id
    ensures Ascending(r)
  {
  }

  predicate Grows(snapshots: seq<Snapshot>, i: nat)
    requires i < |snapshots|
  {
    && Ordered(snapshots[i].segments) && snapshots[i].epoch == snapshots[0].epoch
    && (i > 0 ==> Later(snapshots[i - 1].segments, snapshots[i].segments))
  }

  /** Whatever snapshots of a channel's past a stream happens to take, in their order, it may relay. */
  lemma ChannelFeedsStream(past: seq<seq<Segment>>, picks: seq<nat>, snapshots: seq<Snapshot>)
    requires past != [] && Chain(past) && Ordered(past[|past| - 1]) && |picks| == |snapshots|
    requires forall i | 0 <= i < |picks| :: picks[i] < |past| && snapshots[i].segments == past[picks[i]]
    requires forall i, j | 0 <= i < j < |picks| :: picks[i] <= picks[j]
    requires forall i | 0 <= i < |snapshots| :: snapshots[i].epoch == snapshots[0].epoch
    ensures forall i | 0 <= i < |snapshots| :: Grows(snapshots, i)
  {
    forall i | 0 <= i < |snapshots| ensures Grows(snapshots, i) {
      PastIsOrdered(past, picks[i]);
      if i > 0 { assert Later(past[picks[i - 1]], past[picks[i]]); }
    }
  }

  /** The browser shows these segments, and the listener knows it. */
  ghost predicate InSync(listener: Listener, browser: Browser, epoch: nat, segments: seq<Segment>)
    reads listener, browser
  {
    && browser.Valid() && !listener.first && Sent(listener.revisions, segments)
    && browser.epoch == Some(epoch) && browser.segments == segments && Known(browser.view, segments)
  }

  /** Over a whole connection the browser shows, after every round of the stream, what the server showed. */
  method Relay(listener: Listener, browser: Browser, snapshots: seq<Snapshot>,
               versions: seq<nat>) returns (shown: seq<seq<Segment>>)
    requires listener.first && listener.revisions == map[] && browser.Valid()
    requires |versions| == |snapshots| && forall i | 0 <= i < |snapshots| :: Grows(snapshots, i)
    modifies listener, browser
    ensures |shown| == |snapshots| && forall i | 0 <= i < |snapshots| :: shown[i] == snapshots[i].segments
  {
    shown := [];
    var i := 0;
    while i < |snapshots|
      invariant i <= |snapshots| && |shown| == i
      invariant forall j | 0 <= j < i :: shown[j] == snapshots[j].segments
      invariant if i == 0 then listener.first && listener.revisions == map[] && browser.Valid()
                else InSync(listener, browser, snapshots[0].epoch, snapshots[i - 1].segments)
    {
      assert Grows(snapshots, i);
      if i == 0 {
        Begin(listener, browser, snapshots[i], versions[i]);
      } else {
        Round(listener, browser, snapshots[i], versions[i], snapshots[i - 1].segments);
      }
      shown := shown + [browser.segments];
      i := i + 1;
    }
  }

  /** Whatever the browser showed before, the first message replaces it. */
  method Begin(listener: Listener, browser: Browser, snapshot: Snapshot, version: nat)
    requires listener.first && listener.revisions == map[] && browser.Valid()
    requires Ordered(snapshot.segments)
    modifies listener, browser
    ensures InSync(listener, browser, snapshot.epoch, snapshot.segments)
  {
    DistinctIds(snapshot);
    AllMerged(snapshot);
    var message := listener.Next(snapshot, version);
    browser.Receive(message.value);
    SortedIsServerOrder(snapshot.segments, browser.view, browser.segments);
  }

  method Round(listener: Listener, browser: Browser, snapshot: Snapshot, version: nat, ghost before: seq<Segment>)
    requires InSync(listener, browser, snapshot.epoch, before)
    requires Ordered(snapshot.segments) && Later(before, snapshot.segments)
    modifies listener, browser
    ensures InSync(listener, browser, snapshot.epoch, snapshot.segments)
  {
    DistinctIds(snapshot);
    ChangesSuffice(browser.view, before, snapshot.segments, listener.revisions);
    StillSent(listener.revisions, before, snapshot.segments);
    var message := listener.Next(snapshot, version);
    if message.Some? {
      browser.Receive(message.value);
      SortedIsServerOrder(snapshot.segments, browser.view, browser.segments);
    }
  }

  /** After another epoch begins, the list holds just the segments that the last message carried. */
  lemma OnlyChangedListed(after: seq<Segment>, revisions: map<Id, nat>, list: seq<Segment>)
    requires Ordered(after) && Lists(Merged(map[], Changed(after, revisions)), list)
    ensures forall s :: s in list <==> s in Changed(after, revisions)
    ensures list == after <==> forall s | s in after :: s in Changed(after, revisions)
    ensures Changed(after, revisions) == [] ==> list == []
  {
    assert list != [] ==> list[0].value.id in Merged(map[], Changed(after, revisions));
    var changed := Changed(after, revisions);
    var view := Merged(map[], changed);
    MergedIsBest(map[], changed);
    ChangedExactly(after, revisions);
    forall s | s in changed ensures s in list {
      assert view[s.value.id] in list;
      SameIdSameSegment(after, s, view[s.value.id]);
    }
    if forall s | s in after :: s in changed { OneOrder(after, list); }
  }

  /** The epoch changes in the middle of a connection: a channel without listeners was evicted and loaded
      again, while this connection's listener is on the old one. The server goes on sending changes only, the
      browser starts over; so it shows the server's segments if and only if all of them changed. */
  method NewEpoch(listener: Listener, browser: Browser, snapshot: Snapshot, version: nat) returns (told: bool)
    requires browser.Valid() && !listener.first && browser.epoch != Some(snapshot.epoch)
    requires Ordered(snapshot.segments) && Covers(snapshot.segments, listener.revisions)
    modifies listener, browser
    ensures told <==> Changed(snapshot.segments, old(listener.revisions)) != [] || version > old(listener.lastVersion)
    ensures !told ==> browser.segments == old(browser.segments) && browser.epoch == old(browser.epoch)
    ensures told ==> browser.epoch == Some(snapshot.epoch) && Sent(listener.revisions, snapshot.segments)
    ensures told ==> forall s :: s in browser.segments <==> s in Changed(snapshot.segments, old(listener.revisions))
    ensures told && Changed(snapshot.segments, old(listener.revisions)) == [] ==> browser.segments == []
    ensures told ==> (browser.segments == snapshot.segments <==>
                        forall s | s in snapshot.segments :: s in Changed(snapshot.segments, old(listener.revisions)))
  {
    DistinctIds(snapshot);
    var message := listener.Next(snapshot, version);
    told := message.Some?;
    if told {
      browser.Receive(message.value);
      OnlyChangedListed(snapshot.segments, old(listener.revisions), browser.segments);
    }
  }

  lemma {:induction false} NoneChanged(segments: seq<Segment>, revisions: map<Id, nat>)
    requires forall s | s in segments :: s.value.id in revisions && s.revision <= revisions[s.value.id]
    ensures Changed(segments, revisions) == []
  {
    if segments != [] {
      assert segments[|segments| - 1] in segments;
      NoneChanged(segments[..|segments| - 1], revisions);
    }
  }

  /** A channel that comes back as it was leaves the browser empty with the next version of the run. */
  method ReloadedUnchanged(listener: Listener, browser: Browser, snapshot: Snapshot, version: nat)
    requires browser.Valid() && !listener.first && browser.epoch != Some(snapshot.epoch)
    requires Ordered(snapshot.segments) && Sent(listener.revisions, snapshot.segments) && version > listener.lastVersion
    modifies listener, browser
    ensures browser.segments == []
  {
    NoneChanged(snapshot.segments, listener.revisions);
    var told := NewEpoch(listener, browser, snapshot, version);
  }

  lemma DistinctIds(snapshot: Snapshot)
    requires Ordered(snapshot.segments)
    ensures DistinctSegments(snapshot.segments)
  {
    forall s, t | s in snapshot.segments && t in snapshot.segments && s.value.id == t.value.id ensures s == t {
      SameIdSameSegment(snapshot.segments, s, t);
    }
  }

  lemma StillSent(revisions: map<Id, nat>, before: seq<Segment>, after: seq<Segment>)
    requires Sent(revisions, before) && Later(before, after)
    ensures Covers(after, revisions)
  {
    forall id | id in revisions ensures exists i | 0 <= i < |after| :: after[i].value.id == id {
      var i :| 0 <= i < |before| && before[i].value.id == id;
      assert Follows(before[i], after[i]);
    }
  }

  lemma AllMerged(snapshot: Snapshot)
    requires Ordered(snapshot.segments)
    ensures Known(Merged(map[], snapshot.segments), snapshot.segments)
  {
    var past := [snapshot.segments];
    assert Chain(past);
    forall s | s in snapshot.segments ensures Shown(past, s) {
      assert s in past[0];
    }
    CatchesUp(past, snapshot.segments);
  }
}
