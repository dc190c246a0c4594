/** The model-visible list of resources: how it is built, and how it is trimmed to a size. */
module ResourceContexts {
  import opened Options
  import opened Selections

  const MAX_RESOURCES := 20
  const MAX_BYTES := 16_000
  const MAX_ATTACHMENTS := 10

  datatype Attachment = Attachment(id: nat, image: bool)
  datatype Handle = Asset(id: nat) | MlResource(ref: Ref)

  /** `number` n is shown as the reference "rn"; the details shown follow from `what`. */
  datatype Item = Item(number: nat, what: Handle)
  datatype View = View(resources: seq<Item>, complete: bool, omitted: nat)

  function Images(attachments: seq<Attachment>): nat {
    if attachments == [] then 0
    else Images(attachments[..|attachments| - 1]) + if attachments[|attachments| - 1].image then 1 else 0
  }

  /** The references attached to the current message, or the others. */
  function Those(refs: seq<Ref>, current: set<nat>, wanted: bool): seq<Ref> {
    if refs == [] then []
    else Those(refs[..|refs| - 1], current, wanted)
         + if (refs[|refs| - 1].id in current) == wanted then [refs[|refs| - 1]] else []
  }

  lemma {:induction false} ThoseAreAll(refs: seq<Ref>, current: set<nat>)
    ensures |Those(refs, current, true)| + |Those(refs, current, false)| == |refs|
  {
    if refs != [] { ThoseAreAll(refs[..|refs| - 1], current); }
  }

  /** Those are the ones of that kind, in the order given. */
  lemma {:induction false} ThoseExactly(refs: seq<Ref>, current: set<nat>, wanted: bool)
    ensures forall r :: r in Those(refs, current, wanted) <==> r in refs && (r.id in current <==> wanted)
    ensures Sublist(Those(refs, current, wanted), refs)
  {
    if refs != [] {
      var n := |refs| - 1;
      ThoseExactly(refs[..n], current, wanted);
      assert refs == refs[..n] + [refs[n]];
      var those, init := Those(refs, current, wanted), Those(refs[..n], current, wanted);
      if (refs[n].id in current) == wanted {
        assert those == init + [refs[n]] && those[..|those| - 1] == init;
      } else {
        assert those == init + [] == init;
      }
    }
  }

  predicate Sublist(part: seq<Ref>, all: seq<Ref>)
    decreases |all|
  {
    if all == [] then part == []
    else
      || (part != [] && part[|part| - 1] == all[|all| - 1] && Sublist(part[..|part| - 1], all[..|all| - 1]))
      || Sublist(part, all[..|all| - 1])
  }

  predicate Numbered(resources: seq<Item>) {
    forall i | 0 <= i < |resources| :: resources[i].number == i + 1
  }

  /** Every visible reference resolves to what it shows, and nothing else resolves. */
  predicate Resolves(resources: seq<Item>, handles: map<nat, Handle>) {
    && (forall i | 0 <= i < |resources| :: resources[i].number in handles && handles[resources[i].number] == resources[i].what)
    && (forall n | n in handles :: exists i | 0 <= i < |resources| :: resources[i].number == n)
  }

  predicate Fits(resources: seq<Item>, size: seq<Item> -> nat) {
    resources == [] || size(resources) <= MAX_BYTES
  }

  predicate Accounts(view: View, total: nat) {
    |view.resources| + view.omitted == total && (view.complete <==> view.omitted == 0)
  }

  /** The references shown, in order, are the first ones of the candidates. */
  predicate Shows(resources: seq<Item>, first: nat, candidates: seq<Ref>) {
    && first <= |resources| <= first + |candidates|
    && (forall i | 0 <= i < first :: resources[i].what.Asset?)
    && (forall i | first <= i < |resources| :: resources[i].what == MlResource(candidates[i - first]))
  }

  /** An item that would make the list too long is taken back. */
  method Append(projected: seq<Item>, handles: map<nat, Handle>, what: Handle, size: seq<Item> -> nat)
    returns (longer: seq<Item>, more: map<nat, Handle>, ok: bool)
    requires Numbered(projected) && Resolves(projected, handles) && Fits(projected, size)
    ensures Numbered(longer) && Resolves(longer, more) && Fits(longer, size)
    ensures ok <==> size(projected + [Item(|projected| + 1, what)]) <= MAX_BYTES
    ensures longer == if ok then projected + [Item(|projected| + 1, what)] else projected
  {
    var candidate := Item(|projected| + 1, what);
    longer, more := projected + [candidate], handles[candidate.number := what];
    ok := size(longer) <= MAX_BYTES;
    if !ok {
      longer, more := projected, handles;
    } else {
      assert longer[|projected|] == candidate;
      forall n | n in more ensures exists i | 0 <= i < |longer| :: longer[i].number == n {
        if n in handles {
          var i :| 0 <= i < |projected| && projected[i].number == n;
          assert longer[i].number == n;
        }
      }
    }
  }

  /** The attachments marked in `kept`, as they are listed. */
  function Listing(attachments: seq<Attachment>, kept: seq<bool>): (r: seq<Item>)
    requires |kept| <= |attachments|
    ensures |r| <= |kept| && forall j | 0 <= j < |r| :: r[j].what.Asset?
  {
    if kept == [] then []
    else
      var n := |kept| - 1;
      var init := Listing(attachments, kept[..n]);
      if kept[n] then init + [Item(|init| + 1, Asset(attachments[n].id))] else init
  }

  /** Every image is shown, in its place, except one that would make the list of those before it too long. */
  predicate ShowsImages(attachments: seq<Attachment>, kept: seq<bool>, size: seq<Item> -> nat)
    requires |kept| <= |attachments|
  {
    forall i | 0 <= i < |kept| :: kept[i] <==> FitsNext(attachments[i], Listing(attachments, kept[..i]), size)
  }

  predicate FitsNext(a: Attachment, before: seq<Item>, size: seq<Item> -> nat) {
    a.image && size(before + [Item(|before| + 1, Asset(a.id))]) <= MAX_BYTES
  }

  /** The attachments that `kept` speaks of have been looked at. */
  predicate Looked(attachments: seq<Attachment>, kept: seq<bool>, projected: seq<Item>, handles: map<nat, Handle>,
                   size: seq<Item> -> nat) {
    && |kept| <= |attachments| && projected == Listing(attachments, kept) && ShowsImages(attachments, kept, size)
    && Numbered(projected) && Resolves(projected, handles) && Fits(projected, size)
    && |projected| <= Images(attachments[..|kept|]) <= |kept|
  }

  /** Every current image that still fits. */
  method AddImages(attachments: seq<Attachment>, size: seq<Item> -> nat) returns (projected: seq<Item>,
                   handles: map<nat, Handle>, ghost kept: seq<bool>)
    ensures Numbered(projected) && Resolves(projected, handles) && Fits(projected, size)
    ensures |projected| <= Images(attachments) <= |attachments|
    ensures |kept| == |attachments| && projected == Listing(attachments, kept) && ShowsImages(attachments, kept, size)
  {
    projected, handles, kept := [], map[], [];
    var i := 0;
    while i < |attachments|
      invariant i == |kept| <= |attachments| && Looked(attachments, kept, projected, handles, size)
    {
      projected, handles, kept := AddNext(attachments, i, projected, handles, size, kept);
      i := i + 1;
    }
    assert attachments[..i] == attachments;
  }

  method AddNext(attachments: seq<Attachment>, i: nat, projected: seq<Item>, handles: map<nat, Handle>,
                 size: seq<Item> -> nat, ghost kept: seq<bool>)
    returns (longer: seq<Item>, more: map<nat, Handle>, ghost now: seq<bool>)
    requires i == |kept| < |attachments| && Looked(attachments, kept, projected, handles, size)
    ensures |now| == i + 1 && Looked(attachments, now, longer, more, size)
  {
    ghost var ok;
    longer, more, ok := AddImage(attachments[i], projected, handles, size);
    ImagesNext(attachments, i);
    KeptNext(attachments, kept, ok, size);
    now := kept + [ok];
    assert attachments[..|now|] == attachments[..i + 1];
  }

  method AddImage(a: Attachment, projected: seq<Item>, handles: map<nat, Handle>, size: seq<Item> -> nat)
    returns (longer: seq<Item>, more: map<nat, Handle>, ghost ok: bool)
    requires Numbered(projected) && Resolves(projected, handles) && Fits(projected, size)
    ensures Numbered(longer) && Resolves(longer, more) && Fits(longer, size)
    ensures (ok <==> FitsNext(a, projected, size)) && (ok ==> a.image)
    ensures longer == if ok then projected + [Item(|projected| + 1, Asset(a.id))] else projected
  {
    longer, more, ok := projected, handles, false;
    if a.image {
      var shown;
      longer, more, shown := Append(projected, handles, Asset(a.id), size);
      ok := shown;
    }
  }

  lemma ImagesNext(attachments: seq<Attachment>, i: nat)
    requires i < |attachments|
    ensures Images(attachments[..i + 1]) == Images(attachments[..i]) + if attachments[i].image then 1 else 0
  {
    assert attachments[..i + 1][..i] == attachments[..i];
  }

  lemma KeptNext(attachments: seq<Attachment>, kept: seq<bool>, ok: bool, size: seq<Item> -> nat)
    requires |kept| < |attachments| && ShowsImages(attachments, kept, size)
    requires ok <==> FitsNext(attachments[|kept|], Listing(attachments, kept), size)
    ensures ShowsImages(attachments, kept + [ok], size)
    ensures var before := Listing(attachments, kept);
            Listing(attachments, kept + [ok])
            == if ok then before + [Item(|before| + 1, Asset(attachments[|kept|].id))] else before
  {
    var longer := kept + [ok];
    assert longer[..|kept|] == kept;
    forall i | 0 <= i < |longer| ensures longer[i] <==> FitsNext(attachments[i], Listing(attachments, longer[..i]), size) {
      assert i < |kept| ==> longer[..i] == kept[..i];
    }
  }

  /** The first candidate that did not fit ended the list. */
  predicate Stopped(resources: seq<Item>, first: nat, candidates: seq<Ref>, size: seq<Item> -> nat)
    requires first <= |resources|
  {
    && |resources| < first + |candidates|
    && size(resources + [Item(|resources| + 1, MlResource(candidates[|resources| - first]))]) > MAX_BYTES
  }

  /** Images and then references, numbered, resolving and within the size. */
  predicate Listed(images: seq<Item>, projected: seq<Item>, handles: map<nat, Handle>, candidates: seq<Ref>,
                   size: seq<Item> -> nat) {
    && Numbered(projected) && Resolves(projected, handles) && Fits(projected, size)
    && images <= projected && Shows(projected, |images|, candidates)
  }

  lemma ListedGrows(images: seq<Item>, projected: seq<Item>, handles: map<nat, Handle>, candidates: seq<Ref>,
                    size: seq<Item> -> nat,
                    longer: seq<Item>, more: map<nat, Handle>)
    requires Listed(images, projected, handles, candidates, size) && |projected| < |images| + |candidates|
    requires longer == projected + [Item(|projected| + 1, MlResource(candidates[|projected| - |images|]))]
    requires Numbered(longer) && Resolves(longer, more) && Fits(longer, size)
    ensures Listed(images, longer, more, candidates, size)
  {
  }

  method AddReferences(images: seq<Item>, known: map<nat, Handle>, candidates: seq<Ref>, size: seq<Item> -> nat)
    returns (projected: seq<Item>, handles: map<nat, Handle>)
    requires Numbered(images) && Resolves(images, known) && Fits(images, size) && |images| <= MAX_RESOURCES
    requires forall j | 0 <= j < |images| :: images[j].what.Asset?
    ensures Numbered(projected) && Resolves(projected, handles) && Fits(projected, size)
    ensures images <= projected && Shows(projected, |images|, candidates) && |projected| <= MAX_RESOURCES
    ensures |projected| == MAX_RESOURCES || |projected| == |images| + |candidates| || Stopped(projected, |images|, candidates, size)
  {
    projected, handles := images, known;
    var i, ok := 0, true;
    while ok && i < |candidates| && i < MAX_RESOURCES - |images|
      invariant i <= |candidates| && i <= MAX_RESOURCES - |images| && |projected| <= |images| + i
      invariant Listed(images, projected, handles, candidates, size)
      invariant if ok then |projected| == |images| + i else Stopped(projected, |images|, candidates, size)
    {
      ghost var before, held := projected, handles;
      projected, handles, ok := Append(projected, handles, MlResource(candidates[i]), size);
      if ok { ListedGrows(images, before, held, candidates, size, projected, handles); }
      i := i + 1;
    }
  }

  /** Current images first, whatever fits of them; then candidates until one does not fit. */
  method Build(attachments: seq<Attachment>, refs: seq<Ref>, current: set<nat>, size: seq<Item> -> nat)
    returns (view: View, handles: map<nat, Handle>, ghost candidates: seq<Ref>, ghost first: nat, ghost kept: seq<bool>)
    requires |attachments| <= MAX_ATTACHMENTS
    ensures Numbered(view.resources) && Resolves(view.resources, handles) && Fits(view.resources, size)
    ensures Accounts(view, |refs| + Images(attachments)) && |view.resources| <= MAX_RESOURCES
    ensures Shows(view.resources, first, candidates) && first <= Images(attachments)
    ensures |view.resources| == MAX_RESOURCES || |view.resources| == first + |candidates|
            || Stopped(view.resources, first, candidates, size)
    ensures Chosen(candidates, refs, current)
    ensures |kept| == |attachments| && ShowsImages(attachments, kept, size)
    ensures first <= |view.resources| && view.resources[..first] == Listing(attachments, kept)
  {
    ThoseAreAll(refs, current);
    var mine := Those(refs, current, true);
    var fair := Fair(Those(refs, current, false), MAX_RESOURCES - |mine|);
    var ordered := mine + fair;
    candidates := ordered;
    assert ordered[|mine|..] == fair;
    var projected, known;
    projected, known, kept := AddImages(attachments, size);
    first := |projected|;
    projected, handles := AddReferences(projected, known, ordered, size);
    var total := |refs| + Images(attachments);
    view := View(projected, |projected| == total, if total > |projected| then total - |projected| else 0);
  }

  /** Candidates are the message's own references, then a fair choice of the others, twenty in all if there are. */
  ghost predicate Chosen(candidates: seq<Ref>, refs: seq<Ref>, current: set<nat>) {
    var mine, others := Those(refs, current, true), Those(refs, current, false);
    && mine <= candidates
    && AlwaysFair(others, candidates[|mine|..])
    && (|candidates| >= MAX_RESOURCES || |candidates| == |refs|)
  }

  // ---- trimming ----

  function Visible(resources: seq<Item>): set<nat> {
    set i | 0 <= i < |resources| :: resources[i].number
  }

  predicate Restricts(handles: map<nat, Handle>, kept: map<nat, Handle>, resources: seq<Item>) {
    && kept.Keys == handles.Keys * Visible(resources)
    && forall n | n in kept :: kept[n] == handles[n]
  }

  /** What was dropped is counted as omitted; only an uncut list may still be complete. */
  predicate Cut(before: View, after: View) {
    && |after.resources| <= |before.resources|
    && |after.resources| + after.omitted == |before.resources| + before.omitted
    && (after.complete <==> before.complete && |after.resources| == |before.resources|)
  }

  /** The view when `n` of its resources are left. */
  function CutTo(view: View, n: nat): View
    requires n <= |view.resources|
  {
    if n == |view.resources| then view
    else View(view.resources[..n], false, view.omitted + (|view.resources| - n))
  }

  /** The projection given to the model: resources, conversation history and the handles behind the references. */
  class Frame {
    var view: Option<View>
    var history: Option<seq<nat>>
    var handles: map<nat, Handle>

    constructor (view: Option<View>, history: Option<seq<nat>>, handles: map<nat, Handle>)
      ensures this.view == view && this.history == history && this.handles == handles
    {
      this.view, this.history, this.handles := view, history, handles;
    }

    /** Resources go from the end; the references that are left keep their handles. */
    method DropResources(maximum: int, estimate: (Option<View>, Option<seq<nat>>) -> nat) returns (size: nat)
      requires view.Some?
      modifies this`view, this`handles
      ensures view.Some? && size == estimate(view, history)
      ensures view.value.resources <= old(view).value.resources && Cut(old(view).value, view.value)
      ensures Restricts(old(handles), handles, view.value.resources)
      ensures size > maximum ==> view.value.resources == []
      ensures view == old(view) || estimate(old(view), history) > maximum
      ensures NoneTooMany(old(view).value, view.value, history, maximum, estimate)
    {
      size := estimate(view, history);
      while size > maximum && view.value.resources != []
        invariant view.Some? && view.value.resources <= old(view).value.resources && size == estimate(view, history)
        invariant Cut(old(view).value, view.value) && handles == old(handles)
        invariant view == old(view) || estimate(old(view), history) > maximum
        invariant NoneTooMany(old(view).value, view.value, history, maximum, estimate)
        decreases |view.value.resources|
      {
        var selected := view.value.resources;
        view := Some(View(selected[..|selected| - 1], false, view.value.omitted + 1));
        size := estimate(view, history);
      }
      var visible := Visible(view.value.resources);
      handles := map n | n in handles && n in visible :: handles[n];
    }

    /** History goes from the start, down to its last entry. */
    method DropHistory(maximum: int, estimate: (Option<View>, Option<seq<nat>>) -> nat) returns (size: nat)
      requires history.Some?
      modifies this`history
      ensures history.Some? && size == estimate(view, history) && |history.value| <= |old(history).value|
      ensures history.value == old(history).value[|old(history).value| - |history.value|..]
      ensures size > maximum ==> |history.value| <= 1
      ensures history == old(history) || estimate(view, old(history)) > maximum
      ensures |history.value| < |old(history).value| ==>
                estimate(view, Some(old(history).value[|old(history).value| - |history.value| - 1..])) > maximum
    {
      size := estimate(view, history);
      while size > maximum && |history.value| > 1
        invariant history.Some? && size == estimate(view, history) && |history.value| <= |old(history).value|
        invariant history.value == old(history).value[|old(history).value| - |history.value|..]
        invariant history == old(history) || estimate(view, old(history)) > maximum
        invariant |history.value| < |old(history).value| ==>
                    estimate(view, Some(old(history).value[|old(history).value| - |history.value| - 1..])) > maximum
        decreases |history.value|
      {
        history := Some(history.value[1..]);
        size := estimate(view, history);
      }
    }

    /** First resources, then history; the count of what was omitted stays right. */
    method Trim(maximum: int, estimate: (Option<View>, Option<seq<nat>>) -> nat) returns (size: nat)
      modifies this
      ensures size == estimate(view, history)
      ensures view.Some? == old(view).Some? && history.Some? == old(history).Some?
      ensures view.Some? ==>
                && view.value.resources <= old(view).value.resources && Cut(old(view).value, view.value)
                && Restricts(old(handles), handles, view.value.resources)
                && NoneTooMany(old(view).value, view.value, old(history), maximum, estimate)
      ensures view.None? ==> handles == old(handles)
      ensures history.Some? ==> |history.value| <= |old(history).value|
                                && history.value == old(history).value[|old(history).value| - |history.value|..]
      ensures size > maximum ==> (view.None? || view.value.resources == []) && (history.None? || |history.value| <= 1)
      ensures estimate(old(view), old(history)) <= maximum ==> view == old(view) && history == old(history)
      ensures history != old(history) ==> view.None? || view.value.resources == []
      ensures history.Some? && |history.value| < |old(history).value| ==>
                estimate(view, Some(old(history).value[|old(history).value| - |history.value| - 1..])) > maximum
    {
      size := estimate(view, history);
      if view.Some? {
        size := DropResources(maximum, estimate);
      }
      if history.Some? {
        size := DropHistory(maximum, estimate);
      }
    }
  }

  /** With one more resource it would have been too long. */
  predicate NoneTooMany(before: View, after: View, history: Option<seq<nat>>, maximum: int,
                        estimate: (Option<View>, Option<seq<nat>>) -> nat) {
    && |after.resources| <= |before.resources| && after == CutTo(before, |after.resources|)
    && (|after.resources| < |before.resources| ==>
          estimate(Some(CutTo(before, |after.resources| + 1)), history) > maximum)
  }

  /** What was built and then trimmed still resolves exactly the references the model sees. */
  lemma TrimmedResolves(before: seq<Item>, after: seq<Item>, handles: map<nat, Handle>, kept: map<nat, Handle>)
    requires Resolves(before, handles) && after <= before && Restricts(handles, kept, after)
    ensures Resolves(after, kept)
  {
    forall i | 0 <= i < |after| ensures after[i].number in kept && kept[after[i].number] == after[i].what {
      assert before[i] == after[i] && after[i].number in Visible(after);
    }
  }

  /** Building and trimming in a row: accounting and resolution hold for what the model is shown. */
  method Project(attachments: seq<Attachment>, refs: seq<Ref>, current: set<nat>, size: seq<Item> -> nat,
                 history: seq<nat>, maximum: int, estimate: (Option<View>, Option<seq<nat>>) -> nat) returns (frame: Frame, total: nat)
    requires |attachments| <= MAX_ATTACHMENTS
    ensures fresh(frame) && frame.view.Some? && total == estimate(frame.view, frame.history)
    ensures Accounts(frame.view.value, |refs| + Images(attachments)) && Resolves(frame.view.value.resources, frame.handles)
    ensures Numbered(frame.view.value.resources) && |frame.view.value.resources| <= MAX_RESOURCES
    ensures total > maximum ==> frame.view.value.resources == [] && frame.handles == map[]
  {
    var view, handles, candidates, first, kept := Build(attachments, refs, current, size);
    frame := new Frame(Some(view), Some(history), handles);
    total := frame.Trim(maximum, estimate);
    TrimmedResolves(view.resources, frame.view.value.resources, handles, frame.handles);
  }
}
