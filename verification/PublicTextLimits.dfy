/**
 Where the streaming guard and `protect_text` part: the exact conditions on the input, for short
 private values, and on the set of values, for long ones.
 */
module PublicTextLimits {
  import opened Redaction
  import opened RedactionScan
  import opened PublicTexts

  // ---- short values: the condition on the input ----

  lemma {:induction false} ProtectInTwo(s: string, a: seq<string>, b: seq<string>)
    requires AllFree(a) && AllFree(b)
    ensures ProtectText(s, a + b) == ProtectText(ProtectText(s, a), b)
    decreases |a|
  {
    if a == [] {
      assert a + b == b;
    } else {
      assert (a + b)[1..] == a[1..] + b;
      if s == a[0] {
        forall u | u in b && |u| >= LONG ensures !Occurs(MARKER, u) { MarkerIsClean(u); }
        assert MARKER[0] in MARKER;
        ProtectClean(MARKER, b);
      } else {
        ProtectInTwo(if |a[0]| >= LONG then Replace(s, a[0]) else s, a[1..], b);
      }
    }
  }

  lemma ProtectIsScanThenShort(s: string, secrets: Secrets, private: set<string>, whole: seq<string>)
    requires secrets.Of(private) && NonInterfering(secrets.long) && Enumerates(whole, private)
    requires forall v | v in private :: Free(v)
    ensures var r := Scan(s, secrets.long);
            ProtectText(s, whole) == if r in secrets.short then MARKER else r
  {
    var k := LongPart(whole, |whole|);
    var a, b := whole[..k], whole[k..];
    assert whole == a + b;
    ProtectInTwo(s, a, b);
    assert forall v :: v in secrets.long <==> v in a;
    ScanIsProtect(s, a);
    ScanOrder(s, secrets.long, a);
    ProtectClean(ProtectText(s, a), b);
  }

  lemma {:induction false} LongPart(order: seq<string>, n: nat) returns (k: nat)
    requires n <= |order| && forall i, j | 0 <= i < j < |order| :: |order[i]| >= |order[j]|
    ensures k <= n && (forall i | 0 <= i < k :: |order[i]| >= LONG) && (forall i | k <= i < n :: |order[i]| < LONG)
  {
    k := 0;
    while k < n && |order[k]| >= LONG
      invariant k <= n && forall i | 0 <= i < k :: |order[i]| >= LONG
    {
      k := k + 1;
    }
  }

  /** With `r` the input after one scan: the stream holds all of `r` back as a possible short value, or
      it holds its longest suffix that starts a long one. */
  ghost predicate Harmless(r: string, secrets: Secrets) {
    var held := r[|r| - KeepFrom(r, secrets.long, |r|)..];
    if exists s | s in secrets.short :: Strip(r) <= s then Strip(r) in secrets.short ==> r in secrets.short
    else if held in secrets.short then held == r
    else r !in secrets.short
  }

  /** With short values as well, a stream meets `protect_text` if and only if its input is harmless. */
  lemma {:induction false} ChunkInsensitiveExactly(chunks: seq<Chunk>, secrets: Secrets, private: set<string>,
                                                   order: seq<string>, whole: seq<string>)
    requires secrets.Of(private) && Orders(chunks, secrets) && NonInterfering(secrets.long)
    requires Enumerates(order, private) && Enumerates(whole, private)
    requires forall v | v in private :: Free(v)
    ensures MeetsProtect(chunks, secrets, order, whole) <==> Harmless(Scan(Input(chunks), secrets.long), secrets)
  {
    var r := Scan(Input(chunks), secrets.long);
    FinishedIsCompleted(chunks, secrets, private, order, false);
    ProtectIsScanThenShort(Input(chunks), secrets, private, whole);
    OutcomesCompared(Settled(r, secrets), secrets);
    SettledHarmless(r, secrets);
  }

  ghost predicate Unspoiled(g: Guard, secrets: Secrets) {
    if Hidden(g, secrets) then g.text == "" && g.pending in secrets.short else g.text + g.pending !in secrets.short
  }

  lemma SettledHarmless(r: string, secrets: Secrets)
    ensures var g := Settled(r, secrets); g.text + g.pending == r && (Unspoiled(g, secrets) <==> Harmless(r, secrets))
  {
    var g, k := Settled(r, secrets), KeepFrom(r, secrets.long, |r|);
    assert Blank("") && "" + r == r;
    if !HeldWhole("", r, secrets.short) {
      assert "" + r[..|r| - k] == r[..|r| - k] && r[..|r| - k] + r[|r| - k..] == r;
      assert g == Guard(r[..|r| - k], r[|r| - k..]);
      if Blank(g.text) {
        StripExtends(g.text, g.pending);
        assert Strip(r) <= Strip(r);
      }
      assert g.text == "" <==> g.pending == r;
    }
  }

  lemma OutcomesCompared(g: Guard, secrets: Secrets)
    requires forall v | v in secrets.short :: Free(v)
    ensures var r := g.text + g.pending;
            (g.text + (if Hidden(g, secrets) then MARKER else g.pending)) == (if r in secrets.short then MARKER else r)
            <==> if Hidden(g, secrets) then g.text == "" && g.pending in secrets.short
                 else r !in secrets.short
  {
    var r := g.text + g.pending;
    assert MARKER[0] in MARKER;
    assert g.text + MARKER == MARKER <==> g.text == "" by {
      assert |g.text + MARKER| == |g.text| + |MARKER|;
      assert g.text == "" ==> g.text + MARKER == MARKER;
    }
    assert g.text == "" ==> r == g.pending;
    if Hidden(g, secrets) && g.text + MARKER == r {
      assert g.pending == r[|g.text|..] == MARKER;
      forall v | v in secrets.short ensures v != MARKER {}
      MarkerStripped();
    }
    if !Hidden(g, secrets) && r in secrets.short { assert r[..0] == ""; assert !Free(MARKER); }
  }

  lemma MarkerStripped()
    ensures Strip(MARKER) == MARKER && !Free(MARKER)
  {
    assert MARKER[0] in MARKER && MARKER[|MARKER| - 1] in MARKER;
    MarkerIsVisible(MARKER[0]);
    MarkerIsVisible(MARKER[|MARKER| - 1]);
  }

  /** Any short value after a space: the stream hides it, `protect_text` leaves it. */
  lemma ShortValueBreaksChunking(v: string)
    requires 0 < |v| < LONG && !IsSpace(v[0]) && !IsSpace(v[|v| - 1])
    ensures !MeetsProtect([Chunk(" " + v, [])], Secrets([], [v]), [v], [v])
  {
    var secrets, s := Secrets([], [v]), " " + v;
    var chunks := [Chunk(s, [])];
    SpaceStripped(v);
    HeldAlone(s, v);
    assert ProtectText(s, [v]) == s;
    assert Finished(Guard("", s), [v], secrets, false) == "" + MARKER;
    assert ("" + MARKER)[0] != ' ';
  }

  lemma SpaceStripped(v: string)
    requires v != "" && !IsSpace(v[0]) && !IsSpace(v[|v| - 1])
    ensures Strip(" " + v) == v && (" " + v)[0] == ' '
  {
    var s := " " + v;
    assert s[0] == ' ' && s[1..] == v;
    assert StripLeft(s) == StripLeft(v) == v;
  }

  lemma HeldAlone(s: string, v: string)
    requires Strip(s) == v
    ensures var chunks, secrets := [Chunk(s, [])], Secrets([], [v]);
            Stream(chunks, secrets) == Guard("", s) && Input(chunks) == s
  {
    var chunks, secrets := [Chunk(s, [])], Secrets([], [v]);
    assert "" + s == s && v in secrets.short;
    assert chunks[..0] == [] && Stream(chunks[..0], secrets) == Guard("", "");
  }

  // ---- long values: the condition on the set of values ----

  /** An enumeration in which `v` comes before all others of its length. */
  lemma {:induction false} EnumerateWith(values: set<string>, v: string) returns (order: seq<string>)
    ensures Enumerates(order, values)
    ensures forall j, k | 0 <= j < k < |order| && order[k] == v :: |order[j]| > |v|
    decreases values
  {
    if values == {} {
      order := [];
    } else {
      LongestExists(values);
      var longest :| longest in values && forall w | w in values :: |longest| >= |w|;
      var first := if v in values && |v| == |longest| then v else longest;
      var rest := EnumerateWith(values - {first}, v);
      order := [first] + rest;
      assert forall w :: w in rest <==> w in values - {first};
    }
  }

  /** A value given alone is hidden as a whole: no longer one fits into it. */
  lemma {:induction false} ProtectWhole(u: string, order: seq<string>)
    requires u in order && LongestFirst(order) && forall w | w in order :: w != ""
    ensures ProtectText(u, order) == MARKER
    decreases |order|
  {
    var w := order[0];
    assert order == [w] + order[1..] && w in order && forall x | x in order[1..] :: x in order;
    if u != w {
      assert |w| >= |u|;
      assert u[0..] == u;
      forall i: nat ensures !OccursAt(u, w, i) {
        assert i <= |u| ==> |u[i..]| == |u| - i;
      }
      ReplaceAbsent(u, w);
      ProtectWhole(u, order[1..]);
    }
  }

  lemma {:induction false} ReplaceNonempty(s: string, v: string)
    requires s != "" && v != ""
    ensures Replace(s, v) != ""
  {
  }

  lemma {:induction false} ProtectNonempty(s: string, order: seq<string>)
    requires s != "" && forall w | w in order :: w != ""
    ensures ProtectText(s, order) != ""
    decreases |order|
  {
    if order != [] {
      assert order[0] in order && forall x | x in order[1..] :: x in order;
      ReplaceNonempty(s, order[0]);
      if s != order[0] { ProtectNonempty(if |order[0]| >= LONG then Replace(s, order[0]) else s, order[1..]); }
    }
  }

  /** Markers come whole at the start. */
  ghost predicate WholeMarker(s: string) {
    s == "" || s[0] !in MARKER || MARKER <= s
  }

  lemma ReplaceWholeMarker(s: string, v: string)
    requires WholeMarker(s) && v != "" && Free(v)
    ensures WholeMarker(Replace(s, v))
  {
    if s != "" && !(v <= s) && MARKER <= s {
      forall i: nat | i < |MARKER| ensures !OccursAt(s, v, i) {
        assert s[i..][0] == s[i] == MARKER[i] && v[0] !in MARKER;
      }
      ReplaceSkips(s, v, |MARKER|);
      assert s[..|MARKER|] == MARKER;
    }
  }

  lemma {:induction false} ProtectWholeMarker(s: string, order: seq<string>)
    requires WholeMarker(s) && forall w | w in order :: w != "" && Free(w)
    ensures WholeMarker(ProtectText(s, order))
    decreases |order|
  {
    if order != [] {
      assert order[0] in order && forall x | x in order[1..] :: x in order;
      ReplaceWholeMarker(s, order[0]);
      if s != order[0] { ProtectWholeMarker(if |order[0]| >= LONG then Replace(s, order[0]) else s, order[1..]); }
    }
  }

  // ---- a value that ends inside another ----

  lemma HeldIsFree(p: string, long: seq<string>)
    requires forall u | u in long :: Free(u)
    ensures Free(p[|p| - KeepFrom(p, long, |p|)..])
  {
    var k := KeepFrom(p, long, |p|);
    if k > 0 {
      var u :| u in long && Starts(p, u, k);
      assert p[|p| - k..] == u[..k];
    } else {
      assert p[|p|..] == "";
    }
  }

  /** After a first chunk that held a value, the finished text is more than one marker. */
  lemma MoreThanMarker(p: string, long: seq<string>, x: string)
    requires (forall u | u in long :: Free(u)) && !Free(p) && WholeMarker(p) && x != ""
    ensures p[..|p| - KeepFrom(p, long, |p|)] + x != MARKER
  {
    HeldIsFree(p, long);
    var end := |p| - KeepFrom(p, long, |p|);
    var text, held := p[..end], p[end..];
    var i :| 0 <= i < |p| && p[i] in MARKER;
    assert forall j | end <= j < |p| :: p[j] == held[j - end];
    assert i < end;
    assert (text + x)[0] == p[0];
    if p[0] in MARKER {
      var m := |MARKER| - 1;
      assert p[m] == MARKER[m] && MARKER[m] in MARKER;
      assert m < end;
    } else {
      assert MARKER[0] in MARKER;
    }
  }

  lemma {:induction false} InsideBreaks(secrets: Secrets, private: set<string>, u: string, v: string, i: nat)
    requires secrets.Of(private) && forall w | w in private :: Free(w) && |w| >= LONG
    requires u in private && v in private && i < |u| && v <= u[i..] && i + |v| < |u|
    ensures var m, o := i + |v|, secrets.long;
            !MeetsProtect([Chunk(u[..m], o), Chunk(u[m..], o)], secrets, o, o)
  {
    var m, o := i + |v|, secrets.long;
    LongOnly(secrets, private, u[..m], u[m..]);
    TwoChunks(u[..m], u[m..], secrets);
    assert v <= u[..m][i..] && u[..m] + u[m..] == u;
    HeldValueMarks(u[..m], v, i, o);
    ProtectWhole(u, o);
    var p := ProtectText(u[..m], o);
    SecondChunk(p, o, u[m..]);
    var end := |p| - KeepFrom(p, o, |p|);
    FinishedLonger([Chunk(u[..m], o), Chunk(u[m..], o)], secrets, private, p[..end], ProtectText(p[end..] + u[m..], o));
  }

  lemma LongOnly(secrets: Secrets, private: set<string>, x: string, y: string)
    requires secrets.Of(private) && forall w | w in private :: Free(w) && |w| >= LONG
    ensures forall w :: (w in secrets.long <==> w in private) && w !in secrets.short
    ensures AllFree(secrets.long) && LongestFirst(secrets.long) && Enumerates(secrets.long, private)
    ensures Orders([Chunk(x, secrets.long), Chunk(y, secrets.long)], secrets)
  {
    assert (set w | w in secrets.long) == (set w | w in private && |w| >= LONG) == private;
  }

  lemma SecondChunk(p: string, long: seq<string>, y: string)
    requires (forall w | w in long :: Free(w) && w != "") && !Free(p) && WholeMarker(p) && y != ""
    ensures var end := |p| - KeepFrom(p, long, |p|);
            p[..end] != "" && p[..end] + ProtectText(p[end..] + y, long) != MARKER
  {
    var end := |p| - KeepFrom(p, long, |p|);
    ProtectNonempty(p[end..] + y, long);
    MoreThanMarker(p, long, ProtectText(p[end..] + y, long));
    HeldIsFree(p, long);
    assert p[0..] == p;
  }

  /** Two pushes, with no short values. */
  lemma TwoChunks(x: string, y: string, secrets: Secrets)
    requires forall w :: w !in secrets.short
    ensures var o := secrets.long; var p := ProtectText(x, o); var end := |p| - KeepFrom(p, o, |p|);
            var chunks, g := [Chunk(x, o), Chunk(y, o)], Pushed(Guard("", ""), Chunk(x, o), secrets);
            && Input(chunks) == x + y && g == Guard(p[..end], p[end..])
            && g.text <= Stream(chunks, secrets).text
            && Stream(chunks, secrets).text + Stream(chunks, secrets).pending == g.text + ProtectText(g.pending + y, o)
  {
    var o := secrets.long;
    var first, second, p := Chunk(x, o), Chunk(y, o), ProtectText(x, o);
    var end := |p| - KeepFrom(p, o, |p|);
    InputOfTwo(first, second);
    StreamOfTwo(first, second, secrets);
    assert "" + x == x && "" + p[..end] == p[..end];
    var g := Pushed(Guard("", ""), first, secrets);
    assert g == Guard(p[..end], p[end..]);
    PushKeepsAll(g, second, secrets);
  }

  lemma HeldValueMarks(s: string, v: string, i: nat, order: seq<string>)
    requires v in order && (forall w | w in order :: Free(w) && |w| >= LONG) && i <= |s| && v <= s[i..] && Free(s)
    ensures !Free(ProtectText(s, order)) && WholeMarker(ProtectText(s, order))
  {
    assert OccursAt(s, v, i);
    ProtectRemoves(s, order, v);
    if Free(ProtectText(s, order)) { FreeProtectIsIdentity(s, order); }
    ProtectWholeMarker(s, order);
  }

  lemma FinishedLonger(chunks: seq<Chunk>, secrets: Secrets, private: set<string>, text: string, q: string)
    requires secrets.Of(private) && Orders(chunks, secrets) && Enumerates(secrets.long, private) && AllFree(secrets.long)
    requires var h := Stream(chunks, secrets); h.text + h.pending == text + q && text <= h.text
    requires text != "" && text + q != MARKER && ProtectText(Input(chunks), secrets.long) == MARKER
    ensures !MeetsProtect(chunks, secrets, secrets.long, secrets.long)
  {
    var h := Stream(chunks, secrets);
    StreamGuarded(chunks, secrets, private);
    TailCases(h, secrets.long, secrets, private, false);
    assert |h.text + MARKER| == |h.text| + |MARKER|;
  }

  lemma StreamOfTwo(first: Chunk, second: Chunk, secrets: Secrets)
    ensures Stream([first, second], secrets) == Pushed(Pushed(Guard("", ""), first, secrets), second, secrets)
  {
    assert [first, second][..1] == [first] && [first][..0] == [];
    assert Stream([first], secrets) == Pushed(Stream([], secrets), first, secrets);
  }

  lemma InputOfTwo(first: Chunk, second: Chunk)
    ensures Input([first, second]) == first.value + second.value
  {
    assert [first, second][..1] == [first] && [first][..0] == [];
    assert Input([first]) == "" + first.value == first.value;
  }

  // ---- a value that runs on into another ----

  ghost predicate NoneInside(values: set<string>) {
    forall u, v, i: nat | u in values && v in values && i < |u| :: !(v <= u[i..] && i + |v| < |u|)
  }

  /** The first characters of a value stay once the marker cuts it off. */
  lemma {:induction false} AfterCut(t: string, order: seq<string>, values: set<string>, u: string, p: nat)
    requires NoneInside(values) && (forall w | w in values :: Free(w) && w != "") && u in values
    requires (forall w | w in order :: w in values) && 0 < p < |u| && p < |t| && t[..p] == u[..p] && t[p] in MARKER
    ensures [u[0]] <= ProtectText(t, order)
    decreases |order|
  {
    assert t[0] == t[..p][0] == u[0];
    if order != [] {
      var w := order[0];
      assert w in order && forall x | x in order[1..] :: x in order;
      var r := if |w| >= LONG then Replace(t, w) else t;
      if |w| >= LONG {
        forall j: nat | j < p + 1 ensures !OccursAt(t, w, j) { CutOffAbsent(t, values, u, p, w, j); }
        ReplaceSkips(t, w, p + 1);
        assert r[..p] == t[..p] && r[p] == t[p];
      }
      AfterCut(r, order[1..], values, u, p);
    }
  }

  lemma CutOffAbsent(t: string, values: set<string>, u: string, p: nat, w: string, j: nat)
    requires NoneInside(values) && (forall x | x in values :: Free(x) && x != "") && u in values && w in values
    requires 0 < p < |u| && p < |t| && t[..p] == u[..p] && t[p] in MARKER && j <= p
    ensures !OccursAt(t, w, j)
  {
    assert w in values && |t[j..]| == |t| - j;
    if j + |w| > p {
      assert w[p - j] !in MARKER && t[j..][p - j] == t[p];
    } else {
      assert t[j..][..|w|] == t[..p][j..j + |w|] == u[..p][j..j + |w|] == u[j..][..|w|];
    }
  }

  lemma {:induction false} Leftmost(s: string, w: string, at: nat) returns (p: nat)
    requires OccursAt(s, w, at)
    ensures p <= at && OccursAt(s, w, p) && forall j: nat | j < p :: !OccursAt(s, w, j)
  {
    p := 0;
    while !OccursAt(s, w, p)
      invariant p <= at && forall j: nat | j < p :: !OccursAt(s, w, j)
      decreases at - p
    {
      p := p + 1;
    }
  }

  lemma CutAt(s: string, w: string, at: nat) returns (p: nat)
    requires OccursAt(s, w, at) && w != "" && !(w <= s)
    ensures var r := Replace(s, w);
            0 < p <= at && p + |w| <= |s| && p < |r| && r[..p] == s[..p] && r[p] in MARKER
  {
    p := Leftmost(s, w, at);
    assert s[0..] == s && |s[p..]| == |s| - p;
    ReplaceSkips(s, w, p);
    assert Replace(s[p..], w) == MARKER + Replace(s[p..][|w|..], w);
    assert MARKER[0] in MARKER && (MARKER + Replace(s[p..][|w|..], w))[0] == MARKER[0];
  }

  ghost predicate Listed(order: seq<string>, values: set<string>, v: string) {
    && v in order && (forall w | w in order :: w in values)
    && (forall j, k | 0 <= j < k < |order| && order[k] == v :: |order[j]| > |v|)
  }

  ghost predicate RunsOn(values: set<string>, u: string, v: string, i: nat) {
    && NoneInside(values) && (forall w | w in values :: Free(w) && |w| >= LONG)
    && u in values && u != v && 0 < i < |u| <= |v| && u <= u[..i] + v
  }

  /** Where `u` runs on into `v`, no value starts the text, and `v` or a longer value cuts `u` off. */
  lemma {:induction false} BeforeCut(order: seq<string>, values: set<string>, u: string, v: string, i: nat)
    requires RunsOn(values, u, v, i) && Listed(order, values, v)
    ensures [u[0]] <= ProtectText(u[..i] + v, order)
    decreases |order|
  {
    var s := u[..i] + v;
    if at: nat :| OccursAt(s, order[0], at) {
      CutNow(order, values, u, v, i, at);
    } else {
      CutLater(order, values, u, v, i);
      BeforeCut(order[1..], values, u, v, i);
    }
  }

  lemma CutNow(order: seq<string>, values: set<string>, u: string, v: string, i: nat, at: nat)
    requires RunsOn(values, u, v, i) && Listed(order, values, v) && OccursAt(u[..i] + v, order[0], at)
    ensures [u[0]] <= ProtectText(u[..i] + v, order)
  {
    var s, w := u[..i] + v, order[0];
    assert w in order && order == [w] + order[1..];
    NotAtStart(values, u, v, i, w);
    var p := CutAt(s, w, at);
    assert s[..p] == u[..p];
    RestStays(Replace(s, w), order, values, u, p);
  }

  lemma CutLater(order: seq<string>, values: set<string>, u: string, v: string, i: nat)
    requires RunsOn(values, u, v, i) && Listed(order, values, v) && !Occurs(u[..i] + v, order[0])
    ensures Listed(order[1..], values, v)
    ensures ProtectText(u[..i] + v, order) == ProtectText(u[..i] + v, order[1..])
  {
    var s, w := u[..i] + v, order[0];
    assert w in order && order == [w] + order[1..];
    assert s[i..] == v && OccursAt(s, v, i);
    assert s[0..] == s && !OccursAt(s, w, 0);
    ReplaceAbsent(s, w);
  }

  lemma RestStays(r: string, order: seq<string>, values: set<string>, u: string, p: nat)
    requires NoneInside(values) && (forall w | w in values :: Free(w) && |w| >= LONG) && u in values
    requires order != [] && (forall w | w in order :: w in values) && 0 < p < |u| && p < |r| && r[..p] == u[..p] && r[p] in MARKER
    ensures [u[0]] <= ProtectText(r, order[1..])
  {
    assert forall x | x in order[1..] :: x in order;
    AfterCut(r, order[1..], values, u, p);
  }

  lemma NotAtStart(values: set<string>, u: string, v: string, i: nat, w: string)
    requires NoneInside(values) && u in values && w in values && u != v && |w| >= |v|
    requires 0 < i < |u| <= |v| && u <= u[..i] + v && (w == v || |w| > |v|)
    ensures !(w <= u[..i] + v) && w != u[..i] + v
  {
    var s, start := u[..i] + v, w[..|u|];
    assert w[0..] == w && s[..|u|] == u;
    assert w <= s ==> start == u;
  }

  lemma OverlapBreaks(secrets: Secrets, private: set<string>, u: string, v: string, i: nat) returns (whole: seq<string>)
    requires secrets.Of(private) && NoneInside(private) && forall w | w in private :: Free(w) && |w| >= LONG
    requires u in private && v in private && u != v && i < |u| <= |v| && u[i..] <= v && |u| - i < |v|
    ensures var o, z := secrets.long, v[|u| - i..];
            Enumerates(whole, private) && !MeetsProtect([Chunk(u, o), Chunk(z, o)], secrets, o, whole)
  {
    var o, z := secrets.long, v[|u| - i..];
    assert u[0..] == u && v[0..] == v;
    assert i > 0;
    assert u + z == u[..i] + v by { assert u == u[..i] + u[i..] && v == u[i..] + z; }
    MarkerFirst(secrets, private, u, z);
    whole := EnumerateWith(private, v);
    assert u == (u[..i] + v)[..|u|];
    BeforeCut(whole, private, u, v, i);
    assert MARKER[0] in MARKER && u[0] !in MARKER;
    assert [u[0]][0] == u[0];
  }

  /** A value pushed first is out as the marker, whatever follows. */
  lemma MarkerFirst(secrets: Secrets, private: set<string>, u: string, z: string)
    requires secrets.Of(private) && (forall w | w in private :: Free(w) && |w| >= LONG) && u in private
    ensures var o := secrets.long; var chunks := [Chunk(u, o), Chunk(z, o)];
            Input(chunks) == u + z && MARKER <= Finished(Stream(chunks, secrets), o, secrets, false)
  {
    var o := secrets.long;
    LongOnly(secrets, private, u, z);
    TwoChunks(u, z, secrets);
    ProtectWhole(u, o);
    HeldIsFree(MARKER, o);
    MarkerHasNoFreeEnd(|MARKER| - KeepFrom(MARKER, o, |MARKER|));
    assert MARKER[..|MARKER|] == MARKER;
  }

  lemma MarkerHasNoFreeEnd(end: nat)
    ensures end < |MARKER| ==> !Free(MARKER[end..])
  {
    if end < |MARKER| { assert MARKER[end..][0] == MARKER[end] && MARKER[end] in MARKER; }
  }

  /** With long values only, every stream meets `protect_text` if and only if no two of them interfere. */
  lemma LongValuesExactly(secrets: Secrets, private: set<string>)
    requires secrets.Of(private) && forall v | v in private :: Free(v) && |v| >= LONG
    ensures NonInterfering(secrets.long) <==>
            forall chunks, order, whole |
              Orders(chunks, secrets) && Enumerates(order, private) && Enumerates(whole, private)
              :: MeetsProtect(chunks, secrets, order, whole)
  {
    LongOnly(secrets, private, "", "");
    if NonInterfering(secrets.long) {
      forall chunks, order, whole | Orders(chunks, secrets) && Enumerates(order, private) && Enumerates(whole, private)
        ensures MeetsProtect(chunks, secrets, order, whole)
      {
        ChunkInsensitive(chunks, secrets, private, order, whole);
      }
    } else {
      var chunks, whole := CollisionBreaks(secrets, private);
      assert Enumerates(secrets.long, private);
    }
  }

  lemma CollisionBreaks(secrets: Secrets, private: set<string>) returns (chunks: seq<Chunk>, whole: seq<string>)
    requires secrets.Of(private) && !NonInterfering(secrets.long) && forall v | v in private :: Free(v) && |v| >= LONG
    ensures Orders(chunks, secrets) && Enumerates(whole, private) && !MeetsProtect(chunks, secrets, secrets.long, whole)
  {
    var o := secrets.long;
    LongOnly(secrets, private, "", "");
    if NoneInside(private) {
      var u, v, i: nat :| u in o && v in o && u != v && Collide(u, v, i);
      var z := v[|u| - i..];
      whole := OverlapBreaks(secrets, private, u, v, i);
      chunks := [Chunk(u, o), Chunk(z, o)];
      LongOnly(secrets, private, u, z);
    } else {
      var u, v, i: nat :| u in private && v in private && i < |u| && v <= u[i..] && i + |v| < |u|;
      InsideBreaks(secrets, private, u, v, i);
      chunks, whole := [Chunk(u[..i + |v|], o), Chunk(u[i + |v|..], o)], o;
      LongOnly(secrets, private, u[..i + |v|], u[i + |v|..]);
    }
  }
}
