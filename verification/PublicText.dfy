/**
 The streaming guard `PublicText`: text arrives in chunks, leaves as early as it
 can, and a suffix that may still grow into a private value is held back.
 `Stream` is the value-level account of a run; the class is proved to follow it.
 */
module PublicTexts {
  import opened Redaction
  import opened RedactionScan

  // ---- str.strip() ----

  /** The characters Python's `str.isspace` accepts. */
  predicate IsSpace(c: char) {
    var n := c as int;
    || 9 <= n <= 13 || 28 <= n <= 32 || n == 0x85 || n == 0xA0 || n == 0x1680
    || 0x2000 <= n <= 0x200A || n == 0x2028 || n == 0x2029 || n == 0x202F || n == 0x205F || n == 0x3000
  }

  predicate Blank(s: string) {
    forall i | 0 <= i < |s| :: IsSpace(s[i])
  }

  function StripLeft(s: string): string {
    if s != "" && IsSpace(s[0]) then StripLeft(s[1..]) else s
  }

  function StripRight(s: string): string {
    if s != "" && IsSpace(s[|s| - 1]) then StripRight(s[..|s| - 1]) else s
  }

  function Strip(s: string): string {
    StripRight(StripLeft(s))
  }

  lemma {:induction false} StripLeftExtends(s: string, t: string)
    ensures Blank(s) ==> StripLeft(s) == "" && StripLeft(s + t) == StripLeft(t)
    ensures !Blank(s) ==> StripLeft(s + t) == StripLeft(s) + t && !Blank(StripLeft(s))
  {
    if s == "" {
      assert s + t == t;
    } else {
      assert (s + t)[1..] == s[1..] + t;
      StripLeftExtends(s[1..], t);
      assert forall i | 0 <= i < |s| :: s[i] == if i == 0 then s[0] else s[1..][i - 1];
    }
  }

  lemma {:induction false} StripRightExtends(s: string, t: string)
    ensures StripRight(s) <= s && StripRight(s) <= StripRight(s + t)
    decreases |s| + |t|
  {
    if t == "" {
      assert s + t == s;
      if s != "" && IsSpace(s[|s| - 1]) { StripRightExtends(s[..|s| - 1], ""); assert s[..|s| - 1] + "" == s[..|s| - 1]; }
    } else {
      StripRightExtends(s, t[..|t| - 1]);
      assert (s + t)[..|s + t| - 1] == s + t[..|t| - 1];
    }
  }

  lemma StripExtends(s: string, t: string)
    ensures Strip(s) <= Strip(s + t)
    ensures Blank(s) ==> Strip(s + t) == Strip(t)
  {
    StripLeftExtends(s, t);
    if !Blank(s) { StripRightExtends(StripLeft(s), t); }
  }

  lemma {:induction false} StripIsPart(s: string)
    ensures exists a, b :: s == a + Strip(s) + b && Blank(a) && Blank(b)
  {
    var a := StripLeftParts(s);
    var b := StripRightParts(StripLeft(s));
    assert s == a + Strip(s) + b;
  }

  lemma {:induction false} StripLeftParts(s: string) returns (a: string)
    ensures s == a + StripLeft(s) && Blank(a)
  {
    if s != "" && IsSpace(s[0]) {
      var a' := StripLeftParts(s[1..]);
      a := [s[0]] + a';
    } else {
      a := "";
    }
  }

  lemma {:induction false} StripRightParts(s: string) returns (b: string)
    ensures s == StripRight(s) + b && Blank(b)
  {
    if s != "" && IsSpace(s[|s| - 1]) {
      var b' := StripRightParts(s[..|s| - 1]);
      b := b' + [s[|s| - 1]];
    } else {
      b := "";
    }
  }

  // ---- the guard ----

  datatype Guard = Guard(text: string, pending: string)

  /** The private values split at twelve characters, the long ones longest first. */
  datatype Secrets = Secrets(long: seq<string>, short: seq<string>) {
    ghost predicate Of(private: set<string>) {
      && Enumerates(long, set v | v in private && |v| >= LONG)
      && (forall v :: v in short <==> v in private && |v| < LONG)
    }
  }

  /** One call of `push`, with the enumeration its pass over the values happened to use. */
  datatype Chunk = Chunk(value: string, order: seq<string>)

  predicate Starts(p: string, u: string, size: nat) {
    size <= |p| && size < |u| && p[|p| - size..] == u[..size]
  }

  /** The last `size` characters of `p` start a long value without completing it. */
  predicate CanGrow(p: string, long: seq<string>, size: nat) {
    exists u | u in long :: Starts(p, u, size)
  }

  /** The longest suffix of `p`, of at most `size` characters, that starts a long value. */
  function KeepFrom(p: string, long: seq<string>, size: nat): (k: nat)
    requires size <= |p|
    ensures k <= size && (k == 0 || CanGrow(p, long, k))
    ensures forall j: nat | k < j <= size :: !CanGrow(p, long, j)
  {
    if size == 0 || CanGrow(p, long, size) then size else KeepFrom(p, long, size - 1)
  }

  predicate HeldWhole(text: string, p: string, short: seq<string>) {
    Blank(text) && exists s | s in short :: Strip(p) <= s
  }

  function Released(text: string, p: string, secrets: Secrets): Guard {
    if HeldWhole(text, p, secrets.short) then Guard(text, p)
    else
      var end := |p| - KeepFrom(p, secrets.long, |p|);
      Guard(text + p[..end], p[end..])
  }

  function Pushed(g: Guard, chunk: Chunk, secrets: Secrets): Guard {
    Released(g.text, ProtectText(g.pending + chunk.value, chunk.order), secrets)
  }

  function Stream(chunks: seq<Chunk>, secrets: Secrets): Guard {
    if chunks == [] then Guard("", "")
    else Pushed(Stream(chunks[..|chunks| - 1], secrets), chunks[|chunks| - 1], secrets)
  }

  function Input(chunks: seq<Chunk>): string {
    if chunks == [] then "" else Input(chunks[..|chunks| - 1]) + chunks[|chunks| - 1].value
  }

  ghost predicate Orders(chunks: seq<Chunk>, secrets: Secrets) {
    forall c | c in chunks :: Enumerates(c.order, set v | v in secrets.long)
  }

  /** What `finish` appends; `order` enumerates all private values. */
  function Tail(g: Guard, order: seq<string>, secrets: Secrets, incomplete: bool): string {
    var tail := ProtectText(g.pending, order);
    var cut := if incomplete && tail != "" && (exists u | u in secrets.long :: tail <= u) then MARKER else tail;
    if Blank(g.text) && Strip(g.pending) in order then MARKER else cut
  }

  function Finished(g: Guard, order: seq<string>, secrets: Secrets, incomplete: bool): string {
    g.text + Tail(g, order, secrets, incomplete)
  }

  // ---- nothing private leaves ----

  /** No long value is in the text or held, and none that has started can start before the held part. */
  ghost predicate Guarded(g: Guard, long: seq<string>) {
    && (forall u | u in long :: !Occurs(g.text + g.pending, u))
    && (forall u, i: nat | u in long && i < |g.text| :: !((g.text + g.pending)[i..] <= u))
  }

  lemma SplitGuarded(text: string, p: string, long: seq<string>)
    requires Guarded(Guard(text, p), long)
    ensures var end := |p| - KeepFrom(p, long, |p|);
            Guarded(Guard(text + p[..end], p[end..]), long)
  {
    var k := KeepFrom(p, long, |p|);
    var end := |p| - k;
    var whole := text + p;
    assert text + p[..end] + p[end..] == whole;
    forall u, i: nat | u in long && i < |text + p[..end]| ensures !(whole[i..] <= u) {
      if i >= |text| && whole[i..] <= u {
        var size := |whole| - i;
        assert whole[i..] == p[|p| - size..];
        assert !CanGrow(p, long, size);
        assert |u| == size && OccursAt(whole, u, i);
        assert false;
      }
    }
  }

  /** An occurrence in grown text was there before, or had started. */
  lemma GrownFrom(s: string, w: string, u: string, i: nat)
    requires i <= |s| && OccursAt(s + w, u, i)
    ensures OccursAt(s, u, i) || s[i..] <= u
  {
    assert (s + w)[i..] == s[i..] + w;
  }

  lemma SeenThroughPass(text: string, x: string, order: seq<string>, u: string, i: nat)
    requires Free(u) && i < |text| && OccursAt(text + ProtectText(x, order), u, i)
    ensures OccursAt(text + x, u, i)
  {
    var p := ProtectText(x, order);
    var n := |text| - i;
    assert (text + p)[i..] == text[i..] + p && (text + x)[i..] == text[i..] + x;
    if |u| > n {
      assert u[n..] <= p;
      FreePrefixOfProtect(u[n..], x, order);
    }
  }

  lemma StartedThroughPass(text: string, x: string, order: seq<string>, u: string, i: nat)
    requires Free(u) && i < |text| && (text + ProtectText(x, order))[i..] <= u
    ensures ProtectText(x, order) == x
  {
    var p := ProtectText(x, order);
    var n := |text| - i;
    assert p == (text + p)[i..][n..] == u[n..n + |p|];
    FreeProtectIsIdentity(x, order);
  }

  lemma PassKeepsAbsent(g: Guard, v: string, order: seq<string>, long: seq<string>, u: string, i: nat)
    requires Guarded(g, long) && AllFree(long) && u in long && |u| >= LONG
    requires forall w :: w in order <==> w in long
    ensures !OccursAt(g.text + ProtectText(g.pending + v, order), u, i)
  {
    var p := ProtectText(g.pending + v, order);
    if OccursAt(g.text + p, u, i) {
      if i >= |g.text| {
        assert (g.text + p)[i..] == p[i - |g.text|..];
        assert OccursAt(p, u, i - |g.text|);
        ProtectRemoves(g.pending + v, order, u);
      } else {
        SeenThroughPass(g.text, g.pending + v, order, u, i);
        assert g.text + (g.pending + v) == g.text + g.pending + v;
        GrownFrom(g.text + g.pending, v, u, i);
      }
    }
  }

  lemma PassKeepsStarts(g: Guard, v: string, order: seq<string>, long: seq<string>, u: string, i: nat)
    requires Guarded(g, long) && AllFree(long) && u in long && i < |g.text|
    ensures !((g.text + ProtectText(g.pending + v, order))[i..] <= u)
  {
    var whole := g.text + ProtectText(g.pending + v, order);
    assert !((g.text + g.pending)[i..] <= u);
    if whole[i..] <= u {
      StartedThroughPass(g.text, g.pending + v, order, u, i);
      StartsEarlier(g.text + g.pending, v, whole, u, i);
    }
  }

  lemma StartsEarlier(s: string, w: string, t: string, u: string, i: nat)
    requires t == s + w && i <= |s| && t[i..] <= u
    ensures s[i..] <= u
  {
    assert t[i..] == s[i..] + w;
  }

  lemma PushGuarded(g: Guard, chunk: Chunk, secrets: Secrets)
    requires Guarded(g, secrets.long) && AllFree(secrets.long)
    requires forall u | u in secrets.long :: |u| >= LONG
    requires forall w :: w in chunk.order <==> w in secrets.long
    ensures Guarded(Pushed(g, chunk, secrets), secrets.long)
  {
    var p := ProtectText(g.pending + chunk.value, chunk.order);
    forall u | u in secrets.long ensures !Occurs(g.text + p, u) {
      forall i: nat ensures !OccursAt(g.text + p, u, i) {
        PassKeepsAbsent(g, chunk.value, chunk.order, secrets.long, u, i);
      }
    }
    forall u, i: nat | u in secrets.long && i < |g.text| ensures !((g.text + p)[i..] <= u) {
      PassKeepsStarts(g, chunk.value, chunk.order, secrets.long, u, i);
    }
    SplitGuarded(g.text, p, secrets.long);
  }

  /** After every push, whatever the values and the chunking. */
  lemma {:induction false} StreamGuarded(chunks: seq<Chunk>, secrets: Secrets, private: set<string>)
    requires secrets.Of(private) && Orders(chunks, secrets) && AllFree(secrets.long)
    ensures Guarded(Stream(chunks, secrets), secrets.long)
  {
    if chunks == [] {
      forall u, i: nat | u in secrets.long ensures !OccursAt("", u, i) {}
    } else {
      var last := |chunks| - 1;
      assert chunks[last] in chunks && forall c | c in chunks[..last] :: c in chunks;
      StreamGuarded(chunks[..last], secrets, private);
      PushGuarded(Stream(chunks[..last], secrets), chunks[last], secrets);
    }
  }

  /** Every occurrence that later input completes starts inside the held part. */
  lemma CompletedInsidePending(g: Guard, long: seq<string>, w: string, u: string, i: nat)
    requires Guarded(g, long) && u in long && OccursAt(g.text + g.pending + w, u, i)
    ensures |g.text| <= i && |g.text + g.pending| < i + |u|
  {
    var seen := g.text + g.pending;
    if i <= |seen| { GrownFrom(seen, w, u, i); }
  }

  lemma TailCases(g: Guard, order: seq<string>, secrets: Secrets, private: set<string>, incomplete: bool)
    requires secrets.Of(private) && Enumerates(order, private) && Guarded(g, secrets.long)
    ensures Tail(g, order, secrets, incomplete) in {MARKER, g.pending}
    ensures !incomplete && g.pending !in private && !(Blank(g.text) && Strip(g.pending) in private)
            ==> Tail(g, order, secrets, incomplete) == g.pending
  {
    forall u | u in order && |u| >= LONG ensures !Occurs(g.pending, u) {
      assert (g.text + g.pending)[|g.text|..] == g.pending;
      if Occurs(g.pending, u) { OccursInSuffix(g.text + g.pending, |g.text|, u); }
    }
    ProtectClean(g.pending, order);
  }

  /** The finished text holds no private value of twelve or more characters. */
  lemma FinishedHidesLong(chunks: seq<Chunk>, secrets: Secrets, private: set<string>, order: seq<string>,
                          incomplete: bool, u: string)
    requires secrets.Of(private) && Orders(chunks, secrets) && Enumerates(order, private)
    requires (forall v | v in private :: Free(v)) && u in private && |u| >= LONG
    ensures !Occurs(Finished(Stream(chunks, secrets), order, secrets, incomplete), u)
  {
    var g := Stream(chunks, secrets);
    assert u in secrets.long;
    StreamGuarded(chunks, secrets, private);
    TailCases(g, order, secrets, private, incomplete);
    MarkerHides(g.text, g.pending, u);
  }

  lemma MarkerHides(text: string, pending: string, u: string)
    requires u != "" && Free(u)
    ensures !Occurs(text + pending, u) ==> !Occurs(text + MARKER, u)
  {
    forall i: nat ensures OccursAt(text + MARKER, u, i) ==> OccursAt(text + pending, u, i) {
      if OccursAt(text + MARKER, u, i) {
        NotAcrossMarker(text, u, i);
        assert (text + pending)[i..] == text[i..] + pending;
      }
    }
  }

  lemma NotAcrossMarker(text: string, u: string, i: nat)
    requires u != "" && Free(u) && OccursAt(text + MARKER, u, i)
    ensures i + |u| <= |text| && OccursAt(text, u, i)
  {
    var s := text + MARKER;
    var j := i + |u| - 1;
    assert u[|u| - 1] == s[i..][|u| - 1] == s[j];
    assert forall k | |text| <= k < |s| :: s[k] in MARKER;
    assert s[i..][..|u|] == text[i..][..|u|];
  }

  /** Cut off, the text does not even end in the start of a long value, unless all of what is held could
      still have become a short one. */
  lemma CutOffHidesStarts(chunks: seq<Chunk>, secrets: Secrets, private: set<string>, order: seq<string>,
                          u: string, i: nat)
    requires secrets.Of(private) && Orders(chunks, secrets) && Enumerates(order, private)
    requires (forall v | v in private :: Free(v)) && u in private && |u| >= LONG
    requires i < |Finished(Stream(chunks, secrets), order, secrets, true)|
    ensures var g := Stream(chunks, secrets);
            HeldWhole(g.text, g.pending, secrets.short) || !(Finished(g, order, secrets, true)[i..] <= u)
  {
    var g := Stream(chunks, secrets);
    assert u in secrets.long;
    StreamGuarded(chunks, secrets, private);
    HeldStartsValue(chunks, secrets);
    if !HeldWhole(g.text, g.pending, secrets.short) { CutOffTail(g, secrets, private, order, u, i); }
  }

  lemma CutOffTail(g: Guard, secrets: Secrets, private: set<string>, order: seq<string>, u: string, i: nat)
    requires secrets.Of(private) && Enumerates(order, private) && Guarded(g, secrets.long)
    requires g.pending == "" || exists v | v in secrets.long :: g.pending <= v
    requires u in secrets.long && Free(u) && i < |Finished(g, order, secrets, true)|
    ensures !(Finished(g, order, secrets, true)[i..] <= u)
  {
    TailCases(g, order, secrets, private, true);
    if Tail(g, order, secrets, true) == MARKER {
      EndsInMarker(g.text, i, u);
    } else {
      assert g.pending == "";
      assert g.text + "" == g.text;
    }
  }

  lemma EndsInMarker(text: string, i: nat, u: string)
    requires Free(u) && i < |text + MARKER|
    ensures !((text + MARKER)[i..] <= u)
  {
    var s := text + MARKER;
    assert s[|s| - 1] == MARKER[|MARKER| - 1] && MARKER[|MARKER| - 1] in MARKER;
    assert s[i..][|s| - 1 - i] == s[|s| - 1];
  }

  lemma HeldStartsValue(chunks: seq<Chunk>, secrets: Secrets)
    ensures var g := Stream(chunks, secrets);
            HeldWhole(g.text, g.pending, secrets.short) || g.pending == "" || exists u | u in secrets.long :: g.pending <= u
  {
    if chunks != [] {
      var g, c := Stream(chunks[..|chunks| - 1], secrets), chunks[|chunks| - 1];
      var p := ProtectText(g.pending + c.value, c.order);
      var k := KeepFrom(p, secrets.long, |p|);
      if !HeldWhole(g.text, p, secrets.short) && k > 0 {
        var u :| u in secrets.long && k < |u| && p[|p| - k..] == u[..k];
      }
    }
  }

  // ---- chunking does not matter ----

  /** The finished stream is `protect_text` of everything that was pushed. */
  ghost predicate MeetsProtect(chunks: seq<Chunk>, secrets: Secrets, order: seq<string>, whole: seq<string>) {
    Finished(Stream(chunks, secrets), order, secrets, false) == ProtectText(Input(chunks), whole)
  }

  lemma PushScans(g: Guard, chunk: Chunk, secrets: Secrets, seen: string)
    requires NonInterfering(secrets.long) && Guarded(g, secrets.long)
    requires LongestFirst(chunk.order) && forall w :: w in chunk.order <==> w in secrets.long
    requires g.text + g.pending == Scan(seen, secrets.long)
    ensures g.text + ProtectText(g.pending + chunk.value, chunk.order) == Scan(seen + chunk.value, secrets.long)
    ensures var h := Pushed(g, chunk, secrets); h.text + h.pending == Scan(seen + chunk.value, secrets.long)
  {
    var long, v := secrets.long, chunk.value;
    var p, x := ProtectText(g.pending + v, chunk.order), g.text + g.pending;
    assert p == Scan(g.pending + v, long) by {
      ScanIsProtect(g.pending + v, chunk.order);
      ScanOrder(g.pending + v, long, chunk.order);
    }
    ScanPrefixStable(seen, v, long);
    assert Scan(x + v, long) == g.text + p by { ScanKeeps(g.text, g.pending, v, long); }
    PushKeepsAll(g, chunk, secrets);
  }

  /** A push only replaces; it neither drops nor reorders. */
  lemma PushKeepsAll(g: Guard, chunk: Chunk, secrets: Secrets)
    ensures var h := Pushed(g, chunk, secrets);
            h.text + h.pending == g.text + ProtectText(g.pending + chunk.value, chunk.order)
  {
    var p := ProtectText(g.pending + chunk.value, chunk.order);
    var end := |p| - KeepFrom(p, secrets.long, |p|);
    assert g.text + p[..end] + p[end..] == g.text + p;
  }

  lemma {:induction false} StreamScans(chunks: seq<Chunk>, secrets: Secrets, private: set<string>)
    requires secrets.Of(private) && Orders(chunks, secrets) && NonInterfering(secrets.long)
    ensures var g := Stream(chunks, secrets); g.text + g.pending == Scan(Input(chunks), secrets.long)
  {
    if chunks != [] {
      var last := |chunks| - 1;
      assert chunks[last] in chunks && forall c | c in chunks[..last] :: c in chunks;
      StreamScans(chunks[..last], secrets, private);
      StreamGuarded(chunks[..last], secrets, private);
      PushScans(Stream(chunks[..last], secrets), chunks[last], secrets, Input(chunks[..last]));
    }
  }

  /** For long values that do not interfere, the stream ends in `protect_text` of the whole input. */
  lemma ChunkInsensitive(chunks: seq<Chunk>, secrets: Secrets, private: set<string>,
                         order: seq<string>, whole: seq<string>)
    requires secrets.Of(private) && Orders(chunks, secrets) && NonInterfering(secrets.long)
    requires Enumerates(order, private) && Enumerates(whole, private)
    requires forall v | v in private :: |v| >= LONG
    ensures MeetsProtect(chunks, secrets, order, whole)
  {
    var g := Stream(chunks, secrets);
    StreamScans(chunks, secrets, private);
    StreamGuarded(chunks, secrets, private);
    TailCases(g, order, secrets, private, false);
    forall v | v in private ensures g.pending != v && Strip(g.pending) != v {
      assert v in secrets.long && !Occurs(g.text + g.pending, v);
      if Strip(g.pending) == v || g.pending == v { PendingHoldsStripped(g, v); }
    }
    assert forall v :: v in whole <==> v in secrets.long;
    assert forall v :: v in secrets.long <==> v in whole;
    assert NonInterfering(whole);
    ScanIsProtect(Input(chunks), whole);
    ScanOrder(Input(chunks), secrets.long, whole);
  }

  lemma PendingHoldsStripped(g: Guard, v: string)
    requires Strip(g.pending) == v || g.pending == v
    ensures Occurs(g.text + g.pending, v)
  {
    StripIsPart(g.pending);
    var a, b :| g.pending == a + Strip(g.pending) + b && Blank(a) && Blank(b);
    var i := if g.pending == v then |g.text| else |g.text| + |a|;
    assert (g.text + g.pending)[i..] == if g.pending == v then v else v + b;
    assert OccursAt(g.text + g.pending, v, i);
  }

  // ---- short values ----

  lemma {:induction false} FreeStreamIsInput(chunks: seq<Chunk>, secrets: Secrets)
    requires var g := Stream(chunks, secrets); Free(g.text + g.pending)
    ensures var g := Stream(chunks, secrets); g.text + g.pending == Input(chunks)
  {
    if chunks != [] {
      var last := |chunks| - 1;
      var g, c := Stream(chunks[..last], secrets), chunks[last];
      var x := g.pending + c.value;
      var p := ProtectText(x, c.order);
      PushKeepsAll(g, c, secrets);
      assert p == (g.text + p)[|g.text|..];
      FreeProtectIsIdentity(x, c.order);
      var s := g.text + g.pending;
      assert g.text + p == s + c.value;
      assert s == (s + c.value)[..|s|];
      FreeStreamIsInput(chunks[..last], secrets);
    }
  }

  /** Once something other than whitespace is out, the input is on the way to no short value. */
  ghost predicate PastShort(g: Guard, seen: string, short: seq<string>) {
    Blank(g.text) || !Free(g.text + g.pending) || forall s | s in short :: !(Strip(seen) <= s)
  }

  lemma {:induction false} StreamPastShort(chunks: seq<Chunk>, secrets: Secrets)
    ensures PastShort(Stream(chunks, secrets), Input(chunks), secrets.short)
  {
    if chunks != [] {
      var last := |chunks| - 1;
      var g, h, c := Stream(chunks[..last], secrets), Stream(chunks, secrets), chunks[last];
      var seen := Input(chunks[..last]);
      StreamPastShort(chunks[..last], secrets);
      if !Blank(h.text) && Free(h.text + h.pending) {
        FreeStreamIsInput(chunks, secrets);
        PushKeepsAll(g, c, secrets);
        var p := ProtectText(g.pending + c.value, c.order);
        assert p == (h.text + h.pending)[|g.text|..];
        FreeProtectIsIdentity(g.pending + c.value, c.order);
        if Blank(g.text) {
          assert !HeldWhole(g.text, p, secrets.short);
          StripExtends(g.text, p);
          assert Input(chunks) == g.text + p;
        } else {
          assert g.text + g.pending == (h.text + h.pending)[..|g.text + g.pending|];
          StripExtends(seen, c.value);
        }
      }
    }
  }

  lemma MarkerSurvivesStrip(s: string, v: string)
    requires !Free(s) && Free(v)
    ensures Strip(s) != v
  {
    StripIsPart(s);
    var a, b :| s == a + Strip(s) + b && Blank(a) && Blank(b);
    var i :| 0 <= i < |s| && s[i] in MARKER;
    MarkerIsVisible(s[i]);
    assert i >= |a| && i < |a + Strip(s)|;
    assert Strip(s)[i - |a|] == s[i];
  }

  lemma MarkerIsVisible(c: char)
    requires c in MARKER
    ensures !IsSpace(c)
  {
  }

  /** Whatever the chunking, the finished text is never a short private value dressed in whitespace. */
  lemma FinishedHidesShort(chunks: seq<Chunk>, secrets: Secrets, private: set<string>, order: seq<string>,
                           incomplete: bool, v: string)
    requires secrets.Of(private) && Orders(chunks, secrets) && Enumerates(order, private)
    requires (forall u | u in private :: Free(u)) && v in private && |v| < LONG
    ensures Strip(Finished(Stream(chunks, secrets), order, secrets, incomplete)) != v
  {
    var g := Stream(chunks, secrets);
    StreamGuarded(chunks, secrets, private);
    TailCases(g, order, secrets, private, incomplete);
    var done := Finished(g, order, secrets, incomplete);
    if !Free(done) {
      MarkerSurvivesStrip(done, v);
    } else {
      TailIsPending(g, order, secrets, incomplete);
      FreeStreamIsInput(chunks, secrets);
      StreamPastShort(chunks, secrets);
      StripExtends(g.text, g.pending);
      assert v in secrets.short;
      assert Strip(done) <= Strip(done);
    }
  }

  lemma TailIsPending(g: Guard, order: seq<string>, secrets: Secrets, incomplete: bool)
    requires Free(Finished(g, order, secrets, incomplete)) && Tail(g, order, secrets, incomplete) in {MARKER, g.pending}
    ensures Finished(g, order, secrets, incomplete) == g.text + g.pending
    ensures !(Blank(g.text) && Strip(g.pending) in order)
  {
    var tail := Tail(g, order, secrets, incomplete);
    assert MARKER[0] in MARKER;
    assert tail != "" ==> (g.text + tail)[|g.text|] == tail[0];
  }

  // ---- the input alone decides ----

  /** How a guard ends up that was given the text `r` at once. */
  function Settled(r: string, secrets: Secrets): Guard {
    Released("", r, secrets)
  }

  lemma MarkerKeptByStrip(s: string)
    requires !Free(s)
    ensures !Free(Strip(s))
  {
    StripIsPart(s);
    var a, b :| s == a + Strip(s) + b && Blank(a) && Blank(b);
    var i :| 0 <= i < |s| && s[i] in MARKER;
    MarkerIsVisible(s[i]);
    assert i >= |a| && i < |a + Strip(s)|;
    assert Strip(s)[i - |a|] == s[i];
  }

  lemma KeepsOnly(p: string, long: seq<string>, size: nat, k: nat)
    requires k <= size <= |p| && (k == 0 || CanGrow(p, long, k))
    requires forall j: nat | k < j <= size :: !CanGrow(p, long, j)
    ensures KeepFrom(p, long, size) == k
  {
  }

  /** Nothing starts in what was let out, so the held suffix is that of the whole text. */
  lemma KeepFromSuffix(text: string, p: string, long: seq<string>)
    requires forall u, i: nat | u in long && i < |text| :: !((text + p)[i..] <= u)
    ensures KeepFrom(text + p, long, |text + p|) == KeepFrom(p, long, |p|)
  {
    var whole, k := text + p, KeepFrom(p, long, |p|);
    forall j: nat | j <= |whole| ensures CanGrow(whole, long, j) <==> j <= |p| && CanGrow(p, long, j) {
      if j <= |p| {
        assert whole[|whole| - j..] == p[|p| - j..];
        assert forall u | u in long :: Starts(whole, u, j) <==> Starts(p, u, j);
      } else {
        forall u | u in long ensures !Starts(whole, u, j) {
          assert !(whole[|whole| - j..] <= u);
        }
      }
    }
    KeepsOnly(whole, long, |whole|, k);
  }

  lemma ReleasedAlike(text: string, p: string, secrets: Secrets)
    requires forall u, i: nat | u in secrets.long && i < |text| :: !((text + p)[i..] <= u)
    requires HeldWhole(text, p, secrets.short) <==> HeldWhole("", text + p, secrets.short)
    requires HeldWhole(text, p, secrets.short) ==> text == ""
    ensures Released(text, p, secrets) == Settled(text + p, secrets)
  {
    KeepFromSuffix(text, p, secrets.long);
    assert "" + p == p;
    if !HeldWhole(text, p, secrets.short) {
      var whole, k := text + p, KeepFrom(p, secrets.long, |p|);
      assert text + p[..|p| - k] == "" + whole[..|whole| - k] && p[|p| - k..] == whole[|whole| - k..];
    }
  }

  /** Whatever was let out could not become a short value, and cannot any more. */
  lemma NotHeldAgain(chunks: seq<Chunk>, secrets: Secrets)
    requires chunks != [] && forall v | v in secrets.short :: Free(v)
    requires var g := Stream(chunks[..|chunks| - 1], secrets);
             g.text != "" && forall s | s in secrets.short :: !(Strip(g.text + g.pending) <= s)
    ensures var g, c := Stream(chunks[..|chunks| - 1], secrets), chunks[|chunks| - 1];
            var p := ProtectText(g.pending + c.value, c.order);
            !HeldWhole(g.text, p, secrets.short) && !HeldWhole("", g.text + p, secrets.short)
  {
    var last := |chunks| - 1;
    var g, c, h := Stream(chunks[..last], secrets), chunks[last], Stream(chunks, secrets);
    var p := ProtectText(g.pending + c.value, c.order);
    PushKeepsAll(g, c, secrets);
    forall s | s in secrets.short ensures !(Strip(g.text + p) <= s) {
      if Strip(g.text + p) <= s {
        assert Free(Strip(g.text + p));
        if !Free(g.text + p) { MarkerKeptByStrip(g.text + p); }
        FreeStreamIsInput(chunks, secrets);
        FreeProtectIsIdentity(g.pending + c.value, c.order) by {
          assert p == (g.text + p)[|g.text|..];
        }
        assert g.text + p == (g.text + g.pending) + c.value;
        StripExtends(g.text + g.pending, c.value);
      }
    }
    if Blank(g.text) { StripExtends(g.text, p); }
  }

  /** For long values that do not interfere, the guard is at any time as if it had got its input at once. */
  lemma {:induction false} StreamSettles(chunks: seq<Chunk>, secrets: Secrets, private: set<string>)
    requires secrets.Of(private) && Orders(chunks, secrets) && NonInterfering(secrets.long)
    requires forall v | v in private :: Free(v)
    ensures Stream(chunks, secrets) == Settled(Scan(Input(chunks), secrets.long), secrets)
  {
    if chunks == [] {
      assert ""[..0] == "" && "" + "" == "";
    } else {
      var last := |chunks| - 1;
      var g, c := Stream(chunks[..last], secrets), chunks[last];
      assert c in chunks && forall d | d in chunks[..last] :: d in chunks;
      StreamSettles(chunks[..last], secrets, private);
      StreamScans(chunks[..last], secrets, private);
      StreamGuarded(chunks[..last], secrets, private);
      PushScans(g, c, secrets, Input(chunks[..last]));
      if g.text != "" { NotHeldAgain(chunks, secrets); }
      PushSettles(g, c, secrets);
    }
  }

  lemma PushSettles(g: Guard, c: Chunk, secrets: Secrets)
    requires Guarded(g, secrets.long) && AllFree(secrets.long)
    requires var p := ProtectText(g.pending + c.value, c.order);
             g.text != "" ==> !HeldWhole(g.text, p, secrets.short) && !HeldWhole("", g.text + p, secrets.short)
    ensures Pushed(g, c, secrets) == Settled(g.text + ProtectText(g.pending + c.value, c.order), secrets)
  {
    var p := ProtectText(g.pending + c.value, c.order);
    forall u, i: nat | u in secrets.long && i < |g.text| ensures !((g.text + p)[i..] <= u) {
      PassKeepsStarts(g, c.value, c.order, secrets.long, u, i);
    }
    if g.text == "" { assert g.text + p == p; }
    ReleasedAlike(g.text, p, secrets);
  }

  /** What is held back at the end and replaced by the marker. */
  ghost predicate Hidden(g: Guard, secrets: Secrets) {
    g.pending in secrets.short || (Blank(g.text) && Strip(g.pending) in secrets.short)
  }

  ghost function Ending(g: Guard, secrets: Secrets, incomplete: bool): string {
    if Hidden(g, secrets) || (incomplete && g.pending != "" && exists u | u in secrets.long :: g.pending <= u)
    then MARKER else g.pending
  }

  lemma TailExactly(g: Guard, order: seq<string>, secrets: Secrets, private: set<string>, incomplete: bool)
    requires secrets.Of(private) && Enumerates(order, private) && Guarded(g, secrets.long) && AllFree(secrets.long)
    ensures Tail(g, order, secrets, incomplete) == Ending(g, secrets, incomplete)
  {
    forall u | u in secrets.long ensures !Occurs(g.pending, u) && g.pending != u && Strip(g.pending) != u && !(MARKER <= u) {
      if g.pending == u || Strip(g.pending) == u { PendingHoldsStripped(g, u); }
      assert (g.text + g.pending)[|g.text|..] == g.pending;
      if Occurs(g.pending, u) { OccursInSuffix(g.text + g.pending, |g.text|, u); }
      assert MARKER[0] in MARKER;
    }
    ProtectClean(g.pending, order);
  }

  /** The finished text as a function of the whole input. */
  ghost function Completed(input: string, secrets: Secrets, incomplete: bool): string {
    var g := Settled(Scan(input, secrets.long), secrets);
    g.text + Ending(g, secrets, incomplete)
  }

  /** For long values that do not interfere and any short ones, the finished text depends on the input alone. */
  lemma FinishedIsCompleted(chunks: seq<Chunk>, secrets: Secrets, private: set<string>, order: seq<string>, incomplete: bool)
    requires secrets.Of(private) && Orders(chunks, secrets) && NonInterfering(secrets.long)
    requires Enumerates(order, private) && forall v | v in private :: Free(v)
    ensures Finished(Stream(chunks, secrets), order, secrets, incomplete) == Completed(Input(chunks), secrets, incomplete)
  {
    StreamSettles(chunks, secrets, private);
    StreamGuarded(chunks, secrets, private);
    TailExactly(Stream(chunks, secrets), order, secrets, private, incomplete);
  }

  /** How equally long values are listed makes no difference. */
  lemma CompletedByValues(input: string, secrets: Secrets, other: Secrets, private: set<string>, incomplete: bool)
    requires secrets.Of(private) && other.Of(private) && NonInterfering(secrets.long)
    ensures Completed(input, secrets, incomplete) == Completed(input, other, incomplete)
  {
    assert forall v :: v in secrets.long <==> v in other.long;
    assert forall v :: v in secrets.short <==> v in other.short;
    ScanOrder(input, secrets.long, other.long);
    var r := Scan(input, secrets.long);
    var k := KeepFrom(r, secrets.long, |r|);
    forall j: nat | j <= |r| ensures CanGrow(r, secrets.long, j) <==> CanGrow(r, other.long, j) {
    }
    KeepsOnly(r, other.long, |r|, k);
    assert HeldWhole("", r, secrets.short) <==> HeldWhole("", r, other.short);
  }

  /** Any two chunkings of one input finish alike. */
  lemma ChunkingsAgree(chunks: seq<Chunk>, others: seq<Chunk>, secrets: Secrets, other: Secrets, private: set<string>,
                       order: seq<string>, another: seq<string>, incomplete: bool)
    requires secrets.Of(private) && other.Of(private) && Orders(chunks, secrets) && Orders(others, other)
    requires Enumerates(order, private) && Enumerates(another, private) && forall v | v in private :: Free(v)
    requires NonInterfering(secrets.long) && Input(chunks) == Input(others)
    ensures Finished(Stream(chunks, secrets), order, secrets, incomplete)
            == Finished(Stream(others, other), another, other, incomplete)
  {
    assert forall v :: v in secrets.long <==> v in other.long;
    assert NonInterfering(other.long);
    FinishedIsCompleted(chunks, secrets, private, order, incomplete);
    FinishedIsCompleted(others, other, private, another, incomplete);
    CompletedByValues(Input(chunks), secrets, other, private, incomplete);
  }

  // ---- the code ----

  /** `sorted(values, key=len, reverse=True)`; which of equal lengths comes first is left open. */
  method SortedByLength(values: set<string>) returns (order: seq<string>)
    ensures Enumerates(order, values)
  {
    order := [];
    var rest := values;
    while rest != {}
      invariant rest <= values
      invariant forall v :: v in order <==> v in values - rest
      invariant forall i, j | 0 <= i < j < |order| :: order[i] != order[j] && |order[i]| >= |order[j]|
      invariant forall v, w | v in order && w in rest :: |v| >= |w|
    {
      LongestExists(rest);
      var v :| v in rest && forall w | w in rest :: |w| <= |v|;
      order, rest := order + [v], rest - {v};
    }
  }

  lemma {:induction false} LongestExists(values: set<string>)
    requires values != {}
    ensures exists v | v in values :: forall w | w in values :: |w| <= |v|
    decreases values
  {
    var x :| x in values;
    if values == {x} {
      assert forall w | w in values :: |w| <= |x|;
    } else {
      LongestExists(values - {x});
      var y :| y in values - {x} && forall w | w in values - {x} :: |w| <= |y|;
      var z := if |x| > |y| then x else y;
      assert z in values && forall w | w in values :: |w| <= |z|;
    }
  }

  /** `protect_text` on a string. */
  method Protect(value: string, private: set<string>) returns (r: string, ghost order: seq<string>)
    ensures Enumerates(order, private) && r == ProtectText(value, order)
  {
    var sorted := SortedByLength(private);
    order := sorted;
    r := value;
    for i := 0 to |sorted|
      invariant ProtectText(value, order) == ProtectText(r, sorted[i..])
    {
      assert sorted[i..][0] == sorted[i] && sorted[i..][1..] == sorted[i + 1..];
      if r == sorted[i] {
        return MARKER, order;
      }
      if |sorted[i]| >= LONG {
        r := Replace(r, sorted[i]);
      }
    }
  }

  /** The two loops of `push` over values and sizes. */
  method HeldSize(pending: string, long: seq<string>) returns (keep: nat)
    requires forall u | u in long :: u != ""
    ensures keep <= |pending| && (keep > 0 ==> CanGrow(pending, long, keep))
    ensures forall size: nat | keep < size :: !CanGrow(pending, long, size)
  {
    keep := 0;
    for n := 0 to |long|
      invariant keep <= |pending| && (keep > 0 ==> CanGrow(pending, long[..n], keep))
      invariant forall size: nat | keep < size :: !CanGrow(pending, long[..n], size)
    {
      var secret := long[n];
      assert long[..n + 1] == long[..n] + [secret] && secret in long;
      var size := if |secret| - 1 < |pending| then |secret| - 1 else |pending|;
      ghost var before := keep;
      while size > keep
        invariant keep == before && size <= |pending| && size < |secret|
        invariant forall k: nat | size < k :: !Starts(pending, secret, k)
      {
        if pending[|pending| - size..] == secret[..size] {
          keep := size;
          break;
        }
        size := size - 1;
      }
      assert forall k: nat | keep < k :: !Starts(pending, secret, k);
      ghost var upto := long[..n + 1];
      forall k: nat | keep < k ensures !CanGrow(pending, upto, k) {
        assert !CanGrow(pending, long[..n], k);
      }
      assert secret in upto;
    }
    assert long[..|long|] == long;
  }

  lemma KeepIsLongest(p: string, long: seq<string>, keep: nat)
    requires keep <= |p| && (keep > 0 ==> CanGrow(p, long, keep))
    requires forall size: nat | keep < size :: !CanGrow(p, long, size)
    ensures keep == KeepFrom(p, long, |p|)
  {
  }

  lemma StreamExtends(chunks: seq<Chunk>, chunk: Chunk, secrets: Secrets)
    ensures Stream(chunks + [chunk], secrets) == Pushed(Stream(chunks, secrets), chunk, secrets)
    ensures Orders(chunks, secrets) && Enumerates(chunk.order, set v | v in secrets.long)
            ==> Orders(chunks + [chunk], secrets)
  {
    assert (chunks + [chunk])[..|chunks|] == chunks;
  }

  class PublicText {
    const private: set<string>
    const long: seq<string>
    const short: seq<string>
    var pending: string
    var text: string

    ghost predicate Valid() {
      Secrets(long, short).Of(private)
    }

    ghost function View(): Guard
      reads this
    {
      Guard(text, pending)
    }

    constructor (private: set<string>)
      ensures Valid() && this.private == private && View() == Guard("", "")
    {
      this.private := private;
      var sorted := SortedByLength(set s | s in private && |s| >= LONG);
      var rest := SortedByLength(set s | s in private && |s| < LONG);
      long, short := sorted, rest;
      pending, text := "", "";
    }

    method Push(value: string) returns (delta: string, ghost order: seq<string>)
      requires Valid()
      modifies this
      ensures Enumerates(order, set s | s in long)
      ensures View() == Pushed(old(View()), Chunk(value, order), Secrets(long, short))
      ensures text == old(text) + delta
    {
      order := Absorb(value);
      delta := Release(Pushed(old(View()), Chunk(value, order), Secrets(long, short)));
    }

    method Absorb(value: string) returns (ghost order: seq<string>)
      requires Valid()
      modifies this`pending
      ensures Enumerates(order, set s | s in long) && pending == ProtectText(old(pending) + value, order)
    {
      pending := pending + value;
      pending, order := Protect(pending, set s | s in long);
    }

    /** Nothing, as long as all of it could be a short value; otherwise all but the longest suffix that a
        future chunk could still turn into a private value. */
    method Release(ghost next: Guard) returns (delta: string)
      requires Valid() && next == Released(text, pending, Secrets(long, short))
      modifies this`pending, this`text
      ensures View() == next && text == old(text) + delta
    {
      if Blank(text) && exists s | s in short :: Strip(pending) <= s {
        delta := "";
        assert text + "" == text;
        return;
      }
      var keep := HeldSize(pending, long);
      KeepIsLongest(pending, long, keep);
      var end := |pending| - keep;
      delta, pending := pending[..end], pending[end..];
      text := text + delta;
    }

    method Finish(incomplete: bool) returns (r: string, ghost order: seq<string>)
      requires Valid()
      modifies this
      ensures Enumerates(order, private)
      ensures r == Finished(old(View()), order, Secrets(long, short), incomplete)
      ensures View() == Guard(r, "")
    {
      var tail;
      tail, order := Protect(pending, private);
      if incomplete && tail != "" && exists secret | secret in long :: tail <= secret {
        tail := MARKER;
      }
      if Blank(text) && Strip(pending) in private {
        tail := MARKER;
      }
      pending := "";
      text := text + tail;
      r := text;
    }
  }

  function Joined(values: seq<string>): string {
    if values == [] then "" else Joined(values[..|values| - 1]) + values[|values| - 1]
  }

  /** The life of a guard: the deltas of one message, then the end of it. */
  method Redact(private: set<string>, values: seq<string>, incomplete: bool) returns (r: string)
    ensures (forall v | v in private :: Free(v)) ==>
              && (forall v | v in private && |v| >= LONG :: !Occurs(r, v))
              && Strip(r) !in private
    ensures forall whole |
              && !incomplete && Enumerates(whole, private) && NonInterfering(whole)
              :: r == ProtectText(Joined(values), whole)
    ensures forall secrets: Secrets |
              && secrets.Of(private) && NonInterfering(secrets.long) && (forall v | v in private :: Free(v))
              :: r == Completed(Joined(values), secrets, incomplete)
  {
    var guard := new PublicText(private);
    ghost var chunks, secrets := [], Secrets(guard.long, guard.short);
    for n := 0 to |values|
      invariant guard.Valid() && guard.private == private && secrets == Secrets(guard.long, guard.short)
      invariant Orders(chunks, secrets) && guard.View() == Stream(chunks, secrets)
      invariant Input(chunks) == Joined(values[..n])
    {
      assert values[..n + 1][..n] == values[..n];
      var delta;
      ghost var order;
      delta, order := guard.Push(values[n]);
      StreamExtends(chunks, Chunk(values[n], order), secrets);
      InputExtends(chunks, Chunk(values[n], order));
      chunks := chunks + [Chunk(values[n], order)];
    }
    assert values[..|values|] == values;
    ghost var order;
    r, order := guard.Finish(incomplete);
    assert "" + r == r;
    if forall v | v in private :: Free(v) {
      forall v | v in private && |v| >= LONG ensures !Occurs(r, v) {
        FinishedHidesLong(chunks, secrets, private, order, incomplete, v);
      }
      forall v | v in private ensures Strip(r) != v {
        if |v| < LONG {
          FinishedHidesShort(chunks, secrets, private, order, incomplete, v);
        } else if Strip(r) == v {
          PendingHoldsStripped(Guard("", r), v);
        }
      }
    }
    forall whole | !incomplete && Enumerates(whole, private) && NonInterfering(whole)
      ensures r == ProtectText(Joined(values), whole)
    {
      assert forall v :: v in whole <==> v in secrets.long;
      assert NonInterfering(secrets.long);
      ChunkInsensitive(chunks, secrets, private, order, whole);
    }
    forall other: Secrets | other.Of(private) && NonInterfering(other.long) && (forall v | v in private :: Free(v))
      ensures r == Completed(Joined(values), other, incomplete)
    {
      assert forall v :: v in other.long <==> v in secrets.long;
      assert NonInterfering(secrets.long);
      FinishedIsCompleted(chunks, secrets, private, order, incomplete);
      CompletedByValues(Joined(values), secrets, other, private, incomplete);
    }
  }

  lemma InputExtends(chunks: seq<Chunk>, chunk: Chunk)
    ensures Input(chunks + [chunk]) == Input(chunks) + chunk.value
  {
    assert (chunks + [chunk])[..|chunks|] == chunks;
  }
}
