/**
 When no private value ends inside another, and a value that runs on into the next is the longer of
 the two, the passes of `protect_text` amount to one left-to-right scan. The scan can be cut
 anywhere, which is what streaming needs.
 */
module RedactionScan {
  import opened Redaction

  /** At `i` in `u`: `v` ends before `u` does, or begins there, no shorter than `u`, and outlasts it. */
  ghost predicate Collide(u: string, v: string, i: nat) {
    && i < |u|
    && ((v <= u[i..] && i + |v| < |u|) || (u[i..] <= v && |u| - i < |v| && |u| <= |v|))
  }

  /** Different values do not collide. One may be the end of another, and a value may overlap itself. */
  ghost predicate NonInterfering(values: seq<string>) {
    && (forall v | v in values :: |v| >= LONG && Free(v))
    && (forall u, v, i: nat | u in values && v in values && u != v :: !Collide(u, v, i))
  }

  predicate LongestFirst(values: seq<string>) {
    forall i, j | 0 <= i < j < |values| :: |values[i]| >= |values[j]|
  }

  /** Length of the first listed value that starts `s`; 0 when none does. */
  function Match(values: seq<string>, s: string): (k: nat)
    ensures k <= |s|
  {
    if values == [] then 0
    else if values[0] <= s then |values[0]|
    else Match(values[1..], s)
  }

  function Scan(s: string, values: seq<string>): string {
    if s == "" then ""
    else
      var k := Match(values, s);
      if k > 0 then MARKER + Scan(s[k..], values) else [s[0]] + Scan(s[1..], values)
  }

  lemma {:induction false} MatchNone(values: seq<string>, s: string)
    requires forall v | v in values :: v != "" && !(v <= s)
    ensures Match(values, s) == 0
  {
    if values != [] {
      assert values[0] in values && forall v | v in values[1..] :: v in values;
      MatchNone(values[1..], s);
    }
  }

  lemma {:induction false} MatchSome(values: seq<string>, s: string)
    requires forall v | v in values :: v != ""
    ensures Match(values, s) > 0 ==> exists v :: v in values && v <= s && |v| == Match(values, s)
    ensures Match(values, s) == 0 ==> forall v | v in values :: !(v <= s)
  {
    if values != [] {
      assert forall v | v in values[1..] :: v in values;
      MatchSome(values[1..], s);
      assert values == [values[0]] + values[1..];
      assert values[0] in values;
    }
  }

  /** Where a value starts, no other one does, and none that is as long starts before it ends. */
  lemma Apart(values: seq<string>, u: string, v: string, s: string, i: nat)
    requires NonInterfering(values) && u in values && v in values && u != v
    requires u <= s && i < |u| && i <= |s| && (i == 0 || |u| <= |v|)
    ensures !(v <= s[i..])
  {
    assert !Collide(u, v, i) && !Collide(v, u, 0) && u[i..] <= s[i..];
    assert u[0..] == u && v[0..] == v && s[0..] == s;
  }

  lemma MatchUnique(values: seq<string>, u: string, s: string)
    requires NonInterfering(values) && u in values && u <= s
    ensures Match(values, s) == |u|
  {
    MatchSome(values, s);
    assert s[0..] == s;
    forall v | v in values && v <= s ensures v == u {
      if v != u { Apart(values, u, v, s, 0); }
    }
  }

  /** The scan depends on which values there are, not on how they are listed. */
  lemma {:induction false} ScanOrder(s: string, values: seq<string>, other: seq<string>)
    requires NonInterfering(values)
    requires forall v :: v in values <==> v in other
    ensures Scan(s, values) == Scan(s, other)
    decreases |s|
  {
    if s != "" {
      MatchSome(values, s);
      var k := Match(values, s);
      if k > 0 {
        var u :| u in values && u <= s && |u| == k;
        MatchUnique(other, u, s);
        ScanOrder(s[k..], values, other);
      } else {
        MatchNone(other, s);
        ScanOrder(s[1..], values, other);
      }
    }
  }

  lemma {:induction false} ScanMarker(x: string, s: string, values: seq<string>)
    requires forall v | v in values :: v != "" && Free(v)
    requires forall i | 0 <= i < |x| :: x[i] in MARKER
    ensures Scan(x + s, values) == x + Scan(s, values)
    decreases |x|
  {
    if x == "" {
      assert x + s == s;
    } else {
      var t := x + s;
      forall v | v in values ensures v != "" && !(v <= t) {
        assert v[0] !in MARKER && t[0] == x[0];
      }
      MatchNone(values, t);
      assert t[1..] == x[1..] + s;
      ScanMarker(x[1..], s, values);
      calc {
        Scan(t, values);
        [t[0]] + Scan(t[1..], values);
        [x[0]] + (x[1..] + Scan(s, values));
        { assert x == [x[0]] + x[1..]; }
        x + Scan(s, values);
      }
    }
  }

  lemma {:induction false} FreePrefixOfScan(q: string, s: string, values: seq<string>)
    requires Free(q) && q <= Scan(s, values)
    ensures q <= s
    decreases |s|
  {
    if q != "" && s != "" {
      assert q[0] !in MARKER && MARKER[0] in MARKER && q[0] == Scan(s, values)[0];
      if Match(values, s) == 0 {
        assert Scan(s, values)[1..] == Scan(s[1..], values);
        assert q[1..] <= Scan(s[1..], values);
        FreePrefixOfScan(q[1..], s[1..], values);
        assert q == [q[0]] + q[1..] && s == [s[0]] + s[1..];
      }
    }
  }

  // ---- the passes of protect_text are the scan ----

  /** Scanning for the rest after replacing the longest value is scanning for all. */
  lemma {:induction false} ScanAfterReplace(s: string, values: seq<string>)
    requires NonInterfering(values) && values != [] && LongestFirst(values)
    ensures Scan(Replace(s, values[0]), values[1..]) == Scan(s, values)
    decreases |s|
  {
    if s != "" {
      MatchSome(values, s);
      var v, k := values[0], Match(values, s);
      if v <= s {
        ScanAfterReplace(s[|v|..], values);
        ReplacedHere(s, values);
      } else if k > 0 {
        var u :| u in values && u <= s && |u| == k;
        ScanAfterReplace(s[k..], values);
        OtherHere(s, values, u);
      } else {
        ScanAfterReplace(s[1..], values);
        NothingHere(s, values);
      }
    }
  }

  lemma ReplacedHere(s: string, values: seq<string>)
    requires NonInterfering(values) && values != [] && values[0] <= s
    requires Scan(Replace(s[|values[0]|..], values[0]), values[1..]) == Scan(s[|values[0]|..], values)
    ensures Scan(Replace(s, values[0]), values[1..]) == Scan(s, values)
  {
    var v := values[0];
    assert values == [v] + values[1..];
    ScanMarker(MARKER, Replace(s[|v|..], v), values[1..]);
  }

  lemma OtherHere(s: string, values: seq<string>, u: string)
    requires NonInterfering(values) && values != [] && LongestFirst(values)
    requires u in values && u <= s && !(values[0] <= s)
    requires Scan(Replace(s[|u|..], values[0]), values[1..]) == Scan(s[|u|..], values)
    ensures Scan(Replace(s, values[0]), values[1..]) == Scan(s, values)
  {
    var v, rest, r := values[0], values[1..], Replace(s, values[0]);
    assert values == [v] + rest;
    forall i: nat | i < |u| ensures !OccursAt(s, v, i) { Apart(values, u, v, s, i); }
    ReplaceSkips(s, v, |u|);
    assert s[..|u|] == u && r[|u|..] == Replace(s[|u|..], v);
    MatchUnique(rest, u, r);
    MatchUnique(values, u, s);
  }

  lemma NothingHere(s: string, values: seq<string>)
    requires NonInterfering(values) && values != [] && s != "" && forall w | w in values :: !(w <= s)
    requires Scan(Replace(s[1..], values[0]), values[1..]) == Scan(s[1..], values)
    ensures Scan(Replace(s, values[0]), values[1..]) == Scan(s, values)
  {
    var v, rest, r := values[0], values[1..], Replace(s, values[0]);
    assert values == [v] + rest;
    NoneStarts(s, values);
    MatchNone(rest, r);
    MatchNone(values, s);
    assert r[1..] == Replace(s[1..], v);
  }

  lemma NoneStarts(s: string, values: seq<string>)
    requires NonInterfering(values) && values != [] && forall w | w in values :: !(w <= s)
    ensures forall w | w in values :: w != "" && !(w <= Replace(s, values[0]))
  {
    forall w | w in values ensures w != "" && !(w <= Replace(s, values[0])) {
      if w <= Replace(s, values[0]) { FreePrefixOfReplace(w, s, values[0]); }
    }
  }

  lemma {:induction false} ScanIsProtect(s: string, values: seq<string>)
    requires NonInterfering(values) && LongestFirst(values)
    ensures ProtectText(s, values) == Scan(s, values)
    decreases |values|
  {
    if values == [] {
      ScanNothing(s);
    } else {
      ScanAfterReplace(s, values);
      if s == values[0] {
        assert s[|s|..] == "" && Replace(s, s) == MARKER + "";
        ScanMarker(MARKER, "", values[1..]);
        assert MARKER + "" == MARKER;
      } else {
        ScanIsProtect(Replace(s, values[0]), values[1..]);
      }
    }
  }

  lemma {:induction false} ScanNothing(s: string)
    ensures Scan(s, []) == s
  {
    if s != "" {
      ScanNothing(s[1..]);
      assert s == [s[0]] + s[1..];
    }
  }

  // ---- cutting the scan ----

  lemma {:induction false} FreeScanIsIdentity(s: string, values: seq<string>)
    requires Free(Scan(s, values))
    ensures Scan(s, values) == s
    decreases |s|
  {
    if s != "" {
      var r := Scan(s, values);
      assert MARKER[0] in MARKER && r[0] !in MARKER;
      if Match(values, s) == 0 {
        assert r[1..] == Scan(s[1..], values);
        assert forall i | 0 <= i < |r| - 1 :: r[1..][i] == r[i + 1];
        FreeScanIsIdentity(s[1..], values);
        assert s == [s[0]] + s[1..];
      }
    }
  }

  /** A proper prefix of a value holds no value. */
  lemma {:induction false} ScanPartial(x: string, u: string, values: seq<string>, at: nat)
    requires NonInterfering(values) && u in values
    requires at + |x| < |u| && u[at..at + |x|] == x
    ensures Scan(x, values) == x
    decreases |x|
  {
    if x != "" {
      forall v | v in values ensures v != "" && !(v <= x) {
        assert x <= u[at..];
        assert v == u || !Collide(u, v, at);
      }
      MatchNone(values, x);
      ScanPartial(x[1..], u, values, at + 1);
      assert x == [x[0]] + x[1..];
    }
  }

  lemma ScanHit(s: string, u: string, values: seq<string>)
    requires NonInterfering(values) && u in values && u <= s
    ensures s != "" && Scan(s, values) == MARKER + Scan(s[|u|..], values)
  {
    MatchUnique(values, u, s);
  }

  lemma ScanMiss(s: string, values: seq<string>)
    requires s != "" && forall v | v in values :: v != "" && !(v <= s)
    ensures Match(values, s) == 0 && Scan(s, values) == [s[0]] + Scan(s[1..], values)
  {
    MatchNone(values, s);
  }

  /** Text may be scanned early: what was scanned is scanned again with what follows. */
  lemma {:induction false} ScanPrefixStable(x: string, w: string, values: seq<string>)
    requires NonInterfering(values)
    ensures Scan(x + w, values) == Scan(Scan(x, values) + w, values)
    decreases |x|
  {
    if x == "" {
      assert x + w == w == "" + w;
    } else if u :| u in values && u <= x {
      ScanPrefixStable(x[|u|..], w, values);
      StableHit(x, w, u, values);
    } else if u :| u in values && u <= x + w {
      assert u[0..0 + |x|] == (x + w)[..|x|] == x;
      ScanPartial(x, u, values, 0);
    } else {
      ScanPrefixStable(x[1..], w, values);
      StableMiss(x, w, values);
    }
  }

  lemma StableHit(x: string, w: string, u: string, values: seq<string>)
    requires NonInterfering(values) && u in values && u <= x
    requires Scan(x[|u|..] + w, values) == Scan(Scan(x[|u|..], values) + w, values)
    ensures Scan(x + w, values) == Scan(Scan(x, values) + w, values)
  {
    var y, t := Scan(x[|u|..], values), x + w;
    assert u <= t && t[|u|..] == x[|u|..] + w;
    assert Scan(t, values) == MARKER + Scan(y + w, values) by { ScanHit(t, u, values); }
    assert Scan(x, values) == MARKER + y by { ScanHit(x, u, values); }
    ScanMarkerAssoc(y, w, values);
  }

  lemma ScanMarkerAssoc(y: string, w: string, values: seq<string>)
    requires NonInterfering(values)
    ensures Scan(MARKER + y + w, values) == MARKER + Scan(y + w, values)
  {
    assert MARKER + y + w == MARKER + (y + w);
    ScanMarker(MARKER, y + w, values);
  }

  lemma StableMiss(x: string, w: string, values: seq<string>)
    requires NonInterfering(values) && x != ""
    requires forall v | v in values :: !(v <= x) && !(v <= x + w)
    requires Scan(x[1..] + w, values) == Scan(Scan(x[1..], values) + w, values)
    ensures Scan(x + w, values) == Scan(Scan(x, values) + w, values)
  {
    var y, t := Scan(x[1..], values), x + w;
    assert t[0] == x[0] && t[1..] == x[1..] + w;
    assert Match(values, x) == 0 && Scan(x, values) == [x[0]] + y by { ScanMiss(x, values); }
    assert Scan(t, values) == [x[0]] + Scan(y + w, values) by { ScanMiss(t, values); }
    var z := [x[0]] + y + w;
    assert z[0] == x[0] && z[1..] == y + w;
    forall v | v in values ensures v != "" && !(v <= z) {
      if v <= z { HeadStaysUnmatched(x, w, values, v); }
    }
    assert Scan(z, values) == [x[0]] + Scan(y + w, values) by { ScanMiss(z, values); }
  }

  lemma HeadStaysUnmatched(x: string, w: string, values: seq<string>, v: string)
    requires x != "" && Match(values, x) == 0 && Free(v)
    requires v <= [x[0]] + Scan(x[1..], values) + w
    ensures v <= x + w
  {
    var r := [x[0]] + Scan(x[1..], values);
    assert r == Scan(x, values);
    if |v| <= |r| {
      assert (r + w)[..|v|] == r[..|v|];
      FreePrefixOfScan(v, x, values);
    } else {
      assert r == (r + w)[..|r|] == v[..|r|];
      FreeScanIsIdentity(x, values);
    }
  }

  /** A part in which nothing starts, now or later, is final. */
  lemma {:induction false} ScanKeeps(d: string, h: string, w: string, values: seq<string>)
    requires forall v | v in values :: v != ""
    requires forall v, i: nat | v in values && i < |d| :: !OccursAt(d + h, v, i)
    requires forall v, i: nat | v in values && i < |d| :: !((d + h)[i..] <= v)
    ensures Scan(d + h + w, values) == d + Scan(h + w, values)
    decreases |d|
  {
    if d == "" {
      assert d + h + w == h + w;
    } else {
      var t := d + h + w;
      forall v | v in values ensures v != "" && !(v <= t) {
        assert (d + h)[0..] == d + h;
        assert !OccursAt(d + h, v, 0) && !((d + h)[0..] <= v);
        assert d + h <= t;
      }
      MatchNone(values, t);
      var d' := d[1..];
      assert t[1..] == d' + h + w;
      forall v, i: nat | v in values && i < |d'| ensures !OccursAt(d' + h, v, i) && !((d' + h)[i..] <= v) {
        assert (d' + h)[i..] == (d + h)[i + 1..];
        assert !OccursAt(d + h, v, i + 1) && !((d + h)[i + 1..] <= v);
      }
      ScanKeeps(d', h, w, values);
      calc {
        Scan(t, values);
        [t[0]] + Scan(t[1..], values);
        [d[0]] + (d' + Scan(h + w, values));
        { assert d == [d[0]] + d'; }
        d + Scan(h + w, values);
      }
    }
  }
}
