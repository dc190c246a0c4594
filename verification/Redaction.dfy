/**
 Replacement of private values in text: `protect_text` on strings, and the
 substring theory that the streaming guard of `PublicText` rests on.
 */
module Redaction {

  const MARKER := "内部引用已隐藏"
  const LONG := 12

  /** No character of the marker occurs in `s`. */
  predicate Free(s: string) {
    forall i | 0 <= i < |s| :: s[i] !in MARKER
  }

  predicate OccursAt(s: string, v: string, i: nat) {
    i <= |s| && v <= s[i..]
  }

  ghost predicate Occurs(s: string, v: string) {
    exists i: nat :: OccursAt(s, v, i)
  }

  /** Python's `str.replace(v, MARKER)`: left to right, occurrences do not overlap. */
  function Replace(s: string, v: string): string
    requires v != ""
  {
    if s == "" then ""
    else if v <= s then MARKER + Replace(s[|v|..], v)
    else [s[0]] + Replace(s[1..], v)
  }

  /** The string case of `protect_text`, for one enumeration of the private values. */
  function ProtectText(value: string, order: seq<string>): string
    decreases |order|
  {
    if order == [] then value
    else if value == order[0] then MARKER
    else ProtectText(if |order[0]| >= LONG then Replace(value, order[0]) else value, order[1..])
  }

  /** `order` lists `values` once each, longest first; equal lengths come in any order. */
  ghost predicate Enumerates(order: seq<string>, values: set<string>) {
    && (forall v :: v in order <==> v in values)
    && (forall i, j | 0 <= i < j < |order| :: order[i] != order[j] && |order[i]| >= |order[j]|)
  }

  ghost predicate AllFree(values: seq<string>) {
    forall v | v in values :: Free(v)
  }

  // ---- one replacement ----

  lemma {:induction false} FreePrefixOfReplace(q: string, s: string, v: string)
    requires v != "" && Free(q) && q <= Replace(s, v)
    ensures q <= s
  {
    if q != "" && s != "" {
      assert q[0] !in MARKER && MARKER[0] in MARKER;
      assert q[0] == Replace(s, v)[0];
      if !(v <= s) {
        assert Replace(s, v)[1..] == Replace(s[1..], v);
        assert q[1..] <= Replace(s[1..], v);
        FreePrefixOfReplace(q[1..], s[1..], v);
        assert q == [q[0]] + q[1..] && s == [s[0]] + s[1..];
      }
    }
  }

  lemma {:induction false} ReplaceAddsNothing(s: string, v: string, u: string, i: nat)
    requires v != "" && u != "" && Free(u) && OccursAt(Replace(s, v), u, i)
    ensures Occurs(s, u)
    decreases |s|
  {
    var r := Replace(s, v);
    assert u[0] == r[i];
    if v <= s {
      var r' := Replace(s[|v|..], v);
      assert i >= |MARKER|;
      assert r[i..] == r'[i - |MARKER|..];
      ReplaceAddsNothing(s[|v|..], v, u, i - |MARKER|);
      OccursInSuffix(s, |v|, u);
    } else if i == 0 {
      assert r[0..] == r;
      FreePrefixOfReplace(u, s, v);
      assert s[0..] == s;
      assert OccursAt(s, u, 0);
    } else {
      assert r[i..] == Replace(s[1..], v)[i - 1..];
      ReplaceAddsNothing(s[1..], v, u, i - 1);
      OccursInSuffix(s, 1, u);
    }
  }

  lemma OccursInSuffix(s: string, k: nat, u: string)
    requires k <= |s| && Occurs(s[k..], u)
    ensures Occurs(s, u)
  {
    var i: nat :| OccursAt(s[k..], u, i);
    assert s[k..][i..] == s[k + i..];
    assert OccursAt(s, u, k + i);
  }

  lemma {:induction false} ReplaceRemoves(s: string, v: string, i: nat)
    requires v != "" && Free(v)
    ensures !OccursAt(Replace(s, v), v, i)
    decreases |s|
  {
    var r := Replace(s, v);
    if OccursAt(r, v, i) {
      assert v[0] == r[i];
      if v <= s {
        assert r[i..] == Replace(s[|v|..], v)[i - |MARKER|..];
        ReplaceRemoves(s[|v|..], v, i - |MARKER|);
      } else if i == 0 {
        assert r[0..] == r;
        FreePrefixOfReplace(v, s, v);
      } else {
        assert r[i..] == Replace(s[1..], v)[i - 1..];
        ReplaceRemoves(s[1..], v, i - 1);
      }
    }
  }

  /** Where nothing starts, nothing is replaced. */
  lemma {:induction false} ReplaceSkips(s: string, v: string, k: nat)
    requires v != "" && k <= |s|
    requires forall i: nat | i < k :: !OccursAt(s, v, i)
    ensures Replace(s, v) == s[..k] + Replace(s[k..], v)
  {
    if k > 0 {
      assert s[0..] == s && !OccursAt(s, v, 0);
      forall i: nat | i < k - 1 ensures !OccursAt(s[1..], v, i) {
        assert s[1..][i..] == s[i + 1..];
        assert !OccursAt(s, v, i + 1);
      }
      ReplaceSkips(s[1..], v, k - 1);
      assert s[1..][k - 1..] == s[k..];
      assert s[..k] == [s[0]] + s[1..][..k - 1];
    } else {
      assert s[0..] == s;
    }
  }

  lemma ReplaceAbsent(s: string, v: string)
    requires v != "" && !Occurs(s, v)
    ensures Replace(s, v) == s
  {
    ReplaceSkips(s, v, |s|);
    assert s[..|s|] == s && Replace(s[|s|..], v) == "";
  }

  lemma {:induction false} FreeReplaceIsIdentity(s: string, v: string)
    requires v != "" && Free(Replace(s, v))
    ensures Replace(s, v) == s
  {
    if s != "" {
      var r := Replace(s, v);
      assert MARKER[0] in MARKER && (r == "" || r[0] !in MARKER);
      if !(v <= s) {
        assert forall i | 0 <= i < |r| - 1 :: r[1..][i] == r[i + 1];
        assert r[1..] == Replace(s[1..], v);
        FreeReplaceIsIdentity(s[1..], v);
        assert s == [s[0]] + s[1..];
      }
    }
  }

  // ---- the whole pass ----

  lemma MarkerIsClean(v: string)
    requires v != "" && Free(v)
    ensures !Occurs(MARKER, v) && v != MARKER
  {
    assert v[0] !in MARKER;
    forall i: nat ensures !OccursAt(MARKER, v, i) {
      assert i < |MARKER| ==> MARKER[i..][0] == MARKER[i] && MARKER[i] in MARKER;
    }
    assert MARKER[0] in MARKER;
  }

  lemma {:induction false} FreePrefixOfProtect(q: string, s: string, order: seq<string>)
    requires Free(q) && q <= ProtectText(s, order)
    ensures q <= s
    decreases |order|
  {
    if order != [] {
      assert MARKER[0] in MARKER && (q == "" || q[0] !in MARKER);
      if s == order[0] {
      } else if |order[0]| >= LONG {
        FreePrefixOfProtect(q, Replace(s, order[0]), order[1..]);
        FreePrefixOfReplace(q, s, order[0]);
      } else {
        FreePrefixOfProtect(q, s, order[1..]);
      }
    }
  }

  /** A pass never brings an absent value into the text. */
  lemma {:induction false} ProtectAddsNothing(s: string, order: seq<string>, u: string)
    requires AllFree(order) && u != "" && Free(u) && !Occurs(s, u)
    ensures !Occurs(ProtectText(s, order), u)
    decreases |order|
  {
    if order != [] {
      if s == order[0] {
        MarkerIsClean(u);
      } else if |order[0]| >= LONG {
        var r := Replace(s, order[0]);
        if Occurs(r, u) {
          var i: nat :| OccursAt(r, u, i);
          ReplaceAddsNothing(s, order[0], u, i);
          assert false;
        }
        ProtectAddsNothing(r, order[1..], u);
      } else {
        ProtectAddsNothing(s, order[1..], u);
      }
    }
  }

  /** After a pass no private value of twelve or more characters is left. */
  lemma {:induction false} ProtectRemoves(s: string, order: seq<string>, u: string)
    requires AllFree(order) && u in order && |u| >= LONG
    ensures !Occurs(ProtectText(s, order), u)
    decreases |order|
  {
    if s == order[0] {
      MarkerIsClean(u);
    } else if |order[0]| >= LONG {
      var r := Replace(s, order[0]);
      if u == order[0] {
        forall i: nat ensures !OccursAt(r, u, i) { ReplaceRemoves(s, u, i); }
        ProtectAddsNothing(r, order[1..], u);
      } else {
        ProtectRemoves(r, order[1..], u);
      }
    } else {
      ProtectRemoves(s, order[1..], u);
    }
  }

  lemma {:induction false} FreeProtectIsIdentity(s: string, order: seq<string>)
    requires Free(ProtectText(s, order))
    ensures ProtectText(s, order) == s
    decreases |order|
  {
    if order != [] {
      assert MARKER[0] in MARKER;
      if s == order[0] {
      } else if |order[0]| >= LONG {
        FreeProtectIsIdentity(Replace(s, order[0]), order[1..]);
        FreeReplaceIsIdentity(s, order[0]);
      } else {
        FreeProtectIsIdentity(s, order[1..]);
      }
    }
  }

  /** On text without long values a pass can only hide the text as a whole. */
  lemma {:induction false} ProtectClean(s: string, order: seq<string>)
    requires forall u | u in order && |u| >= LONG :: !Occurs(s, u)
    ensures ProtectText(s, order) == if s in order then MARKER else s
    decreases |order|
  {
    if order != [] && s != order[0] {
      if |order[0]| >= LONG {
        ReplaceAbsent(s, order[0]);
      }
      ProtectClean(s, order[1..]);
      assert order == [order[0]] + order[1..];
    }
  }
}
