/** Fair selection of resource references and the bounded resource view built from them. */
module Selections {
  import opened Options

  type Kind = nat
  datatype Ref = Ref(kind: Kind, id: nat)

  function OfKind(values: seq<Ref>, kind: Kind): seq<Ref> {
    if values == [] then []
    else OfKind(values[..|values| - 1], kind)
         + if values[|values| - 1].kind == kind then [values[|values| - 1]] else []
  }

  function Count(values: seq<Ref>, kind: Kind): nat {
    |OfKind(values, kind)|
  }

  predicate Exhausted(values: seq<Ref>, chosen: seq<Ref>, kind: Kind) {
    OfKind(chosen, kind) == OfKind(values, kind)
  }

  /** No kind is more than one ahead of another that still has values, and the first kinds come first. */
  ghost predicate Balanced(values: seq<Ref>, chosen: seq<Ref>) {
    && (forall a: Kind, b: Kind :: Count(chosen, a) <= Count(chosen, b) + 1 || Exhausted(values, chosen, b))
    && (forall a: Kind, b: Kind | a < b :: Count(chosen, b) <= Count(chosen, a) || Exhausted(values, chosen, a))
  }

  ghost predicate InKindOrder(values: seq<Ref>, chosen: seq<Ref>) {
    forall k: Kind :: OfKind(chosen, k) <= OfKind(values, k)
  }

  /** Whenever the choice might have ended, it would have been fair. */
  ghost predicate AlwaysFair(values: seq<Ref>, chosen: seq<Ref>) {
    forall n | 0 <= n <= |chosen| :: Balanced(values, chosen[..n]) && InKindOrder(values, chosen[..n])
  }

  lemma AlwaysFairGrows(values: seq<Ref>, chosen: seq<Ref>, v: Ref)
    requires AlwaysFair(values, chosen) && Balanced(values, chosen + [v]) && InKindOrder(values, chosen + [v])
    ensures AlwaysFair(values, chosen + [v])
  {
    var longer := chosen + [v];
    forall n | 0 <= n <= |longer| ensures Balanced(values, longer[..n]) && InKindOrder(values, longer[..n]) {
      assert if n <= |chosen| then longer[..n] == chosen[..n] else longer[..n] == longer;
    }
  }

  /** Fairness at every moment leaves one choice only. */
  lemma {:induction false} FairIsUnique(values: seq<Ref>, a: seq<Ref>, b: seq<Ref>)
    requires AlwaysFair(values, a) && AlwaysFair(values, b) && |a| == |b|
    ensures a == b
  {
    if a != [] {
      var n := |a| - 1;
      assert forall i | 0 <= i <= n :: a[..n][..i] == a[..i] && b[..n][..i] == b[..i];
      FairIsUnique(values, a[..n], b[..n]);
      assert a[..n] == b[..n] && a == a[..n] + [a[n]] && b == b[..n] + [b[n]];
      assert a[..|a|] == a && b[..|b|] == b;
      NextIsUnique(values, a[..n], a[n], b[n]);
    }
  }

  lemma NextIsUnique(values: seq<Ref>, chosen: seq<Ref>, v: Ref, w: Ref)
    requires Balanced(values, chosen + [v]) && InKindOrder(values, chosen + [v])
    requires Balanced(values, chosen + [w]) && InKindOrder(values, chosen + [w])
    ensures v == w
  {
    NextInOrder(values, chosen, v);
    NextInOrder(values, chosen, w);
    SoonestFirst(values, chosen, v, w);
    SoonestFirst(values, chosen, w, v);
  }

  lemma NextInOrder(values: seq<Ref>, chosen: seq<Ref>, v: Ref)
    requires InKindOrder(values, chosen + [v])
    ensures Count(chosen, v.kind) < Count(values, v.kind) && OfKind(values, v.kind)[Count(chosen, v.kind)] == v
  {
    OfKindAppend(chosen, v, v.kind);
    assert OfKind(chosen + [v], v.kind)[Count(chosen, v.kind)] == v;
  }

  lemma SoonestFirst(values: seq<Ref>, chosen: seq<Ref>, v: Ref, w: Ref)
    requires Balanced(values, chosen + [v]) && Balanced(values, chosen + [w])
    requires Count(chosen, v.kind) < Count(values, v.kind) && Count(chosen, w.kind) < Count(values, w.kind)
    ensures !(v.kind < w.kind)
  {
    OfKindAppend(chosen, v, v.kind);
    OfKindAppend(chosen, v, w.kind);
    OfKindAppend(chosen, w, v.kind);
    OfKindAppend(chosen, w, w.kind);
    var cv: int, cw: int := Count(chosen, v.kind), Count(chosen, w.kind);
    assert v.kind != w.kind ==> !Exhausted(values, chosen + [w], v.kind) && !Exhausted(values, chosen + [v], w.kind);
    assert Count(chosen + [w], w.kind) == cw + 1 && (v.kind != w.kind ==> Count(chosen + [w], v.kind) == cv);
    assert Count(chosen + [v], v.kind) == cv + 1 && (v.kind != w.kind ==> Count(chosen + [v], w.kind) == cw);
    assert v.kind < w.kind ==> cw + 1 <= cv;
    assert v.kind < w.kind ==> cv <= cw;
  }

  lemma OfKindAppend(values: seq<Ref>, v: Ref, kind: Kind)
    ensures OfKind(values + [v], kind) == OfKind(values, kind) + if v.kind == kind then [v] else []
  {
    assert (values + [v])[..|values + [v]| - 1] == values;
  }

  /** The kinds' subsequences together are the whole. */
  lemma {:induction false} OfKindCounts(values: seq<Ref>, v: Ref, kind: Kind)
    ensures multiset(OfKind(values, kind))[v] == if v.kind == kind then multiset(values)[v] else 0
  {
    if values != [] {
      OfKindCounts(values[..|values| - 1], v, kind);
      assert values == values[..|values| - 1] + [values[|values| - 1]];
    }
  }

  lemma SameKindsSameLength(a: seq<Ref>, b: seq<Ref>)
    requires forall k: Kind :: OfKind(a, k) == OfKind(b, k)
    ensures |a| == |b|
  {
    forall v: Ref ensures multiset(a)[v] == multiset(b)[v] {
      OfKindCounts(a, v, v.kind);
      OfKindCounts(b, v, v.kind);
    }
    assert multiset(a) == multiset(b);
    assert |a| == |multiset(a)| && |b| == |multiset(b)|;
  }

  // ---- the buckets ----

  function Bucket(buckets: map<Kind, seq<Ref>>, kind: Kind): seq<Ref> {
    if kind in buckets then buckets[kind] else []
  }

  method Buckets(values: seq<Ref>) returns (buckets: map<Kind, seq<Ref>>)
    ensures forall k: Kind :: Bucket(buckets, k) == OfKind(values, k) && (k in buckets <==> OfKind(values, k) != [])
  {
    buckets := map[];
    var i := 0;
    while i < |values|
      invariant i <= |values|
      invariant forall k: Kind :: Bucket(buckets, k) == OfKind(values[..i], k) && (k in buckets <==> OfKind(values[..i], k) != [])
    {
      var v := values[i];
      assert values[..i + 1] == values[..i] + [v];
      forall k: Kind ensures OfKind(values[..i + 1], k) == OfKind(values[..i], k) + if v.kind == k then [v] else [] {
        OfKindAppend(values[..i], v, k);
      }
      buckets := buckets[v.kind := Bucket(buckets, v.kind) + [v]];
      i := i + 1;
    }
    assert values[..i] == values;
  }

  predicate Ascending(kinds: seq<Kind>) {
    forall i, j | 0 <= i < j < |kinds| :: kinds[i] < kinds[j]
  }

  method Sorted(kinds: set<Kind>) returns (r: seq<Kind>)
    ensures Ascending(r) && forall k :: k in r <==> k in kinds
  {
    r := [];
    var rest := kinds;
    while rest != {}
      invariant Ascending(r) && rest <= kinds && forall k :: k in r <==> k in kinds - rest
      decreases |rest|
    {
      var k :| k in rest;
      r := Inserted(r, k);
      rest := rest - {k};
    }
  }

  method Inserted(kinds: seq<Kind>, k: Kind) returns (r: seq<Kind>)
    requires Ascending(kinds) && k !in kinds
    ensures Ascending(r) && forall x :: x in r <==> x in kinds || x == k
  {
    var i := 0;
    while i < |kinds| && kinds[i] < k
      invariant i <= |kinds| && forall j | 0 <= j < i :: kinds[j] < k
    {
      i := i + 1;
    }
    assert i < |kinds| ==> k < kinds[i] by {
      assert i < |kinds| ==> kinds[i] in kinds;
    }
    r := kinds[..i] + [k] + kinds[i..];
    assert kinds == kinds[..i] + kinds[i..];
  }

  // ---- one value of each kind in turn ----

  /** What is chosen and what is left of each kind make up what was given. */
  ghost predicate Splits(values: seq<Ref>, chosen: seq<Ref>, buckets: map<Kind, seq<Ref>>) {
    forall k: Kind :: OfKind(chosen, k) + Bucket(buckets, k) == OfKind(values, k)
  }

  lemma Take(values: seq<Ref>, chosen: seq<Ref>, buckets: map<Kind, seq<Ref>>, kind: Kind)
    requires Splits(values, chosen, buckets) && Bucket(buckets, kind) != []
    ensures var v := Bucket(buckets, kind)[0];
            v.kind == kind
            && Splits(values, chosen + [v], buckets[kind := Bucket(buckets, kind)[1..]])
            && forall k: Kind :: Count(chosen + [v], k) == Count(chosen, k) + if k == kind then 1 else 0
  {
    var v := Bucket(buckets, kind)[0];
    AllOfKind(values, kind);
    assert OfKind(values, kind)[|OfKind(chosen, kind)|] == v;
    forall k: Kind ensures OfKind(chosen + [v], k) + Bucket(buckets[kind := Bucket(buckets, kind)[1..]], k) == OfKind(values, k)
    {
      OfKindAppend(chosen, v, k);
    }
    forall k: Kind ensures Count(chosen + [v], k) == Count(chosen, k) + if k == kind then 1 else 0 {
      OfKindAppend(chosen, v, k);
    }
  }

  lemma {:induction false} AllOfKind(values: seq<Ref>, kind: Kind)
    ensures forall i | 0 <= i < Count(values, kind) :: OfKind(values, kind)[i].kind == kind
  {
    if values != [] { AllOfKind(values[..|values| - 1], kind); }
  }

  /** In the middle of a round the first `taken` kinds are one ahead; then either all so far were served or the limit is met. */
  ghost predicate MidRound(chosen: seq<Ref>, buckets: map<Kind, seq<Ref>>, kinds: seq<Kind>, round: nat, taken: nat) {
    && taken <= |kinds| && Ascending(kinds)
    && (forall j | 0 <= j < |kinds| :: Count(chosen, kinds[j]) == round + if j < taken then 1 else 0)
    && (forall j | taken <= j < |kinds| :: Bucket(buckets, kinds[j]) != [])
    && (forall k: Kind | k !in kinds :: Count(chosen, k) <= round && Bucket(buckets, k) == [])
  }

  lemma MidRoundIsBalanced(values: seq<Ref>, chosen: seq<Ref>, buckets: map<Kind, seq<Ref>>, kinds: seq<Kind>,
                           round: nat, taken: nat)
    requires Splits(values, chosen, buckets) && MidRound(chosen, buckets, kinds, round, taken)
    ensures Balanced(values, chosen) && InKindOrder(values, chosen)
  {
    forall k: Kind ensures Count(chosen, k) <= round + 1 && OfKind(chosen, k) <= OfKind(values, k)
      && (Exhausted(values, chosen, k) <==> Bucket(buckets, k) == []) && (Bucket(buckets, k) != [] ==> Count(chosen, k) >= round)
    {
      assert OfKind(chosen, k) + Bucket(buckets, k) == OfKind(values, k);
    }
    forall a: Kind, b: Kind | a < b ensures Count(chosen, b) <= Count(chosen, a) || Exhausted(values, chosen, a) {
      if a in kinds && b in kinds {
        var i :| 0 <= i < |kinds| && kinds[i] == a;
        var j :| 0 <= j < |kinds| && kinds[j] == b;
        assert i < j;
      }
    }
  }

  lemma TakeKeeps(values: seq<Ref>, chosen: seq<Ref>, buckets: map<Kind, seq<Ref>>, kinds: seq<Kind>, round: nat,
                  i: nat)
    requires Splits(values, chosen, buckets) && MidRound(chosen, buckets, kinds, round, i) && i < |kinds|
    ensures var bucket := Bucket(buckets, kinds[i]);
            Splits(values, chosen + [bucket[0]], buckets[kinds[i] := bucket[1..]])
            && MidRound(chosen + [bucket[0]], buckets[kinds[i] := bucket[1..]], kinds, round, i + 1)
  {
    Take(values, chosen, buckets, kinds[i]);
    var bucket := Bucket(buckets, kinds[i]);
    ServedNext(chosen, chosen + [bucket[0]], buckets, buckets[kinds[i] := bucket[1..]], kinds, round, i);
  }

  lemma ServedNext(chosen: seq<Ref>, longer: seq<Ref>, buckets: map<Kind, seq<Ref>>, after: map<Kind, seq<Ref>>,
                   kinds: seq<Kind>, round: nat, i: nat)
    requires MidRound(chosen, buckets, kinds, round, i) && i < |kinds|
    requires forall k: Kind :: Count(longer, k) == Count(chosen, k) + if k == kinds[i] then 1 else 0
    requires forall k: Kind | k != kinds[i] :: Bucket(after, k) == Bucket(buckets, k)
    ensures MidRound(longer, after, kinds, round, i + 1)
  {
    forall j | 0 <= j < |kinds| ensures Count(longer, kinds[j]) == round + if j < i + 1 then 1 else 0 {
      assert j != i ==> kinds[j] != kinds[i];
    }
    forall j | i + 1 <= j < |kinds| ensures Bucket(after, kinds[j]) != [] {
      assert kinds[j] != kinds[i];
    }
  }

  /** The next of the kind, taken: all that a round keeps. */
  lemma TakeIsFair(values: seq<Ref>, chosen: seq<Ref>, buckets: map<Kind, seq<Ref>>, kinds: seq<Kind>, round: nat, i: nat)
    requires Splits(values, chosen, buckets) && MidRound(chosen, buckets, kinds, round, i) && i < |kinds|
    requires AlwaysFair(values, chosen)
    ensures var bucket := Bucket(buckets, kinds[i]);
            && Splits(values, chosen + [bucket[0]], buckets[kinds[i] := bucket[1..]])
            && MidRound(chosen + [bucket[0]], buckets[kinds[i] := bucket[1..]], kinds, round, i + 1)
            && AlwaysFair(values, chosen + [bucket[0]])
  {
    var bucket := Bucket(buckets, kinds[i]);
    TakeKeeps(values, chosen, buckets, kinds, round, i);
    MidRoundIsBalanced(values, chosen + [bucket[0]], buckets[kinds[i] := bucket[1..]], kinds, round, i + 1);
    AlwaysFairGrows(values, chosen, bucket[0]);
  }

  /** Of the first i kinds those that still have values. */
  ghost predicate Leftover(remaining: seq<Kind>, kinds: seq<Kind>, i: nat, buckets: map<Kind, seq<Ref>>)
    requires i <= |kinds|
  {
    Ascending(remaining) && forall k :: k in remaining <==> k in kinds[..i] && Bucket(buckets, k) != []
  }

  lemma LeftoverStep(remaining: seq<Kind>, kinds: seq<Kind>, i: nat, before: map<Kind, seq<Ref>>, buckets: map<Kind,
                     seq<Ref>>)
    requires Ascending(kinds) && i < |kinds| && Leftover(remaining, kinds, i, before)
    requires forall k | k != kinds[i] :: Bucket(buckets, k) == Bucket(before, k)
    ensures Leftover(if Bucket(buckets, kinds[i]) != [] then remaining + [kinds[i]] else remaining, kinds, i + 1, buckets)
  {
    assert kinds[..i + 1] == kinds[..i] + [kinds[i]];
    forall j | 0 <= j < |remaining| ensures remaining[j] < kinds[i] {
      assert remaining[j] in remaining;
    }
    forall k | k in kinds[..i] ensures k != kinds[i] {
    }
  }

  /** One pass over the kinds that still have values. */
  method Round(ghost values: seq<Ref>, before: seq<Ref>, full: map<Kind, seq<Ref>>, kinds: seq<Kind>, limit: int,
               ghost round: nat)
    returns (chosen: seq<Ref>, buckets: map<Kind, seq<Ref>>, remaining: seq<Kind>, ghost taken: nat)
    requires Splits(values, before, full) && MidRound(before, full, kinds, round, 0) && |before| < limit && kinds != []
    requires AlwaysFair(values, before)
    ensures AlwaysFair(values, chosen)
    ensures Splits(values, chosen, buckets) && MidRound(chosen, buckets, kinds, round, taken)
    ensures (taken == |kinds| || |chosen| == limit) && |before| < |chosen| <= limit
    ensures Leftover(remaining, kinds, |kinds|, buckets)
  {
    chosen, buckets, remaining, taken := before, full, [], 0;
    var i := 0;
    while i < |kinds|
      invariant i <= |kinds| && Splits(values, chosen, buckets) && MidRound(chosen, buckets, kinds, round, taken)
      invariant AlwaysFair(values, chosen)
      invariant taken <= i && (taken == i || |chosen| == limit) && |chosen| == |before| + taken <= limit
      invariant Leftover(remaining, kinds, i, buckets) && (i > 0 ==> taken > 0)
    {
      chosen, buckets, remaining, taken := Serve(values, chosen, buckets, kinds, limit, remaining, i, round, taken);
      i := i + 1;
    }
  }

  /** One kind's turn: its next value, if there is one and room for it; the kind stays as long as values are left. */
  method Serve(ghost values: seq<Ref>, before: seq<Ref>, full: map<Kind, seq<Ref>>, kinds: seq<Kind>, limit: int,
               left: seq<Kind>, i: nat, ghost round: nat, ghost served: nat)
    returns (chosen: seq<Ref>, buckets: map<Kind, seq<Ref>>, remaining: seq<Kind>, ghost taken: nat)
    requires Splits(values, before, full) && MidRound(before, full, kinds, round, served) && AlwaysFair(values, before)
    requires i < |kinds| && served <= i && (served == i || |before| == limit) && |before| <= limit
    requires Leftover(left, kinds, i, full)
    ensures Splits(values, chosen, buckets) && MidRound(chosen, buckets, kinds, round, taken) && AlwaysFair(values, chosen)
    ensures taken == (if |before| < limit then served + 1 else served) && |chosen| == |before| + taken - served
    ensures Leftover(remaining, kinds, i + 1, buckets)
  {
    chosen, buckets, remaining, taken := before, full, left, served;
    var kind := kinds[i];
    if Bucket(buckets, kind) != [] && |chosen| < limit {
      var bucket := buckets[kind];
      TakeIsFair(values, chosen, buckets, kinds, round, i);
      chosen := chosen + [bucket[0]];
      buckets := buckets[kind := bucket[1..]];
      taken := taken + 1;
    }
    LeftoverStep(remaining, kinds, i, full, buckets);
    if Bucket(buckets, kind) != [] {
      remaining := remaining + [kind];
    }
  }

  /** Exactly as many as the limit allows, in order within each kind, evenly over the kinds at every moment. */
  method Fair(values: seq<Ref>, limit: int) returns (chosen: seq<Ref>)
    ensures |chosen| == if limit <= 0 then 0 else if limit <= |values| then limit else |values|
    ensures AlwaysFair(values, chosen) && InKindOrder(values, chosen) && Balanced(values, chosen)
  {
    var buckets := Buckets(values);
    var kinds := Sorted(buckets.Keys);
    chosen := [];
    ghost var round := 0;
    MidRoundIsBalanced(values, chosen, buckets, kinds, 0, 0);
    while kinds != [] && |chosen| < limit
      invariant Splits(values, chosen, buckets) && AlwaysFair(values, chosen)
      invariant |chosen| <= if limit <= 0 then 0 else limit
      invariant |chosen| < limit ==> MidRound(chosen, buckets, kinds, round, 0)
      decreases limit - |chosen|
    {
      ghost var taken;
      var remaining;
      ghost var served := kinds;
      chosen, buckets, remaining, taken := Round(values, chosen, buckets, kinds, limit, round);
      MidRoundIsBalanced(values, chosen, buckets, served, round, taken);
      if taken == |served| { NextRound(chosen, buckets, served, round, remaining); }
      kinds := remaining;
      round := round + 1;
    }
    assert chosen[..|chosen|] == chosen;
    if |chosen| < limit {
      forall k: Kind ensures OfKind(chosen, k) == OfKind(values, k) {
        assert Bucket(buckets, k) == [];
      }
      SameKindsSameLength(chosen, values);
    } else {
      ShorterThan(values, chosen);
    }
  }

  lemma NextRound(chosen: seq<Ref>, buckets: map<Kind, seq<Ref>>, kinds: seq<Kind>, round: nat, remaining: seq<Kind>)
    requires MidRound(chosen, buckets, kinds, round, |kinds|) && Leftover(remaining, kinds, |kinds|, buckets)
    ensures MidRound(chosen, buckets, remaining, round + 1, 0)
  {
    assert kinds[..|kinds|] == kinds;
    forall j | 0 <= j < |remaining| ensures Count(chosen, remaining[j]) == round + 1 && Bucket(buckets, remaining[j]) != [] {
      assert remaining[j] in remaining;
    }
    forall k: Kind | k !in remaining ensures Count(chosen, k) <= round + 1 && Bucket(buckets, k) == [] {
    }
  }

  lemma ShorterThan(values: seq<Ref>, chosen: seq<Ref>)
    requires InKindOrder(values, chosen)
    ensures |chosen| <= |values|
  {
    forall v: Ref ensures multiset(chosen)[v] <= multiset(values)[v] {
      OfKindCounts(chosen, v, v.kind);
      OfKindCounts(values, v, v.kind);
      assert OfKind(values, v.kind) == OfKind(chosen, v.kind) + OfKind(values, v.kind)[Count(chosen, v.kind)..];
    }
    assert multiset(chosen) <= multiset(values);
    assert |multiset(values)| == |multiset(chosen)| + |multiset(values) - multiset(chosen)|;
    assert |chosen| == |multiset(chosen)| && |values| == |multiset(values)|;
  }
}
