/** Shuffled lists of planets, and the sweep of the revolution over them. */
module Sweeps {

  const NOMATCH := -1

  predicate Matches(owners: seq<int>, owner: int, i: nat)
    requires i < |owners|
  {
    owner < 0 || owners[i] == owner
  }

  /** The planets before n that match, in order. */
  function Matching(owners: seq<int>, owner: int, n: nat): (r: seq<int>)
    requires n <= |owners|
    ensures |r| <= n
  {
    if n == 0 then []
    else if Matches(owners, owner, n - 1) then Matching(owners, owner, n - 1) + [n - 1]
    else Matching(owners, owner, n - 1)
  }

  function Swap(s: seq<int>, i: nat, j: nat): (r: seq<int>)
    requires i < |s| && j < |s|
    ensures |r| == |s|
  {
    s[i := s[j]][j := s[i]]
  }

  lemma SwapPermutes(s: seq<int>, i: nat, j: nat)
    requires i < |s| && j < |s|
    ensures multiset(Swap(s, i, j)) == multiset(s)
  {
  }

  /** The first n places shuffled from the last down. */
  function Shuffled(s: seq<int>, draws: int -> nat, n: nat): (r: seq<int>)
    requires n <= |s|
    decreases n
  {
    if n <= 1 then s else Shuffled(Swap(s, draws(n - 1) % n, n - 1), draws, n - 1)
  }

  /** Lists the matching planets and shuffles them from the back; draws(i) is the draw at place i. */
  method FillPlanets(plist: array<int>, owners: seq<int>, owner: int, draws: int -> nat) returns (count: nat)
    requires |owners| <= plist.Length
    modifies plist
    ensures count == |Matching(owners, owner, |owners|)|
    ensures plist[..count] == Shuffled(Matching(owners, owner, |owners|), draws, count)
  {
    count := 0;
    var i := 0;
    while i < |owners|
      invariant 0 <= i <= |owners|
      invariant count == |Matching(owners, owner, i)| && plist[..count] == Matching(owners, owner, i)
    {
      if owner < 0 || owners[i] == owner {
        plist[count] := i;
        count := count + 1;
      }
      i := i + 1;
    }
    ShufflePlanets(plist, count, draws);
  }

  /** Swaps every place from the last down with a drawn one not after it. */
  method ShufflePlanets(plist: array<int>, count: nat, draws: int -> nat)
    requires count <= plist.Length
    modifies plist
    ensures plist[..count] == Shuffled(old(plist[..count]), draws, count)
  {
    var i: int := count - 1;
    while i > 0
      invariant -1 <= i < count
      invariant Shuffled(plist[..count], draws, i + 1) == Shuffled(old(plist[..count]), draws, count)
    {
      SwapPlanets(plist, count, draws(i) % (i + 1), i);
      i := i - 1;
    }
  }

  method SwapPlanets(plist: array<int>, count: nat, idx: nat, i: nat)
    requires count <= plist.Length && idx < count && i < count
    modifies plist
    ensures plist[..count] == Swap(old(plist[..count]), idx, i)
  {
    var temp := plist[idx];
    plist[idx] := plist[i];
    plist[i] := temp;
  }

  lemma {:induction false} ShuffledPermutes(s: seq<int>, draws: int -> nat, n: nat)
    requires n <= |s|
    ensures multiset(Shuffled(s, draws, n)) == multiset(s) && |Shuffled(s, draws, n)| == |s|
    decreases n
  {
    if n > 1 {
      var idx := draws(n - 1) % n;
      SwapPermutes(s, idx, n - 1);
      ShuffledPermutes(Swap(s, idx, n - 1), draws, n - 1);
    }
  }

  lemma {:induction false} DrawsAgree(s: seq<int>, d: int -> nat, e: int -> nat, n: nat)
    requires n <= |s| && forall j :: 0 <= j < n ==> d(j) == e(j)
    ensures Shuffled(s, d, n) == Shuffled(s, e, n)
    decreases n
  {
    if n > 1 {
      DrawsAgree(Swap(s, d(n - 1) % n, n - 1), d, e, n - 1);
    }
  }

  /** s and t differ only in the order of their first n places. */
  ghost predicate Reordered(s: seq<int>, t: seq<int>, n: nat) {
    n <= |s| == |t| && multiset(s[..n]) == multiset(t[..n]) && s[n..] == t[n..]
  }

  function Zeros(): int -> nat {
    i => 0
  }

  /** Draws that bring s into the order of t. */
  lemma {:induction false} DrawsFor(s: seq<int>, t: seq<int>, n: nat) returns (draws: int -> nat)
    requires Reordered(s, t, n)
    ensures Shuffled(s, draws, n) == t
    decreases n
  {
    if n <= 1 {
      OneLeft(s, t, n);
      draws := Zeros();
    } else {
      var idx := WhereIs(s, t, n);
      PrefixSwap(s, t, n, idx);
      var rest := DrawsFor(Swap(s, idx, n - 1), t, n - 1);
      DrawLast(s, rest, n - 1, idx);
      draws := Drawn(rest, n - 1, idx);
    }
  }

  /** The shuffle reaches exactly the permutations: every order of the list can be drawn. */
  lemma EveryOrderDrawn(s: seq<int>, t: seq<int>)
    ensures (exists draws: int -> nat :: Shuffled(s, draws, |s|) == t) <==> multiset(s) == multiset(t)
  {
    if multiset(s) == multiset(t) {
      assert |s| == |multiset(s)| == |multiset(t)| == |t|;
      assert s[..|s|] == s && t[..|s|] == t;
      var draws := DrawsFor(s, t, |s|);
    }
    forall draws: int -> nat | Shuffled(s, draws, |s|) == t ensures multiset(s) == multiset(t) {
      ShuffledPermutes(s, draws, |s|);
    }
  }

  lemma WhereIs(s: seq<int>, t: seq<int>, n: nat) returns (idx: nat)
    requires 0 < n && Reordered(s, t, n)
    ensures idx < n <= |s| == |t| && s[idx] == t[n - 1]
  {
    assert t[..n][n - 1] in multiset(t[..n]);
    idx :| 0 <= idx < n && s[..n][idx] == t[n - 1];
  }

  lemma DrawLast(s: seq<int>, rest: int -> nat, k: nat, idx: nat)
    requires 0 < k < |s| && idx <= k
    ensures Shuffled(s, Drawn(rest, k, idx), k + 1) == Shuffled(Swap(s, idx, k), rest, k)
  {
    DivUnique(idx, k + 1, 0, idx);
    DrawsAgree(Swap(s, idx, k), rest, Drawn(rest, k, idx), k);
  }

  function Drawn(rest: int -> nat, k: nat, idx: nat): int -> nat {
    i => if i == k then idx else rest(i)
  }

  lemma OneLeft(s: seq<int>, t: seq<int>, n: nat)
    requires n <= 1 && Reordered(s, t, n)
    ensures s == t
  {
    assert s == s[..n] + s[n..] && t == t[..n] + t[n..];
    if n == 1 {
      assert s[..1] == [s[0]] && t[..1] == [t[0]];
      assert s[0] in multiset(t[..1]);
    }
  }

  lemma PrefixSwap(s: seq<int>, t: seq<int>, n: nat, idx: nat)
    requires 1 < n && Reordered(s, t, n) && idx < n && s[idx] == t[n - 1]
    ensures Reordered(Swap(s, idx, n - 1), t, n - 1)
  {
    var k := n - 1;
    var u := Swap(s, idx, k);
    SwapPermutes(s[..n], idx, k);
    assert u[..n] == Swap(s[..n], idx, k);
    LastOff(u, n);
    LastOff(t, n);
    assert u[k..] == [u[k]] + u[n..] && t[k..] == [t[k]] + t[n..];
    assert u[n..] == s[n..];
  }

  lemma LastOff(s: seq<int>, n: nat)
    requires 0 < n <= |s|
    ensures multiset(s[..n - 1]) == multiset(s[..n]) - multiset{s[n - 1]}
  {
    assert s[..n] == s[..n - 1] + [s[n - 1]];
  }

  lemma OneMore(s: seq<int>, x: int, k: int)
    ensures multiset(s + [x])[k] == multiset(s)[k] + if k == x then 1 else 0
  {
  }

  /** The list holds each matching planet once and nothing else. */
  lemma {:induction false} MatchingIsExact(owners: seq<int>, owner: int, n: nat, k: int)
    requires n <= |owners|
    ensures multiset(Matching(owners, owner, n))[k] ==
            if 0 <= k < n && Matches(owners, owner, k) then 1 else 0
  {
    if n > 0 {
      MatchingIsExact(owners, owner, n - 1, k);
      var s := Matching(owners, owner, n - 1);
      if Matches(owners, owner, n - 1) {
        OneMore(s, n - 1, k);
      }
    }
  }

  // ---------------------------------------------------------------- the revolution's sweep

  /** A shuffle of all planets. */
  ghost predicate Shuffle(s: seq<int>, n: nat) {
    |s| == n && forall k: int :: multiset(s)[k] == if 0 <= k < n then 1 else 0
  }

  /** What FillPlanets leaves for all planets is a shuffle. */
  lemma FilledIsShuffle(owners: seq<int>, s: seq<int>)
    requires multiset(s) == multiset(Matching(owners, NOMATCH, |owners|))
    requires |s| == |Matching(owners, NOMATCH, |owners|)|
    ensures Shuffle(s, |owners|)
  {
    forall k: int ensures multiset(s)[k] == if 0 <= k < |owners| then 1 else 0 {
      MatchingIsExact(owners, NOMATCH, |owners|, k);
    }
    MatchingAll(owners, |owners|);
  }

  lemma {:induction false} MatchingAll(owners: seq<int>, n: nat)
    requires n <= |owners|
    ensures |Matching(owners, NOMATCH, n)| == n
  {
    if n > 0 {
      MatchingAll(owners, n - 1);
    }
  }

  /** The planets still to be visited, last first; empty when a new list is due. */
  type Sweep = seq<int>

  /** One call: the planet visited and what is left; fill is the shuffle made if a new list is due. */
  function Call(s: Sweep, fill: seq<int>): (r: (Sweep, int))
    requires |fill| > 0
  {
    var list := if |s| < 1 then fill else s;
    (list[..|list| - 1], list[|list| - 1])
  }

  function Visits(s: Sweep, fills: seq<seq<int>>): (v: seq<int>)
    requires forall k :: 0 <= k < |fills| ==> |fills[k]| > 0
    ensures |v| == |fills|
    decreases fills
  {
    if fills == [] then []
    else [Call(s, fills[0]).1] + Visits(Call(s, fills[0]).0, fills[1..])
  }

  ghost predicate Shuffles(fills: seq<seq<int>>, n: nat) {
    forall k {:trigger fills[k]} :: 0 <= k < |fills| ==> Shuffle(fills[k], n)
  }

  /** While the list lasts, what has been visited and what is left make up the list. */
  lemma {:induction false} VisitsDrainList(s: Sweep, fills: seq<seq<int>>)
    requires |fills| <= |s| && forall k :: 0 <= k < |fills| ==> |fills[k]| > 0
    ensures multiset(Visits(s, fills)) + multiset(s[..|s| - |fills|]) == multiset(s)
    decreases fills
  {
    if fills == [] {
      assert s[..|s|] == s;
    } else {
      var n, rest := |s| - 1, fills[1..];
      var t := s[..n];
      VisitsDrainList(t, rest);
      VisitsStep(s, fills);
      assert s[..|s| - |fills|] == t[..|t| - |rest|];
      DrainStep(s, Visits(t, rest), t[..|t| - |rest|]);
    }
  }

  lemma DrainStep(s: seq<int>, visited: seq<int>, left: seq<int>)
    requires s != [] && multiset(visited) + multiset(left) == multiset(s[..|s| - 1])
    ensures multiset([s[|s| - 1]] + visited) + multiset(left) == multiset(s)
  {
    var x := s[|s| - 1];
    assert s == s[..|s| - 1] + [x];
    assert multiset([x] + visited) == multiset{x} + multiset(visited);
  }

  lemma {:induction false} VisitsSplit(s: Sweep, fills: seq<seq<int>>, m: nat)
    requires m <= |s| && m <= |fills| && forall k :: 0 <= k < |fills| ==> |fills[k]| > 0
    ensures Visits(s, fills) == Visits(s, fills[..m]) + Visits(s[..|s| - m], fills[m..])
    decreases m
  {
    if m == 0 {
      assert fills[..0] == [] && fills[0..] == fills && s[..|s|] == s;
    } else {
      var t, rest := s[..|s| - 1], fills[1..];
      VisitsSplit(t, rest, m - 1);
      VisitsStep(s, fills);
      VisitsStep(s, fills[..m]);
      assert fills[..m][1..] == rest[..m - 1] && fills[m..] == rest[m - 1..];
      assert t[..|t| - (m - 1)] == s[..|s| - m];
    }
  }

  lemma VisitsStep(s: Sweep, fills: seq<seq<int>>)
    requires s != [] && fills != [] && forall k :: 0 <= k < |fills| ==> |fills[k]| > 0
    ensures Visits(s, fills) == [s[|s| - 1]] + Visits(s[..|s| - 1], fills[1..])
  {
  }

  /** A call on an empty list is a call on the new one. */
  lemma FirstCall(fills: seq<seq<int>>, n: nat)
    requires n > 0 && |fills| > 0 && Shuffles(fills, n)
    requires forall k :: 0 <= k < |fills| ==> |fills[k]| > 0
    ensures Visits([], fills) == Visits(fills[0], fills)
  {
  }

  /** A full round visits each planet of its list, and the next round starts afresh. */
  lemma FullRound(fills: seq<seq<int>>, n: nat)
    requires n > 0 && |fills| >= n && Shuffles(fills, n)
    requires forall k :: 0 <= k < |fills| ==> |fills[k]| > 0
    ensures multiset(Visits([], fills)) == multiset(fills[0]) + multiset(Visits([], fills[n..]))
  {
    FirstCall(fills, n);
    assert Shuffle(fills[0], n);
    VisitsSplit(fills[0], fills, n);
    VisitsDrainList(fills[0], fills[..n]);
    assert fills[0][0..] == fills[0] && fills[0][..0] == [];
  }

  lemma AllLong(fills: seq<seq<int>>, n: nat)
    requires n > 0 && Shuffles(fills, n)
    ensures forall k :: 0 <= k < |fills| ==> |fills[k]| > 0
  {
    forall k | 0 <= k < |fills| ensures |fills[k]| > 0 {
      assert Shuffle(fills[k], n);
    }
  }

  /** The sweep is fair: after any number of calls from a fresh start, every planet has been visited as
      often as there have been full rounds, or once more; after full rounds, exactly as often. */
  lemma {:induction false} SweepIsFair(fills: seq<seq<int>>, n: nat, p: int)
    requires n > 0 && Shuffles(fills, n) && 0 <= p < n
    ensures forall k :: 0 <= k < |fills| ==> |fills[k]| > 0
    ensures var v, rounds := multiset(Visits([], fills))[p], |fills| / n;
      rounds <= v <= rounds + 1 && (|fills| % n == 0 ==> v == rounds)
    decreases |fills|
  {
    AllLong(fills, n);
    if fills == [] {
      DivUnique(0, n, 0, 0);
    } else if |fills| < n {
      DivUnique(|fills|, n, 0, |fills|);
      PartRound(fills, n, p);
    } else {
      SweepIsFair(fills[n..], n, p);
      DivStep(|fills|, n);
      FullRound(fills, n);
      assert Shuffle(fills[0], n);
    }
  }

  lemma DivUnique(a: nat, n: nat, q: nat, r: nat)
    requires n > 0 && a == q * n + r && r < n
    ensures a / n == q && a % n == r
  {
    assert a == (a / n) * n + a % n;
    QuotientUnique(q, a / n, n, r, a % n);
  }

  lemma QuotientUnique(q: nat, p: nat, n: nat, r: nat, t: nat)
    requires q * n + r == p * n + t && r < n && t < n
    ensures q == p
  {
    if q > p {
      MulStep(q, p, n);
    } else if q < p {
      MulStep(p, q, n);
    }
  }

  lemma {:induction false} MulStep(q: nat, p: nat, n: nat)
    requires q > p
    ensures q * n >= p * n + n
    decreases q
  {
    if q > p + 1 {
      MulStep(q - 1, p, n);
    }
  }

  lemma DivStep(a: nat, n: nat)
    requires 0 < n <= a
    ensures a / n == (a - n) / n + 1 && a % n == (a - n) % n
  {
    var q, r := (a - n) / n, (a - n) % n;
    assert a - n == q * n + r;
    assert a == (q + 1) * n + r;
    DivUnique(a, n, q + 1, r);
  }

  lemma PartRound(fills: seq<seq<int>>, n: nat, p: int)
    requires 0 < |fills| < n && Shuffles(fills, n) && 0 <= p < n
    requires forall k :: 0 <= k < |fills| ==> |fills[k]| > 0
    ensures 0 <= multiset(Visits([], fills))[p] <= 1
  {
    FirstCall(fills, n);
    var s := fills[0];
    assert Shuffle(s, n);
    VisitsDrainList(s, fills);
    assert multiset(s)[p] == 1;
  }

  // ---------------------------------------------------------------- the sweep in place

  class Revolution {
    const planetlist: array<int>
    var count: nat

    constructor (n: nat)
      requires n > 0
      ensures planetlist.Length == n && fresh(planetlist) && count == 0
    {
      planetlist := new int[n];
      count := 0;
    }

    ghost predicate Valid(n: nat)
      reads this, planetlist
    {
      0 < n <= planetlist.Length && count <= planetlist.Length
      && forall k :: 0 <= k < count ==> 0 <= planetlist[k] < n
    }

    ghost function Left(): Sweep
      requires count <= planetlist.Length
      reads this, planetlist
    {
      planetlist[..count]
    }

    /** Chooses the next planet to check; a new list is made when the old one is used up. */
    method Next(owners: seq<int>, draws: int -> nat) returns (idx: nat, ghost fill: seq<int>)
      requires Valid(|owners|)
      modifies this, planetlist
      ensures Valid(|owners|)
      ensures idx < |owners|
      ensures Shuffle(fill, |owners|) && |fill| > 0
      ensures (Left(), idx as int) == Call(old(Left()), fill)
    {
      if count < 1 {
        Refill(owners, draws);
        fill := planetlist[..count];
      } else {
        fill := AnyShuffle(|owners|);
      }
      ghost var list := planetlist[..count];
      assert planetlist[..count - 1] == list[..|list| - 1];
      count := count - 1;
      idx := planetlist[count];
    }

    method Refill(owners: seq<int>, draws: int -> nat)
      requires Valid(|owners|)
      modifies this, planetlist
      ensures Valid(|owners|) && Shuffle(planetlist[..count], |owners|) && count > 0
    {
      count := FillPlanets(planetlist, owners, NOMATCH, draws);
      ghost var n := |owners|;
      MatchingAll(owners, n);
      ShuffledPermutes(Matching(owners, NOMATCH, n), draws, n);
      FilledIsShuffle(owners, planetlist[..count]);
      forall k | 0 <= k < count ensures 0 <= planetlist[k] < n {
        assert planetlist[..count][k] in multiset(planetlist[..count]);
      }
    }
  }

  lemma AnyShuffle(n: nat) returns (s: seq<int>)
    requires n > 0
    ensures Shuffle(s, n) && |s| > 0
  {
    var owners := seq(n, _ => 0);
    s := Matching(owners, NOMATCH, n);
    FilledIsShuffle(owners, s);
  }
}
