/** What becomes of the queues when nothing is updated any more: every packet small enough is sent as
    often as it still may be, and a packet too large is never sent. */
module FatDrain {
  import opened FatSpec

  predicate Small<T>(x: T, size: T -> nat) {
    size(x) < MAX_FAT_DATA
  }

  // ---------------------------------------------------------------- one transmission sends something

  lemma {:induction false} WalkSends<T>(s: seq<T>, size: T -> nat, left: int)
    ensures Walk(s, size, left).sent == [] <==> forall k :: 0 <= k < |s| ==> size(s[k]) >= left
  {
    if s != [] && size(s[0]) >= left {
      WalkSends(s[1..], size, left);
      assert forall k :: 1 <= k < |s| ==> s[k] == s[1..][k - 1];
    }
  }

  lemma {:induction false} FromConcat<T>(ss: seq<seq<T>>, x: T) returns (i: nat, k: nat)
    requires x in Concat(ss)
    ensures i < |ss| && k < |ss[i]| && ss[i][k] == x
  {
    if x in ss[0] {
      i := 0;
      k :| 0 <= k < |ss[0]| && ss[0][k] == x;
    } else {
      i, k := FromConcat(ss[1..], x);
      i := i + 1;
    }
  }

  /** A transmission sends something if and only if some fat list holds a packet that is small enough. */
  lemma FattenSendsIff<T>(q: Queues<T>, size: T -> nat)
    requires q.Shaped()
    ensures Sent(q, size) != [] <==>
            exists i, k :: 0 <= i < MAX_FAT_LIST && 0 <= k < |q.fat[i]| && Small(q.fat[i][k], size)
  {
    var all := Concat(q.fat);
    FattenFirstFit(q, size);
    WalkSends(all, size, MAX_FAT_DATA);
    if j :| 0 <= j < |all| && Small(all[j], size) {
      var i, k := FromConcat(q.fat, all[j]);
      assert Small(q.fat[i][k], size);
    }
    if i, k :| 0 <= i < MAX_FAT_LIST && 0 <= k < |q.fat[i]| && Small(q.fat[i][k], size) {
      InConcat(q.fat, i, k);
    }
  }

  // ---------------------------------------------------------------- the work left

  /** The packets of a list that can be sent. */
  function Smalls<T>(s: seq<T>, size: T -> nat): (n: nat)
    ensures n <= |s|
  {
    if s == [] then 0 else (if Small(s[0], size) then 1 else 0) + Smalls(s[1..], size)
  }

  lemma {:induction false} SmallsConcat<T>(a: seq<T>, b: seq<T>, size: T -> nat)
    ensures Smalls(a + b, size) == Smalls(a, size) + Smalls(b, size)
  {
    if a == [] {
      assert a + b == b;
    } else {
      assert (a + b)[1..] == a[1..] + b;
      SmallsConcat(a[1..], b, size);
    }
  }

  /** Some packet of the list can be sent. */
  ghost predicate HoldsSmall<T>(s: seq<T>, size: T -> nat) {
    exists k :: 0 <= k < |s| && Small(s[k], size)
  }

  lemma {:induction false} SmallsIff<T>(s: seq<T>, size: T -> nat)
    ensures Smalls(s, size) > 0 <==> HoldsSmall(s, size)
  {
    if s != [] {
      SmallsIff(s[1..], size);
      if k :| 0 <= k < |s| && Small(s[k], size) {
        assert k > 0 ==> s[k] == s[1..][k - 1];
      }
      if k :| 0 <= k < |s| - 1 && Small(s[1..][k], size) {
        assert Small(s[k + 1], size);
      }
    }
  }

  lemma {:induction false} CountSmalls<T>(s: seq<T>, size: T -> nat, x: T)
    requires Small(x, size)
    ensures Count(s, x) <= Smalls(s, size)
  {
    if s != [] {
      assert s == [s[0]] + s[1..];
      CountSmalls(s[1..], size, x);
    }
  }

  /** A pass sends small packets only, so the small ones of a list are those kept and all those sent. */
  lemma {:induction false} WalkSmalls<T>(s: seq<T>, size: T -> nat, left: int)
    requires left <= MAX_FAT_DATA
    ensures var r := Walk(s, size, left);
      r.left <= left && Smalls(s, size) == Smalls(r.kept, size) + |r.sent|
    ensures forall x {:trigger x in Walk(s, size, left).sent} :: x in Walk(s, size, left).sent ==> Small(x, size)
  {
    if s == [] {
    } else if size(s[0]) < left {
      var left' := left - size(s[0]);
      if left' >= MAX_NONFAT {
        WalkSmalls(s[1..], size, left');
      }
    } else {
      WalkSmalls(s[1..], size, left);
      var r := Walk(s[1..], size, left);
      assert ([s[0]] + r.kept)[1..] == r.kept;
    }
  }

  lemma {:induction false} PassSmalls<T>(fat: seq<seq<T>>, size: T -> nat, left: int, stop: bool, i: nat)
    requires i < |fat| && left <= MAX_FAT_DATA
    ensures var p := Passes(fat, size, left, stop)[i];
      Smalls(fat[i], size) == Smalls(p.kept, size) + |p.sent| && forall x :: x in p.sent ==> Small(x, size)
  {
    var p := if stop then Pass(fat[0], [], left, true) else Walk(fat[0], size, left);
    WalkSmalls(fat[0], size, left);
    if i > 0 {
      PassSmalls(fat[1..], size, p.left, p.stop, i - 1);
    }
  }

  /** How many more packets can be sent in all. */
  function Work<T>(q: Queues<T>, size: T -> nat): nat
    requires q.Shaped()
  {
    5 * (Smalls(q.fat[0], size) + Smalls(q.tmp[0], size)) + 4 * (Smalls(q.fat[1], size) + Smalls(q.tmp[1], size)) +
    3 * (Smalls(q.fat[2], size) + Smalls(q.tmp[2], size)) + 2 * (Smalls(q.fat[3], size) + Smalls(q.tmp[3], size)) +
    (Smalls(q.fat[4], size) + Smalls(q.tmp[4], size))
  }

  /** Each packet sent uses up one unit of work. */
  lemma FattenWorks<T>(q: Queues<T>, size: T -> nat)
    requires q.Shaped()
    ensures Work(Fattened(q, size), size) + |Sent(q, size)| == Work(q, size)
  {
    var ps, r := FattenPasses(q, size), Fattened(q, size);
    FiveParts(SentOf(ps));
    forall i | 0 <= i < MAX_FAT_LIST
      ensures Smalls(q.fat[i], size) == Smalls(r.fat[i], size) + |ps[i].sent|
    {
      PassSmalls(q.fat, size, MAX_FAT_DATA, false, i);
    }
    forall i | 1 <= i < MAX_FAT_LIST
      ensures Smalls(r.tmp[i], size) == Smalls(q.tmp[i], size) + |ps[i - 1].sent|
    {
      PassSmalls(q.fat, size, MAX_FAT_DATA, false, i - 1);
      SmallsConcat(q.tmp[i], ps[i - 1].sent, size);
      AllSmall(ps[i - 1].sent, size);
    }
  }

  lemma {:induction false} AllSmall<T>(s: seq<T>, size: T -> nat)
    requires forall x :: x in s ==> Small(x, size)
    ensures Smalls(s, size) == |s|
  {
    if s != [] {
      AllSmall(s[1..], size);
    }
  }

  lemma MergeWorks<T>(q: Queues<T>, size: T -> nat)
    requires q.Shaped()
    ensures Work(Merged(q), size) == Work(q, size)
  {
    forall i | 0 <= i < MAX_FAT_LIST
      ensures Smalls(Merged(q).fat[i], size) == Smalls(q.fat[i], size) + Smalls(q.tmp[i], size)
    {
      SmallsConcat(q.fat[i], q.tmp[i], size);
    }
  }

  // ---------------------------------------------------------------- rounds

  /** A merge and a transmission, n times. */
  function Rounds<T>(n: nat): seq<Op<T>> {
    if n == 0 then [] else [Merge, Fatten] + Rounds(n - 1)
  }

  function Round<T>(q: Queues<T>, size: T -> nat): (r: Queues<T>)
    requires q.Shaped()
    ensures r.Shaped()
  {
    Fattened(Merged(q), size)
  }

  /** As long as any work is left, a round does some. */
  lemma RoundWorks<T>(q: Queues<T>, size: T -> nat)
    requires q.Shaped()
    ensures Work(q, size) > 0 ==> Work(Round(q, size), size) < Work(q, size)
    ensures Work(Round(q, size), size) <= Work(q, size)
  {
    var m := Merged(q);
    MergeWorks(q, size);
    FattenWorks(m, size);
    if Work(m, size) > 0 {
      var i := SomeWork(m, size);
      SmallsIff(m.fat[i], size);
      var k :| 0 <= k < |m.fat[i]| && Small(m.fat[i][k], size);
      FattenSendsIff(m, size);
    }
  }

  lemma SomeWork<T>(q: Queues<T>, size: T -> nat) returns (i: nat)
    requires q.Shaped() && Work(q, size) > 0 && forall j :: 0 <= j < MAX_FAT_LIST ==> q.tmp[j] == []
    ensures i < MAX_FAT_LIST && Smalls(q.fat[i], size) > 0
  {
    i := if Smalls(q.fat[0], size) > 0 then 0
         else if Smalls(q.fat[1], size) > 0 then 1
         else if Smalls(q.fat[2], size) > 0 then 2
         else if Smalls(q.fat[3], size) > 0 then 3
         else 4;
  }

  lemma RunRound<T>(q: Queues<T>, size: T -> nat, n: nat)
    requires q.Shaped() && n > 0
    ensures Run(q, Rounds(n), size) == Run(Round(q, size), Rounds(n - 1), size)
  {
    var ops: seq<Op<T>>, rest: seq<Op<T>> := Rounds(n), Rounds(n - 1);
    assert ops[0] == Merge && ops[1..][0] == Fatten && ops[1..][1..] == rest;
    assert Run(q, ops, size) == Run(Merged(q), ops[1..], size);
  }

  /** After as many rounds as there is work, none is left. */
  lemma {:induction false} RoundsDrain<T>(q: Queues<T>, size: T -> nat, n: nat)
    requires q.Shaped() && n >= Work(q, size)
    ensures Work(Run(q, Rounds(n), size), size) == 0
    decreases n
  {
    if n > 0 {
      RunRound(q, size, n);
      RoundWorks(q, size);
      RoundsDrain(Round(q, size), size, n - 1);
    }
  }

  lemma NoWorkNoResends<T>(q: Queues<T>, size: T -> nat, x: T)
    requires q.Shaped() && Work(q, size) == 0 && Small(x, size)
    ensures Resends(q, x) == 0
  {
    forall i | 0 <= i < MAX_FAT_LIST
      ensures Count(q.fat[i], x) <= Smalls(q.fat[i], size) && Count(q.tmp[i], x) <= Smalls(q.tmp[i], size)
    {
      CountSmalls(q.fat[i], size, x);
      CountSmalls(q.tmp[i], size, x);
    }
  }

  lemma SentAreSmall<T>(q: Queues<T>, size: T -> nat, x: T)
    requires q.Shaped() && !Small(x, size)
    ensures Count(Sent(q, size), x) == 0
  {
    FattenFirstFit(q, size);
    WalkSmalls(Concat(q.fat), size, MAX_FAT_DATA);
    assert x !in Sent(q, size);
  }

  lemma StepSendsSmall<T>(q: Queues<T>, op: Op<T>, size: T -> nat, x: T)
    requires q.Shaped() && !Small(x, size)
    ensures Count(StepSent(q, op, size), x) == 0
  {
    SentAreSmall(q, size, x);
  }

  /** In no run at all is a packet sent that is too large for a transmission. */
  lemma {:induction false} LargeNeverSent<T>(q: Queues<T>, ops: seq<Op<T>>, size: T -> nat, x: T)
    requires q.Shaped() && !Small(x, size)
    ensures Count(RunSent(q, ops, size), x) == 0
    decreases |ops|
  {
    if ops != [] {
      StepSendsSmall(q, ops[0], size, x);
      LargeNeverSent(Apply(q, ops[0], size), ops[1..], size, x);
    }
  }

  lemma {:induction false} NoUpdates<T>(n: nat, x: T)
    ensures Update(x) !in Rounds(n)
  {
    if n > 0 {
      NoUpdates(n - 1, x);
    }
  }

  /** Left alone, the server sends every small packet exactly as often as it still may be, within as many
      merges and transmissions as it may send packets in all, and a packet too large for one never. */
  lemma EverySmallPacketIsResent<T>(q: Queues<T>, size: T -> nat, n: nat, x: T)
    requires q.Shaped() && n >= Work(q, size)
    ensures Count(RunSent(q, Rounds(n), size), x) == if Small(x, size) then Resends(q, x) else 0
  {
    if Small(x, size) {
      NoUpdates(n, x);
      RunConserves(q, Rounds(n), size, x);
      RoundsDrain(q, size, n);
      NoWorkNoResends(Run(q, Rounds(n), size), size, x);
    } else {
      LargeNeverSent(q, Rounds(n), size, x);
    }
  }
}
