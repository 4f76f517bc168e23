/** What the fat-UDP retransmission queues mean, on plain sequences.

    Five "fat" lists hold semi-critical packets that may be sent again; list 0 has the highest
    priority.  Five temporary lists collect what was touched since the last merge.  A list is
    written head first: element 0 is the head, the next packet to be tried. */
module FatSpec {

  const MAX_FAT_LIST := 5
  const MAX_FAT_DATA := 100
  const MAX_NONFAT := 10

  datatype Queues<T> = Queues(fat: seq<seq<T>>, tmp: seq<seq<T>>)
  {
    ghost predicate Shaped() {
      |fat| == MAX_FAT_LIST && |tmp| == MAX_FAT_LIST
    }
  }

  /** The outcome of trying one list (or several, one after the other). */
  datatype Pass<T> = Pass(kept: seq<T>, sent: seq<T>, left: int, stop: bool)

  /** First fit over one list: a packet smaller than the room left is sent, a larger one is skipped,
      and the search stops once fewer than MAX_NONFAT bytes are left. */
  function Walk<T>(s: seq<T>, size: T -> nat, left: int): Pass<T> {
    if s == [] then
      Pass([], [], left, false)
    else if size(s[0]) < left then
      var left' := left - size(s[0]);
      if left' < MAX_NONFAT then
        Pass(s[1..], [s[0]], left', true)
      else
        var r := Walk(s[1..], size, left');
        r.(sent := [s[0]] + r.sent)
    else
      var r := Walk(s[1..], size, left);
      r.(kept := [s[0]] + r.kept)
  }

  /** The pass over every list in turn; once one pass has stopped, later lists are not looked at. */
  function Passes<T>(fat: seq<seq<T>>, size: T -> nat, left: int, stop: bool): (ps: seq<Pass<T>>)
    ensures |ps| == |fat|
  {
    if fat == [] then
      []
    else
      var p := if stop then Pass(fat[0], [], left, true) else Walk(fat[0], size, left);
      [p] + Passes(fat[1..], size, p.left, p.stop)
  }

  function Concat<T>(ss: seq<seq<T>>): seq<T> {
    if ss == [] then [] else ss[0] + Concat(ss[1..])
  }

  function Kept<T>(ps: seq<Pass<T>>): (r: seq<seq<T>>)
    ensures |r| == |ps| && forall i :: 0 <= i < |ps| ==> r[i] == ps[i].kept
  {
    seq(|ps|, i requires 0 <= i < |ps| => ps[i].kept)
  }

  function SentOf<T>(ps: seq<Pass<T>>): (r: seq<seq<T>>)
    ensures |r| == |ps| && forall i :: 0 <= i < |ps| ==> r[i] == ps[i].sent
  {
    seq(|ps|, i requires 0 <= i < |ps| => ps[i].sent)
  }

  /** What is sent from list i waits on temporary list i + 1; what is sent from the last list is
      dropped. */
  function Demoted<T>(tmp: seq<seq<T>>, ps: seq<Pass<T>>): (r: seq<seq<T>>)
    requires |tmp| == |ps|
    ensures |r| == |tmp|
    ensures forall i :: 0 <= i < |tmp| ==> r[i] == if i == 0 then tmp[0] else tmp[i] + ps[i - 1].sent
  {
    seq(|tmp|, i requires 0 <= i < |tmp| => if i == 0 then tmp[0] else tmp[i] + ps[i - 1].sent)
  }

  function FattenPasses<T>(q: Queues<T>, size: T -> nat): (ps: seq<Pass<T>>)
    ensures |ps| == |q.fat|
  {
    Passes(q.fat, size, MAX_FAT_DATA, false)
  }

  function Fattened<T>(q: Queues<T>, size: T -> nat): (r: Queues<T>)
    requires q.Shaped()
    ensures r.Shaped()
  {
    var ps := FattenPasses(q, size);
    Queues(Kept(ps), Demoted(q.tmp, ps))
  }

  /** The packets one call of `fatten` sends, in transmission order. */
  function Sent<T>(q: Queues<T>, size: T -> nat): seq<T> {
    Concat(SentOf(FattenPasses(q, size)))
  }

  function Merged<T>(q: Queues<T>): (r: Queues<T>)
    requires q.Shaped()
    ensures r.Shaped()
  {
    Queues(seq(MAX_FAT_LIST, i requires 0 <= i < MAX_FAT_LIST => q.fat[i] + q.tmp[i]),
           seq(MAX_FAT_LIST, _ => []))
  }

  function Without<T(==)>(s: seq<T>, x: T): (r: seq<T>)
    ensures x !in s ==> r == s
  {
    if s == [] then [] else if s[0] == x then s[1..] else [s[0]] + Without(s[1..], x)
  }

  function AllWithout<T(==)>(ss: seq<seq<T>>, x: T): (r: seq<seq<T>>)
    ensures |r| == |ss| && forall i :: 0 <= i < |ss| ==> r[i] == Without(ss[i], x)
  {
    seq(|ss|, i requires 0 <= i < |ss| => Without(ss[i], x))
  }

  /** A fresh packet leaves whatever list it was on and joins the tail of temporary list 0. */
  function Updated<T(==)>(q: Queues<T>, x: T): (r: Queues<T>)
    requires q.Shaped()
    ensures r.Shaped()
  {
    var tmp := AllWithout(q.tmp, x);
    Queues(AllWithout(q.fat, x), tmp[0 := tmp[0] + [x]])
  }

  // ---------------------------------------------------------------- one call of fatten

  function Bytes<T>(s: seq<T>, size: T -> nat): nat {
    if s == [] then 0 else size(s[0]) + Bytes(s[1..], size)
  }

  lemma {:induction false} BytesConcat<T>(a: seq<T>, b: seq<T>, size: T -> nat)
    ensures Bytes(a + b, size) == Bytes(a, size) + Bytes(b, size)
  {
    if a == [] {
      assert a + b == b;
    } else {
      assert (a + b)[1..] == a[1..] + b;
      BytesConcat(a[1..], b, size);
    }
  }

  /** A pass over a list spends exactly what it sends, never the whole room, and stops exactly when
      too little is left. */
  lemma {:induction false} WalkBudget<T>(s: seq<T>, size: T -> nat, left: int)
    requires left >= MAX_NONFAT
    ensures var r := Walk(s, size, left);
            r.left + Bytes(r.sent, size) == left && r.left > 0 && (r.stop <==> r.left < MAX_NONFAT)
  {
    if s == [] {
    } else if size(s[0]) < left {
      var left' := left - size(s[0]);
      if left' >= MAX_NONFAT {
        WalkBudget(s[1..], size, left');
        var r := Walk(s[1..], size, left');
        assert ([s[0]] + r.sent)[1..] == r.sent;
      } else {
        assert Bytes([s[0]], size) == size(s[0]) + Bytes([], size);
      }
    } else {
      WalkBudget(s[1..], size, left);
    }
  }

  /** Nothing that would still have fitted is skipped. */
  lemma {:induction false} WalkMaximal<T>(s: seq<T>, size: T -> nat, left: int)
    ensures var r := Walk(s, size, left);
            r.left <= left && (!r.stop ==> forall i :: 0 <= i < |r.kept| ==> size(r.kept[i]) >= r.left)
  {
    if s == [] {
    } else if size(s[0]) < left {
      if left - size(s[0]) >= MAX_NONFAT {
        WalkMaximal(s[1..], size, left - size(s[0]));
      }
    } else {
      WalkMaximal(s[1..], size, left);
    }
  }

  ghost predicate Splits<T>(k: seq<T>, t: seq<T>, s: seq<T>) {
    multiset(k) + multiset(t) == multiset(s)
  }

  lemma SplitsCons<T>(x: T, k: seq<T>, t: seq<T>, s: seq<T>)
    requires Splits(k, t, s)
    ensures Splits([x] + k, t, [x] + s) && Splits(k, [x] + t, [x] + s)
  {
  }

  /** Nothing is lost and nothing is sent twice. */
  lemma {:induction false} WalkSplits<T>(s: seq<T>, size: T -> nat, left: int)
    ensures Splits(Walk(s, size, left).kept, Walk(s, size, left).sent, s)
  {
    if s != [] {
      var x, t := s[0], s[1..];
      assert s == [x] + t;
      if size(x) >= left {
        var r := Walk(t, size, left);
        WalkSplits(t, size, left);
        SplitsCons(x, r.kept, r.sent, t);
      } else if left - size(x) >= MAX_NONFAT {
        var r := Walk(t, size, left - size(x));
        WalkSplits(t, size, left - size(x));
        SplitsCons(x, r.kept, r.sent, t);
      }
    }
  }

  /** The outcome p of some packets, carried on over b unless it has stopped. */
  function Onward<T>(p: Pass<T>, b: seq<T>, size: T -> nat): Pass<T> {
    var r := if p.stop then Pass(b, [], p.left, true) else Walk(b, size, p.left);
    Pass(p.kept + r.kept, p.sent + r.sent, r.left, r.stop)
  }

  lemma OnwardCons<T>(x: T, p: Pass<T>, b: seq<T>, size: T -> nat)
    ensures var r := Onward(p, b, size);
            && Onward(p.(sent := [x] + p.sent), b, size) == r.(sent := [x] + r.sent)
            && Onward(p.(kept := [x] + p.kept), b, size) == r.(kept := [x] + r.kept)
  {
    var q := if p.stop then Pass(b, [], p.left, true) else Walk(b, size, p.left);
    assert ([x] + p.sent) + q.sent == [x] + (p.sent + q.sent);
    assert ([x] + p.kept) + q.kept == [x] + (p.kept + q.kept);
  }

  /** Trying `a + b` is trying `a` and then, unless that stopped, `b` with the room left. */
  lemma {:induction false} WalkConcat<T>(a: seq<T>, b: seq<T>, size: T -> nat, left: int)
    ensures Walk(a + b, size, left) == Onward(Walk(a, size, left), b, size)
  {
    if a == [] {
      assert a + b == b;
    } else {
      var x, t := a[0], a[1..];
      assert (a + b)[1..] == t + b && (a + b)[0] == x;
      if size(x) >= left {
        WalkConcat(t, b, size, left);
        OnwardCons(x, Walk(t, size, left), b, size);
      } else if left - size(x) >= MAX_NONFAT {
        WalkConcat(t, b, size, left - size(x));
        OnwardCons(x, Walk(t, size, left - size(x)), b, size);
      }
    }
  }

  /** Going list by list is first fit over all the lists written one after the other. */
  lemma {:induction false} PassesAreOneWalk<T>(fat: seq<seq<T>>, size: T -> nat, left: int, stop: bool)
    ensures var ps := Passes(fat, size, left, stop);
            var w := if stop then Pass(Concat(fat), [], left, true) else Walk(Concat(fat), size, left);
            Concat(SentOf(ps)) == w.sent && Concat(Kept(ps)) == w.kept
  {
    if fat == [] {
    } else {
      var p := if stop then Pass(fat[0], [], left, true) else Walk(fat[0], size, left);
      var ps := Passes(fat, size, left, stop);
      PassesAreOneWalk(fat[1..], size, p.left, p.stop);
      WalkConcat(fat[0], Concat(fat[1..]), size, left);
      assert SentOf(ps)[1..] == SentOf(ps[1..]);
      assert Kept(ps)[1..] == Kept(ps[1..]);
    }
  }

  lemma {:induction false} PassesSplit<T>(fat: seq<seq<T>>, size: T -> nat, left: int, stop: bool, i: nat)
    requires i < |fat|
    ensures var p := Passes(fat, size, left, stop)[i];
            Splits(p.kept, p.sent, fat[i])
  {
    var p := if stop then Pass(fat[0], [], left, true) else Walk(fat[0], size, left);
    if i == 0 {
      WalkSplits(fat[0], size, left);
    } else {
      PassesSplit(fat[1..], size, p.left, p.stop, i - 1);
    }
  }

  lemma {:induction false} InConcat<T>(ss: seq<seq<T>>, i: nat, k: nat)
    requires i < |ss| && k < |ss[i]|
    ensures ss[i][k] in Concat(ss)
  {
    if i > 0 {
      InConcat(ss[1..], i - 1, k);
    }
  }

  /** One call of `fatten` is first fit in (list, position) order: it sends each queued packet at most
      once, it stays strictly under the byte budget, and when it ends either too little room is left or
      no packet left on a fat list fits. */
  lemma FattenFirstFit<T>(q: Queues<T>, size: T -> nat)
    requires q.Shaped()
    ensures Sent(q, size) == Walk(Concat(q.fat), size, MAX_FAT_DATA).sent
    ensures multiset(Sent(q, size)) <= multiset(Concat(q.fat))
    ensures Bytes(Sent(q, size), size) < MAX_FAT_DATA
    ensures var left := MAX_FAT_DATA - Bytes(Sent(q, size), size);
            var r := Fattened(q, size);
            left < MAX_NONFAT ||
            forall i, k :: 0 <= i < MAX_FAT_LIST && 0 <= k < |r.fat[i]| ==> size(r.fat[i][k]) >= left
  {
    PassesAreOneWalk(q.fat, size, MAX_FAT_DATA, false);
    WalkBudget(Concat(q.fat), size, MAX_FAT_DATA);
    WalkMaximal(Concat(q.fat), size, MAX_FAT_DATA);
    WalkSplits(Concat(q.fat), size, MAX_FAT_DATA);
    var w := Walk(Concat(q.fat), size, MAX_FAT_DATA);
    var r := Fattened(q, size);
    if w.left >= MAX_NONFAT {
      forall i, k | 0 <= i < MAX_FAT_LIST && 0 <= k < |r.fat[i]|
        ensures size(r.fat[i][k]) >= w.left
      {
        InConcat(r.fat, i, k);
        assert r.fat[i][k] in w.kept;
      }
    }
  }

  /** Part-way through a list: kept and sent so far, rest still to try, and w the final outcome. */
  ghost predicate Ahead<T>(w: Pass<T>, kept: seq<T>, sent: seq<T>, rest: seq<T>, size: T -> nat,
                           left: int, stop: bool)
  {
    var r := if stop then Pass(rest, [], left, true) else Walk(rest, size, left);
    w == Pass(kept + r.kept, sent + r.sent, r.left, r.stop)
  }

  lemma AheadStep<T>(w: Pass<T>, kept: seq<T>, sent: seq<T>, rest: seq<T>, size: T -> nat, left: int)
    requires rest != [] && Ahead(w, kept, sent, rest, size, left, false)
    ensures size(rest[0]) < left ==>
              var left' := left - size(rest[0]);
              Ahead(w, kept, sent + [rest[0]], rest[1..], size, left', left' < MAX_NONFAT)
    ensures size(rest[0]) >= left ==> Ahead(w, kept + [rest[0]], sent, rest[1..], size, left, false)
  {
  }

  lemma AheadDone<T>(w: Pass<T>, kept: seq<T>, sent: seq<T>, rest: seq<T>, size: T -> nat, left: int, stop: bool)
    requires Ahead(w, kept, sent, rest, size, left, stop) && (stop || rest == [])
    ensures w == Pass(kept + rest, sent, left, stop)
  {
  }

  lemma {:induction false} ConcatSnoc<T>(ss: seq<seq<T>>, s: seq<T>)
    ensures Concat(ss + [s]) == Concat(ss) + s
  {
    if ss == [] {
      assert ss + [s] == [s];
    } else {
      assert (ss + [s])[1..] == ss[1..] + [s];
      ConcatSnoc(ss[1..], s);
    }
  }

  /** Passes over the lists left once i passes are done. */
  lemma PassesTail<T>(fat: seq<seq<T>>, size: T -> nat, left: int, stop: bool)
    requires fat != []
    ensures var p := if stop then Pass(fat[0], [], left, true) else Walk(fat[0], size, left);
            var ps := Passes(fat, size, left, stop);
            ps[0] == p && ps[1..] == Passes(fat[1..], size, p.left, p.stop)
  {
  }

  lemma {:induction false} StoppedPasses<T>(fat: seq<seq<T>>, size: T -> nat, left: int, i: nat)
    requires i < |fat|
    ensures Passes(fat, size, left, true)[i] == Pass(fat[i], [], left, true)
  {
    if i > 0 {
      StoppedPasses(fat[1..], size, left, i - 1);
    }
  }

  // ---------------------------------------------------------------- whole runs

  function Count<T(==)>(s: seq<T>, x: T): nat {
    multiset(s)[x]
  }

  /** How often x occurs over all ten lists. */
  function Copies<T(==)>(q: Queues<T>, x: T): nat
    requires q.Shaped()
  {
    Count(q.fat[0], x) + Count(q.fat[1], x) + Count(q.fat[2], x) + Count(q.fat[3], x) + Count(q.fat[4], x) +
    Count(q.tmp[0], x) + Count(q.tmp[1], x) + Count(q.tmp[2], x) + Count(q.tmp[3], x) + Count(q.tmp[4], x)
  }

  /** How many more times x can be sent: five times from list 0, once from list 4. */
  function Resends<T(==)>(q: Queues<T>, x: T): nat
    requires q.Shaped()
  {
    5 * (Count(q.fat[0], x) + Count(q.tmp[0], x)) + 4 * (Count(q.fat[1], x) + Count(q.tmp[1], x)) +
    3 * (Count(q.fat[2], x) + Count(q.tmp[2], x)) + 2 * (Count(q.fat[3], x) + Count(q.tmp[3], x)) +
    (Count(q.fat[4], x) + Count(q.tmp[4], x))
  }

  lemma FiveParts<T>(ss: seq<seq<T>>)
    requires |ss| == MAX_FAT_LIST
    ensures Concat(ss) == ss[0] + (ss[1] + (ss[2] + (ss[3] + ss[4])))
  {
    assert ss[1..][1..] == ss[2..] && ss[2..][1..] == ss[3..] && ss[3..][1..] == ss[4..] && ss[4..][1..] == [];
    assert Concat(ss[4..]) == ss[4] + Concat<T>([]) == ss[4];
    assert Concat(ss[3..]) == ss[3] + ss[4];
    assert Concat(ss[2..]) == ss[2] + (ss[3] + ss[4]);
    assert Concat(ss[1..]) == ss[1] + (ss[2] + (ss[3] + ss[4]));
  }

  lemma CountSent<T>(ps: seq<Pass<T>>, x: T)
    requires |ps| == MAX_FAT_LIST
    ensures Count(Concat(SentOf(ps)), x) ==
            Count(ps[0].sent, x) + Count(ps[1].sent, x) + Count(ps[2].sent, x) + Count(ps[3].sent, x) +
            Count(ps[4].sent, x)
  {
    var ss := SentOf(ps);
    FiveParts(ss);
  }

  /** Each send of x uses up exactly one of its remaining resends, and none is lost otherwise. */
  lemma FattenConserves<T>(q: Queues<T>, size: T -> nat, x: T)
    requires q.Shaped()
    ensures Resends(Fattened(q, size), x) + Count(Sent(q, size), x) == Resends(q, x)
    ensures Copies(Fattened(q, size), x) <= Copies(q, x)
    ensures Count(Sent(q, size), x) <= Copies(q, x)
  {
    var ps := FattenPasses(q, size);
    var r := Fattened(q, size);
    CountSent(ps, x);
    forall i | 0 <= i < MAX_FAT_LIST
      ensures Count(q.fat[i], x) == Count(r.fat[i], x) + Count(ps[i].sent, x)
    {
      PassesSplit(q.fat, size, MAX_FAT_DATA, false, i);
      assert multiset(q.fat[i])[x] == multiset(ps[i].kept)[x] + multiset(ps[i].sent)[x];
    }
    forall i | 1 <= i < MAX_FAT_LIST
      ensures Count(r.tmp[i], x) == Count(q.tmp[i], x) + Count(ps[i - 1].sent, x)
    {
    }
  }

  lemma MergeConserves<T>(q: Queues<T>, x: T)
    requires q.Shaped()
    ensures Resends(Merged(q), x) == Resends(q, x)
    ensures Copies(Merged(q), x) == Copies(q, x)
  {
    var r := Merged(q);
    forall i | 0 <= i < MAX_FAT_LIST
      ensures Count(r.fat[i], x) == Count(q.fat[i], x) + Count(q.tmp[i], x) && Count(r.tmp[i], x) == 0
    {
    }
  }

  lemma {:induction false} CountWithout<T>(s: seq<T>, x: T, y: T)
    ensures Count(Without(s, x), y) == if y == x && x in s then Count(s, y) - 1 else Count(s, y)
  {
    if s == [] {
    } else {
      assert s == [s[0]] + s[1..];
      if s[0] != x {
        CountWithout(s[1..], x, y);
      }
    }
  }

  lemma UpdateLeavesOthers<T>(q: Queues<T>, x: T, y: T)
    requires q.Shaped() && x != y
    ensures Resends(Updated(q, x), y) == Resends(q, y)
    ensures Copies(Updated(q, x), y) == Copies(q, y)
  {
    var r := Updated(q, x);
    forall i | 0 <= i < MAX_FAT_LIST
      ensures Count(r.fat[i], y) == Count(q.fat[i], y)
    {
      CountWithout(q.fat[i], x, y);
    }
    forall i | 0 <= i < MAX_FAT_LIST
      ensures Count(r.tmp[i], y) == Count(q.tmp[i], y)
    {
      CountWithout(q.tmp[i], x, y);
    }
  }

  lemma WithoutLast<T>(s: seq<T>, x: T)
    requires Count(s, x) <= 1
    ensures Count(Without(s, x), x) == 0
  {
    CountWithout(s, x, x);
    assert x in s <==> Count(s, x) > 0;
  }

  lemma CopiesBound<T>(q: Queues<T>, x: T, i: nat)
    requires q.Shaped() && i < MAX_FAT_LIST
    ensures Count(q.fat[i], x) <= Copies(q, x) && Count(q.tmp[i], x) <= Copies(q, x)
  {
  }

  lemma UpdatedCounts<T>(q: Queues<T>, x: T, i: nat)
    requires q.Shaped() && i < MAX_FAT_LIST && Copies(q, x) <= 1
    ensures Count(Updated(q, x).fat[i], x) == 0
    ensures Count(Updated(q, x).tmp[i], x) == if i == 0 then 1 else 0
  {
    CopiesBound(q, x, i);
    WithoutLast(q.fat[i], x);
    WithoutLast(q.tmp[i], x);
  }

  lemma FreshTotals<T>(r: Queues<T>, x: T)
    requires r.Shaped()
    requires forall i :: 0 <= i < MAX_FAT_LIST ==> Count(r.fat[i], x) == 0
    requires forall i :: 0 <= i < MAX_FAT_LIST ==> Count(r.tmp[i], x) == if i == 0 then 1 else 0
    ensures Resends(r, x) == MAX_FAT_LIST && Copies(r, x) == 1
  {
  }

  /** A fresh packet gets its full five resends back, whichever list it was on. */
  lemma UpdateRefills<T>(q: Queues<T>, x: T)
    requires q.Shaped() && Copies(q, x) <= 1
    ensures Resends(Updated(q, x), x) == MAX_FAT_LIST
    ensures Copies(Updated(q, x), x) == 1
  {
    forall i | 0 <= i < MAX_FAT_LIST
      ensures Count(Updated(q, x).fat[i], x) == 0
      ensures Count(Updated(q, x).tmp[i], x) == if i == 0 then 1 else 0
    {
      UpdatedCounts(q, x, i);
    }
    FreshTotals(Updated(q, x), x);
  }

  datatype Op<T> = Update(node: T) | Fatten | Merge

  function Apply<T(==)>(q: Queues<T>, op: Op<T>, size: T -> nat): (r: Queues<T>)
    requires q.Shaped()
    ensures r.Shaped()
  {
    match op
    case Update(x) => Updated(q, x)
    case Fatten => Fattened(q, size)
    case Merge => Merged(q)
  }

  function Run<T(==)>(q: Queues<T>, ops: seq<Op<T>>, size: T -> nat): (r: Queues<T>)
    requires q.Shaped()
    ensures r.Shaped()
    decreases |ops|
  {
    if ops == [] then q else Run(Apply(q, ops[0], size), ops[1..], size)
  }

  /** x is the first or the last of some temporary list. */
  predicate AtTempEnd<T(==)>(q: Queues<T>, x: T)
    requires q.Shaped()
  {
    exists j :: 0 <= j < MAX_FAT_LIST && q.tmp[j] != [] && (q.tmp[j][0] == x || q.tmp[j][|q.tmp[j]| - 1] == x)
  }

  /** No update of the run meets a packet that is first or last of a temporary list at that time. */
  predicate Clean<T(==)>(q: Queues<T>, ops: seq<Op<T>>, size: T -> nat)
    requires q.Shaped()
    decreases |ops|
  {
    ops == [] ||
    ((ops[0].Update? ==> !AtTempEnd(q, ops[0].node)) && Clean(Apply(q, ops[0], size), ops[1..], size))
  }

  /** Everything a run sends, in order. */
  function RunSent<T(==)>(q: Queues<T>, ops: seq<Op<T>>, size: T -> nat): seq<T>
    requires q.Shaped()
    decreases |ops|
  {
    if ops == [] then
      []
    else
      StepSent(q, ops[0], size) + RunSent(Apply(q, ops[0], size), ops[1..], size)
  }

  /** What one operation sends. */
  function StepSent<T(==)>(q: Queues<T>, op: Op<T>, size: T -> nat): seq<T>
    requires q.Shaped()
  {
    if op.Fatten? then Sent(q, size) else []
  }

  lemma RunSentStep<T>(q: Queues<T>, ops: seq<Op<T>>, size: T -> nat, before: seq<T>)
    requires q.Shaped() && ops != []
    ensures before + RunSent(q, ops, size) ==
            (before + StepSent(q, ops[0], size)) + RunSent(Apply(q, ops[0], size), ops[1..], size)
  {
    Regroup(before, StepSent(q, ops[0], size), RunSent(Apply(q, ops[0], size), ops[1..], size));
  }

  lemma Regroup<T>(a: seq<T>, b: seq<T>, c: seq<T>)
    ensures a + (b + c) == (a + b) + c
  {
  }

  lemma ApplyKeepsSingle<T>(q: Queues<T>, op: Op<T>, size: T -> nat, x: T)
    requires q.Shaped() && Copies(q, x) <= 1
    ensures Copies(Apply(q, op, size), x) <= 1
  {
    match op
    case Update(y) => if y == x { UpdateRefills(q, x); } else { UpdateLeavesOthers(q, y, x); }
    case Fatten => FattenConserves(q, size, x);
    case Merge => MergeConserves(q, x);
  }

  /** Every run keeps x on at most one of the ten lists, at most once. */
  lemma {:induction false} RunKeepsSingle<T>(q: Queues<T>, ops: seq<Op<T>>, size: T -> nat, x: T)
    requires q.Shaped() && Copies(q, x) <= 1
    ensures Copies(Run(q, ops, size), x) <= 1
    decreases |ops|
  {
    if ops != [] {
      ApplyKeepsSingle(q, ops[0], size, x);
      RunKeepsSingle(Apply(q, ops[0], size), ops[1..], size, x);
    }
  }

  /** One step, other than an update of x, spends on x exactly what it sends of x. */
  lemma StepConserves<T>(q: Queues<T>, op: Op<T>, size: T -> nat, x: T)
    requires q.Shaped() && op != Update(x)
    ensures Count(StepSent(q, op, size), x) + Resends(Apply(q, op, size), x) == Resends(q, x)
  {
    match op
    case Update(y) => UpdateLeavesOthers(q, y, x);
    case Fatten => FattenConserves(q, size, x);
    case Merge => MergeConserves(q, x);
  }

  /** Between two updates of x, the resends of x that a run makes and those it leaves add up to the
      resends it began with. */
  lemma {:induction false} RunConserves<T>(q: Queues<T>, ops: seq<Op<T>>, size: T -> nat, x: T)
    requires q.Shaped() && Update(x) !in ops
    ensures Count(RunSent(q, ops, size), x) + Resends(Run(q, ops, size), x) == Resends(q, x)
    decreases |ops|
  {
    if ops != [] {
      StepConserves(q, ops[0], size, x);
      RunConserves(Apply(q, ops[0], size), ops[1..], size, x);
    }
  }

  /** A packet is sent again at most MAX_FAT_LIST times before its next update, and at most once in
      any one call of `fatten`. */
  lemma ResentAtMostFiveTimes<T>(q: Queues<T>, ops: seq<Op<T>>, size: T -> nat, x: T)
    requires q.Shaped() && Copies(q, x) <= 1
    requires Update(x) !in ops
    ensures Count(RunSent(Updated(q, x), ops, size), x) <= MAX_FAT_LIST
    ensures Count(Sent(Run(Updated(q, x), ops, size), size), x) <= 1
  {
    UpdateRefills(q, x);
    RunConserves(Updated(q, x), ops, size, x);
    RunKeepsSingle(Updated(q, x), ops, size, x);
    FattenConserves(Run(Updated(q, x), ops, size), size, x);
  }
}
