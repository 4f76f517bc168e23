/** The life of a torpedo on values.  Every player owns a band of eight torpedo records and a count of
    torpedoes in flight; firing, detonating and the daemon's ticks move records through their states. */
module TorpSpec {
  import opened Arith

  const MAXTORP := 8
  const EXPLOSION := 10

  datatype Status = TFree | TMove | TExplode | TDet | TOff | TStraight

  datatype Torp = Torp(status: Status, fuse: int, owner: int, whodet: int)
  {
    predicate Moving() {
      status == TMove || status == TStraight
    }
  }

  /** What firing and detonating read or write of a player. */
  datatype Gunner = Gunner(ntorp: int, fuel: int, cost: nat, detCost: nat)

  datatype Bay = Bay(torps: seq<Torp>, gunners: seq<Gunner>)

  // ---------------------------------------------------------------- the invariant

  ghost predicate Shaped(b: Bay) {
    |b.torps| == MAXTORP * |b.gunners|
  }

  /** Torpedoes of ts[lo..hi] that are not free. */
  function Busy(ts: seq<Torp>, lo: nat, hi: nat): (n: nat)
    requires lo <= hi <= |ts|
    ensures n <= hi - lo
    decreases hi
  {
    if lo == hi then 0 else Busy(ts, lo, hi - 1) + if ts[hi - 1].status != TFree then 1 else 0
  }

  function Band(ts: seq<Torp>, p: nat): (n: nat)
    requires MAXTORP * p + MAXTORP <= |ts|
    ensures n <= MAXTORP
  {
    Busy(ts, MAXTORP * p, MAXTORP * p + MAXTORP)
  }

  /** Whoever is in flight lies in its owner's band. */
  ghost predicate Housed(b: Bay) {
    Shaped(b) &&
    forall i {:trigger b.torps[i]} :: 0 <= i < |b.torps| && b.torps[i].status != TFree ==>
      b.torps[i].owner == i / MAXTORP
  }

  /** Every count of torpedoes in flight is true. */
  ghost predicate Banded(b: Bay) {
    Housed(b) &&
    forall p {:trigger b.gunners[p]} :: 0 <= p < |b.gunners| ==> b.gunners[p].ntorp == Band(b.torps, p)
  }

  /** Every count is short by what is owed: the torpedoes of a player that its count has forgotten. */
  ghost predicate Owed(b: Bay, debt: seq<int>) {
    && Housed(b) && |debt| == |b.gunners|
    && forall p {:trigger b.gunners[p]} {:trigger debt[p]} :: 0 <= p < |b.gunners| ==>
         b.gunners[p].ntorp + debt[p] == Band(b.torps, p)
  }

  function NoDebt(n: nat): (d: seq<int>)
    ensures |d| == n && forall p :: 0 <= p < n ==> d[p] == 0
  {
    seq(n, _ => 0)
  }

  lemma BandedOwesNothing(b: Bay)
    ensures Banded(b) <==> Owed(b, NoDebt(|b.gunners|))
  {
    var d := NoDebt(|b.gunners|);
    if Owed(b, d) {
      forall p | 0 <= p < |b.gunners|
        ensures b.gunners[p].ntorp == Band(b.torps, p)
      {
        assert d[p] == 0;
      }
    }
  }

  // ---------------------------------------------------------------- the operations

  /** The first free record of ts[i..hi], or hi. */
  function Search(ts: seq<Torp>, i: nat, hi: nat): (k: nat)
    requires i <= hi <= |ts|
    ensures i <= k <= hi
    ensures k < hi ==> ts[k].status == TFree
    ensures forall j :: i <= j < k ==> ts[j].status != TFree
    decreases hi - i
  {
    if i == hi || ts[i].status == TFree then i else Search(ts, i + 1, hi)
  }

  /** The kinds of torpedo by number; what is out of range becomes an ordinary one. */
  function Kind(kind: int): Status {
    if kind == 0 then TFree
    else if kind == 2 then TExplode
    else if kind == 3 then TDet
    else if kind == 4 then TOff
    else if kind == 5 then TStraight
    else TMove
  }

  /** Whether player p's shot leaves the tube; cleared stands for the checks on heat, repair, fighters,
      cloak, warp and docking. */
  predicate Fires(b: Bay, p: nat, cleared: bool)
    requires p < |b.gunners|
  {
    cleared && b.gunners[p].ntorp != MAXTORP && b.gunners[p].fuel >= b.gunners[p].cost
  }

  /** Firing: the record taken is the one the search stops at, in the band or just behind it. */
  function Fire(b: Bay, p: nat, kind: int, fuse: int, cleared: bool): Bay
    requires p < |b.gunners| && Shaped(b)
  {
    if !Fires(b, p, cleared) then b
    else
      var g := b.gunners[p];
      var k := Search(b.torps, MAXTORP * p, MAXTORP * p + MAXTORP);
      Bay(if k < |b.torps| then b.torps[k := b.torps[k].(status := Kind(kind), fuse := fuse, owner := p)]
          else b.torps,
          b.gunners[p := g.(ntorp := g.ntorp + 1, fuel := g.fuel - g.cost)])
  }

  /** The records a detonation by player p turns: near says which are foreign, hostile and close. */
  function DetTorps(ts: seq<Torp>, p: nat, near: int -> bool): (r: seq<Torp>)
    ensures |r| == |ts|
    ensures forall i {:trigger r[i]} :: 0 <= i < |ts| ==>
      && r[i].owner == ts[i].owner && r[i].fuse == ts[i].fuse
      && (r[i].status == ts[i].status || (ts[i].Moving() && r[i].status == TDet))
  {
    seq(|ts|, i requires 0 <= i < |ts| =>
      if ts[i].Moving() && i / MAXTORP != p && near(i) then ts[i].(whodet := p, status := TDet) else ts[i])
  }

  function Det(b: Bay, p: nat, near: int -> bool, cleared: bool): Bay
    requires p < |b.gunners|
  {
    var g := b.gunners[p];
    if g.fuel < g.detCost || !cleared then b
    else Bay(DetTorps(b.torps, p, near), b.gunners[p := g.(fuel := g.fuel - g.detCost)])
  }

  /** Player p puts out its own torpedo i. */
  function Off(b: Bay, p: nat, i: nat): Bay
    requires i < |b.torps|
  {
    if b.torps[i].owner == p && b.torps[i].Moving()
    then b.(torps := b.torps[i := b.torps[i].(status := TOff)]) else b
  }

  /** One tick of one record; hits says it meets a ship, a star, a wormhole or an asteroid. */
  function TickTorp(t: Torp, hits: bool): Torp {
    match t.status
    case TFree => t
    case TMove => Flown(t, hits)
    case TStraight => Flown(t, hits)
    case TDet => Exploded(t)
    case TExplode => if t.fuse <= 0 then t.(status := TFree, fuse := t.fuse - 1) else t.(fuse := t.fuse - 1)
    case TOff => t.(status := TFree)
  }

  function Flown(t: Torp, hits: bool): Torp {
    if t.fuse <= 0 then t.(status := TFree, fuse := t.fuse - 1)
    else if hits then Exploded(t)
    else t.(fuse := t.fuse - 1)
  }

  function Exploded(t: Torp): Torp {
    t.(status := TExplode, fuse := EXPLOSION)
  }

  predicate Freed(t: Torp, hits: bool) {
    t.status != TFree && TickTorp(t, hits).status == TFree
  }

  function Release(gs: seq<Gunner>, o: int): (r: seq<Gunner>)
    ensures |r| == |gs|
  {
    if 0 <= o < |gs| then gs[o := gs[o].(ntorp := gs[o].ntorp - 1)] else gs
  }

  /** One tick of the records from i on. */
  function TickFrom(b: Bay, hits: int -> bool, i: nat): Bay
    requires i <= |b.torps|
    decreases |b.torps| - i
  {
    if i == |b.torps| then b
    else
      var t := b.torps[i];
      TickFrom(Bay(b.torps[i := TickTorp(t, hits(i))],
                   if Freed(t, hits(i)) then Release(b.gunners, t.owner) else b.gunners), hits, i + 1)
  }

  /** A player enters the game, or everybody is blown up at once: the count starts from nothing. */
  function Enter(b: Bay, p: nat): Bay
    requires p < |b.gunners|
  {
    b.(gunners := b.gunners[p := b.gunners[p].(ntorp := 0)])
  }

  /** A dead player comes back only once no torpedo of its own is counted in flight. */
  function Rebirth(b: Bay, p: nat): Bay
    requires p < |b.gunners|
  {
    if b.gunners[p].ntorp <= 0 then Enter(b, p) else b
  }

  // ---------------------------------------------------------------- counting

  lemma {:induction false} BusyPut(ts: seq<Torp>, lo: nat, hi: nat, i: nat, t: Torp)
    requires lo <= hi <= |ts| && i < |ts|
    ensures Busy(ts[i := t], lo, hi) ==
            if lo <= i < hi
            then Busy(ts, lo, hi) - (if ts[i].status != TFree then 1 else 0) + (if t.status != TFree then 1 else 0)
            else Busy(ts, lo, hi)
    decreases hi
  {
    if lo < hi {
      BusyPut(ts, lo, hi - 1, i, t);
    }
  }

  lemma {:induction false} BusySame(ts: seq<Torp>, us: seq<Torp>, lo: nat, hi: nat)
    requires lo <= hi <= |ts| && |ts| == |us|
    requires forall i :: lo <= i < hi ==> (ts[i].status == TFree <==> us[i].status == TFree)
    ensures Busy(ts, lo, hi) == Busy(us, lo, hi)
    decreases hi
  {
    if lo < hi {
      BusySame(ts, us, lo, hi - 1);
    }
  }

  /** A band that is not full has a free record, and the search finds the first. */
  lemma {:induction false} RoomInBand(ts: seq<Torp>, lo: nat, hi: nat)
    requires lo <= hi <= |ts|
    ensures Busy(ts, lo, hi) == hi - lo <==> forall i :: lo <= i < hi ==> ts[i].status != TFree
    decreases hi
  {
    if lo < hi {
      RoomInBand(ts, lo, hi - 1);
    }
  }

  /** The pigeonhole: with true counts, passing the guard on eight torpedoes means the search ends at a
      free record of the player's own band. */
  lemma ShotFindsRoom(b: Bay, p: nat, cleared: bool)
    requires Banded(b) && p < |b.gunners| && Fires(b, p, cleared)
    ensures var k := Search(b.torps, MAXTORP * p, MAXTORP * p + MAXTORP);
      MAXTORP * p <= k < MAXTORP * p + MAXTORP && b.torps[k].status == TFree
  {
    assert b.gunners[p].ntorp == Band(b.torps, p);
    RoomInBand(b.torps, MAXTORP * p, MAXTORP * p + MAXTORP);
  }

  /** Putting a record of player q's band changes that band's number and no other. */
  lemma BandPut(ts: seq<Torp>, p: nat, i: nat, t: Torp)
    requires MAXTORP * p + MAXTORP <= |ts| && i < |ts|
    ensures Band(ts[i := t], p) ==
            if i / MAXTORP == p
            then Band(ts, p) - (if ts[i].status != TFree then 1 else 0) + (if t.status != TFree then 1 else 0)
            else Band(ts, p)
  {
    BusyPut(ts, MAXTORP * p, MAXTORP * p + MAXTORP, i, t);
  }

  // ---------------------------------------------------------------- what keeps the counts true

  /** A band that is not full has a free record for the shot. */
  lemma RoomForShot(b: Bay, p: nat)
    requires Shaped(b) && p < |b.gunners| && Band(b.torps, p) < MAXTORP
    ensures var k := Search(b.torps, MAXTORP * p, MAXTORP * p + MAXTORP);
      MAXTORP * p <= k < MAXTORP * p + MAXTORP && b.torps[k].status == TFree
  {
    RoomInBand(b.torps, MAXTORP * p, MAXTORP * p + MAXTORP);
  }

  /** A shot into the player's own band counts itself, unless it is of the free kind. */
  lemma FireKeepsOwed(b: Bay, debt: seq<int>, p: nat, kind: int, fuse: int, cleared: bool)
    requires Owed(b, debt) && p < |b.gunners|
    requires Fires(b, p, cleared) ==> Band(b.torps, p) < MAXTORP
    ensures Housed(Fire(b, p, kind, fuse, cleared))
    ensures Owed(Fire(b, p, kind, fuse, cleared), debt) <==> kind != 0 || !Fires(b, p, cleared)
    ensures Fires(b, p, cleared) && kind != 0 ==>
              Band(Fire(b, p, kind, fuse, cleared).torps, p) == Band(b.torps, p) + 1
  {
    if Fires(b, p, cleared) {
      RoomForShot(b, p);
      var k := Search(b.torps, MAXTORP * p, MAXTORP * p + MAXTORP);
      var t := b.torps[k].(status := Kind(kind), fuse := fuse, owner := p);
      var c := Fire(b, p, kind, fuse, cleared);
      assert c.torps == b.torps[k := t];
      forall q | 0 <= q < |b.gunners|
        ensures Band(c.torps, q) == Band(b.torps, q) + if q == p && kind != 0 then 1 else 0
      {
        BandPut(b.torps, q, k, t);
      }
      assert c.gunners[p].ntorp == b.gunners[p].ntorp + 1;
    }
  }

  /** Firing keeps the counts true exactly when it does not fire a torpedo of the free kind, which the
      range check on the kind lets through. */
  lemma FireKeepsBandedIff(b: Bay, p: nat, kind: int, fuse: int, cleared: bool)
    requires Banded(b) && p < |b.gunners|
    ensures Banded(Fire(b, p, kind, fuse, cleared)) <==> kind != 0 || !Fires(b, p, cleared)
  {
    BandedOwesNothing(b);
    BandedOwesNothing(Fire(b, p, kind, fuse, cleared));
    assert b.gunners[p].ntorp == Band(b.torps, p);
    FireKeepsOwed(b, NoDebt(|b.gunners|), p, kind, fuse, cleared);
  }

  lemma DetKeepsOwed(b: Bay, debt: seq<int>, p: nat, near: int -> bool, cleared: bool)
    requires Owed(b, debt) && p < |b.gunners|
    ensures Owed(Det(b, p, near, cleared), debt)
  {
    var c := Det(b, p, near, cleared);
    forall i | 0 <= i < |c.torps| && c.torps[i].status != TFree
      ensures c.torps[i].owner == i / MAXTORP
    {
      assert b.torps[i].status != TFree;
    }
    forall q | 0 <= q < |b.gunners|
      ensures Band(c.torps, q) == Band(b.torps, q)
    {
      BusySame(b.torps, c.torps, MAXTORP * q, MAXTORP * q + MAXTORP);
    }
  }

  lemma DetKeepsBanded(b: Bay, p: nat, near: int -> bool, cleared: bool)
    requires Banded(b) && p < |b.gunners|
    ensures Banded(Det(b, p, near, cleared))
  {
    BandedOwesNothing(b);
    BandedOwesNothing(Det(b, p, near, cleared));
    DetKeepsOwed(b, NoDebt(|b.gunners|), p, near, cleared);
  }

  lemma OffKeepsOwed(b: Bay, debt: seq<int>, p: nat, i: nat)
    requires Owed(b, debt) && i < |b.torps|
    ensures Owed(Off(b, p, i), debt)
  {
    forall q | 0 <= q < |b.gunners|
      ensures Band(Off(b, p, i).torps, q) == Band(b.torps, q)
    {
      BandPut(b.torps, q, i, b.torps[i].(status := TOff));
    }
  }

  lemma TickOneKeepsOwed(b: Bay, debt: seq<int>, hits: bool, i: nat)
    requires Owed(b, debt) && i < |b.torps|
    ensures var t := b.torps[i];
      Owed(Bay(b.torps[i := TickTorp(t, hits)],
               if Freed(t, hits) then Release(b.gunners, t.owner) else b.gunners), debt)
  {
    var t := b.torps[i];
    var c := Bay(b.torps[i := TickTorp(t, hits)], if Freed(t, hits) then Release(b.gunners, t.owner) else b.gunners);
    assert t.status != TFree ==> t.owner == i / MAXTORP;
    forall q | 0 <= q < |b.gunners|
      ensures c.gunners[q].ntorp + debt[q] == Band(c.torps, q)
    {
      BandPut(b.torps, q, i, TickTorp(t, hits));
      assert b.gunners[q].ntorp + debt[q] == Band(b.torps, q);
    }
  }

  lemma {:induction false} TickKeepsOwed(b: Bay, debt: seq<int>, hits: int -> bool, i: nat)
    requires Owed(b, debt) && i <= |b.torps|
    ensures Owed(TickFrom(b, hits, i), debt)
    decreases |b.torps| - i
  {
    if i < |b.torps| {
      TickOneKeepsOwed(b, debt, hits(i), i);
      var t := b.torps[i];
      TickKeepsOwed(Bay(b.torps[i := TickTorp(t, hits(i))],
                        if Freed(t, hits(i)) then Release(b.gunners, t.owner) else b.gunners), debt, hits, i + 1);
    }
  }

  lemma TickKeepsBanded(b: Bay, hits: int -> bool, i: nat)
    requires Banded(b) && i <= |b.torps|
    ensures Banded(TickFrom(b, hits, i))
  {
    BandedOwesNothing(b);
    TickEach(b, hits, i);
    BandedOwesNothing(TickFrom(b, hits, i));
    TickKeepsOwed(b, NoDebt(|b.gunners|), hits, i);
  }

  /** A tick changes every record as if it were alone. */
  lemma {:induction false} TickEach(b: Bay, hits: int -> bool, i: nat)
    requires i <= |b.torps|
    ensures var c := TickFrom(b, hits, i);
      |c.torps| == |b.torps| && |c.gunners| == |b.gunners|
      && forall k :: 0 <= k < |b.torps| ==>
           c.torps[k] == if k < i then b.torps[k] else TickTorp(b.torps[k], hits(k))
    decreases |b.torps| - i
  {
    if i < |b.torps| {
      var t := b.torps[i];
      TickEach(Bay(b.torps[i := TickTorp(t, hits(i))],
                   if Freed(t, hits(i)) then Release(b.gunners, t.owner) else b.gunners), hits, i + 1);
    }
  }

  /** A count set to nothing forgets the player's torpedoes in flight. */
  lemma EnterOwes(b: Bay, debt: seq<int>, p: nat)
    requires Owed(b, debt) && p < |b.gunners|
    ensures Owed(Enter(b, p), debt[p := Band(b.torps, p)])
  {
  }

  /** Setting the count to nothing keeps the counts true if and only if none of the player's torpedoes is
      in flight, which is when its count is nothing already. */
  lemma EnterKeepsBandedIff(b: Bay, p: nat)
    requires Banded(b) && p < |b.gunners|
    ensures Banded(Enter(b, p)) <==> b.gunners[p].ntorp == 0
    ensures b.gunners[p].ntorp == Band(b.torps, p)
  {
    var c := Enter(b, p);
    assert b.gunners[p].ntorp == Band(b.torps, p);
    if Band(b.torps, p) == 0 {
      assert c.gunners == b.gunners;
    } else {
      assert c.gunners[p].ntorp != Band(c.torps, p);
    }
  }

  /** With true counts a player who has died comes back with true counts. */
  lemma RebirthKeepsBanded(b: Bay, p: nat)
    requires Banded(b) && p < |b.gunners|
    ensures Banded(Rebirth(b, p))
    ensures Rebirth(b, p) == b
  {
    EnterKeepsBandedIff(b, p);
    if b.gunners[p].ntorp <= 0 {
      assert b.gunners[p].ntorp == 0;
      assert Enter(b, p).gunners == b.gunners;
    }
  }

  /** A shot that passes its checks stays in the player's own band if and only if that band is not full;
      the checks see to it when nothing is owed. */
  lemma ShotStaysIff(b: Bay, debt: seq<int>, p: nat, cleared: bool)
    requires Owed(b, debt) && p < |b.gunners| && Fires(b, p, cleared)
    ensures Search(b.torps, MAXTORP * p, MAXTORP * p + MAXTORP) < MAXTORP * p + MAXTORP <==>
            Band(b.torps, p) < MAXTORP
    ensures debt[p] == 0 ==> Band(b.torps, p) < MAXTORP
  {
    RoomInBand(b.torps, MAXTORP * p, MAXTORP * p + MAXTORP);
    assert b.gunners[p].ntorp + debt[p] == Band(b.torps, p);
  }

  /** n shots in a row. */
  function Volley(b: Bay, p: nat, kind: int, fuse: int, n: nat): (c: Bay)
    requires p < |b.gunners| && Shaped(b)
    ensures Shaped(c) && |c.gunners| == |b.gunners|
    decreases n
  {
    if n == 0 then b else Volley(Fire(b, p, kind, fuse, true), p, kind, fuse, n - 1)
  }

  /** A volley with fuel for it, into a band with room for it. */
  lemma {:induction false} VolleyFills(b: Bay, debt: seq<int>, p: nat, kind: int, fuse: int, n: nat)
    requires Owed(b, debt) && p < |b.gunners| && kind != 0 && debt[p] >= 0
    requires Band(b.torps, p) + n <= MAXTORP && b.gunners[p].fuel >= Times(n, b.gunners[p].cost)
    ensures var c := Volley(b, p, kind, fuse, n);
      && Owed(c, debt) && Band(c.torps, p) == Band(b.torps, p) + n
      && c.gunners[p].cost == b.gunners[p].cost
      && c.gunners[p].fuel == b.gunners[p].fuel - Times(n, b.gunners[p].cost)
    decreases n
  {
    if n > 0 {
      assert b.gunners[p].ntorp + debt[p] == Band(b.torps, p);
      FireKeepsOwed(b, debt, p, kind, fuse, true);
      VolleyFills(Fire(b, p, kind, fuse, true), debt, p, kind, fuse, n - 1);
    }
  }

  /** A player with m > 0 torpedoes in flight whose count is set to nothing - it left and entered at once,
      or everybody was blown up and it came back - can fire until its band is full, and then once more:
      that torpedo goes into the record of the next player. */
  lemma ForgottenTorpsOverrun(b: Bay, p: nat, kind: int, fuse: int)
    requires Banded(b) && p + 1 < |b.gunners| && kind != 0 && Band(b.torps, p) > 0
    requires b.gunners[p].fuel >= Times(MAXTORP, b.gunners[p].cost)
    ensures Rebirth(Enter(b, p), p) == Enter(b, p)
    ensures var c := Volley(Enter(b, p), p, kind, fuse, MAXTORP - Band(b.torps, p));
      var k := MAXTORP * (p + 1);
      Fire(c, p, kind, fuse, true).torps == c.torps[k := c.torps[k].(status := Kind(kind), fuse := fuse, owner := p)]
  {
    var e, m := Enter(b, p), Band(b.torps, p);
    var debt := NoDebt(|b.gunners|)[p := m];
    var n := MAXTORP - m;
    var c := Volley(e, p, kind, fuse, n);
    BandedOwesNothing(b);
    EnterOwes(b, NoDebt(|b.gunners|), p);
    EnoughFuel(n, b.gunners[p].cost);
    VolleyFills(e, debt, p, kind, fuse, n);
    assert c.gunners[p].ntorp + debt[p] == MAXTORP;
    RoomInBand(c.torps, MAXTORP * p, MAXTORP * p + MAXTORP);
  }

  lemma EnoughFuel(n: nat, cost: nat)
    requires n < MAXTORP
    ensures Times(n, cost) + cost <= Times(MAXTORP, cost)
  {
    TimesIsProduct(n, cost);
    TimesIsProduct(MAXTORP, cost);
  }

  // ---------------------------------------------------------------- runs

  datatype Step =
    | Shot(p: nat, kind: int, fuse: int, cleared: bool)
    | Detonation(p: nat, near: int -> bool, cleared: bool)
    | PutOut(p: nat, i: nat)
    | Tick(hits: int -> bool)
    | Return(p: nat)
    | Arrival(p: nat)

  /** Ships fire no torpedo of the free kind; a player who did not die arrives with none in flight. */
  predicate Lawful(b: Bay, s: Step) {
    match s
    case Shot(p, kind, _, _) => p < |b.gunners| && kind != 0
    case Detonation(p, _, _) => p < |b.gunners|
    case PutOut(_, i) => i < |b.torps|
    case Tick(_) => true
    case Return(p) => p < |b.gunners|
    case Arrival(p) => p < |b.gunners| && b.gunners[p].ntorp == 0
  }

  function Do(b: Bay, s: Step): Bay
    requires Shaped(b) && Lawful(b, s)
  {
    match s
    case Shot(p, kind, fuse, cleared) => Fire(b, p, kind, fuse, cleared)
    case Detonation(p, near, cleared) => Det(b, p, near, cleared)
    case PutOut(p, i) => Off(b, p, i)
    case Tick(hits) => TickFrom(b, hits, 0)
    case Return(p) => Rebirth(b, p)
    case Arrival(p) => Enter(b, p)
  }

  lemma DoKeepsBanded(b: Bay, s: Step)
    requires Banded(b) && Lawful(b, s)
    ensures Banded(Do(b, s))
    ensures |Do(b, s).torps| == |b.torps| && |Do(b, s).gunners| == |b.gunners|
  {
    match s
    case Shot(p, kind, fuse, cleared) => FireKeepsBandedIff(b, p, kind, fuse, cleared);
    case Detonation(p, near, cleared) => DetKeepsBanded(b, p, near, cleared);
    case PutOut(p, i) =>
      BandedOwesNothing(b);
      BandedOwesNothing(Off(b, p, i));
      OffKeepsOwed(b, NoDebt(|b.gunners|), p, i);
    case Return(p) => RebirthKeepsBanded(b, p);
    case Arrival(p) => EnterKeepsBandedIff(b, p);
    case Tick(hits) =>
      TickKeepsBanded(b, hits, 0);
      TickEach(b, hits, 0);
  }

  ghost predicate LawfulRun(b: Bay, run: seq<Step>)
    requires Banded(b)
    decreases run
  {
    run == [] || (Lawful(b, run[0]) && (DoKeepsBanded(b, run[0]); LawfulRun(Do(b, run[0]), run[1..])))
  }

  function Run(b: Bay, run: seq<Step>): Bay
    requires Banded(b) && LawfulRun(b, run)
    decreases run
  {
    if run == [] then b else DoKeepsBanded(b, run[0]); Run(Do(b, run[0]), run[1..])
  }

  lemma {:induction false} RunsKeepBanded(b: Bay, run: seq<Step>)
    requires Banded(b) && LawfulRun(b, run)
    ensures Banded(Run(b, run))
    decreases run
  {
    if run != [] {
      DoKeepsBanded(b, run[0]);
      RunsKeepBanded(Do(b, run[0]), run[1..]);
    }
  }

  // ---------------------------------------------------------------- every torpedo comes to an end

  /** A bound on the ticks a record stays in use. */
  function Rank(t: Torp): (n: nat)
  {
    var left := if t.fuse < 0 then 0 else t.fuse;
    match t.status
    case TFree => 0
    case TMove => left + EXPLOSION + 2
    case TStraight => left + EXPLOSION + 2
    case TDet => EXPLOSION + 2
    case TExplode => left + 1
    case TOff => 1
  }

  /** A tick lowers the rank of every record in use; no other step raises that of one in use. */
  lemma RankFalls(b: Bay, s: Step, i: nat)
    requires Banded(b) && Lawful(b, s) && i < |b.torps| && b.torps[i].status != TFree
    ensures |Do(b, s).torps| == |b.torps|
    ensures Rank(Do(b, s).torps[i]) <= Rank(b.torps[i])
    ensures s.Tick? ==> Rank(Do(b, s).torps[i]) < Rank(b.torps[i])
  {
    DoKeepsBanded(b, s);
    match s
    case Shot(p, _, _, cleared) =>
      if Fires(b, p, cleared) {
        ShotFindsRoom(b, p, cleared);
      }
    case Tick(hits) => TickEach(b, hits, 0);
    case Detonation(p, near, cleared) => assert DetTorps(b.torps, p, near)[i].fuse == b.torps[i].fuse;
    case PutOut(_, _) =>
    case Return(_) =>
    case Arrival(_) =>
  }

  function Ticks(run: seq<Step>): nat {
    if run == [] then 0 else Ticks(run[1..]) + if run[0].Tick? then 1 else 0
  }

  /** Record i is free at some point of the run. */
  predicate ComesFree(b: Bay, run: seq<Step>, i: nat)
    requires Banded(b) && LawfulRun(b, run) && i < |b.torps|
    decreases run
  {
    b.torps[i].status == TFree ||
    (run != [] && (DoKeepsBanded(b, run[0]); ComesFree(Do(b, run[0]), run[1..], i)))
  }

  /** However it is shot at, detonated or put out, a torpedo is gone within as many ticks as its rank. */
  lemma {:induction false} EveryTorpedoEnds(b: Bay, run: seq<Step>, i: nat)
    requires Banded(b) && LawfulRun(b, run) && i < |b.torps|
    requires Ticks(run) >= Rank(b.torps[i])
    ensures ComesFree(b, run, i)
    decreases run
  {
    if b.torps[i].status != TFree {
      assert Rank(b.torps[i]) > 0;
      RankFalls(b, run[0], i);
      DoKeepsBanded(b, run[0]);
      EveryTorpedoEnds(Do(b, run[0]), run[1..], i);
    }
  }

  /** One in flight with fuse f is gone within f + 12 ticks. */
  lemma FlightEnds(b: Bay, run: seq<Step>, i: nat)
    requires Banded(b) && LawfulRun(b, run) && i < |b.torps|
    requires b.torps[i].Moving() && Ticks(run) >= b.torps[i].fuse + 12 >= 12
    ensures ComesFree(b, run, i)
  {
    EveryTorpedoEnds(b, run, i);
  }
}
