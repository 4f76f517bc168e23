/** The docking protocol on values.  A ship and the base it is docked to point at each other through
    two overloaded fields: for a base, `docked` counts its guests and `port` holds who is where; for
    any other ship, `docked` names its base and `port[0]` its port there. */
module DockSpec {

  const VACANT := -1
  const PDAMAGE := -2
  const MAXPORTS := 6
  const DOCKDAMAGE := 10

  datatype Status = PFree | POutfit | PAlive | PExplode | PDead | PTQueue | PObserve

  /** The fields of a player slot that the docking protocol reads or writes. */
  datatype Ship = Ship(
    status: Status,
    dock: bool, orbit: bool, dockOk: bool,
    team: bv8, hostile: bv8, swar: bv8,
    speed: int,
    numports: nat, undockable: bool, jumpship: bool,
    docked: int, port: seq<int>,
    jsdock: int, lastjs: int,
    damage: int)
  {
    predicate Base() {
      numports > 0
    }

    predicate CanDock() {
      numports == 0 && !undockable
    }

    predicate Present() {
      status.PAlive? || status.PExplode?
    }
  }

  type Fleet = seq<Ship>

  function Occupied(port: seq<int>, n: nat): (c: nat)
    requires n <= |port|
    ensures c <= n
  {
    if n == 0 then 0 else Occupied(port, n - 1) + if port[n - 1] >= 0 then 1 else 0
  }

  ghost predicate Sane(w: Fleet) {
    forall i :: 0 <= i < |w| ==> |w[i].port| == MAXPORTS && w[i].numports <= MAXPORTS
  }

  /** Ship p says it is docked, and its base agrees. */
  ghost predicate Moored(w: Fleet, p: nat)
    requires Sane(w) && p < |w|
  {
    && !w[p].Base() && !w[p].orbit
    && 0 <= w[p].docked < |w|
    && 0 <= w[p].port[0] < w[w[p].docked].numports
    && w[w[p].docked].port[w[p].port[0]] == p
  }

  /** Base b says port k is taken, and the ship it names agrees. */
  ghost predicate Hosts(w: Fleet, b: nat, k: nat)
    requires Sane(w) && b < |w| && k < MAXPORTS
  {
    var p := w[b].port[k];
    0 <= p < |w| && w[p].dock && w[p].docked == b && w[p].port[0] == k
  }

  /** The docking invariant: a ship is docked to base b at port k if and only if b's port k holds that
      ship, docked ships are neither bases nor in orbit, and each base counts its guests right. */
  ghost predicate Mutual(w: Fleet) {
    && Sane(w)
    && (forall p {:trigger w[p].dock} :: 0 <= p < |w| && w[p].dock ==> Moored(w, p))
    && (forall b, k {:trigger Hosts(w, b, k)} {:trigger w[b].port[k]} ::
          0 <= b < |w| && 0 <= k < w[b].numports && w[b].port[k] >= 0 ==> Hosts(w, b, k))
    && (forall b {:trigger w[b].Base()} :: 0 <= b < |w| && w[b].Base() ==>
          w[b].docked == Occupied(w[b].port, w[b].numports))
  }

  /** Both parties of every mooring are in space (alive, or still blowing up). */
  ghost predicate InSpace(w: Fleet) {
    forall p {:trigger w[p].dock} :: 0 <= p < |w| && w[p].dock && 0 <= w[p].docked < |w| ==>
      w[p].Present() && w[w[p].docked].Present()
  }

  /** i is docked, or something is docked at i. */
  predicate Involved(w: Fleet, i: nat)
    requires i < |w|
  {
    w[i].dock || (w[i].Base() && w[i].docked != 0)
  }

  // ---------------------------------------------------------------- the primitives

  /** The pointers of a docked ship can be followed. */
  ghost predicate Tied(w: Fleet, p: nat) {
    Sane(w) && p < |w| &&
    (w[p].dock ==> 0 <= w[p].docked < |w| && 0 <= w[p].port[0] < MAXPORTS)
  }

  function LeaveBase(s: Ship, creditJumpship: bool): Ship
    requires |s.port| == MAXPORTS
  {
    s.(dock := false, docked := -1, port := s.port[0 := VACANT],
       jsdock := if creditJumpship then 1 else s.jsdock,
       lastjs := if creditJumpship then s.docked else s.lastjs)
  }

  function FreePort(s: Ship, k: nat): Ship
    requires |s.port| == MAXPORTS && k < MAXPORTS
  {
    s.(docked := s.docked - 1, port := s.port[k := VACANT])
  }

  function UndockPlayer(w: Fleet, p: nat): (r: Fleet)
    requires Tied(w, p)
    ensures |r| == |w|
  {
    if !w[p].dock then
      w
    else
      var b := w[p].docked;
      var w1 := w[b := FreePort(w[b], w[p].port[0])];
      w1[p := LeaveBase(w1[p], w1[b].jumpship)]
  }

  function BaseUndock(w: Fleet, b: nat, k: nat): (r: Fleet)
    requires Sane(w) && b < |w| && k < MAXPORTS && w[b].port[k] < |w|
    ensures |r| == |w|
  {
    if w[b].port[k] < 0 then
      w
    else
      var p := w[b].port[k];
      var w1 := w[b := FreePort(w[b], k)];
      w1[p := LeaveBase(w1[p], false)]
  }

  /** Ties an undocked ship p to port k of base b, both ways; docking stops the ship. */
  function Tie(w: Fleet, p: nat, b: nat, k: nat): (r: Fleet)
    requires Sane(w) && p < |w| && b < |w| && k < MAXPORTS
    ensures |r| == |w|
  {
    var w1 := w[b := w[b].(docked := w[b].docked + 1, port := w[b].port[k := p])];
    w1[p := w1[p].(dock := true, docked := b, port := w1[p].port[0 := k], speed := 0)]
  }

  function DockTo(w: Fleet, p: nat, b: nat, k: nat): (r: Fleet)
    requires Tied(w, p) && b < |w| && k < MAXPORTS
    ensures |r| == |w|
  {
    Tie(UndockPlayer(w, p), p, b, k)
  }

  // ---------------------------------------------------------------- what keeps the invariant

  lemma {:induction false} OccupiedSet(port: seq<int>, n: nat, k: nat, x: int)
    requires n <= |port| && k < |port|
    ensures Occupied(port[k := x], n) ==
            Occupied(port, n) + if k < n then (if x >= 0 then 1 else 0) - (if port[k] >= 0 then 1 else 0) else 0
  {
    if n > 0 {
      OccupiedSet(port, n - 1, k, x);
    }
  }

  /** Two fleets that agree on everything the invariant looks at. */
  ghost predicate SameMoorings(w: Fleet, w': Fleet) {
    |w'| == |w| &&
    forall i {:trigger w'[i]} :: 0 <= i < |w| ==>
      && w'[i].dock == w[i].dock && w'[i].docked == w[i].docked && w'[i].port == w[i].port
      && w'[i].numports == w[i].numports && (w'[i].orbit ==> w[i].orbit || !w[i].dock)
  }

  lemma {:induction false} OccupiedZero(port: seq<int>, n: nat)
    requires n <= |port|
    ensures Occupied(port, n) == 0 <==> forall k :: 0 <= k < n ==> port[k] < 0
  {
    if n > 0 {
      OccupiedZero(port, n - 1);
    }
  }

  lemma UntouchedStaysMutual(w: Fleet, w': Fleet)
    requires Mutual(w) && SameMoorings(w, w')
    ensures Mutual(w')
  {
    assert Sane(w') by {
      forall i | 0 <= i < |w'|
        ensures |w'[i].port| == MAXPORTS && w'[i].numports <= MAXPORTS
      {
        assert |w[i].port| == MAXPORTS;
      }
    }
    forall p | 0 <= p < |w'| && w'[p].dock
      ensures Moored(w', p)
    {
      assert w[p].dock && Moored(w, p);
      assert w'[w[p].docked].numports == w[w[p].docked].numports;
    }
    forall b, k | 0 <= b < |w'| && 0 <= k < w'[b].numports && w'[b].port[k] >= 0
      ensures Hosts(w', b, k)
    {
      assert Hosts(w, b, k);
    }
    forall b | 0 <= b < |w'| && w'[b].Base()
      ensures w'[b].docked == Occupied(w'[b].port, w'[b].numports)
    {
      assert w[b].Base();
    }
  }

  /** Breaking one mooring, from whichever side, keeps the invariant and frees that ship. */
  lemma SeveredStaysMutual(w: Fleet, p: nat, credit: bool)
    requires Mutual(w) && p < |w| && w[p].dock
    requires 0 <= w[p].docked < |w| && 0 <= w[p].port[0] < MAXPORTS
    ensures var b := w[p].docked;
            var w1 := w[b := FreePort(w[b], w[p].port[0])];
            Mutual(w1[p := LeaveBase(w1[p], credit)])
  {
    var b, k := w[p].docked, w[p].port[0];
    var w1 := w[b := FreePort(w[b], k)];
    var w' := w1[p := LeaveBase(w1[p], credit)];
    assert Moored(w, p);
    assert b != p && w[b].port[k] == p;
    assert Sane(w');
    forall q | 0 <= q < |w'| && w'[q].dock
      ensures Moored(w', q)
    {
      assert w[q].dock && Moored(w, q);
    }
    forall c, j | 0 <= c < |w'| && 0 <= j < w'[c].numports && w'[c].port[j] >= 0
      ensures Hosts(w', c, j)
    {
      assert w[c].port[j] == w'[c].port[j];
      assert Hosts(w, c, j);
    }
    forall c | 0 <= c < |w'| && w'[c].Base()
      ensures w'[c].docked == Occupied(w'[c].port, w'[c].numports)
    {
      assert w[c].Base();
      OccupiedSet(w[b].port, w[b].numports, k, VACANT);
    }
  }

  lemma UndockPlayerMutual(w: Fleet, p: nat)
    requires Mutual(w) && p < |w|
    ensures Tied(w, p) && Mutual(UndockPlayer(w, p)) && !UndockPlayer(w, p)[p].dock
  {
    if w[p].dock {
      assert Moored(w, p);
      var b := w[p].docked;
      SeveredStaysMutual(w, p, w[b].jumpship);
    }
  }

  lemma BaseUndockMutual(w: Fleet, b: nat, k: nat)
    requires Mutual(w) && b < |w| && k < w[b].numports
    ensures w[b].port[k] < |w| && Mutual(BaseUndock(w, b, k)) && BaseUndock(w, b, k)[b].port[k] < 0
  {
    if w[b].port[k] >= 0 {
      assert Hosts(w, b, k);
      var p := w[b].port[k];
      assert w[p].dock && Moored(w, p);
      SeveredStaysMutual(w, p, false);
    }
  }

  lemma TieMutual(w: Fleet, p: nat, b: nat, k: nat)
    requires Mutual(w) && p < |w| && b < |w| && k < w[b].numports
    requires p != b && !w[p].dock && !w[p].Base() && !w[p].orbit
    requires w[b].port[k] == VACANT
    ensures Mutual(Tie(w, p, b, k))
  {
    var r := Tie(w, p, b, k);
    assert Sane(r);
    forall q | 0 <= q < |r| && r[q].dock
      ensures Moored(r, q)
    {
      if q != p {
        assert w[q].dock && Moored(w, q);
      }
    }
    forall c, j | 0 <= c < |r| && 0 <= j < r[c].numports && r[c].port[j] >= 0
      ensures Hosts(r, c, j)
    {
      if c != b || j != k {
        assert w[c].port[j] == r[c].port[j];
        assert Hosts(w, c, j);
      }
    }
    forall c | 0 <= c < |r| && r[c].Base()
      ensures r[c].docked == Occupied(r[c].port, r[c].numports)
    {
      assert w[c].Base();
      OccupiedSet(w[b].port, w[b].numports, k, p);
    }
  }

  /** Docking at a vacant port of a base in space keeps the invariant. */
  lemma DockToMutual(w: Fleet, p: nat, b: nat, k: nat)
    requires Mutual(w) && p < |w| && b < |w| && k < w[b].numports
    requires p != b && !w[p].Base() && !w[p].orbit
    requires w[b].port[k] == VACANT
    ensures Tied(w, p) && Mutual(DockTo(w, p, b, k))
    ensures var r := DockTo(w, p, b, k); r[p].dock && r[p].docked == b && r[b].port[k] == p
  {
    UndockPlayerMutual(w, p);
    TieMutual(UndockPlayer(w, p), p, b, k);
  }

  // ---------------------------------------------------------------- staying in space

  /** r has no mooring that w does not have, and the same ships in space. */
  ghost predicate Fewer(w: Fleet, r: Fleet) {
    |r| == |w| &&
    forall i {:trigger r[i]} :: 0 <= i < |w| ==>
      r[i].status == w[i].status && (r[i].dock ==> w[i].dock && r[i].docked == w[i].docked)
  }

  lemma FewerInSpace(w: Fleet, r: Fleet)
    requires InSpace(w) && Fewer(w, r)
    ensures InSpace(r)
  {
    forall p | 0 <= p < |r| && r[p].dock && 0 <= r[p].docked < |r|
      ensures r[p].Present() && r[r[p].docked].Present()
    {
      assert w[p].dock;
      assert r[w[p].docked].status == w[w[p].docked].status;
    }
  }

  lemma TieInSpace(w: Fleet, p: nat, b: nat, k: nat)
    requires InSpace(w) && Sane(w) && p < |w| && b < |w| && k < MAXPORTS && p != b
    requires w[p].Present() && w[b].Present() && !w[b].dock
    ensures InSpace(Tie(w, p, b, k))
  {
    var r := Tie(w, p, b, k);
    forall q | 0 <= q < |r| && r[q].dock && 0 <= r[q].docked < |r|
      ensures r[q].Present() && r[r[q].docked].Present()
    {
      assert q != p ==> w[q].dock;
    }
  }

  /** Nobody is tied to p any more, so p's status is its own business. */
  lemma StatusFree(w: Fleet, p: nat, s: Ship)
    requires Mutual(w) && InSpace(w) && p < |w| && !Involved(w, p) && !s.dock
    ensures InSpace(w[p := s])
  {
    forall q | 0 <= q < |w| && w[q].dock
      ensures w[q].docked != p
    {
      assert Moored(w, q);
      OccupiedZero(w[p].port, w[p].numports);
      assert w[p].Base() ==> w[p].docked == Occupied(w[p].port, w[p].numports);
    }
    var r := w[p := s];
    forall q | 0 <= q < |r| && r[q].dock && 0 <= r[q].docked < |r|
      ensures r[q].Present() && r[r[q].docked].Present()
    {
      assert w[q].dock;
    }
  }

  // ---------------------------------------------------------------- clearing a whole base

  /** Guests chosen by `who` leave, port by port from k on. */
  function KickFrom(w: Fleet, b: nat, who: Ship -> bool, k: nat): (r: Fleet)
    requires Mutual(w) && b < |w| && k <= w[b].numports
    ensures Mutual(r) && |r| == |w|
    decreases w[b].numports - k
  {
    if k == w[b].numports then
      w
    else
      BaseUndockMutual(w, b, k);
      KickFrom(KickOne(w, b, who, k), b, who, k + 1)
  }

  function KickOne(w: Fleet, b: nat, who: Ship -> bool, k: nat): (r: Fleet)
    requires Mutual(w) && b < |w| && k < w[b].numports
    ensures Mutual(r) && |r| == |w| && r[b].numports == w[b].numports
  {
    BaseUndockMutual(w, b, k);
    if w[b].port[k] >= 0 && who(w[w[b].port[k]]) then BaseUndock(w, b, k) else w
  }

  /** What sending guests of b off may change: they are cut loose, nobody else is touched. */
  ghost predicate OnlyGuestsLeft(w: Fleet, r: Fleet, b: nat)
    requires Sane(w) && b < |w|
  {
    && |r| == |w|
    && (forall i {:trigger r[i]} :: 0 <= i < |w| && i != b ==>
          r[i] == w[i] || (w[i].dock && w[i].docked == b && r[i] == LeaveBase(w[i], false)))
    && r[b] == w[b].(docked := r[b].docked, port := r[b].port)
  }

  lemma KickOneEffect(w: Fleet, b: nat, who: Ship -> bool, k: nat)
    requires Mutual(w) && b < |w| && k < w[b].numports && w[b].port[k] < |w|
    ensures var r, q := KickOne(w, b, who, k), w[b].port[k];
            && OnlyGuestsLeft(w, r, b)
            && r[b].port == (if q >= 0 && who(w[q]) then w[b].port[k := VACANT] else w[b].port)
            && (q >= 0 ==> !who(w[q]) || !r[q].dock)
  {
    if w[b].port[k] >= 0 {
      assert Hosts(w, b, k);
      assert Moored(w, w[b].port[k]);
    }
  }

  lemma GuestsLeftTwice(w: Fleet, w1: Fleet, r: Fleet, b: nat)
    requires Sane(w) && Sane(w1) && b < |w| && OnlyGuestsLeft(w, w1, b) && OnlyGuestsLeft(w1, r, b)
    ensures OnlyGuestsLeft(w, r, b)
  {
    forall i | 0 <= i < |w| && i != b
      ensures r[i] == w[i] || (w[i].dock && w[i].docked == b && r[i] == LeaveBase(w[i], false))
    {
      assert w1[i] == w[i] || !w1[i].dock;
    }
  }

  lemma {:induction false} KickFromGuests(w: Fleet, b: nat, who: Ship -> bool, k: nat)
    requires Mutual(w) && b < |w| && k <= w[b].numports
    ensures OnlyGuestsLeft(w, KickFrom(w, b, who, k), b)
    decreases w[b].numports - k
  {
    if k < w[b].numports {
      BaseUndockMutual(w, b, k);
      KickOneEffect(w, b, who, k);
      var w1 := KickOne(w, b, who, k);
      KickFromGuests(w1, b, who, k + 1);
      GuestsLeftTwice(w, w1, KickFrom(w1, b, who, k + 1), b);
    }
  }

  lemma KickOneGuest(w: Fleet, b: nat, who: Ship -> bool, k: nat, q: nat)
    requires Mutual(w) && b < |w| && k < w[b].numports
    requires q < |w| && w[q].dock && w[q].docked == b && who(w[q])
    ensures 0 <= w[q].port[0] < w[b].numports
    ensures if w[q].port[0] == k then !KickOne(w, b, who, k)[q].dock else KickOne(w, b, who, k)[q] == w[q]
  {
    assert Moored(w, q);
    if w[b].port[k] >= 0 {
      assert Hosts(w, b, k);
    }
  }

  lemma UndockedStaysSo(w: Fleet, b: nat, who: Ship -> bool, k: nat, q: nat)
    requires Mutual(w) && b < |w| && k <= w[b].numports && q < |w| && !w[q].dock
    ensures !KickFrom(w, b, who, k)[q].dock
  {
    KickFromGuests(w, b, who, k);
    assert q == b || q != b;
  }

  /** A guest at a port still to come, if chosen, is gone at the end. */
  lemma {:induction false} KickFromChosen(w: Fleet, b: nat, who: Ship -> bool, k: nat, q: nat)
    requires Mutual(w) && b < |w| && k <= w[b].numports && q < |w|
    requires w[q].dock ==> w[q].docked == b && w[q].port[0] >= k && who(w[q])
    ensures !KickFrom(w, b, who, k)[q].dock
    decreases w[b].numports - k
  {
    if !w[q].dock {
      UndockedStaysSo(w, b, who, k, q);
    } else {
      assert Moored(w, q);
      KickOneGuest(w, b, who, k, q);
      KickFromChosen(KickOne(w, b, who, k), b, who, k + 1, q);
    }
  }

  /** Sending off one port does not touch a ship that is no guest or not chosen. */
  lemma KickOneSpares(w: Fleet, b: nat, who: Ship -> bool, k: nat, q: nat)
    requires Mutual(w) && b < |w| && k < w[b].numports && q < |w| && q != b
    requires w[q].dock && w[q].docked == b ==> !who(w[q])
    ensures KickOne(w, b, who, k)[q] == w[q]
  {
    if w[b].port[k] >= 0 {
      assert Hosts(w, b, k);
    }
  }

  lemma {:induction false} KickFromSpares(w: Fleet, b: nat, who: Ship -> bool, k: nat, q: nat)
    requires Mutual(w) && b < |w| && k <= w[b].numports && q < |w| && q != b
    requires w[q].dock && w[q].docked == b ==> !who(w[q])
    ensures KickFrom(w, b, who, k)[q] == w[q]
    decreases w[b].numports - k
  {
    if k < w[b].numports {
      KickOneSpares(w, b, who, k, q);
      KickFromSpares(KickOne(w, b, who, k), b, who, k + 1, q);
    }
  }

  /** Exactly the chosen guests of b are sent off; every other ship is left as it was. */
  lemma KickSendsOffChosen(w: Fleet, b: nat, who: Ship -> bool, q: nat)
    requires Mutual(w) && b < |w| && q < |w| && q != b
    ensures var r := KickFrom(w, b, who, 0);
      if w[q].dock && w[q].docked == b && who(w[q]) then !r[q].dock else r[q] == w[q]
  {
    if w[q].dock && w[q].docked == b && who(w[q]) {
      assert Moored(w, q);
      KickFromChosen(w, b, who, 0, q);
    } else {
      KickFromSpares(w, b, who, 0, q);
    }
  }

  lemma HostedBy(w: Fleet, b: nat, j: nat)
    requires Mutual(w) && b < |w| && j < w[b].numports && w[b].port[j] >= 0
    ensures var q := w[b].port[j]; q < |w| && w[q].dock && w[q].docked == b
  {
    assert Hosts(w, b, j);
  }

  /** After everybody is sent off nobody is docked at b and it counts no guests; so setting the count
      to zero, as the code does again, changes nothing. */
  lemma KickAllClears(w: Fleet, b: nat, everybody: Ship -> bool)
    requires Mutual(w) && b < |w| && forall s :: everybody(s)
    ensures var r := KickFrom(w, b, everybody, 0);
            && (w[b].Base() ==> r[b].docked == 0)
            && forall i :: 0 <= i < |r| && r[i].dock ==> r[i].docked != b
  {
    var r := KickFrom(w, b, everybody, 0);
    KickFromGuests(w, b, everybody, 0);
    forall i | 0 <= i < |r| && r[i].dock
      ensures r[i].docked != b
    {
      assert Moored(r, i);
      if w[i].dock && w[i].docked == b {
        assert Moored(w, i);
        KickFromChosen(w, b, everybody, 0, i);
      }
    }
    if w[b].Base() {
      assert r[b].Base();
      forall j | 0 <= j < r[b].numports
        ensures r[b].port[j] < 0
      {
        if r[b].port[j] >= 0 {
          HostedBy(r, b, j);
        }
      }
      OccupiedZero(r[b].port, r[b].numports);
    }
  }
}
