/** Whole runs of the docking protocol: what every step keeps, and exactly when a player's entry into
    the game does. */
module DockRuns {
  import opened DockSpec
  import opened DockSteps

  // ---------------------------------------------------------------- changes that are not moorings

  /** The ports of b are relabelled without any guest coming or going. */
  lemma RelabelMutual(w: Fleet, b: nat, s: Ship)
    requires Mutual(w) && b < |w|
    requires s.dock == w[b].dock && s.docked == w[b].docked && s.numports == w[b].numports && s.orbit == w[b].orbit
    requires |s.port| == MAXPORTS && w[b].Base()
    requires forall j :: 0 <= j < MAXPORTS ==> s.port[j] == w[b].port[j] || (s.port[j] < 0 && w[b].port[j] < 0)
    ensures Mutual(w[b := s])
  {
    var r := w[b := s];
    OccupiedSame(w[b].port, s.port, s.numports);
    assert w[b].Base();
    forall p | 0 <= p < |r| && r[p].dock
      ensures Moored(r, p)
    {
      assert w[p].dock && Moored(w, p);
    }
    forall c, j | 0 <= c < |r| && 0 <= j < r[c].numports && r[c].port[j] >= 0
      ensures Hosts(r, c, j)
    {
      assert w[c].port[j] == r[c].port[j];
      assert Hosts(w, c, j);
    }
    forall c | 0 <= c < |r| && r[c].Base()
      ensures r[c].docked == Occupied(r[c].port, r[c].numports)
    {
      assert w[c].Base();
    }
  }

  lemma {:induction false} OccupiedSame(port: seq<int>, port': seq<int>, n: nat)
    requires n <= |port| && |port'| == |port|
    requires forall j :: 0 <= j < n ==> (port[j] >= 0 <==> port'[j] >= 0)
    ensures Occupied(port, n) == Occupied(port', n)
  {
    if n > 0 {
      OccupiedSame(port, port', n - 1);
    }
  }

  /** A slot that is tied to nobody can be overwritten by any ship that is tied to nobody. */
  lemma ReplaceMutual(w: Fleet, p: nat, s: Ship)
    requires Mutual(w) && p < |w| && !Involved(w, p)
    requires |s.port| == MAXPORTS && s.numports <= MAXPORTS && !s.dock
    requires s.Base() ==> s.docked == 0 && forall j :: 0 <= j < s.numports ==> s.port[j] < 0
    ensures Mutual(w[p := s])
  {
    var r := w[p := s];
    NobodyAt(w, p);
    forall q | 0 <= q < |r| && r[q].dock
      ensures Moored(r, q)
    {
      assert w[q].dock && Moored(w, q);
    }
    forall c, j | 0 <= c < |r| && 0 <= j < r[c].numports && r[c].port[j] >= 0
      ensures Hosts(r, c, j)
    {
      assert c != p;
      assert w[c].port[j] == r[c].port[j];
      assert Hosts(w, c, j);
    }
    forall c | 0 <= c < |r| && r[c].Base()
      ensures r[c].docked == Occupied(r[c].port, r[c].numports)
    {
      if c == p {
        OccupiedZero(s.port, s.numports);
      } else {
        assert w[c].Base();
      }
    }
  }

  lemma NobodyAt(w: Fleet, p: nat)
    requires Mutual(w) && p < |w| && !Involved(w, p)
    ensures forall q :: 0 <= q < |w| && w[q].dock ==> w[q].docked != p
    ensures w[p].Base() ==> forall j :: 0 <= j < w[p].numports ==> w[p].port[j] < 0
  {
    OccupiedZero(w[p].port, w[p].numports);
    assert w[p].Base() ==> w[p].docked == Occupied(w[p].port, w[p].numports);
    forall q | 0 <= q < |w| && w[q].dock
      ensures w[q].docked != p
    {
      assert Moored(w, q);
    }
  }

  // ---------------------------------------------------------------- each step

  /** Leaving space unties a ship completely. */
  lemma ClearOutEffect(w: Fleet, p: nat)
    requires Mutual(w) && p < |w|
    ensures Mutual(ClearOut(w, p)) && !Involved(ClearOut(w, p), p) && Fewer(w, ClearOut(w, p))
  {
    UndockPlayerMutual(w, p);
    UndockFewer(w, p);
    var w1 := UndockPlayer(w, p);
    if w1[p].Base() {
      var w2 := KickFrom(w1, p, Everybody, 0);
      KickAllKeeps(w1, p);
      assert w2[p := w2[p].(docked := 0)] == w2;
      FewerTwice(w, w1, w2);
    }
  }

  lemma FewerTwice(a: Fleet, b: Fleet, c: Fleet)
    requires Fewer(a, b) && Fewer(b, c)
    ensures Fewer(a, c)
  {
    forall i | 0 <= i < |c|
      ensures c[i].status == a[i].status && (c[i].dock ==> a[i].dock && c[i].docked == a[i].docked)
    {
      assert c[i].status == b[i].status;
    }
  }

  lemma LeaveSpaceKeeps(w: Fleet, p: nat, status: Status)
    requires Mutual(w) && p < |w|
    ensures Mutual(LeaveSpace(w, p, status)) && !Involved(LeaveSpace(w, p, status), p)
    ensures InSpace(w) ==> InSpace(LeaveSpace(w, p, status))
  {
    ClearOutEffect(w, p);
    var w1 := ClearOut(w, p);
    UntouchedStaysMutual(w1, LeaveSpace(w, p, status));
    if InSpace(w) {
      FewerInSpace(w, w1);
      StatusFree(w1, p, LeaveSpace(w, p, status)[p]);
    }
  }

  lemma UndockFewer(w: Fleet, p: nat)
    requires Mutual(w) && p < |w|
    ensures Tied(w, p) && Fewer(w, UndockPlayer(w, p))
  {
    assert w[p].dock ==> Moored(w, p);
  }

  lemma SteeringKeeps(w: Fleet, p: nat, speed: int, refused: bool)
    requires Mutual(w) && p < |w|
    ensures Tied(w, p)
    ensures Mutual(SetCourse(w, p)) && Mutual(SetSpeed(w, p, speed, refused))
    ensures InSpace(w) ==> InSpace(SetCourse(w, p)) && InSpace(SetSpeed(w, p, speed, refused))
  {
    UndockPlayerMutual(w, p);
    UndockFewer(w, p);
    var w1 := UndockPlayer(w, p);
    var a := w1[p := w1[p].(orbit := false, dock := false)];
    var b := w1[p := w1[p].(speed := speed, orbit := false, dock := false)];
    UntouchedStaysMutual(w1, a);
    UntouchedStaysMutual(w1, b);
    if InSpace(w) {
      FewerInSpace(w, w1);
      FewerInSpace(w, a);
      FewerInSpace(w, b);
    }
  }

  lemma LeaveOrbitKeeps(w: Fleet, p: nat)
    requires Mutual(w) && p < |w|
    ensures Tied(w, p) && Mutual(LeaveOrbit(w, p))
    ensures InSpace(w) ==> InSpace(LeaveOrbit(w, p))
  {
    UndockPlayerMutual(w, p);
    var w1 := w[p := w[p].(orbit := false)];
    UntouchedStaysMutual(w, w1);
    UndockPlayerMutual(w1, p);
    UndockFewer(w1, p);
    if InSpace(w) {
      FewerInSpace(w, w1);
      FewerInSpace(w1, UndockPlayer(w1, p));
    }
  }

  lemma NewDockKeeps(w: Fleet, p: nat, b: nat, dist: seq<int>)
    requires Mutual(w) && p < |w| && b < |w| && |dist| == MAXPORTS
    requires p != b && !w[p].Base() && !w[p].orbit && !w[p].dock
    ensures Mutual(NewDock(w, p, b, dist))
    ensures InSpace(w) && w[p].Present() && w[b].Present() && w[b].Base() ==> InSpace(NewDock(w, p, b, dist))
  {
    var k := NearestVacant(w[b].port, w[b].numports, dist);
    if k >= 0 {
      DockToMutual(w, p, b, k);
      if InSpace(w) && w[p].Present() && w[b].Present() && w[b].Base() {
        assert !w[b].dock;
        TieInSpace(w, p, b, k);
      }
    }
  }

  lemma OrbitKeyKeeps(w: Fleet, p: nat, near: seq<bool>, dist: seq<int>, locked: bool, planet: bool)
    requires Mutual(w) && p < |w| && |near| == |w| && |dist| == MAXPORTS
    ensures Tied(w, p) && Mutual(OrbitKey(w, p, near, dist, locked, planet))
    ensures InSpace(w) && w[p].Present() ==> InSpace(OrbitKey(w, p, near, dist, locked, planet))
  {
    UndockPlayerMutual(w, p);
    UndockFewer(w, p);
    var w1 := UndockPlayer(w, p);
    if InSpace(w) {
      FewerInSpace(w, w1);
    }
    var b := if !locked && w1[p].CanDock() then FirstDockable(w1, p, 0, near) else |w|;
    if !w[p].orbit {
      if b < |w| {
        NewDockKeeps(w1, p, b, dist);
      } else {
        var w2 := w1[p := w1[p].(orbit := true, speed := 0)];
        UntouchedStaysMutual(w1, w2);
        if InSpace(w) {
          FewerInSpace(w1, w2);
        }
      }
    }
  }

  lemma GuestsLeftFewer(w: Fleet, r: Fleet, b: nat)
    requires Sane(w) && b < |w| && OnlyGuestsLeft(w, r, b) && !w[b].dock
    ensures Fewer(w, r)
  {
  }

  lemma WarLeavesKeeps(w: Fleet, p: nat, m: bv8)
    requires Mutual(w) && p < |w|
    ensures Mutual(WarLeaves(w, p, m)) && Fewer(w, WarLeaves(w, p, m))
  {
    UndockPlayerMutual(w, p);
    if w[p].dock {
      UndockFewer(w, p);
    } else if w[p].Base() && w[p].docked > 0 {
      var who := Warring(m);
      KickFromGuests(w, p, who, 0);
      GuestsLeftFewer(w, KickFrom(w, p, who, 0), p);
    }
  }

  lemma DeclareWarKeeps(w: Fleet, p: nat, mask: bv8)
    requires Mutual(w) && p < |w|
    ensures Mutual(DeclareWar(w, p, mask))
    ensures InSpace(w) ==> InSpace(DeclareWar(w, p, mask))
  {
    var m := WarMask(w[p], mask);
    WarLeavesKeeps(w, p, m);
    var w1, r := WarLeaves(w, p, m), DeclareWar(w, p, mask);
    if r != w {
      UntouchedStaysMutual(w1, r);
      if InSpace(w) {
        FewerInSpace(w, w1);
        FewerInSpace(w1, r);
      }
    }
  }

  /** Declaring war parts the ship from its base, or the base from its guests, of every team now
      hostile; the others stay. */
  lemma DeclareWarSeparates(w: Fleet, p: nat, mask: bv8)
    requires Mutual(w) && p < |w| && WarMask(w[p], mask) != w[p].hostile
    ensures var r := DeclareWar(w, p, mask);
            && r[p].hostile == WarMask(w[p], mask)
            && (r[p].dock ==> w[p].dock && r[p].docked == w[p].docked && !AtWar(r[p].hostile, w[w[p].docked].team))
            && (forall q :: 0 <= q < |w| && q != p && r[q].dock && r[q].docked == p ==>
                  w[q].dock && w[q].docked == p && !AtWar(r[p].hostile, w[q].team))
    ensures var r := DeclareWar(w, p, mask);
            forall q :: 0 <= q < |w| && q != p && w[q].dock && w[q].docked != p ==> r[q] == w[q]
  {
    var m := WarMask(w[p], mask);
    WarIsDeclared(w, p, mask);
    WarParts(w, p, m);
    HostileAt(WarLeaves(w, p, m), p, m);
  }

  lemma MasksDiffer(a: bv8, b: bv8)
    ensures a ^ b == 0 <==> a == b
  {
  }

  lemma HostileAt(w: Fleet, p: nat, m: bv8)
    requires p < |w|
    ensures var r := w[p := w[p].(hostile := m)];
      && r[p].hostile == m && r[p].dock == w[p].dock && r[p].docked == w[p].docked
      && forall q :: 0 <= q < |w| && q != p ==> r[q] == w[q]
  {
  }

  lemma WarIsDeclared(w: Fleet, p: nat, mask: bv8)
    requires Mutual(w) && p < |w| && WarMask(w[p], mask) != w[p].hostile
    ensures var m := WarMask(w[p], mask);
      var w1 := WarLeaves(w, p, m);
      DeclareWar(w, p, mask) == w1[p := w1[p].(hostile := m)]
  {
    MasksDiffer(WarMask(w[p], mask), w[p].hostile);
  }

  /** Whoever the new war parts is gone, the others stay. */
  lemma WarParts(w: Fleet, p: nat, m: bv8)
    requires Mutual(w) && p < |w|
    ensures var r := WarLeaves(w, p, m);
            && (r[p].dock ==>
                  w[p].dock && 0 <= w[p].docked < |w| && r[p].docked == w[p].docked
                  && !AtWar(m, w[w[p].docked].team))
            && (forall q :: 0 <= q < |w| && q != p && r[q].dock && r[q].docked == p ==>
                  w[q].dock && w[q].docked == p && !AtWar(m, w[q].team))
            && (forall q :: 0 <= q < |w| && q != p && w[q].dock && w[q].docked != p ==> r[q] == w[q])
  {
    if w[p].dock {
      assert Moored(w, p);
      WarShip(w, p, m);
    } else {
      WarGuests(w, p, m);
    }
  }

  lemma WarShip(w: Fleet, p: nat, m: bv8)
    requires Mutual(w) && p < |w| && w[p].dock && 0 <= w[p].docked < |w|
    ensures var r := WarLeaves(w, p, m);
            && (r[p].dock ==> r[p] == w[p] && !AtWar(m, w[w[p].docked].team))
            && (forall q :: 0 <= q < |w| && q != p && r[q].dock ==> r[q] == w[q] && w[q].docked != p)
            && (forall q :: 0 <= q < |w| && q != p && w[q].dock ==> r[q] == w[q])
  {
    assert Moored(w, p);
    forall q | 0 <= q < |w| && w[q].dock
      ensures w[q].docked != p && q != w[p].docked
    {
      assert Moored(w, q);
    }
  }

  lemma WarGuests(w: Fleet, p: nat, m: bv8)
    requires Mutual(w) && p < |w| && !w[p].dock
    ensures var r := WarLeaves(w, p, m);
            && !r[p].dock
            && (forall q :: 0 <= q < |w| && q != p && r[q].dock ==> r[q] == w[q])
            && (forall q :: 0 <= q < |w| && q != p && w[q].dock && w[q].docked != p ==> r[q] == w[q])
            && (forall q :: 0 <= q < |w| && q != p && r[q].dock && r[q].docked == p ==> !AtWar(m, w[q].team))
  {
    var r := WarLeaves(w, p, m);
    if w[p].Base() && w[p].docked > 0 {
      var who := Warring(m);
      KickFromGuests(w, p, who, 0);
      forall q | 0 <= q < |w| && q != p && r[q].dock && r[q].docked == p
        ensures !AtWar(m, w[q].team)
      {
        assert r[q] == w[q];
        assert Moored(w, q);
        if who(w[q]) {
          KickFromChosen(w, p, who, 0, q);
        }
      }
    } else {
      forall q | 0 <= q < |w| && w[q].dock
        ensures w[q].docked != p
      {
        NobodyAt(w, p);
      }
    }
  }

  lemma KickAllKeeps(w: Fleet, p: nat)
    requires Mutual(w) && p < |w| && w[p].Base()
    ensures var r := KickFrom(w, p, Everybody, 0); Mutual(r) && !Involved(r, p) && r[p].docked == 0 && Fewer(w, r)
  {
    KickAllClears(w, p, Everybody);
    KickFromGuests(w, p, Everybody, 0);
    GuestsLeftFewer(w, KickFrom(w, p, Everybody, 0), p);
  }

  lemma DockPermissionKeeps(w: Fleet, p: nat, allow: bool)
    requires Mutual(w) && p < |w|
    ensures Mutual(DockPermission(w, p, allow))
    ensures InSpace(w) ==> InSpace(DockPermission(w, p, allow))
  {
    var r := DockPermission(w, p, allow);
    if r != w {
      var w1 := KickFrom(w, p, Everybody, 0);
      KickAllKeeps(w, p);
      UntouchedStaysMutual(w1, r);
      if InSpace(w) {
        FewerInSpace(w, w1);
        FewerInSpace(w1, r);
      }
    }
  }

  lemma VacantIsNone(n: nat)
    requires n <= MAXPORTS
    ensures Occupied(AllVacant, n) == 0
  {
    OccupiedZero(AllVacant, n);
  }

  /** A ship that leaves its moorings first can be replaced by one of any type. */
  lemma GetShipMutual(w: Fleet, p: nat, h: Hull)
    requires Mutual(w) && p < |w| && h.numports <= MAXPORTS && !Involved(w, p)
    ensures Mutual(w[p := GetShip(w[p], h)])
  {
    ReplaceMutual(w, p, GetShip(w[p], h));
  }

  lemma RefitKeeps(w: Fleet, p: nat, h: Hull, yard: bool, refits: bool, granted: bool)
    requires Mutual(w) && p < |w| && h.numports <= MAXPORTS
    ensures Mutual(Refit(w, p, h, yard, refits, granted))
    ensures InSpace(w) ==> InSpace(Refit(w, p, h, yard, refits, granted))
  {
    var r := Refit(w, p, h, yard, refits, granted);
    if r != w {
      var w1 := if w[p].Base() then KickFrom(w, p, Everybody, 0) else w;
      if w[p].Base() {
        KickAllKeeps(w, p);
      }
      if w[p].dock {
        assert Moored(w, p);
        UntouchedStaysMutual(w, r);
      } else {
        GetShipMutual(w1, p, h);
      }
      if InSpace(w) {
        FewerInSpace(w, w1);
        FewerInSpace(w1, r);
      }
    }
  }

  lemma TractorOffKeeps(w: Fleet, v: nat, victimDies: bool, baseDies: bool)
    requires Mutual(w) && v < |w|
    ensures Tied(w, v) && Mutual(TractorOff(w, v, victimDies, baseDies))
    ensures InSpace(w) ==> InSpace(TractorOff(w, v, victimDies, baseDies))
  {
    UndockPlayerMutual(w, v);
    if w[v].orbit {
      UntouchedStaysMutual(w, TractorOff(w, v, victimDies, baseDies));
    } else if w[v].dock {
      TornOffMutual(w, v, victimDies, baseDies);
    }
    if InSpace(w) {
      TractorOffInSpace(w, v, victimDies, baseDies);
    }
  }

  lemma TornOffMutual(w: Fleet, v: nat, victimDies: bool, baseDies: bool)
    requires Mutual(w) && v < |w| && !w[v].orbit && w[v].dock
    ensures Tied(w, v) && Mutual(TractorOff(w, v, victimDies, baseDies))
  {
    UndockPlayerMutual(w, v);
    assert Moored(w, v);
    var w1, b := UndockPlayer(w, v), w[v].docked;
    var w2 := w1[v := Hit(w1[v], victimDies)];
    UntouchedStaysMutual(w1, w2);
    RelabelMutual(w2, b, TractorOff(w, v, victimDies, baseDies)[b]);
  }

  lemma TractorOffInSpace(w: Fleet, v: nat, victimDies: bool, baseDies: bool)
    requires Mutual(w) && v < |w| && Tied(w, v) && InSpace(w)
    ensures InSpace(TractorOff(w, v, victimDies, baseDies))
  {
    var r := TractorOff(w, v, victimDies, baseDies);
    forall q | 0 <= q < |r| && r[q].dock && 0 <= r[q].docked < |r|
      ensures r[q].Present() && r[r[q].docked].Present()
    {
      assert w[q].dock;
    }
  }

  lemma {:induction false} RepairRelabels(port: seq<int>, n: nat, i: nat, damaged: int, damage: int)
    requires i <= n <= |port|
    ensures forall j :: 0 <= j < |port| ==>
              var r := RepairFrom(port, n, i, damaged, damage); r[j] == port[j] || (r[j] < 0 && port[j] < 0)
    decreases n - i
  {
    if i < n && (damaged - 1) * DOCKDAMAGE + 1 > damage {
      if port[i] == PDAMAGE {
        RepairRelabels(port[i := VACANT], n, i + 1, damaged - 1, damage);
      } else {
        RepairRelabels(port, n, i + 1, damaged, damage);
      }
    }
  }

  lemma RepairRingKeeps(w: Fleet, b: nat)
    requires Mutual(w) && b < |w|
    ensures w[b].Base() ==> Mutual(RepairRing(w, b))
    ensures InSpace(w) ==> InSpace(RepairRing(w, b))
  {
    var s := w[b];
    RepairRelabels(s.port, s.numports, 0, Damaged(s.port, s.numports), s.damage);
    if s.Base() {
      RelabelMutual(w, b, RepairRing(w, b)[b]);
    }
    if InSpace(w) {
      FewerInSpace(w, RepairRing(w, b));
    }
  }

  // ---------------------------------------------------------------- entering the game

  /** The ship a player starts in: not docked, not in orbit, and, for a base, open to guests. */
  function Arrival(s: Ship, h: Hull): (r: Ship)
    requires |s.port| == MAXPORTS && h.numports <= MAXPORTS
    ensures |r.port| == MAXPORTS && !r.dock && !r.orbit && r.numports == h.numports && r.docked == 0
    ensures r.Base() ==> r.port == AllVacant
  {
    GetShip(s, h).(docked := 0, dock := false, orbit := false, dockOk := h.numports > 0, speed := 0)
  }

  /** A player takes slot p into the game in a new ship.  Nothing is undocked: the slot's docking
      fields are simply overwritten.  A mass-produced ship may start docked at `escort`. */
  function Enter(w: Fleet, p: nat, h: Hull, escort: nat, dist: seq<int>, observer: bool): (r: Fleet)
    requires Sane(w) && p < |w| && h.numports <= MAXPORTS && |dist| == MAXPORTS
    ensures |r| == |w|
  {
    var w2 := Arrive(w, p, h, escort, dist);
    w2[p := w2[p].(status := if observer then PObserve else PAlive)]
  }

  function Arrive(w: Fleet, p: nat, h: Hull, escort: nat, dist: seq<int>): (r: Fleet)
    requires Sane(w) && p < |w| && h.numports <= MAXPORTS && |dist| == MAXPORTS
    ensures |r| == |w|
  {
    var w1 := w[p := Arrival(w[p], h)];
    assert Sane(w1);
    if escort < |w| then NewDock(w1, p, escort, dist) else w1
  }

  predicate EscortOk(w: Fleet, p: nat, h: Hull, escort: nat) {
    escort < |w| ==> escort != p && h.numports == 0 && w[escort].status.PAlive? && w[escort].Base()
  }

  /** Docking a new arrival concerns only it and its escort, and only a vacant port of the escort. */
  lemma ArriveEffect(w: Fleet, p: nat, h: Hull, escort: nat, dist: seq<int>)
    requires Sane(w) && p < |w| && h.numports <= MAXPORTS && |dist| == MAXPORTS && EscortOk(w, p, h, escort)
    ensures var r := Arrive(w, p, h, escort, dist);
            && (forall q :: 0 <= q < |w| && q != p && q != escort ==> r[q] == w[q])
            && (escort < |w| ==> r[escort] == w[escort].(docked := r[escort].docked, port := r[escort].port))
            && r[p].numports == h.numports && (h.numports > 0 ==> r[p].port == AllVacant)
            && (r[p].dock ==>
                  && escort < |w| && r[p].docked == escort && 0 <= r[p].port[0] < MAXPORTS
                  && w[escort].port[r[p].port[0]] == VACANT)
            && (escort < |w| ==>
                  && |r[escort].port| == MAXPORTS
                  && forall j :: 0 <= j < MAXPORTS && w[escort].port[j] >= 0 ==> r[escort].port[j] == w[escort].port[j])
  {
  }

  lemma EnterFreshMutual(w: Fleet, p: nat, h: Hull, escort: nat, dist: seq<int>, observer: bool)
    requires Mutual(w) && p < |w| && h.numports <= MAXPORTS && |dist| == MAXPORTS && EscortOk(w, p, h, escort)
    requires !Involved(w, p)
    ensures Mutual(Enter(w, p, h, escort, dist, observer))
  {
    var w1, w2 := w[p := Arrival(w[p], h)], Arrive(w, p, h, escort, dist);
    ReplaceMutual(w, p, Arrival(w[p], h));
    if escort < |w| {
      NewDockKeeps(w1, p, escort, dist);
    }
    UntouchedStaysMutual(w2, Enter(w, p, h, escort, dist, observer));
  }

  lemma EnterFreshInSpace(w: Fleet, p: nat, h: Hull, escort: nat, dist: seq<int>, observer: bool)
    requires Mutual(w) && p < |w| && h.numports <= MAXPORTS && |dist| == MAXPORTS && EscortOk(w, p, h, escort)
    requires InSpace(w) && !Involved(w, p) && !(observer && escort < |w|)
    ensures InSpace(Enter(w, p, h, escort, dist, observer))
  {
    ArriveEffect(w, p, h, escort, dist);
    NobodyAt(w, p);
    var r := Enter(w, p, h, escort, dist, observer);
    forall q | 0 <= q < |r| && r[q].dock && 0 <= r[q].docked < |r|
      ensures r[q].Present() && r[r[q].docked].Present()
    {
      if q != p {
        assert q != escort ==> r[q] == w[q];
        assert w[q].dock && Moored(w, q);
      }
    }
  }

  lemma EnterDockedBreaks(w: Fleet, p: nat, h: Hull, escort: nat, dist: seq<int>, observer: bool)
    requires Mutual(w) && p < |w| && h.numports <= MAXPORTS && |dist| == MAXPORTS && EscortOk(w, p, h, escort)
    requires w[p].dock
    ensures !Mutual(Enter(w, p, h, escort, dist, observer))
  {
    ArriveEffect(w, p, h, escort, dist);
    var r := Enter(w, p, h, escort, dist, observer);
    assert Moored(w, p);
    var b, k := w[p].docked, w[p].port[0];
    assert r[b].port[k] == p && r[b].numports == w[b].numports;
    assert Sane(r) && !Hosts(r, b, k);
  }

  /** A ship that says it is docked where its port no longer names it. */
  lemma StrandedGuest(r: Fleet, q: nat, p: nat)
    requires q < |r| && p < |r| && r[q].dock && r[q].docked == p && |r[q].port| == MAXPORTS
    requires r[p].numports > 0 ==> r[p].port == AllVacant
    ensures !Mutual(r)
  {
    assert Sane(r) ==> !Moored(r, q);
  }

  lemma SomeGuest(w: Fleet, p: nat) returns (q: nat)
    requires Mutual(w) && p < |w| && w[p].Base() && w[p].docked != 0
    ensures q < |w| && w[q].dock && w[q].docked == p && !w[q].Base() && q != p && |w[q].port| == MAXPORTS
  {
    OccupiedZero(w[p].port, w[p].numports);
    var j :| 0 <= j < w[p].numports && w[p].port[j] >= 0;
    HostedBy(w, p, j);
    q := w[p].port[j];
    assert Moored(w, q);
  }

  lemma EnterHostingBreaks(w: Fleet, p: nat, h: Hull, escort: nat, dist: seq<int>, observer: bool)
    requires Mutual(w) && p < |w| && h.numports <= MAXPORTS && |dist| == MAXPORTS && EscortOk(w, p, h, escort)
    requires w[p].Base() && w[p].docked != 0
    ensures !Mutual(Enter(w, p, h, escort, dist, observer))
  {
    var q := SomeGuest(w, p);
    ArriveEffect(w, p, h, escort, dist);
    assert q != escort;
    StrandedGuest(Enter(w, p, h, escort, dist, observer), q, p);
  }

  /** Entering keeps the docking invariant if and only if the slot is neither docked nor counting
      guests. */
  lemma EnterKeepsMutualIff(w: Fleet, p: nat, h: Hull, escort: nat, dist: seq<int>, observer: bool)
    requires Mutual(w) && p < |w| && h.numports <= MAXPORTS && |dist| == MAXPORTS && EscortOk(w, p, h, escort)
    ensures Mutual(Enter(w, p, h, escort, dist, observer)) <==> !Involved(w, p)
  {
    if w[p].dock {
      EnterDockedBreaks(w, p, h, escort, dist, observer);
    } else if Involved(w, p) {
      EnterHostingBreaks(w, p, h, escort, dist, observer);
    } else {
      EnterFreshMutual(w, p, h, escort, dist, observer);
    }
  }

  // ---------------------------------------------------------------- runs

  datatype Step =
    | Vanish(p: nat)
    | Blast(p: nat, gone: bool)
    | Kaboom(p: nat)
    | Idle(p: nat, status: Status)
    | Drift(p: nat, speed: int)
    | Turn(p: nat)
    | Throttle(p: nat, speed: int, refused: bool)
    | Depart(p: nat)
    | Orbit(p: nat, near: seq<bool>, dist: seq<int>, locked: bool, planet: bool)
    | War(p: nat, mask: bv8)
    | Permit(p: nat, allow: bool)
    | Change(p: nat, hull: Hull, yard: bool, refits: bool, granted: bool)
    | Rip(p: nat, victimDies: bool, baseDies: bool)
    | Mend(p: nat)
    | Join(p: nat, hull: Hull, escort: nat, dist: seq<int>, observer: bool)

  /** What the callers of each step see to, wherever the ships are. */
  predicate Possible(w: Fleet, s: Step) {
    && s.p < |w|
    && match s
       case Kaboom(p) => w[p].Present()
       case Idle(p, status) => !w[p].Present() && !status.PAlive? && !status.PExplode?
       case Orbit(p, near, dist, _, _) => |near| == |w| && |dist| == MAXPORTS
       case Change(_, h, _, _, _) => h.numports <= MAXPORTS
       case Mend(p) => w[p].Base()
       case Join(p, h, escort, dist, _) => h.numports <= MAXPORTS && |dist| == MAXPORTS && EscortOk(w, p, h, escort)
       case _ => true
  }

  function Do(w: Fleet, s: Step): (r: Fleet)
    requires Mutual(w) && Possible(w, s)
    ensures |r| == |w|
  {
    var p := s.p;
    UndockPlayerMutual(w, p);
    match s
    case Vanish(_) => Evaporate(w, p)
    case Blast(_, gone) => ShipExplode(w, p, gone)
    case Kaboom(_) => w[p := w[p].(status := PExplode)]
    case Idle(_, status) => w[p := w[p].(status := status)]
    case Drift(_, speed) => w[p := w[p].(speed := speed)]
    case Turn(_) => SetCourse(w, p)
    case Throttle(_, speed, refused) => SetSpeed(w, p, speed, refused)
    case Depart(_) => LeaveOrbit(w, p)
    case Orbit(_, near, dist, locked, planet) => OrbitKey(w, p, near, dist, locked, planet)
    case War(_, mask) => DeclareWar(w, p, mask)
    case Permit(_, allow) => DockPermission(w, p, allow)
    case Change(_, h, yard, refits, granted) => Refit(w, p, h, yard, refits, granted)
    case Rip(_, v, b) => TractorOff(w, p, v, b)
    case Mend(_) => RepairRing(w, p)
    case Join(_, h, escort, dist, observer) => Enter(w, p, h, escort, dist, observer)
  }

  /** Every step keeps the docking invariant, whatever the state of the ships, except an entry into a
      slot that is still tied to somebody. */
  lemma DoKeepsMutualIff(w: Fleet, s: Step)
    requires Mutual(w) && Possible(w, s)
    ensures Mutual(Do(w, s)) <==> (s.Join? ==> !Involved(w, s.p))
  {
    var p := s.p;
    match s
    case Vanish(_) => LeaveSpaceKeeps(w, p, POutfit);
    case Blast(_, gone) => LeaveSpaceKeeps(w, p, if gone then PDead else w[p].status);
    case Kaboom(_) => UntouchedStaysMutual(w, Do(w, s));
    case Idle(_, status) => UntouchedStaysMutual(w, Do(w, s));
    case Drift(_, speed) => UntouchedStaysMutual(w, Do(w, s));
    case Turn(_) => SteeringKeeps(w, p, 0, false);
    case Throttle(_, speed, refused) => SteeringKeeps(w, p, speed, refused);
    case Depart(_) => LeaveOrbitKeeps(w, p);
    case Orbit(_, near, dist, locked, planet) => OrbitKeyKeeps(w, p, near, dist, locked, planet);
    case War(_, mask) => DeclareWarKeeps(w, p, mask);
    case Permit(_, allow) => DockPermissionKeeps(w, p, allow);
    case Change(_, h, yard, refits, granted) => RefitKeeps(w, p, h, yard, refits, granted);
    case Rip(_, v, b) => TractorOffKeeps(w, p, v, b);
    case Mend(_) => RepairRingKeeps(w, p);
    case Join(_, h, escort, dist, observer) => EnterKeepsMutualIff(w, p, h, escort, dist, observer);
  }

  /** The discipline that makes every entry safe: only ships in space press the orbit key, only slots
      out of space are entered, and observers do not start docked. */
  predicate Disciplined(w: Fleet, s: Step) {
    && Possible(w, s)
    && (s.Orbit? ==> w[s.p].Present())
    && (s.Join? ==> !w[s.p].Present() && !(s.observer && s.escort < |w|))
  }

  lemma InvolvedAreInSpace(w: Fleet, p: nat)
    requires Mutual(w) && InSpace(w) && p < |w| && Involved(w, p)
    ensures w[p].Present()
  {
    if !w[p].dock {
      OccupiedZero(w[p].port, w[p].numports);
      var j :| 0 <= j < w[p].numports && w[p].port[j] >= 0;
      HostedBy(w, p, j);
    }
  }

  lemma OutOfSpaceIsFree(w: Fleet, p: nat)
    requires Mutual(w) && InSpace(w) && p < |w| && !w[p].Present()
    ensures !Involved(w, p)
  {
    if Involved(w, p) {
      InvolvedAreInSpace(w, p);
    }
  }

  lemma StatusInSpace(w: Fleet, p: nat, s: Ship)
    requires Mutual(w) && InSpace(w) && p < |w|
    requires s.dock == w[p].dock && s.docked == w[p].docked
    requires w[p].Present() ==> s.Present()
    ensures InSpace(w[p := s])
  {
    var r := w[p := s];
    forall q | 0 <= q < |r| && r[q].dock && 0 <= r[q].docked < |r|
      ensures r[q].Present() && r[r[q].docked].Present()
    {
      assert w[q].dock;
    }
  }

  lemma DoKeepsInSpace(w: Fleet, s: Step)
    requires Mutual(w) && InSpace(w) && Disciplined(w, s)
    ensures InSpace(Do(w, s))
  {
    var p := s.p;
    match s
    case Vanish(_) => LeaveSpaceKeeps(w, p, POutfit);
    case Blast(_, gone) => LeaveSpaceKeeps(w, p, if gone then PDead else w[p].status);
    case Kaboom(_) => StatusInSpace(w, p, Do(w, s)[p]);
    case Idle(_, status) => StatusInSpace(w, p, Do(w, s)[p]);
    case Drift(_, speed) => StatusInSpace(w, p, Do(w, s)[p]);
    case Turn(_) => SteeringKeeps(w, p, 0, false);
    case Throttle(_, speed, refused) => SteeringKeeps(w, p, speed, refused);
    case Depart(_) => LeaveOrbitKeeps(w, p);
    case Orbit(_, near, dist, locked, planet) => OrbitKeyKeeps(w, p, near, dist, locked, planet);
    case War(_, mask) => DeclareWarKeeps(w, p, mask);
    case Permit(_, allow) => DockPermissionKeeps(w, p, allow);
    case Change(_, h, yard, refits, granted) => RefitKeeps(w, p, h, yard, refits, granted);
    case Rip(_, v, b) => TractorOffKeeps(w, p, v, b);
    case Mend(_) => RepairRingKeeps(w, p);
    case Join(_, h, escort, dist, observer) =>
      OutOfSpaceIsFree(w, p);
      EnterFreshInSpace(w, p, h, escort, dist, observer);
  }

  lemma DisciplinedKeeps(w: Fleet, s: Step)
    requires Mutual(w) && InSpace(w) && Disciplined(w, s)
    ensures Mutual(Do(w, s)) && InSpace(Do(w, s))
  {
    if s.Join? {
      OutOfSpaceIsFree(w, s.p);
    }
    DoKeepsMutualIff(w, s);
    DoKeepsInSpace(w, s);
  }

  /** w' is reached from w by a disciplined run of n steps. */
  ghost predicate Reaches(w: Fleet, steps: seq<Step>, w': Fleet)
    decreases |steps|
  {
    if steps == [] then
      w' == w
    else
      Mutual(w) && Disciplined(w, steps[0]) && Reaches(Do(w, steps[0]), steps[1..], w')
  }

  /** w' is reached from w by any run of possible steps that enters no slot still tied to somebody. */
  ghost predicate Leads(w: Fleet, steps: seq<Step>, w': Fleet)
    decreases |steps|
  {
    if steps == [] then
      w' == w
    else
      && Mutual(w) && Possible(w, steps[0]) && (steps[0].Join? ==> !Involved(w, steps[0].p))
      && Leads(Do(w, steps[0]), steps[1..], w')
  }

  /** Whatever dead ships, observers and late clients do, as long as every entry finds its slot untied,
      ships and bases agree about who is docked where and bases count their guests right. */
  lemma {:induction false} UntiedEntriesKeepDocking(w: Fleet, steps: seq<Step>, w': Fleet)
    requires Mutual(w) && Leads(w, steps, w')
    ensures Mutual(w') && |w'| == |w|
    decreases |steps|
  {
    if steps != [] {
      DoKeepsMutualIff(w, steps[0]);
      UntiedEntriesKeepDocking(Do(w, steps[0]), steps[1..], w');
    }
  }

  /** Over every disciplined run, ships and bases agree about who is docked where, bases count their
      guests right, and both parties of every mooring stay in space. */
  lemma {:induction false} RunsKeepDocking(w: Fleet, steps: seq<Step>, w': Fleet)
    requires Mutual(w) && InSpace(w) && Reaches(w, steps, w')
    ensures Mutual(w') && InSpace(w') && |w'| == |w|
    decreases |steps|
  {
    if steps != [] {
      DisciplinedKeeps(w, steps[0]);
      RunsKeepDocking(Do(w, steps[0]), steps[1..], w');
    }
  }

  // ---------------------------------------------------------------- where the discipline ends

  /** The end of a tournament puts every player on the outfit screen without undocking anybody. */
  function Endgame(w: Fleet): (r: Fleet)
    ensures |r| == |w|
  {
    seq(|w|, i requires 0 <= i < |w| => if w[i].status.PFree? then w[i] else w[i].(status := POutfit))
  }

  /** The pointers survive it, but every ship still docked can then be entered over: both parties stay
      in space if and only if nobody was docked. */
  lemma EndgameInSpaceIff(w: Fleet)
    requires Mutual(w) && InSpace(w)
    ensures Mutual(Endgame(w))
    ensures InSpace(Endgame(w)) <==> forall p :: 0 <= p < |w| ==> !w[p].dock
  {
    var r := Endgame(w);
    UntouchedStaysMutual(w, r);
    if p :| 0 <= p < |w| && w[p].dock {
      assert Moored(w, p);
      assert r[p].dock && !r[p].Present();
    }
  }

  const PlainHull := Hull(0, false, false)
  const BaseHull := Hull(4, true, false)

  function Blank(status: Status, h: Hull): Ship {
    Ship(status, false, false, h.numports > 0, 1, 0, 0, 0, h.numports, h.undockable, h.jumpship, 0, AllVacant, 0, 0, 0)
  }

  /** A base with one ship docked; the league game ends; whatever becomes of the ship's slot in between -
      its player has won and has to leave, and the slot goes by way of being free to the next one, or its
      client was heard before the interrupt that would have sent it away - the base's port still names a
      ship that is no longer docked once a player enters in it. */
  lemma EndgameThenEnterBreaks(status: Status)
    ensures var w := DockTo([Blank(PAlive, BaseHull), Blank(PAlive, PlainHull)], 1, 0, 0);
            var e := Endgame(w);
            && Mutual(w) && InSpace(w) && Mutual(e)
            && !Mutual(Enter(e[1 := e[1].(status := status)], 1, PlainHull, 2, AllVacant, false))
  {
    DockedPair();
    var e := Endgame(DockTo([Blank(PAlive, BaseHull), Blank(PAlive, PlainHull)], 1, 0, 0));
    SlotStatus(e, 1, status);
    EnterKeepsMutualIff(e[1 := e[1].(status := status)], 1, PlainHull, 2, AllVacant, false);
  }

  lemma DockedPair()
    ensures var w := DockTo([Blank(PAlive, BaseHull), Blank(PAlive, PlainHull)], 1, 0, 0);
            Mutual(w) && InSpace(w) && w[1].dock && Mutual(Endgame(w))
  {
    var w0 := [Blank(PAlive, BaseHull), Blank(PAlive, PlainHull)];
    VacantIsNone(4);
    assert Mutual(w0);
    DockToMutual(w0, 1, 0, 0);
    TieInSpace(w0, 1, 0, 0);
    EndgameInSpaceIff(DockTo(w0, 1, 0, 0));
  }

  lemma SlotStatus(w: Fleet, p: nat, status: Status)
    requires Mutual(w) && p < |w|
    ensures Mutual(w[p := w[p].(status := status)])
  {
    UntouchedStaysMutual(w, w[p := w[p].(status := status)]);
  }

  /** A dead ship whose client presses the orbit key before the death is noticed docks all the same;
      entering the game again then leaves the base with a port that names nobody's ship.  The window is
      short: the client's first interrupt after the death masks all its input (redraw.c). */
  lemma DeadOrbitThenEnterBreaks()
    ensures var w := [Blank(PAlive, BaseHull), Blank(PDead, PlainHull)];
            && Mutual(w) && InSpace(w)
            && var w1 := OrbitKey(w, 1, [true, true], AllVacant, false, false);
               && w1[1].dock
               && !Mutual(Enter(w1, 1, PlainHull, 2, AllVacant, false))
  {
    var w := [Blank(PAlive, BaseHull), Blank(PDead, PlainHull)];
    VacantIsNone(4);
    assert Mutual(w);
    OrbitKeyKeeps(w, 1, [true, true], AllVacant, false, false);
    NearestVacantIsNearest(AllVacant, 4, AllVacant);
    assert AllVacant[0] == VACANT;
    assert Dockable(w, 1, 0, [true, true]);
    var w1 := OrbitKey(w, 1, [true, true], AllVacant, false, false);
    EnterKeepsMutualIff(w1, 1, PlainHull, 2, AllVacant, false);
  }

  // ---------------------------------------------------------------- consequences

  /** The ships docked at b at a port below n. */
  ghost function Guests(w: Fleet, b: nat, n: nat): set<nat>
    requires Sane(w) && b < |w| && n <= MAXPORTS
  {
    set p: nat | p < |w| && w[p].dock && w[p].docked == b && w[p].port[0] < n
  }

  lemma GuestsGrow(w: Fleet, b: nat, n: nat)
    requires Mutual(w) && b < |w| && 0 < n <= w[b].numports
    ensures var q := w[b].port[n - 1];
            && (q >= 0 ==> q !in Guests(w, b, n - 1))
            && Guests(w, b, n) == Guests(w, b, n - 1) + if q >= 0 then {q as nat} else {}
  {
    var q := w[b].port[n - 1];
    if q >= 0 {
      HostedBy(w, b, n - 1);
      assert Hosts(w, b, n - 1);
    }
    forall p: nat | p < |w| && w[p].dock && w[p].docked == b && w[p].port[0] == n - 1
      ensures p == q
    {
      assert Moored(w, p);
    }
  }

  lemma NoGuestsBelowZero(w: Fleet, b: nat)
    requires Mutual(w) && b < |w|
    ensures Guests(w, b, 0) == {}
  {
    forall p: nat | p < |w| && w[p].dock && w[p].docked == b
      ensures w[p].port[0] >= 0
    {
      assert Moored(w, p);
    }
  }

  lemma OneMore(s: set<nat>, x: nat)
    requires x !in s
    ensures |s + {x}| == |s| + 1
  {
  }

  /** The count a base keeps is the number of ships docked at it: no guest is counted twice and none
      is missed. */
  lemma {:induction false} GuestCount(w: Fleet, b: nat, n: nat)
    requires Mutual(w) && b < |w| && n <= w[b].numports
    ensures |Guests(w, b, n)| == Occupied(w[b].port, n)
  {
    if n == 0 {
      NoGuestsBelowZero(w, b);
    } else {
      GuestCount(w, b, n - 1);
      GuestsGrow(w, b, n);
      if w[b].port[n - 1] >= 0 {
        OneMore(Guests(w, b, n - 1), w[b].port[n - 1]);
      }
    }
  }

  /** Undocking is the inverse of docking: every other ship, and the base with its count and ports, is
      back as it was. */
  lemma DockThenUndock(w: Fleet, p: nat, b: nat, k: nat)
    requires Mutual(w) && p < |w| && b < |w| && k < w[b].numports && p != b
    requires !w[p].dock && !w[p].Base() && w[b].port[k] == VACANT
    ensures Tied(w, p)
    ensures var d := DockTo(w, p, b, k);
            && Tied(d, p)
            && var r := UndockPlayer(d, p);
               forall i :: 0 <= i < |w| && i != p ==> r[i] == w[i]
  {
    var d := DockTo(w, p, b, k);
    var r := UndockPlayer(d, p);
    assert w[b].port[k := p][k := VACANT] == w[b].port;
    assert r[b] == w[b];
  }
}
