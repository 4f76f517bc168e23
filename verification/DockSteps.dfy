/** The commands and daemon steps that make or break moorings, as functions on the fleet, and what
    every run of them keeps. */
module DockSteps {
  import opened Arith
  import opened DockSpec

  const ALLTEAM: bv8 := 15

  predicate Everybody(s: Ship) {
    true
  }

  // ---------------------------------------------------------------- leaving space

  /** A ship leaves its base, and everybody leaves it. */
  function ClearOut(w: Fleet, p: nat): (r: Fleet)
    requires Mutual(w) && p < |w|
    ensures |r| == |w|
  {
    UndockPlayerMutual(w, p);
    var w1 := UndockPlayer(w, p);
    if w1[p].Base() then
      var w2 := KickFrom(w1, p, Everybody, 0);
      w2[p := w2[p].(docked := 0)]
    else
      w1
  }

  function LeaveSpace(w: Fleet, p: nat, status: Status): (r: Fleet)
    requires Mutual(w) && p < |w|
    ensures |r| == |w|
  {
    var w1 := ClearOut(w, p);
    w1[p := w1[p].(orbit := false, status := status)]
  }

  /** To the outfit screen with no ill effects. */
  function Evaporate(w: Fleet, p: nat): (r: Fleet)
    requires Mutual(w) && p < |w|
    ensures |r| == |w|
  {
    LeaveSpace(w, p, POutfit)
  }

  /** One tick of an explosion; on the last one the ship is dead. */
  function ShipExplode(w: Fleet, p: nat, gone: bool): (r: Fleet)
    requires Mutual(w) && p < |w|
    ensures |r| == |w|
  {
    LeaveSpace(w, p, if gone then PDead else w[p].status)
  }

  // ---------------------------------------------------------------- steering away

  /** A docked ship whose base moves at more than warp 4 stays where it is. */
  predicate HeldFast(w: Fleet, p: nat)
    requires p < |w|
  {
    w[p].dock && 0 <= w[p].docked < |w| && w[w[p].docked].speed > 4
  }

  function SetCourse(w: Fleet, p: nat): (r: Fleet)
    requires Tied(w, p)
    ensures |r| == |w|
  {
    if HeldFast(w, p) then
      w
    else
      var w1 := UndockPlayer(w, p);
      w1[p := w1[p].(orbit := false, dock := false)]
  }

  /** `refused` when the warp request is turned down after the ship has left its base. */
  function SetSpeed(w: Fleet, p: nat, speed: int, refused: bool): (r: Fleet)
    requires Tied(w, p)
    ensures |r| == |w|
  {
    if HeldFast(w, p) then
      w
    else
      var w1 := UndockPlayer(w, p);
      if refused then w1 else w1[p := w1[p].(speed := speed, orbit := false, dock := false)]
  }

  function LeaveOrbit(w: Fleet, p: nat): (r: Fleet)
    requires Tied(w, p)
    ensures |r| == |w|
  {
    var w1 := w[p := w[p].(orbit := false)];
    if HeldFast(w1, p) then w1 else UndockPlayer(w1, p)
  }

  // ---------------------------------------------------------------- docking

  /** The nearest vacant port among the first n, or -1. */
  function NearestVacant(port: seq<int>, n: nat, dist: seq<int>): (k: int)
    requires n <= |port| && n <= |dist|
    ensures -1 <= k < n && (k >= 0 ==> port[k] == VACANT)
  {
    if n == 0 then
      -1
    else
      var best := NearestVacant(port, n - 1, dist);
      if port[n - 1] != VACANT then best
      else if best == -1 || dist[n - 1] < dist[best] then n - 1
      else best
  }

  /** A port is found if and only if one is vacant, and no vacant port is nearer, nor as near with a
      lower number. */
  lemma {:induction false} NearestVacantIsNearest(port: seq<int>, n: nat, dist: seq<int>)
    requires n <= |port| && n <= |dist|
    ensures var k := NearestVacant(port, n, dist);
            && (k == -1 <==> forall j :: 0 <= j < n ==> port[j] != VACANT)
            && forall j :: 0 <= j < n && port[j] == VACANT && j != k ==>
                 k >= 0 && (dist[k] < dist[j] || (dist[k] == dist[j] && k < j))
  {
    if n > 0 {
      NearestVacantIsNearest(port, n - 1, dist);
    }
  }

  /** Dock at the nearest vacant port of b, if b allows docking and has one. */
  function NewDock(w: Fleet, p: nat, b: nat, dist: seq<int>): (r: Fleet)
    requires Tied(w, p) && b < |w| && |dist| == MAXPORTS
    ensures |r| == |w|
  {
    if !w[b].dockOk then
      w
    else
      var k := NearestVacant(w[b].port, w[b].numports, dist);
      if k < 0 then w else DockTo(w, p, b, k)
  }

  predicate Friendly(a: Ship, b: Ship) {
    !AtWar(b.swar | b.hostile, a.team) && !AtWar(a.swar | a.hostile, b.team)
  }

  /** Ship i is a friendly base in space within docking range of p. */
  predicate Dockable(w: Fleet, p: nat, i: nat, near: seq<bool>)
    requires p < |w| && i < |w| && |near| == |w|
  {
    i != p && w[i].Base() && w[i].status.PAlive? && Friendly(w[p], w[i]) && near[i]
  }

  /** The first dockable ship from i on, or |w|. */
  function FirstDockable(w: Fleet, p: nat, i: nat, near: seq<bool>): (r: nat)
    requires p < |w| && i <= |w| && |near| == |w|
    ensures i <= r <= |w| && (r < |w| ==> Dockable(w, p, r, near))
    ensures forall j :: i <= j < r ==> !Dockable(w, p, j, near)
    decreases |w| - i
  {
    if i == |w| || Dockable(w, p, i, near) then i else FirstDockable(w, p, i + 1, near)
  }

  /** The orbit key.  `near` says which ships are in docking range, `locked` that a planet is locked
      on to, and `planet` that a planet can be orbited. */
  function OrbitKey(w: Fleet, p: nat, near: seq<bool>, dist: seq<int>, locked: bool, planet: bool): (r: Fleet)
    requires Tied(w, p) && |near| == |w| && |dist| == MAXPORTS
    ensures |r| == |w|
  {
    if w[p].orbit || w[p].speed > 2 || HeldFast(w, p) then
      w
    else
      var w1 := UndockPlayer(w, p);
      var b := if !locked && w1[p].CanDock() then FirstDockable(w1, p, 0, near) else |w|;
      if b < |w| then NewDock(w1, p, b, dist)
      else if planet then w1[p := w1[p].(orbit := true, speed := 0)]
      else w1
  }

  // ---------------------------------------------------------------- war, permission, refit

  predicate AtWar(mask: bv8, team: bv8) {
    mask & team != 0
  }

  function Warring(mask: bv8): Ship -> bool {
    (s: Ship) => AtWar(mask, s.team)
  }

  function WarMask(s: Ship, mask: bv8): bv8 {
    (mask & ALLTEAM & !s.team) | s.swar
  }

  /** Who leaves on a declaration of war, before the mask itself changes. */
  function WarLeaves(w: Fleet, p: nat, m: bv8): (r: Fleet)
    requires Mutual(w) && p < |w|
    ensures |r| == |w|
  {
    UndockPlayerMutual(w, p);
    if w[p].dock then (if AtWar(m, w[w[p].docked].team) then UndockPlayer(w, p) else w)
    else if w[p].Base() && w[p].docked > 0 then KickFrom(w, p, Warring(m), 0)
    else w
  }

  function DeclareWar(w: Fleet, p: nat, mask: bv8): (r: Fleet)
    requires Mutual(w) && p < |w|
    ensures |r| == |w|
  {
    var m := WarMask(w[p], mask);
    if m ^ w[p].hostile == 0 then
      w
    else
      var w1 := WarLeaves(w, p, m);
      w1[p := w1[p].(hostile := m)]
  }

  /** A base opens or closes its ports; either way everybody is sent off first. */
  function DockPermission(w: Fleet, p: nat, allow: bool): (r: Fleet)
    requires Mutual(w) && p < |w|
    ensures |r| == |w|
  {
    if !w[p].Base() || (w[p].speed > 4 && w[p].docked != 0) then
      w
    else
      var w1 := KickFrom(w, p, Everybody, 0);
      w1[p := w1[p].(docked := 0, dockOk := allow)]
  }

  /** The parts of a ship type that matter for docking. */
  datatype Hull = Hull(numports: nat, undockable: bool, jumpship: bool)

  const AllVacant: seq<int> := [VACANT, VACANT, VACANT, VACANT, VACANT, VACANT]

  /** A new ship; a base starts with all its ports vacant. */
  function GetShip(s: Ship, h: Hull): Ship {
    var s1 := s.(numports := h.numports, undockable := h.undockable, jumpship := h.jumpship, damage := 0);
    if h.numports > 0 then s1.(docked := 0, port := AllVacant) else s1
  }

  /** `yard`: the planet orbited has a shipyard; `refits`: the base docked at can refit; `granted`: the
      ship is fit, empty and allowed to its captain. */
  function Refit(w: Fleet, p: nat, h: Hull, yard: bool, refits: bool, granted: bool): (r: Fleet)
    requires Mutual(w) && p < |w|
    ensures |r| == |w|
  {
    UndockPlayerMutual(w, p);
    var mayRefit :=
      if w[p].orbit then yard
      else if w[p].dock then h.numports == 0 && w[w[p].docked].team == w[p].team && refits
      else false;
    if !mayRefit || !granted then
      w
    else
      var w1 := if w[p].Base() then KickFrom(w, p, Everybody, 0) else w;
      w1[p := GetShip(w1[p], h)]
  }

  // ---------------------------------------------------------------- damage to the ring

  /** A tractor beam rips a docked ship off: its port is ruined, both parties take damage, and either
      may blow up. */
  function TractorOff(w: Fleet, v: nat, victimDies: bool, baseDies: bool): (r: Fleet)
    requires Tied(w, v)
    ensures |r| == |w|
  {
    if w[v].orbit then
      w[v := w[v].(orbit := false)]
    else if w[v].dock then
      var b, k := w[v].docked, w[v].port[0];
      var w1 := UndockPlayer(w, v);
      var w2 := w1[v := Hit(w1[v], victimDies)];
      w2[b := Hit(w2[b], baseDies).(port := w2[b].port[k := PDAMAGE])]
    else
      w
  }

  function Hit(s: Ship, dies: bool): Ship {
    s.(damage := s.damage + DOCKDAMAGE, status := if dies then PExplode else s.status)
  }

  function Damaged(port: seq<int>, n: nat): (d: nat)
    requires n <= |port|
  {
    if n == 0 then 0 else Damaged(port, n - 1) + if port[n - 1] == PDAMAGE then 1 else 0
  }

  /** Ports from i on are repaired while the hull is too sound to account for the ruined ones. */
  function RepairFrom(port: seq<int>, n: nat, i: nat, damaged: int, damage: int): (r: seq<int>)
    requires i <= n <= |port|
    ensures |r| == |port|
    decreases n - i
  {
    if i < n && (damaged - 1) * DOCKDAMAGE + 1 > damage then
      if port[i] == PDAMAGE then
        RepairFrom(port[i := VACANT], n, i + 1, damaged - 1, damage)
      else
        RepairFrom(port, n, i + 1, damaged, damage)
    else
      port
  }

  function RepairRing(w: Fleet, b: nat): (r: Fleet)
    requires Sane(w) && b < |w|
    ensures |r| == |w|
  {
    var s := w[b];
    w[b := s.(port := RepairFrom(s.port, s.numports, 0, Damaged(s.port, s.numports), s.damage))]
  }

  lemma {:induction false} DamagedSet(port: seq<int>, n: nat, k: nat, x: int)
    requires n <= |port| && k < |port|
    ensures Damaged(port[k := x], n) ==
            Damaged(port, n)
            + if k < n then (if x == PDAMAGE then 1 else 0) - (if port[k] == PDAMAGE then 1 else 0) else 0
  {
    if n > 0 {
      DamagedSet(port, n - 1, k, x);
    }
  }

  lemma {:induction false} RepairFromEffect(port: seq<int>, n: nat, i: nat, damage: nat)
    requires i <= n <= |port|
    requires Damaged(port, i) == 0
    ensures var r := RepairFrom(port, n, i, Damaged(port, n), damage);
            && Damaged(r, n) == Min(Damaged(port, n), (damage + DOCKDAMAGE - 1) / DOCKDAMAGE)
            && forall j :: 0 <= j < |port| ==> r[j] == port[j] || (port[j] == PDAMAGE && r[j] == VACANT)
    decreases n - i
  {
    var d := Damaged(port, n);
    if i < n && (d - 1) * DOCKDAMAGE + 1 > damage {
      if port[i] == PDAMAGE {
        DamagedSet(port, n, i, VACANT);
        DamagedSet(port, i + 1, i, VACANT);
        RepairFromEffect(port[i := VACANT], n, i + 1, damage);
      } else {
        RepairFromEffect(port, n, i + 1, damage);
      }
    }
  }

  /** Repair leaves exactly as many ruined ports as the remaining hull damage accounts for, ten points
      each, and never more than there were. */
  lemma RepairRingEffect(w: Fleet, b: nat)
    requires Sane(w) && b < |w| && w[b].damage >= 0
    ensures var s, r := w[b], RepairRing(w, b)[b];
            && Damaged(r.port, s.numports) ==
                 Min(Damaged(s.port, s.numports), (s.damage + DOCKDAMAGE - 1) / DOCKDAMAGE)
            && forall j :: 0 <= j < MAXPORTS ==> r.port[j] == s.port[j] || (s.port[j] == PDAMAGE && r.port[j] == VACANT)
  {
    RepairFromEffect(w[b].port, w[b].numports, 0, w[b].damage);
  }
}
