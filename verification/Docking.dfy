/** The docking code on the shared player array, updated in place. */
module Docking {
  import opened DockSpec
  import opened DockSteps
  import DockRuns

  method UndockPlayer(players: array<Ship>, p: nat) returns (undocked: bool)
    requires p < players.Length && Mutual(players[..])
    modifies players
    ensures Tied(old(players[..]), p)
    ensures players[..] == DockSpec.UndockPlayer(old(players[..]), p)
    ensures undocked == old(players[p].dock)
    ensures Mutual(players[..]) && !players[p].dock
  {
    UndockPlayerMutual(players[..], p);
    if !players[p].dock {
      return false;
    }
    assert Moored(players[..], p);
    var base := players[p].docked;
    var k := players[p].port[0];
    LetGo(players, base, k);
    if players[base].jumpship {
      players[p] := players[p].(jsdock := 1, lastjs := players[p].docked);
    }
    CutLoose(players, p);
    return true;
  }

  /** The base's side of a mooring. */
  method LetGo(players: array<Ship>, base: nat, k: nat)
    requires base < players.Length && |players[base].port| == MAXPORTS && k < MAXPORTS
    modifies players
    ensures players[..] == old(players[..])[base := FreePort(old(players[base]), k)]
  {
    players[base] := players[base].(docked := players[base].docked - 1);
    players[base] := players[base].(port := players[base].port[k := VACANT]);
  }

  /** The ship's side. */
  method CutLoose(players: array<Ship>, p: nat)
    requires p < players.Length && |players[p].port| == MAXPORTS
    modifies players
    ensures players[..] == old(players[..])[p := LeaveBase(old(players[p]), false)]
  {
    players[p] := players[p].(dock := false);
    players[p] := players[p].(docked := -1);
    players[p] := players[p].(port := players[p].port[0 := VACANT]);
  }

  method BaseUndock(players: array<Ship>, base: nat, k: nat) returns (undocked: bool)
    requires base < players.Length && Mutual(players[..]) && k < players[base].numports
    modifies players
    ensures old(players[base]).port[k] < players.Length
    ensures players[..] == DockSpec.BaseUndock(old(players[..]), base, k)
    ensures undocked == (old(players[base]).port[k] >= 0)
    ensures Mutual(players[..]) && players[base].port[k] < 0
  {
    BaseUndockMutual(players[..], base, k);
    if players[base].port[k] < 0 {
      return false;
    }
    assert Hosts(players[..], base, k);
    var p := players[base].port[k];
    LetGo(players, base, k);
    CutLoose(players, p);
    return true;
  }

  method DockTo(players: array<Ship>, p: nat, base: nat, k: nat)
    requires p < players.Length && base < players.Length && Mutual(players[..]) && k < players[base].numports
    modifies players
    ensures Tied(old(players[..]), p)
    ensures players[..] == DockSpec.DockTo(old(players[..]), p, base, k)
    ensures old(p != base && !players[p].Base() && !players[p].orbit && players[base].port[k] == VACANT) ==>
              Mutual(players[..])
  {
    ghost var w := players[..];
    UndockPlayerMutual(w, p);
    var _ := UndockPlayer(players, p);
    TieUp(players, p, base, k);
    if p != base && !w[p].Base() && !w[p].orbit && w[base].port[k] == VACANT {
      DockToMutual(w, p, base, k);
    }
  }

  /** Both sides point at each other. */
  method TieUp(players: array<Ship>, p: nat, base: nat, k: nat)
    requires p < players.Length && base < players.Length && Sane(players[..]) && k < MAXPORTS
    modifies players
    ensures players[..] == Tie(old(players[..]), p, base, k)
  {
    players[base] := players[base].(docked := players[base].docked + 1);
    players[base] := players[base].(port := players[base].port[k := p]);
    players[p] := players[p].(dock := true, docked := base, port := players[p].port[0 := k], speed := 0);
  }

  /** Sends off every guest chosen by `who`. */
  method Kick(players: array<Ship>, base: nat, who: Ship -> bool)
    requires base < players.Length && Mutual(players[..])
    modifies players
    ensures players[..] == KickFrom(old(players[..]), base, who, 0)
    ensures Mutual(players[..])
  {
    ghost var w := players[..];
    var k := 0;
    while k < players[base].numports
      invariant Mutual(players[..]) && players[base].numports == w[base].numports
      invariant 0 <= k <= w[base].numports
      invariant KickFrom(players[..], base, who, k) == KickFrom(w, base, who, 0)
      decreases w[base].numports - k
    {
      KickPort(players, base, who, k);
      k := k + 1;
    }
  }

  method KickPort(players: array<Ship>, base: nat, who: Ship -> bool, k: nat)
    requires base < players.Length && Mutual(players[..]) && k < players[base].numports
    modifies players
    ensures players[..] == KickOne(old(players[..]), base, who, k)
    ensures Mutual(players[..]) && players[base].numports == old(players[base]).numports
    ensures KickFrom(players[..], base, who, k + 1) == KickFrom(old(players[..]), base, who, k)
  {
    BaseUndockMutual(players[..], base, k);
    if players[base].port[k] >= 0 && who(players[players[base].port[k]]) {
      var _ := BaseUndock(players, base, k);
    }
  }

  method ClearOut(players: array<Ship>, p: nat)
    requires p < players.Length && Mutual(players[..])
    modifies players
    ensures players[..] == DockSteps.ClearOut(old(players[..]), p)
    ensures Mutual(players[..]) && !Involved(players[..], p)
  {
    DockRuns.ClearOutEffect(players[..], p);
    UndockPlayerMutual(players[..], p);
    var _ := UndockPlayer(players, p);
    if players[p].numports > 0 {
      Kick(players, p, Everybody);
      players[p] := players[p].(docked := 0);
    }
  }

  method Evaporate(players: array<Ship>, p: nat)
    requires p < players.Length && Mutual(players[..])
    modifies players
    ensures players[..] == DockSteps.Evaporate(old(players[..]), p)
    ensures Mutual(players[..]) && !Involved(players[..], p)
    ensures old(InSpace(players[..])) ==> InSpace(players[..])
  {
    DockRuns.LeaveSpaceKeeps(players[..], p, POutfit);
    ClearOut(players, p);
    if players[p].orbit {
      players[p] := players[p].(orbit := false);
    }
    players[p] := players[p].(status := POutfit);
  }

  /** One tick of an explosion; `views` is the countdown after this tick. */
  method ShipExplode(players: array<Ship>, p: nat, views: int)
    requires p < players.Length && Mutual(players[..])
    modifies players
    ensures players[..] == DockSteps.ShipExplode(old(players[..]), p, views <= 0)
    ensures Mutual(players[..]) && !Involved(players[..], p)
    ensures old(InSpace(players[..])) ==> InSpace(players[..])
  {
    DockRuns.LeaveSpaceKeeps(players[..], p, if views <= 0 then PDead else players[p].status);
    ghost var status := players[p].status;
    ghost var w := players[..];
    ClearOutStatus(w, p);
    ClearOut(players, p);
    if players[p].orbit {
      players[p] := players[p].(orbit := false);
    }
    if views <= 0 {
      players[p] := players[p].(status := PDead);
    }
  }

  lemma ClearOutStatus(w: Fleet, p: nat)
    requires Mutual(w) && p < |w|
    ensures DockSteps.ClearOut(w, p)[p].status == w[p].status
  {
    UndockPlayerMutual(w, p);
    var w1 := DockSpec.UndockPlayer(w, p);
    if w1[p].Base() {
      KickFromGuests(w1, p, Everybody, 0);
    }
  }

  /** The nearest vacant port of a base, searched from port 0 up. */
  method NearestPort(base: Ship, dist: seq<int>) returns (k: int)
    requires |base.port| == MAXPORTS && base.numports <= MAXPORTS && |dist| == MAXPORTS
    ensures k == NearestVacant(base.port, base.numports, dist)
  {
    k := -1;
    var best := 0;
    for i := 0 to base.numports
      invariant -1 <= k < i
      invariant k == NearestVacant(base.port, i, dist)
      invariant k >= 0 ==> best == dist[k]
    {
      if base.port[i] == VACANT {
        if k == -1 || dist[i] < best {
          k := i;
          best := dist[i];
        }
      }
    }
  }

  method NewDock(players: array<Ship>, p: nat, base: nat, dist: seq<int>)
    requires p < players.Length && base < players.Length && Mutual(players[..]) && |dist| == MAXPORTS
    modifies players
    ensures Tied(old(players[..]), p)
    ensures players[..] == DockSteps.NewDock(old(players[..]), p, base, dist)
    ensures old(p != base && !players[p].Base() && !players[p].orbit && !players[p].dock) ==> Mutual(players[..])
  {
    if p != base && !players[p].Base() && !players[p].orbit && !players[p].dock {
      DockRuns.NewDockKeeps(players[..], p, base, dist);
    }
    UndockPlayerMutual(players[..], p);
    if !players[base].dockOk {
      return;
    }
    var k := NearestPort(players[base], dist);
    if k < 0 {
      return;
    }
    DockTo(players, p, base, k);
  }

  method OrbitKey(players: array<Ship>, p: nat, near: seq<bool>, dist: seq<int>, locked: bool, planet: bool)
    requires p < players.Length && Mutual(players[..]) && |near| == players.Length && |dist| == MAXPORTS
    modifies players
    ensures Tied(old(players[..]), p)
    ensures players[..] == DockSteps.OrbitKey(old(players[..]), p, near, dist, locked, planet)
    ensures Mutual(players[..])
    ensures old(InSpace(players[..]) && players[p].Present()) ==> InSpace(players[..])
  {
    ghost var w := players[..];
    UndockPlayerMutual(w, p);
    DockRuns.OrbitKeyKeeps(w, p, near, dist, locked, planet);
    if players[p].orbit || players[p].speed > 2 {
      return;
    }
    if players[p].dock && players[players[p].docked].speed > 4 {
      return;
    }
    var _ := UndockPlayer(players, p);
    var found := false;
    if !locked && players[p].CanDock() {
      found := DockNearby(players, p, near, dist);
    }
    if !found && planet {
      players[p] := players[p].(orbit := true, speed := 0);
    }
  }

  /** Docks at the first base in range that takes the ship's side, if there is one. */
  method DockNearby(players: array<Ship>, p: nat, near: seq<bool>, dist: seq<int>) returns (found: bool)
    requires p < players.Length && Mutual(players[..]) && |near| == players.Length && |dist| == MAXPORTS
    modifies players
    ensures Tied(old(players[..]), p)
    ensures var w := old(players[..]);
      var b := FirstDockable(w, p, 0, near);
      found == (b < |w|) && players[..] == if found then DockSteps.NewDock(w, p, b, dist) else w
  {
    ghost var w := players[..];
    UndockPlayerMutual(w, p);
    var i := 0;
    while i < players.Length
      invariant 0 <= i <= players.Length && players[..] == w
      invariant FirstDockable(w, p, 0, near) == FirstDockable(w, p, i, near)
    {
      if i != p && players[i].numports > 0 && players[i].status.PAlive?
         && Friendly(players[p], players[i]) && near[i] {
        NewDock(players, p, i, dist);
        return true;
      }
      i := i + 1;
    }
    return false;
  }

  method SetCourse(players: array<Ship>, p: nat)
    requires p < players.Length && Mutual(players[..])
    modifies players
    ensures Tied(old(players[..]), p)
    ensures players[..] == DockSteps.SetCourse(old(players[..]), p)
    ensures Mutual(players[..])
    ensures old(InSpace(players[..])) ==> InSpace(players[..])
  {
    DockRuns.SteeringKeeps(players[..], p, 0, false);
    UndockPlayerMutual(players[..], p);
    if players[p].dock {
      if players[players[p].docked].speed > 4 {
        return;
      } else {
        var _ := UndockPlayer(players, p);
      }
    }
    players[p] := players[p].(orbit := false, dock := false);
  }

  method SetSpeed(players: array<Ship>, p: nat, speed: int, refused: bool)
    requires p < players.Length && Mutual(players[..])
    modifies players
    ensures Tied(old(players[..]), p)
    ensures players[..] == DockSteps.SetSpeed(old(players[..]), p, speed, refused)
    ensures Mutual(players[..])
    ensures old(InSpace(players[..])) ==> InSpace(players[..])
  {
    DockRuns.SteeringKeeps(players[..], p, speed, refused);
    UndockPlayerMutual(players[..], p);
    if players[p].dock {
      if players[players[p].docked].speed > 4 {
        return;
      } else {
        var _ := UndockPlayer(players, p);
      }
    }
    if refused {
      return;
    }
    players[p] := players[p].(speed := speed, orbit := false, dock := false);
  }

  method DeclareWar(players: array<Ship>, p: nat, mask: bv8)
    requires p < players.Length && Mutual(players[..])
    modifies players
    ensures players[..] == DockSteps.DeclareWar(old(players[..]), p, mask)
    ensures Mutual(players[..])
    ensures old(InSpace(players[..])) ==> InSpace(players[..])
  {
    ghost var w := players[..];
    var m := WarMask(players[p], mask);
    DockRuns.MasksDiffer(m, players[p].hostile);
    if m ^ players[p].hostile == 0 {
      return;
    }
    DockRuns.WarIsDeclared(w, p, mask);
    DockRuns.DeclareWarKeeps(w, p, mask);
    GoToWar(players, p, m);
  }

  /** Parts from whoever is an enemy under the new mask, and takes it. */
  method GoToWar(players: array<Ship>, p: nat, m: bv8)
    requires p < players.Length && Mutual(players[..])
    modifies players
    ensures var w1 := WarLeaves(old(players[..]), p, m);
      players[..] == w1[p := w1[p].(hostile := m)]
  {
    PartWarring(players, p, m);
    players[p] := players[p].(hostile := m);
  }

  method PartWarring(players: array<Ship>, p: nat, m: bv8)
    requires p < players.Length && Mutual(players[..])
    modifies players
    ensures players[..] == WarLeaves(old(players[..]), p, m)
    ensures Mutual(players[..])
  {
    DockRuns.WarLeavesKeeps(players[..], p, m);
    UndockPlayerMutual(players[..], p);
    if players[p].dock {
      assert Moored(players[..], p);
      if AtWar(m, players[players[p].docked].team) {
        var _ := UndockPlayer(players, p);
      }
    } else if players[p].numports > 0 {
      if players[p].docked > 0 {
        Kick(players, p, Warring(m));
      }
    }
  }

  method DockPermission(players: array<Ship>, p: nat, allow: bool)
    requires p < players.Length && Mutual(players[..])
    modifies players
    ensures players[..] == DockSteps.DockPermission(old(players[..]), p, allow)
    ensures Mutual(players[..])
    ensures old(InSpace(players[..])) ==> InSpace(players[..])
  {
    ghost var w := players[..];
    if players[p].numports > 0 {
      if players[p].speed > 4 && players[p].docked != 0 {
        return;
      }
      Kick(players, p, Everybody);
      players[p] := players[p].(docked := 0);
      players[p] := players[p].(dockOk := allow);
      DockRuns.DockPermissionKeeps(w, p, allow);
    }
  }

  method Refit(players: array<Ship>, p: nat, h: Hull, yard: bool, refits: bool, granted: bool)
    requires p < players.Length && Mutual(players[..]) && h.numports <= MAXPORTS
    modifies players
    ensures players[..] == DockSteps.Refit(old(players[..]), p, h, yard, refits, granted)
    ensures Mutual(players[..])
    ensures old(InSpace(players[..])) ==> InSpace(players[..])
  {
    DockRuns.RefitKeeps(players[..], p, h, yard, refits, granted);
    UndockPlayerMutual(players[..], p);
    if players[p].orbit {
      if !yard {
        return;
      }
    } else if players[p].dock {
      if h.numports > 0 || players[players[p].docked].team != players[p].team || !refits {
        return;
      }
    } else {
      return;
    }
    if !granted {
      return;
    }
    if players[p].numports > 0 {
      Kick(players, p, Everybody);
    }
    players[p] := GetShip(players[p], h);
  }

  method TractorOff(players: array<Ship>, v: nat, victimDies: bool, baseDies: bool)
    requires v < players.Length && Mutual(players[..])
    modifies players
    ensures Tied(old(players[..]), v)
    ensures players[..] == DockSteps.TractorOff(old(players[..]), v, victimDies, baseDies)
    ensures Mutual(players[..])
    ensures old(InSpace(players[..])) ==> InSpace(players[..])
  {
    DockRuns.TractorOffKeeps(players[..], v, victimDies, baseDies);
    UndockPlayerMutual(players[..], v);
    if players[v].orbit {
      players[v] := players[v].(orbit := false);
    } else if players[v].dock {
      assert Moored(players[..], v);
      var base := players[v].docked;
      var k := players[v].port[0];
      var _ := UndockPlayer(players, v);
      players[v] := Hit(players[v], victimDies);
      players[base] := Hit(players[base], baseDies);
      players[base] := players[base].(port := players[base].port[k := PDAMAGE]);
    }
  }

  method RepairDockingRing(players: array<Ship>, b: nat)
    requires b < players.Length && Sane(players[..])
    modifies players
    ensures players[..] == RepairRing(old(players[..]), b)
    ensures old(Mutual(players[..]) && players[b].Base()) ==> Mutual(players[..])
  {
    ghost var w := players[..];
    ghost var s := players[b];
    assert players[..][b] == s;
    var damaged := 0;
    for i := 0 to players[b].numports
      invariant damaged == Damaged(s.port, i)
    {
      if players[b].port[i] == PDAMAGE {
        damaged := damaged + 1;
      }
    }
    var i := 0;
    while (damaged - 1) * DOCKDAMAGE + 1 > players[b].damage && i < players[b].numports
      invariant 0 <= i <= s.numports && |players[b].port| == MAXPORTS
      invariant players[b] == s.(port := players[b].port)
      invariant forall j :: 0 <= j < players.Length && j != b ==> players[j] == old(players[j])
      invariant RepairFrom(players[b].port, s.numports, i, damaged, s.damage) ==
                RepairFrom(s.port, s.numports, 0, Damaged(s.port, s.numports), s.damage)
      decreases s.numports - i
    {
      if players[b].port[i] == PDAMAGE {
        players[b] := players[b].(port := players[b].port[i := VACANT]);
        damaged := damaged - 1;
      }
      i := i + 1;
    }
    assert players[..] == RepairRing(w, b);
    if Mutual(w) && w[b].Base() {
      DockRuns.RepairRingKeeps(w, b);
    }
  }
}
