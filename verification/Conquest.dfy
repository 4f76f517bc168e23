/** The shared memory of the daemon as far as planets, armies and planet counts go, updated in place. */
module Conquest {
  import opened Arith
  import opened PlanetSpec
  import opened ConquestRuns
  import opened ConquestSpec

  class Galaxy {
    const planets: array<Planet>
    const ships: array<Crew>
    const sides: array<Side>
    var gameup: bool

    constructor (planets: array<Planet>, ships: array<Crew>, sides: array<Side>)
      requires sides.Length == MAXTEAM + 1
      ensures Valid() && gameup
      ensures this.planets == planets && this.ships == ships && this.sides == sides
    {
      this.planets, this.ships, this.sides, gameup := planets, ships, sides, true;
    }

    predicate Valid() {
      sides.Length == MAXTEAM + 1
    }

    ghost function Value(): (w: World)
      requires Valid()
      reads this, planets, ships, sides
      ensures w.planets == planets[..] && w.ships == ships[..] && w.sides == sides[..] && w.up == gameup
    {
      World(planets[..], ships[..], sides[..], gameup)
    }

    // -------------------------------------------------------------- conquest

    /** Recounts every team's planets in one walk over the planets. */
    method RefreshTeamPlanetCounts()
      requires Valid()
      modifies sides
      ensures sides[..] == Recount(planets[..], old(sides[..]))
    {
      var t := 0;
      while t < sides.Length
        invariant 0 <= t <= sides.Length
        invariant forall u :: 0 <= u < t ==>
          sides[u] == Side(0, old(sides[u].count), old(sides[u].surrender))
        invariant forall u :: t <= u < sides.Length ==> sides[u] == old(sides[u])
      {
        sides[t] := sides[t].(last := sides[t].count);
        sides[t] := sides[t].(count := 0);
        t := t + 1;
      }
      var i := 0;
      while i < planets.Length
        invariant 0 <= i <= planets.Length
        invariant forall u: Team ::
          sides[u] == Side(Owned(planets[..i], u), old(sides[u].count), old(sides[u].surrender))
      {
        assert planets[..i + 1][..i] == planets[..i];
        var owner := planets[i].owner;
        sides[owner] := sides[owner].(count := sides[owner].count + 1);
        i := i + 1;
      }
      assert planets[..i] == planets[..];
    }

    /** The two teams with the most ships, found by comparing and swapping, and whether one of them is
        down to the planets of a conquest. */
    method Genocide(conf: Conf, crews: Crews) returns (t1: Team, t2: Team, genocide: bool)
      requires Valid()
      ensures (t1, t2) == TopTwo(crews)
      ensures genocide == Conquered(sides[..], (t1, t2), conf)
    {
      t1, t2 := FED, ROM;
      var n1, n2 := crews[FED], crews[ROM];
      if n1 < n2 {
        n1, n2 := n2, n1;
        t1, t2 := t2, t1;
      }
      if crews[KLI] > n2 {
        t2, n2 := KLI, crews[KLI];
      }
      if n1 < n2 {
        n1, n2 := n2, n1;
        t1, t2 := t2, t1;
      }
      if crews[ORI] > n2 {
        t2, n2 := ORI, crews[ORI];
      }
      genocide := sides[t1].count <= conf.victoryPlanets || sides[t2].count <= conf.victoryPlanets;
    }

    method CheckSurrender(t: Team, other: int, conf: Conf, crew: int)
      requires Valid()
      modifies sides
      ensures sides[..] ==
              old(sides[..])[t := ConquestSpec.CheckSurrender(old(sides[t]), other, conf, crew)]
    {
      if sides[t].surrender > 0 && (sides[t].count >= conf.surrEnd || sides[t].count * 2 > other) {
        sides[t] := sides[t].(surrender := 0);
      } else if sides[t].surrender == 0 && sides[t].count <= conf.surrStart && sides[t].count * 2 <= other
             && crew >= conf.tournPlayers && sides[t].count < sides[t].last {
        sides[t] := sides[t].(surrender := conf.surrLength);
      }
    }

    method CheckWin(conf: Conf, crews: Crews)
      requires Valid()
      modifies this, sides
      ensures Value() == ConquestSpec.CheckWin(old(Value()), conf, crews)
      ensures Counted(Value())
    {
      CheckWinCounts(Value(), conf, crews);
      RefreshTeamPlanetCounts();
      var t1, t2, genocide := Genocide(conf, crews);
      if sides[t1].count < sides[t2].count {
        t1, t2 := t2, t1;
      }
      SettleSurrender(t1, t2, conf, crews);
      if !genocide {
        return;
      }
      gameup := false;
    }

    /** Moves the surrender clocks of the two sides; a conquest stops both. */
    method SettleSurrender(t1: Team, t2: Team, conf: Conf, crews: Crews)
      requires Valid()
      modifies sides
      ensures sides[..] == Settle(old(sides[..]), (t1, t2), conf, crews)
    {
      var genocide := sides[t1].count <= conf.victoryPlanets || sides[t2].count <= conf.victoryPlanets;
      CheckSurrender(t1, sides[t2].count, conf, crews[t1]);
      CheckSurrender(t2, sides[t1].count, conf, crews[t2]);
      if genocide {
        sides[t1] := sides[t1].(surrender := 0);
        sides[t2] := sides[t2].(surrender := 0);
      }
    }

    /** One team's minute of the surrender clock. */
    method UdSurrend(t: Team, conf: Conf, crews: Crews)
      requires Valid()
      modifies this, sides, planets
      ensures Value() == ConquestSpec.UdSurrend(old(Value()), t, conf, crews)
      ensures Upholds(old(Value()), Value(), conf)
    {
      MinuteUpholds(Value(), t, conf, crews);
      if sides[t].surrender == 0 || crews[t] < conf.tournPlayers {
        return;
      }
      if sides[t].count > conf.surrStart {
        return;
      }
      sides[t] := sides[t].(surrender := sides[t].surrender - 1);
      if sides[t].surrender <= 0 {
        sides[t] := sides[t].(surrender := -1);
        NeutralizeAll(t);
        ghost var w := old(Value());
        assert Value() == w.(sides := w.sides[t := w.sides[t].(surrender := -1)],
                             planets := Collapse(w.planets, t));
        CheckWin(conf, crews);
      }
    }

    method NeutralizeAll(t: Team)
      modifies planets
      ensures planets[..] == Collapse(old(planets[..]), t)
    {
      var i := 0;
      while i < planets.Length
        invariant 0 <= i <= planets.Length
        invariant forall k :: 0 <= k < i ==> planets[k] == Surrendered(old(planets[k]), t)
        invariant forall k :: i <= k < planets.Length ==> planets[k] == old(planets[k])
      {
        if planets[i].owner == t {
          planets[i] := planets[i].(owner := NOBODY, armies := 0);
        }
        i := i + 1;
      }
    }

    // -------------------------------------------------------------- beaming

    method BeamMeUpScotty(j: nat, conf: Conf, t: Turn)
      requires Valid() && j < ships.Length && Crewed(Value())
      modifies this, ships, planets, sides
      ensures Value() == BeamUp(old(Value()), j, conf, t)
    {
      if ships[j].orbit {
        var i := ships[j].at;
        if planets[i].armies == 0 || (!conf.evacuation && planets[i].armies < 5) || t.idle
           || Full(ships[j], t.quota) {
          ships[j] := ships[j].(beamUp := false);
          return;
        }
        if planets[i].owner != ships[j].team {
          return;
        }
        Adjust(j, 1);
        var abandoned := Lift(i, t.clock);
        assert Value() == Load(old(Value()), j, 1, i, LiftArmy(old(planets[i]), t.clock));
        if abandoned {
          CheckWin(conf, t.crews);
        }
      } else if ships[j].dock {
        var b := ships[j].docked;
        if ships[b].armies == 0 || Full(ships[j], t.quota) {
          ships[j] := ships[j].(beamUp := false);
          return;
        }
        Transfer(b, j);
      }
    }

    /** One army leaves planet i; the last one abandons it. */
    method Lift(i: nat, clock: int) returns (abandoned: bool)
      requires i < planets.Length
      modifies planets
      ensures planets[..] == old(planets[..])[i := LiftArmy(old(planets[i]), clock)]
      ensures abandoned == (planets[i].armies == 0)
    {
      planets[i] := WithArmies(planets[i], planets[i].armies - 1);
      planets[i] := NoteArmies(planets[i], planets[i].owner, clock);
      if planets[i].armies == 0 {
        var l := planets[i];
        planets[i] := l.(tinfo := l.tinfo[l.owner := l.tinfo[l.owner].(owner := NOBODY)]);
        planets[i] := planets[i].(owner := NOBODY);
      }
      return planets[i].armies == 0;
    }

    method Adjust(j: nat, delta: int)
      requires j < ships.Length
      modifies ships
      ensures ships[..] == ConquestSpec.Adjust(old(ships[..]), j, delta)
    {
      ships[j] := ships[j].(armies := ships[j].armies + delta);
    }

    method Transfer(from: nat, to: nat)
      requires from < ships.Length && to < ships.Length
      modifies ships
      ensures ships[..] == MoveArmy(old(ships[..]), from, to)
    {
      Adjust(from, -1);
      Adjust(to, 1);
    }

    method BeamDown(j: nat, conf: Conf, t: Turn)
      requires Valid() && j < ships.Length && Crewed(Value())
      modifies this, ships, planets, sides
      ensures Value() == ConquestSpec.BeamDown(old(Value()), j, conf, t)
    {
      if ships[j].armies == 0 {
        return;
      }
      if ships[j].orbit {
        var i := ships[j].at;
        var team := ships[j].team;
        if !t.hostile && team != planets[i].owner && planets[i].owner != NOBODY {
          return;
        }
        Adjust(j, -1);
        if planets[i].owner == team {
          planets[i] := WithArmies(planets[i], planets[i].armies + 1);
          planets[i] := NoteArmies(planets[i], team, t.clock);
          assert Value() == Load(old(Value()), j, -1, i, LandFriend(old(planets[i]), t.clock));
        } else {
          var reckon := Storm(i, team, conf, t.draw, t.clock);
          assert Value() == Load(old(Value()), j, -1, i, LandFoe(old(planets[i]), team, conf, t.draw, t.clock));
          if reckon {
            CheckWin(conf, t.crews);
          }
        }
      } else if ships[j].dock {
        var b := ships[j].docked;
        if ships[b].team != ships[j].team {
          return;
        }
        if ships[b].armies == ships[b].maxArmies {
          return;
        }
        Transfer(j, b);
      }
    }

    /** One army lands on a foreign planet. */
    method Storm(i: nat, team: Team, conf: Conf, draw: real, clock: int) returns (reckon: bool)
      requires i < planets.Length
      modifies planets
      ensures planets[..] == old(planets[..])[i := LandFoe(old(planets[i]), team, conf, draw, clock)]
      ensures reckon == (old(planets[i]).armies <= 0 || planets[i].armies == 0)
    {
      if planets[i].armies > 0 && planets[i].flags.Facilities() && conf.defendFacilities > 0.0 {
        if draw > conf.defendFacilities {
          planets[i] := WithArmies(planets[i], planets[i].armies - 1);
        }
      } else if planets[i].armies > 0 && !planets[i].flags.Facilities() && conf.defendBare > 0.0 {
        if draw > conf.defendBare {
          planets[i] := WithArmies(planets[i], planets[i].armies - 1);
        }
      } else {
        planets[i] := WithArmies(planets[i], planets[i].armies - 1);
      }
      planets[i] := NoteArmies(planets[i], team, clock);
      var l := planets[i];
      planets[i] := l.(tinfo := l.tinfo[l.owner := l.tinfo[l.owner].(armies := l.armies)]);
      if planets[i].armies == 0 {
        planets[i] := Emptied(planets[i], team, clock);
      } else if planets[i].armies < 0 {
        planets[i] := Taken(planets[i], team, clock);
      }
      return l.armies <= 0;
    }

    /** One pass of beaming over all ships. */
    method Beam(conf: Conf, turns: seq<Turn>)
      requires Valid() && |turns| == ships.Length && Crewed(Value())
      modifies this, ships, planets, sides
      ensures Value() == BeamFrom(old(Value()), conf, turns, 0)
      ensures Upholds(old(Value()), Value(), conf)
    {
      BeamFromUpholds(Value(), conf, turns, 0);
      var j := 0;
      while j < ships.Length
        invariant 0 <= j <= ships.Length && Crewed(Value())
        invariant BeamFrom(Value(), conf, turns, j) == BeamFrom(old(Value()), conf, turns, 0)
      {
        BeamKeepsCrews(Value(), j, conf, turns[j]);
        if ships[j].alive && (ships[j].orbit || ships[j].dock) {
          if ships[j].beamUp {
            BeamMeUpScotty(j, conf, turns[j]);
          } else if ships[j].beamDown {
            BeamDown(j, conf, turns[j]);
          }
        }
        j := j + 1;
      }
    }

    // -------------------------------------------------------------- growth

    method GrowPlanets(conf: Conf, bases: seq<int>, clock: int)
      modifies planets
      ensures planets[..] == GrowAll(old(planets[..]), conf, bases, clock)
      ensures old(AllSound(planets[..], conf.grow)) && Sane(conf.grow) ==> AllSound(planets[..], conf.grow)
    {
      if AllSound(planets[..], conf.grow) && Sane(conf.grow) {
        GrowAllSound(planets[..], conf, bases, clock);
      }
      if !conf.resourceBombing {
        return;
      }
      var sbOrbits := BoostOrbited(bases);
      ghost var qs := planets[..];
      var i := 0;
      while i < planets.Length
        invariant 0 <= i <= planets.Length
        invariant forall k :: 0 <= k < i ==> planets[k] == Grow(qs[k], conf, k in bases, clock)
        invariant forall k :: i <= k < planets.Length ==> planets[k] == qs[k]
        invariant forall k :: 0 <= k < planets.Length ==> (sbOrbits[k] <==> k in bases)
      {
        if planets[i].owner != NOBODY {
          var add := planets[i].armies / 2;
          planets[i] := GrowFuel(planets[i], conf.grow, add, clock);
          planets[i] := GrowAgri(planets[i], conf.grow, add, clock);
          GrowFuelSpares(qs[i], conf.grow, add, clock);
          GrowAgriSpares(GrowFuel(qs[i], conf.grow, add, clock), conf.grow, add, clock);
          planets[i] := GrowYard(planets[i], conf, add, sbOrbits[i], clock);
        }
        i := i + 1;
      }
      assert planets[..] == GrowAll(old(planets[..]), conf, bases, clock);
    }

    /** Boosts every planet a starbase orbits, once for each, and marks it. */
    method BoostOrbited(bases: seq<int>) returns (sbOrbits: array<bool>)
      modifies planets
      ensures fresh(sbOrbits) && sbOrbits.Length == planets.Length
      ensures planets[..] == Boosts(old(planets[..]), bases)
      ensures forall i :: 0 <= i < planets.Length ==> (sbOrbits[i] <==> i in bases)
    {
      sbOrbits := new bool[planets.Length](_ => false);
      var n := 0;
      while n < |bases|
        invariant 0 <= n <= |bases|
        invariant Boosts(planets[..], bases[n..]) == Boosts(old(planets[..]), bases)
        invariant forall i :: 0 <= i < planets.Length ==> (sbOrbits[i] <==> i in bases[..n])
      {
        var b := bases[n];
        assert bases[n..][1..] == bases[n + 1..] && bases[n..][0] == b;
        ghost var before := planets[..];
        if 0 <= b < planets.Length {
          planets[b] := Boost(planets[b]);
          assert planets[..] == before[b := Boost(before[b])];
          sbOrbits[b] := true;
        }
        n := n + 1;
      }
      assert bases[n..] == [] && bases[..n] == bases;
    }

    // -------------------------------------------------------------- bombing

    /** Takes facilities off planet i and tells both teams. */
    method BlastResource(i: nat, team: Team, left: Flags, clock: int)
      requires i < planets.Length
      modifies planets
      ensures planets[..] == old(planets[..])[i := Blast(old(planets[i]), team, left, clock)]
    {
      planets[i] := planets[i].(flags := left);
      planets[i] := NoteFlags(planets[i], planets[i].owner, clock);
      planets[i] := NoteFlags(planets[i], team, clock);
      planets[i] := Redrawn(planets[i]);
    }

    /** One bomber's turn; rnd holds the last draw made by anyone, and is drawn anew only for a bomber
        of armies. */
    method PBomb(i: nat, b: Bomber, hostile: bool, conf: Conf, die: int, stale: int, clock: int)
      returns (rnd: int)
      requires i < planets.Length && 0 <= die < 50
      modifies planets
      ensures planets[..] == old(planets[..])[i :=
                Befall(old(planets[i]), conf, Bombing(b, hostile, die, stale), clock)]
      ensures rnd == (if !hostile && old(planets[i]).owner != NOBODY then stale else Draw(b, die, stale))
      ensures old(Sound(planets[i], conf.grow)) && Sane(conf.grow) ==> Sound(planets[i], conf.grow)
    {
      if Sound(planets[i], conf.grow) && Sane(conf.grow) {
        BefallSound(planets[i], conf, Bombing(b, hostile, die, stale), clock);
      }
      rnd := stale;
      if !hostile && planets[i].owner != NOBODY {
        return;
      }
      if b.armies {
        rnd := Knocked(b, die);
        planets[i] := BombArmies(planets[i], b.team, rnd, clock);
        if planets[i].armies > 4 {
          return;
        }
      }
      if !conf.resourceBombing {
        return;
      }
      BombTimers(i, b, conf, rnd, clock);
    }

    method BombTimers(i: nat, b: Bomber, conf: Conf, rnd: int, clock: int)
      requires i < planets.Length
      modifies planets
      ensures planets[..] == old(planets[..])[i := BombFacilities(old(planets[i]), b, conf, rnd, clock)]
    {
      if b.fuel {
        BombTheFuel(i, b.team, Hard(rnd, conf.slowBomb), clock);
      }
      if b.agri {
        BombTheFarms(i, b.team, Soft(rnd, conf.slowBomb), clock);
      }
      if AimsAtYard(b, planets[i].flags) {
        BombTheYard(i, b.team, conf.grow, Hard(rnd, conf.slowBomb), clock);
      }
    }

    method BombTheFuel(i: nat, team: Team, knock: int, clock: int)
      requires i < planets.Length
      modifies planets
      ensures planets[..] == old(planets[..])[i := BombFuel(old(planets[i]), team, knock, clock)]
    {
      planets[i] := planets[i].(tfuel := Max(planets[i].tfuel - knock, 0));
      if planets[i].tfuel == 0 && planets[i].flags.fuel {
        BlastResource(i, team, planets[i].flags.(fuel := false), clock);
      }
    }

    method BombTheFarms(i: nat, team: Team, knock: int, clock: int)
      requires i < planets.Length
      modifies planets
      ensures planets[..] == old(planets[..])[i := BombAgri(old(planets[i]), team, knock, clock)]
    {
      planets[i] := planets[i].(tagri := Max(planets[i].tagri - knock, 0));
      if planets[i].tagri == 0 && planets[i].flags.agri {
        BlastResource(i, team, planets[i].flags.(agri := false), clock);
      }
    }

    method BombTheYard(i: nat, team: Team, g: Growth, knock: int, clock: int)
      requires i < planets.Length
      modifies planets
      ensures planets[..] == old(planets[..])[i := BombYard(old(planets[i]), team, g, knock, clock)]
    {
      planets[i] := planets[i].(tship := Max(planets[i].tship - knock, 0));
      if planets[i].tship < g.repair && planets[i].flags.shipyard {
        BlastResource(i, team, planets[i].flags.(shipyard := false), clock);
      }
      if planets[i].tship == 0 && planets[i].flags.repair {
        BlastResource(i, team, planets[i].flags.(repair := false), clock);
      }
    }

    // -------------------------------------------------------------- popping, revolts, scouts

    method PopOnePlanet1(i: nat, conf: Conf, draw: int, bronco: int, clock: int)
      requires i < planets.Length
      modifies planets
      ensures planets[..] == old(planets[..])[i := PopOne1(old(planets[i]), conf, draw, bronco, clock)]
      ensures old(Sound(planets[i], conf.grow)) && Sane(conf.grow) && 1 <= bronco <= 3 ==> Sound(planets[i], conf.grow)
    {
      if Sound(planets[i], conf.grow) && Sane(conf.grow) && 1 <= bronco <= 3 {
        BefallSound(planets[i], conf, PopOne(draw, bronco), clock);
      }
      if Chance(planets[i].flags) < draw {
        return;
      }
      var m := Mult(planets[i].flags);
      if m >= 0.0 {
        if planets[i].armies >= Cap(planets[i].flags) {
          return;
        }
        var incr := if conf.newArmyGrowth then Loss(m, planets[i].armies) else bronco;
        if planets[i].armies < 4 {
          planets[i] := Redrawn(planets[i]);
        }
        planets[i] := WithArmies(planets[i], planets[i].armies + incr);
        planets[i] := NoteArmies(planets[i], planets[i].owner, clock);
      } else {
        if planets[i].armies < 4 {
          return;
        }
        PopPoison(i, Loss(-m, planets[i].armies), clock);
      }
    }

    method PopPoison(i: nat, decr: int, clock: int)
      requires i < planets.Length
      modifies planets
      ensures planets[..] == old(planets[..])[i := PopDown(old(planets[i]), decr, clock)]
    {
      planets[i] := Redrawn(planets[i]);
      planets[i] := WithArmies(planets[i], planets[i].armies - decr);
      planets[i] := WithArmies(planets[i], if planets[i].armies < 0 then 0 else planets[i].armies);
      if planets[i].armies <= 0 {
        planets[i] := Deserted(planets[i], clock);
      }
      planets[i] := NoteArmies(planets[i], planets[i].owner, clock);
    }

    method PopOnePlanet2(i: nat, conf: Conf, u: real, extra: int, clock: int, crews: Crews)
      requires Valid() && i < planets.Length && 0 <= extra < Spread(planets[i]) && planets[i].armies >= 0
      requires Crewed(Value()) && gameup
      modifies this, planets, sides
      ensures Value() == Do(old(Value()), conf, Spot(i, PopTwo(u, extra), clock, crews))
      ensures Upholds(old(Value()), Value(), conf)
    {
      DoUpholds(Value(), conf, Spot(i, PopTwo(u, extra), clock, crews));
      ghost var w := Value();
      PopTwoDesertsIff(planets[i], u, extra, clock);
      var died := Grow2(i, u, extra, clock);
      assert Value() == Put(w, i, PopOne2(w.planets[i], u, extra, clock));
      if died {
        CheckWin(conf, crews);
      }
    }

    method Grow2(i: nat, u: real, extra: int, clock: int) returns (died: bool)
      requires i < planets.Length && 0 <= extra < Spread(planets[i])
      modifies planets
      ensures planets[..] == old(planets[..])[i := PopOne2(old(planets[i]), u, extra, clock)]
      ensures died == (planets[i].armies == 0)
    {
      var delta := Delta(planets[i], u, extra);
      if planets[i].armies == 0 && delta > 1 {
        delta := 1;
      }
      if delta > 0 && planets[i].armies > Cap(planets[i].flags) {
        delta := 0;
      }
      planets[i] := WithArmies(planets[i], planets[i].armies + delta);
      died := planets[i].armies <= 0;
      if died {
        planets[i] := Deserted(planets[i], clock);
      }
      planets[i] := NoteArmies(planets[i], planets[i].owner, clock);
    }

    method RevoltAt(i: nat, conf: Conf, guarded: bool, chance: int, clock: int, crews: Crews)
      requires Valid() && i < planets.Length && Crewed(Value()) && gameup
      modifies this, planets, sides
      ensures Value() == Do(old(Value()), conf, Spot(i, Unrest(guarded, chance), clock, crews))
      ensures Upholds(old(Value()), Value(), conf)
    {
      DoUpholds(Value(), conf, Spot(i, Unrest(guarded, chance), clock, crews));
      ghost var w := Value();
      if planets[i].armies > 0 && planets[i].owner != NOBODY {
        var lost := Rebel(i, conf, guarded, chance, clock);
        assert planets[..] == w.planets[i := Revolt(w.planets[i], conf, guarded, chance, clock)];
        if lost {
          CheckWin(conf, crews);
        }
      }
    }

    method Rebel(i: nat, conf: Conf, guarded: bool, chance: int, clock: int) returns (lost: bool)
      requires i < planets.Length && planets[i].owner != NOBODY
      modifies planets
      ensures planets[..] == old(planets[..])[i := Revolt(old(planets[i]), conf, guarded, chance, clock)]
      ensures lost == (planets[i].owner != old(planets[i].owner))
    {
      lost := false;
      if !conf.revolts || (!conf.revoltWithFacilities && planets[i].flags.Facilities()) {
        return;
      }
      if planets[i].trevolt > 0 {
        if guarded {
          return;
        }
        planets[i] := planets[i].(trevolt := planets[i].trevolt - 1);
        if planets[i].trevolt == 0 && planets[i].armies > 2 {
          planets[i] := planets[i].(trevolt := 0);
        } else if planets[i].trevolt == 0 && planets[i].armies == 2 {
          planets[i] := planets[i].(trevolt := STARTREV);
          planets[i] := WithArmies(planets[i], planets[i].armies - 1);
          planets[i] := NoteArmies(planets[i], planets[i].owner, clock);
        } else if planets[i].trevolt == 0 {
          planets[i] := Freed(planets[i], clock);
          lost := true;
        }
      } else if planets[i].armies <= 2 && planets[i].armies != 0 && chance <= REVOLT {
        planets[i] := planets[i].(trevolt := STARTREV);
      }
    }

    method ScoutPlanet(i: nat, team: Team, clock: int)
      requires i < planets.Length
      modifies planets
      ensures planets[..] == old(planets[..])[i := Scout(old(planets[i]), team, clock)]
    {
      if planets[i].owner != team {
        var l := planets[i];
        planets[i] := l.(tinfo := l.tinfo[team := TeamInfo(l.owner, l.armies, l.flags, clock)]);
      }
    }
  }
}
