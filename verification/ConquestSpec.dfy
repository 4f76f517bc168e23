/** The planets, the ships that carry armies, and the teams that count planets, on values: one step of
    the daemon at a time, over whole runs. */
module ConquestSpec {
  import opened PlanetSpec

  /** The fields of a player slot that beaming reads or writes. */
  datatype Crew = Crew(
    team: Team, armies: int, maxArmies: int, needKill: bool,
    alive: bool, orbit: bool, dock: bool, at: int, docked: int,
    beamUp: bool, beamDown: bool)

  /** A team's planet count, the count before that, and its surrender clock. */
  datatype Side = Side(count: int, last: int, surrender: int)

  type Sides = s: seq<Side> | |s| == MAXTEAM + 1
    witness [NONE, NONE, NONE, NONE, NONE, NONE, NONE, NONE, NONE]
  const NONE := Side(0, 0, 0)

  /** The number of real ships on each team. */
  type Crews = s: seq<int> | |s| == MAXTEAM + 1
    witness [0, 0, 0, 0, 0, 0, 0, 0, 0]

  datatype World = World(planets: seq<Planet>, ships: seq<Crew>, sides: Sides, up: bool)

  // ---------------------------------------------------------------- counting planets

  function Owned(ps: seq<Planet>, t: Team): (n: nat)
    ensures n <= |ps|
  {
    if ps == [] then 0 else Owned(ps[..|ps| - 1], t) + if ps[|ps| - 1].owner == t then 1 else 0
  }

  ghost predicate Counted(w: World) {
    forall t: Team :: w.sides[t].count == Owned(w.planets, t)
  }

  function Recount(ps: seq<Planet>, sides: Sides): (r: Sides)
    ensures forall t: Team :: r[t] == Side(Owned(ps, t), sides[t].count, sides[t].surrender)
  {
    seq(MAXTEAM + 1, t requires 0 <= t <= MAXTEAM => Side(Owned(ps, t), sides[t].count, sides[t].surrender))
  }

  // ---------------------------------------------------------------- the end of the game

  const FED: Team := 1
  const ROM: Team := 2
  const KLI: Team := 4
  const ORI: Team := 8

  /** The two teams with the most ships. */
  function TopTwo(n: Crews): (p: (Team, Team))
  {
    var p := if n[FED] < n[ROM] then (ROM, FED) else (FED, ROM);
    var q := if n[KLI] > n[p.1] then (p.0, KLI) else p;
    var r := if n[q.0] < n[q.1] then (q.1, q.0) else q;
    if n[ORI] > n[r.1] then (r.0, ORI) else r
  }

  function CheckSurrender(s: Side, other: int, conf: Conf, crew: int): Side {
    if s.surrender > 0 && (s.count >= conf.surrEnd || s.count * 2 > other) then s.(surrender := 0)
    else if s.surrender == 0 && s.count <= conf.surrStart && s.count * 2 <= other
            && crew >= conf.tournPlayers && s.count < s.last
    then s.(surrender := conf.surrLength)
    else s
  }

  function Ordered(sides: Sides, p: (Team, Team)): (Team, Team) {
    if sides[p.0].count < sides[p.1].count then (p.1, p.0) else p
  }

  predicate Conquered(sides: Sides, p: (Team, Team), conf: Conf) {
    sides[p.0].count <= conf.victoryPlanets || sides[p.1].count <= conf.victoryPlanets
  }

  /** Moves the surrender clocks of the two sides. */
  function Settle(sides: Sides, p: (Team, Team), conf: Conf, crews: Crews): (r: Sides)
    ensures forall t: Team :: r[t].count == sides[t].count
  {
    var s1 := sides[p.0 := CheckSurrender(sides[p.0], sides[p.1].count, conf, crews[p.0])];
    var s2 := s1[p.1 := CheckSurrender(s1[p.1], s1[p.0].count, conf, crews[p.1])];
    if Conquered(sides, p, conf)
    then s2[p.0 := s2[p.0].(surrender := 0)][p.1 := s2[p.1].(surrender := 0)] else s2
  }

  /** Recounts the planets, moves the surrender clocks and ends the game if one side is down to the
      planets of a conquest. */
  function CheckWin(w: World, conf: Conf, crews: Crews): World {
    var counted := Recount(w.planets, w.sides);
    var p := Ordered(counted, TopTwo(crews));
    w.(sides := Settle(counted, p, conf, crews), up := w.up && !Conquered(counted, p, conf))
  }

  // ---------------------------------------------------------------- beaming

  ghost predicate Crewed(w: World) {
    forall j {:trigger w.ships[j]} :: 0 <= j < |w.ships| ==>
      && 0 <= w.ships[j].armies <= w.ships[j].maxArmies
      && (w.ships[j].orbit ==> 0 <= w.ships[j].at < |w.planets|)
      && (w.ships[j].dock ==> 0 <= w.ships[j].docked < |w.ships| && w.ships[j].docked != j)
  }

  /** The draws of one turn of one ship at beaming: quota is the number of armies its kills allow, idle
      says a league game has not begun, hostile that the ship is at war with the planet's owner. */
  datatype Turn = Turn(quota: int, idle: bool, hostile: bool, draw: real, clock: int, crews: Crews)

  predicate Full(s: Crew, quota: int) {
    s.armies >= s.maxArmies || (s.needKill && s.armies >= quota)
  }

  function Adjust(ships: seq<Crew>, j: nat, delta: int): (r: seq<Crew>)
    requires j < |ships|
    ensures |r| == |ships|
  {
    ships[j := ships[j].(armies := ships[j].armies + delta)]
  }

  function MoveArmy(ships: seq<Crew>, from: nat, to: nat): (r: seq<Crew>)
    requires from < |ships| && to < |ships|
    ensures |r| == |ships|
  {
    Adjust(Adjust(ships, from, -1), to, 1)
  }

  function StopBeam(w: World, j: nat): World
    requires j < |w.ships|
  {
    w.(ships := w.ships[j := w.ships[j].(beamUp := false)])
  }

  function Load(w: World, j: nat, delta: int, i: nat, p: Planet): World
    requires j < |w.ships| && i < |w.planets|
  {
    w.(ships := Adjust(w.ships, j, delta), planets := w.planets[i := p])
  }

  function BeamUp(w: World, j: nat, conf: Conf, t: Turn): World
    requires j < |w.ships| && Crewed(w)
  {
    var s := w.ships[j];
    if s.orbit then
      var l := w.planets[s.at];
      if l.armies == 0 || (!conf.evacuation && l.armies < 5) || t.idle || Full(s, t.quota) then StopBeam(w, j)
      else if l.owner != s.team then w
      else
        var q := LiftArmy(l, t.clock);
        var v := Load(w, j, 1, s.at, q);
        if q.armies == 0 then CheckWin(v, conf, t.crews) else v
    else if s.dock then
      if w.ships[s.docked].armies == 0 || Full(s, t.quota) then StopBeam(w, j)
      else w.(ships := MoveArmy(w.ships, s.docked, j))
    else w
  }

  function BeamDown(w: World, j: nat, conf: Conf, t: Turn): World
    requires j < |w.ships| && Crewed(w)
  {
    var s := w.ships[j];
    if s.armies == 0 then w
    else if s.orbit then
      var l := w.planets[s.at];
      if !t.hostile && s.team != l.owner && l.owner != NOBODY then w
      else if l.owner == s.team then Load(w, j, -1, s.at, LandFriend(l, t.clock))
      else
        var q := LandFoe(l, s.team, conf, t.draw, t.clock);
        var v := Load(w, j, -1, s.at, q);
        if l.armies <= 0 || q.armies == 0 then CheckWin(v, conf, t.crews) else v
    else if s.dock then
      var b := w.ships[s.docked];
      if b.team != s.team || b.armies == b.maxArmies then w
      else w.(ships := MoveArmy(w.ships, j, s.docked))
    else w
  }

  function Beam(w: World, j: nat, conf: Conf, t: Turn): World
    requires j < |w.ships| && Crewed(w)
  {
    var s := w.ships[j];
    if !s.alive || (!s.orbit && !s.dock) then w
    else if s.beamUp then BeamUp(w, j, conf, t)
    else if s.beamDown then BeamDown(w, j, conf, t)
    else w
  }

  // ---------------------------------------------------------------- the other steps

  function Boosts(ps: seq<Planet>, bases: seq<int>): (r: seq<Planet>)
    ensures |r| == |ps|
    decreases bases
  {
    if bases == [] then ps
    else
      var b := bases[0];
      Boosts(if 0 <= b < |ps| then ps[b := Boost(ps[b])] else ps, bases[1..])
  }

  /** growplanets: bases holds, for each player flying a starbase in orbit, the planet it orbits. */
  function GrowAll(ps: seq<Planet>, conf: Conf, bases: seq<int>, clock: int): (r: seq<Planet>)
    ensures |r| == |ps|
  {
    if !conf.resourceBombing then ps
    else
      var qs := Boosts(ps, bases);
      seq(|ps|, i requires 0 <= i < |ps| => Grow(qs[i], conf, i in bases, clock))
  }

  function Collapse(ps: seq<Planet>, t: Team): (r: seq<Planet>)
    ensures |r| == |ps|
  {
    seq(|ps|, i requires 0 <= i < |ps| => Surrendered(ps[i], t))
  }

  /** One minute of one team's surrender clock. */
  function UdSurrend(w: World, t: Team, conf: Conf, crews: Crews): World {
    var s := w.sides[t];
    if s.surrender == 0 || crews[t] < conf.tournPlayers || s.count > conf.surrStart then w
    else if s.surrender - 1 <= 0 then
      CheckWin(w.(sides := w.sides[t := s.(surrender := -1)], planets := Collapse(w.planets, t)), conf, crews)
    else w.(sides := w.sides[t := s.(surrender := s.surrender - 1)])
  }

  /** What can befall a single planet. */
  datatype Deed =
    | Bombing(bomber: Bomber, hostile: bool, die: int, stale: int)
    | PopOne(draw: int, bronco: int)
    | PopTwo(u: real, extra: int)
    | Unrest(guarded: bool, chance: int)
    | Scouting(team: Team)
    | Marking(redraw: bool)

  /** Draws are in range.  A bomber of armies rolls a die; any other bomber uses whatever its variable
      holds (stale). */
  predicate Fair(p: Planet, d: Deed) {
    match d
    case Bombing(_, _, die, _) => 0 <= die < 50
    case PopOne(_, bronco) => 1 <= bronco <= 3
    case PopTwo(_, extra) => 0 <= extra < Spread(p)
    case Unrest(_, _) => true
    case Scouting(_) => true
    case Marking(_) => true
  }

  function Draw(b: Bomber, die: int, stale: int): int
    requires 0 <= die < 50
  {
    if b.armies then Knocked(b, die) else stale
  }

  function Befall(p: Planet, conf: Conf, d: Deed, clock: int): Planet
    requires Fair(p, d)
  {
    match d
    case Bombing(b, hostile, die, stale) =>
      if !hostile && p.owner != NOBODY then p else Bomb(p, b, conf, Draw(b, die, stale), clock)
    case PopOne(draw, bronco) => PopOne1(p, conf, draw, bronco, clock)
    case PopTwo(u, extra) => PopOne2(p, u, extra, clock)
    case Unrest(guarded, chance) => CheckRevolt(p, conf, guarded, chance, clock)
    case Scouting(t) => Scout(p, t, clock)
    case Marking(redraw) => if redraw then Redrawn(p) else Undrawn(p)
  }

  /** The branches that go on to checkwin: a planet that died out, and one that freed itself. */
  predicate Reckons(p: Planet, q: Planet, d: Deed) {
    (d.PopTwo? && q.armies == 0) || (d.Unrest? && p.owner != q.owner)
  }

  /** Where a ship is and which way it is beaming. */
  datatype Course = Course(orbit: bool, at: int, dock: bool, docked: int, beamUp: bool, beamDown: bool)

  function Steered(s: Crew, c: Course): Crew {
    s.(orbit := c.orbit, at := c.at, dock := c.dock, docked := c.docked, beamUp := c.beamUp, beamDown := c.beamDown)
  }

  /** A ship in orbit orbits a planet, and a docked ship is docked on another ship. */
  predicate Placed(w: World, j: nat, s: Crew) {
    && (s.orbit ==> 0 <= s.at < |w.planets|)
    && (s.dock ==> 0 <= s.docked < |w.ships| && s.docked != j)
  }

  /** Beside beaming and what befalls planets, a run flies the ships: Maneuver moves ship j and sets its
      beam keys, Casualty kills n of the armies it carries, and Replace puts another ship in its slot, one
      that has died or a new one; either carries no army.  A ship that outlives a hit has lost no more than
      it carried (`SurvivorKeepsCargo` in Damage). */
  datatype Step =
    | BeamTurn(j: nat, turn: Turn)
    | Maneuver(j: nat, course: Course)
    | Casualty(j: nat, n: int)
    | Replace(j: nat, ship: Crew)
    | Spot(i: nat, deed: Deed, clock: int, crews: Crews)
    | Growing(bases: seq<int>, clock: int)
    | Minute(team: Team, crews: Crews)
    | Reckoning(crews: Crews)

  predicate Legal(w: World, s: Step) {
    match s
    case BeamTurn(j, _) => j < |w.ships|
    case Maneuver(j, c) => j < |w.ships| && Placed(w, j, Steered(w.ships[j], c))
    case Casualty(j, n) => j < |w.ships| && 0 <= n <= w.ships[j].armies
    case Replace(j, s) => j < |w.ships| && Placed(w, j, s) && s.armies == 0 <= s.maxArmies
    case Spot(i, d, _, _) => i < |w.planets| && Fair(w.planets[i], d)
    case Growing(_, _) => true
    case Minute(_, _) => true
    case Reckoning(_) => true
  }

  function Put(w: World, i: nat, p: Planet): World
    requires i < |w.planets|
  {
    w.(planets := w.planets[i := p])
  }

  function PutShip(w: World, j: nat, s: Crew): World
    requires j < |w.ships|
  {
    w.(ships := w.ships[j := s])
  }

  function Do(w: World, conf: Conf, s: Step): World
    requires Legal(w, s) && Crewed(w)
  {
    if !w.up then w else
    match s
    case BeamTurn(j, t) => Beam(w, j, conf, t)
    case Maneuver(j, c) => PutShip(w, j, Steered(w.ships[j], c))
    case Casualty(j, n) => w.(ships := Adjust(w.ships, j, -n))
    case Replace(j, ship) => PutShip(w, j, ship)
    case Spot(i, d, clock, crews) =>
      var q := Befall(w.planets[i], conf, d, clock);
      if Reckons(w.planets[i], q, d) then CheckWin(Put(w, i, q), conf, crews) else Put(w, i, q)
    case Growing(bases, clock) => w.(planets := GrowAll(w.planets, conf, bases, clock))
    case Minute(t, crews) => UdSurrend(w, t, conf, crews)
    case Reckoning(crews) => CheckWin(w, conf, crews)
  }

  ghost predicate LegalRun(w: World, conf: Conf, run: seq<Step>)
    requires Crewed(w)
    decreases run
  {
    run == [] || (Legal(w, run[0]) &&
                  (CrewsKept(w, conf, run[0]); LegalRun(Do(w, conf, run[0]), conf, run[1..])))
  }

  function Run(w: World, conf: Conf, run: seq<Step>): World
    requires Crewed(w) && LegalRun(w, conf, run)
    decreases run
  {
    if run == [] then w
    else CrewsKept(w, conf, run[0]); Run(Do(w, conf, run[0]), conf, run[1..])
  }

  // ---------------------------------------------------------------- what a recount does

  lemma CheckWinCounts(w: World, conf: Conf, crews: Crews)
    ensures Counted(CheckWin(w, conf, crews))
    ensures CheckWin(w, conf, crews).planets == w.planets && CheckWin(w, conf, crews).ships == w.ships
  {
  }

  /** The two sides of the game are the two with the most ships. */
  lemma TopTwoAreLargest(n: Crews, t: Team)
    requires t == FED || t == ROM || t == KLI || t == ORI
    ensures var p := TopTwo(n);
      && p.0 != p.1
      && p.0 in {FED, ROM, KLI, ORI} && p.1 in {FED, ROM, KLI, ORI}
      && (t == p.0 || t == p.1 || (n[t] <= n[p.0] && n[t] <= n[p.1]))
  {
  }

  // ---------------------------------------------------------------- no ship overfilled, ever

  lemma CrewsKept(w: World, conf: Conf, s: Step)
    requires Crewed(w) && Legal(w, s)
    ensures Crewed(Do(w, conf, s))
    ensures |Do(w, conf, s).planets| == |w.planets| && |Do(w, conf, s).ships| == |w.ships|
  {
    if !w.up {
    } else if s.BeamTurn? {
      BeamKeepsCrews(w, s.j, conf, s.turn);
    } else if Flies(s) {
      FlightKeepsCrews(w, conf, s);
    } else {
      OthersKeepShips(w, conf, s);
    }
  }

  /** Steps that change one ship and no planet. */
  predicate Flies(s: Step) {
    s.Maneuver? || s.Casualty? || s.Replace?
  }

  lemma FlightKeepsCrews(w: World, conf: Conf, s: Step)
    requires Crewed(w) && Legal(w, s) && Flies(s)
    ensures Crewed(Do(w, conf, s)) && |Do(w, conf, s).ships| == |w.ships|
    ensures Do(w, conf, s).planets == w.planets && Do(w, conf, s).sides == w.sides && Do(w, conf, s).up == w.up
  {
  }

  lemma OthersKeepShips(w: World, conf: Conf, s: Step)
    requires Crewed(w) && Legal(w, s) && !s.BeamTurn? && !Flies(s)
    ensures Do(w, conf, s).ships == w.ships && |Do(w, conf, s).planets| == |w.planets|
  {
  }

  lemma LoadKeepsCrews(w: World, j: nat, delta: int, i: nat, p: Planet)
    requires Crewed(w) && j < |w.ships| && i < |w.planets|
    requires 0 <= w.ships[j].armies + delta <= w.ships[j].maxArmies
    ensures Crewed(Load(w, j, delta, i, p))
  {
  }

  lemma MoveKeepsCrews(w: World, from: nat, to: nat)
    requires Crewed(w) && from < |w.ships| && to < |w.ships| && from != to
    requires w.ships[from].armies > 0 && w.ships[to].armies < w.ships[to].maxArmies
    ensures Crewed(w.(ships := MoveArmy(w.ships, from, to)))
  {
  }

  lemma CheckWinKeepsCrews(w: World, conf: Conf, crews: Crews)
    requires Crewed(w)
    ensures Crewed(CheckWin(w, conf, crews))
  {
    CheckWinCounts(w, conf, crews);
  }

  /** Beaming overfills no ship and no base, and takes no army a ship does not have. */
  lemma BeamKeepsCrews(w: World, j: nat, conf: Conf, t: Turn)
    requires Crewed(w) && j < |w.ships|
    ensures Crewed(Beam(w, j, conf, t))
    ensures |Beam(w, j, conf, t).planets| == |w.planets| && |Beam(w, j, conf, t).ships| == |w.ships|
  {
    if w.ships[j].beamUp {
      UpKeepsCrews(w, j, conf, t);
    } else {
      DownKeepsCrews(w, j, conf, t);
    }
  }

  /** One pass of beaming over the ships from j on. */
  function BeamFrom(w: World, conf: Conf, turns: seq<Turn>, j: nat): World
    requires Crewed(w) && |turns| == |w.ships| && j <= |w.ships|
    decreases |w.ships| - j
  {
    if j == |w.ships| then w
    else BeamKeepsCrews(w, j, conf, turns[j]); BeamFrom(Beam(w, j, conf, turns[j]), conf, turns, j + 1)
  }

  lemma UpKeepsCrews(w: World, j: nat, conf: Conf, t: Turn)
    requires Crewed(w) && j < |w.ships|
    ensures Crewed(BeamUp(w, j, conf, t))
    ensures |BeamUp(w, j, conf, t).planets| == |w.planets| && |BeamUp(w, j, conf, t).ships| == |w.ships|
  {
    if w.ships[j].orbit {
      UpFromPlanetKeepsCrews(w, j, conf, t);
    } else if w.ships[j].dock {
      UpFromBaseKeepsCrews(w, j, conf, t);
    }
  }

  lemma StopKeepsCrews(w: World, j: nat)
    requires Crewed(w) && j < |w.ships|
    ensures Crewed(StopBeam(w, j))
  {
  }

  lemma UpFromPlanetKeepsCrews(w: World, j: nat, conf: Conf, t: Turn)
    requires Crewed(w) && j < |w.ships| && w.ships[j].orbit
    ensures Crewed(BeamUp(w, j, conf, t))
    ensures |BeamUp(w, j, conf, t).planets| == |w.planets| && |BeamUp(w, j, conf, t).ships| == |w.ships|
  {
    var s := w.ships[j];
    StopKeepsCrews(w, j);
    if !Full(s, t.quota) {
      var q := LiftArmy(w.planets[s.at], t.clock);
      LoadKeepsCrews(w, j, 1, s.at, q);
      CheckWinKeepsCrews(Load(w, j, 1, s.at, q), conf, t.crews);
    }
  }

  lemma UpFromBaseKeepsCrews(w: World, j: nat, conf: Conf, t: Turn)
    requires Crewed(w) && j < |w.ships| && !w.ships[j].orbit && w.ships[j].dock
    ensures Crewed(BeamUp(w, j, conf, t))
    ensures |BeamUp(w, j, conf, t).planets| == |w.planets| && |BeamUp(w, j, conf, t).ships| == |w.ships|
  {
    var s := w.ships[j];
    StopKeepsCrews(w, j);
    if w.ships[s.docked].armies != 0 && !Full(s, t.quota) {
      MoveKeepsCrews(w, s.docked, j);
    }
  }

  lemma DownKeepsCrews(w: World, j: nat, conf: Conf, t: Turn)
    requires Crewed(w) && j < |w.ships|
    ensures Crewed(BeamDown(w, j, conf, t))
    ensures |BeamDown(w, j, conf, t).planets| == |w.planets| && |BeamDown(w, j, conf, t).ships| == |w.ships|
  {
    var s := w.ships[j];
    if s.armies == 0 {
    } else if s.orbit {
      var l := w.planets[s.at];
      LoadKeepsCrews(w, j, -1, s.at, LandFriend(l, t.clock));
      var q := LandFoe(l, s.team, conf, t.draw, t.clock);
      LoadKeepsCrews(w, j, -1, s.at, q);
      CheckWinKeepsCrews(Load(w, j, -1, s.at, q), conf, t.crews);
    } else if s.dock {
      var b := w.ships[s.docked];
      if b.team == s.team && b.armies != b.maxArmies {
        MoveKeepsCrews(w, j, s.docked);
      }
    }
  }
}
