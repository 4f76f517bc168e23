/** One planet: what landing, bombing, growth, popping, revolts and scouting do to it, on values.
    Random draws are arbitrary inputs. */
module PlanetSpec {
  import opened Arith

  type Team = t: int | 0 <= t <= MAXTEAM
  const MAXTEAM := 8
  const NOBODY: Team := 0
  const STARTREV := 8
  const REVOLT := 200

  type Air = a: int | 0 <= a < 4

  datatype Flags = Flags(
    fuel: bool, agri: bool, repair: bool, shipyard: bool,
    dilyth: bool, metal: bool, arable: bool,
    air: Air, redraw: bool)
  {
    predicate Facilities() {
      fuel || agri || repair || shipyard
    }
  }

  /** What one team believes about a planet. */
  datatype TeamInfo = TeamInfo(owner: Team, armies: int, flags: Flags, timestamp: int)

  const UNKNOWN := TeamInfo(NOBODY, 0, Flags(false, false, false, false, false, false, false, 0, false), 0)

  type Infos = s: seq<TeamInfo> | |s| == MAXTEAM + 1
    witness [UNKNOWN, UNKNOWN, UNKNOWN, UNKNOWN, UNKNOWN, UNKNOWN, UNKNOWN, UNKNOWN, UNKNOWN]

  datatype Planet = Planet(
    owner: Team, armies: int, flags: Flags,
    tfuel: int, tagri: int, tship: int,
    trevolt: int, tinfo: Infos)

  /** The timer values at which facilities appear. */
  datatype Growth = Growth(fuel: int, agri: int, repair: int, shipyard: int)

  datatype Conf = Conf(
    grow: Growth,
    evacuation: bool,
    defendFacilities: real, defendBare: real,
    resourceBombing: bool, slowBomb: bool,
    sbOnly: bool,
    newArmyGrowth: bool,
    revolts: bool, revoltWithFacilities: bool,
    victoryPlanets: int, tournPlayers: int,
    surrStart: int, surrEnd: int, surrLength: int)

  // ---------------------------------------------------------------- what must hold

  /** Equal except for the redraw mark. */
  predicate Like(f: Flags, g: Flags) {
    f.(redraw := false) == g.(redraw := false)
  }

  /** No negative garrison, and no owner without one. */
  ghost predicate Garrisoned(p: Planet) {
    p.armies >= 0 && (p.owner != NOBODY ==> p.armies >= 1)
  }

  /** The owner's own record of its planet is right. */
  ghost predicate Informed(p: Planet) {
    p.owner != NOBODY ==>
      && p.tinfo[p.owner].owner == p.owner
      && p.tinfo[p.owner].armies == p.armies
      && Like(p.tinfo[p.owner].flags, p.flags)
  }

  /** Facilities stand on running timers. */
  ghost predicate Coupled(p: Planet, g: Growth) {
    && p.tfuel >= 0 && p.tagri >= 0 && p.tship >= 0
    && (p.flags.shipyard ==> p.flags.repair && p.tship >= g.repair)
    && (p.flags.repair ==> p.tship > 0)
    && (p.flags.fuel ==> p.tfuel > 0)
    && (p.flags.agri ==> p.tagri > 0)
  }

  ghost predicate Sound(p: Planet, g: Growth) {
    Garrisoned(p) && Informed(p) && Coupled(p, g) && 0 <= p.trevolt <= STARTREV
  }

  predicate Sane(g: Growth) {
    0 < g.fuel && 0 < g.agri && 0 < g.repair <= g.shipyard
  }

  // ---------------------------------------------------------------- records

  function WithArmies(p: Planet, n: int): Planet {
    p.(armies := n)
  }

  /** Team t learns the number of armies. */
  function NoteArmies(p: Planet, t: Team, clock: int): Planet {
    p.(tinfo := p.tinfo[t := p.tinfo[t].(armies := p.armies, timestamp := clock)])
  }

  function NoteFlags(p: Planet, t: Team, clock: int): Planet {
    p.(tinfo := p.tinfo[t := p.tinfo[t].(flags := p.flags, timestamp := clock)])
  }

  function NoteOwner(p: Planet, t: Team, owner: Team, clock: int): Planet {
    p.(tinfo := p.tinfo[t := p.tinfo[t].(owner := owner, timestamp := clock)])
  }

  function Redrawn(p: Planet): Planet {
    p.(flags := p.flags.(redraw := true))
  }

  function Undrawn(p: Planet): Planet {
    p.(flags := p.flags.(redraw := false))
  }

  // ---------------------------------------------------------------- beaming

  /** One army leaves for its own team's ship. */
  function LiftArmy(p: Planet, clock: int): Planet {
    var q := NoteArmies(WithArmies(p, p.armies - 1), p.owner, clock);
    if q.armies == 0 then
      q.(tinfo := q.tinfo[q.owner := q.tinfo[q.owner].(owner := NOBODY)], owner := NOBODY)
    else q
  }

  function LandFriend(p: Planet, clock: int): Planet {
    NoteArmies(WithArmies(p, p.armies + 1), p.owner, clock)
  }

  /** Whether the landed army takes a defender with it. */
  predicate DefenderFalls(p: Planet, conf: Conf, draw: real) {
    if p.armies > 0 && p.flags.Facilities() && conf.defendFacilities > 0.0 then draw > conf.defendFacilities
    else if p.armies > 0 && !p.flags.Facilities() && conf.defendBare > 0.0 then draw > conf.defendBare
    else true
  }

  function Emptied(p: Planet, t: Team, clock: int): Planet {
    var q := NoteOwner(p, p.owner, NOBODY, clock);
    q.(tinfo := q.tinfo[t := q.tinfo[t].(owner := NOBODY, armies := 0, timestamp := clock)],
       owner := NOBODY, trevolt := 0)
  }

  function Taken(p: Planet, t: Team, clock: int): Planet {
    p.(armies := -p.armies, owner := t,
       tinfo := p.tinfo[t := TeamInfo(t, -p.armies, p.flags, clock)])
  }

  /** One army of team t lands on a planet that is not its own. */
  function LandFoe(p: Planet, t: Team, conf: Conf, draw: real, clock: int): Planet {
    var q := if DefenderFalls(p, conf, draw) then WithArmies(p, p.armies - 1) else p;
    var r := NoteArmies(q, t, clock);
    var s := r.(tinfo := r.tinfo[r.owner := r.tinfo[r.owner].(armies := r.armies)]);
    if s.armies == 0 then Emptied(s, t, clock)
    else if s.armies < 0 then Taken(s, t, clock)
    else s
  }

  // ---------------------------------------------------------------- bombing

  datatype Bomber = Bomber(
    team: Team,
    armies: bool, fuel: bool, agri: bool, repair: bool, shipyard: bool,
    strength: nat)

  /** Armies knocked off by one bombing; r is the draw out of fifty. */
  function Knocked(b: Bomber, r: int): (n: int)
    requires 0 <= r < 50
  {
    (((r + b.strength) as real) / 33.0 + 0.5).Floor
  }

  function BombArmies(p: Planet, t: Team, rnd: int, clock: int): Planet {
    if rnd > 0 && p.armies > 4 then
      var left := Max(p.armies - rnd, 1);
      var q := NoteArmies(NoteArmies(WithArmies(p, left), p.owner, clock), t, clock);
      if left < 5 then Redrawn(q) else q
    else p
  }

  function Blast(p: Planet, t: Team, left: Flags, clock: int): Planet {
    Redrawn(NoteFlags(NoteFlags(p.(flags := left), p.owner, clock), t, clock))
  }

  function BombFuel(p: Planet, t: Team, knock: int, clock: int): Planet {
    var q := p.(tfuel := Max(p.tfuel - knock, 0));
    if q.tfuel == 0 && q.flags.fuel then Blast(q, t, q.flags.(fuel := false), clock) else q
  }

  function BombAgri(p: Planet, t: Team, knock: int, clock: int): Planet {
    var q := p.(tagri := Max(p.tagri - knock, 0));
    if q.tagri == 0 && q.flags.agri then Blast(q, t, q.flags.(agri := false), clock) else q
  }

  function BombYard(p: Planet, t: Team, g: Growth, knock: int, clock: int): Planet {
    var q := p.(tship := Max(p.tship - knock, 0));
    var r := if q.tship < g.repair && q.flags.shipyard
             then Blast(q, t, q.flags.(shipyard := false), clock) else q;
    if r.tship == 0 && r.flags.repair then Blast(r, t, r.flags.(repair := false), clock) else r
  }

  predicate AimsAtYard(b: Bomber, f: Flags) {
    (b.shipyard && f.shipyard) || (b.repair && !f.shipyard) || (b.repair && b.shipyard)
  }

  /** What a bombing takes off the fuel, repair and shipyard timers. */
  function Hard(rnd: int, slow: bool): int {
    if slow then rnd * 5 else rnd * 8
  }

  /** What it takes off the timer for agriculture. */
  function Soft(rnd: int, slow: bool): int {
    if slow then rnd * 4 else rnd * 6
  }

  /** The second half of a bombing: facilities. */
  function BombFacilities(p: Planet, b: Bomber, conf: Conf, rnd: int, clock: int): Planet {
    var p1 := if b.fuel then BombFuel(p, b.team, Hard(rnd, conf.slowBomb), clock) else p;
    var p2 := if b.agri then BombAgri(p1, b.team, Soft(rnd, conf.slowBomb), clock) else p1;
    if AimsAtYard(b, p2.flags) then BombYard(p2, b.team, conf.grow, Hard(rnd, conf.slowBomb), clock) else p2
  }

  /** One bombing of a planet.  rnd is the draw of Knocked for a bomber of armies; for any other it is
      whatever the variable held, as the code sets it only for bombers of armies. */
  function Bomb(p: Planet, b: Bomber, conf: Conf, rnd: int, clock: int): Planet {
    var q := if b.armies then BombArmies(p, b.team, rnd, clock) else p;
    if (b.armies && q.armies > 4) || !conf.resourceBombing then q
    else BombFacilities(q, b, conf, rnd, clock)
  }

  // ---------------------------------------------------------------- growth

  function Boost(p: Planet): Planet {
    p.(tfuel := p.tfuel + 20, tagri := p.tagri + 30, tship := p.tship + 50)
  }

  function Build(p: Planet, flags: Flags, clock: int): Planet {
    NoteFlags(p.(flags := flags), p.owner, clock)
  }

  function GrowFuel(p: Planet, g: Growth, add: int, clock: int): Planet {
    var q := p.(tfuel := Min(p.tfuel + add, g.fuel));
    if !q.flags.fuel && q.flags.dilyth && q.tfuel >= g.fuel
    then Build(q, q.flags.(fuel := true, redraw := true), clock) else q
  }

  function GrowAgri(p: Planet, g: Growth, add: int, clock: int): Planet {
    var q := p.(tagri := Min(p.tagri + add, g.agri));
    if !q.flags.agri && q.flags.arable && q.tagri >= g.agri
    then Build(q, q.flags.(agri := true, redraw := true), clock) else q
  }

  /** The new repair and shipyard timer before it is clamped to the shipyard value. */
  function YardTimer(p: Planet, conf: Conf, add: int, sb: bool): int {
    if conf.sbOnly && !sb && p.tship + add >= conf.grow.repair then
      if p.tship < conf.grow.repair then conf.grow.repair else p.tship
    else p.tship + add
  }

  function GrowYard(p: Planet, conf: Conf, add: int, sb: bool, clock: int): Planet {
    var g := conf.grow;
    var q := p.(tship := YardTimer(p, conf, add, sb));
    var r := if !q.flags.repair && q.flags.metal && q.tship >= g.repair
             then Build(q, q.flags.(repair := true, redraw := true), clock) else q;
    var s := r.(tship := Min(r.tship, g.shipyard));
    if !s.flags.shipyard && s.flags.metal && s.tship >= g.shipyard
    then Build(s, s.flags.(shipyard := true, redraw := true), clock) else s
  }

  /** One growth of one planet; sb says a starbase orbits it. */
  function Grow(p: Planet, conf: Conf, sb: bool, clock: int): Planet {
    if p.owner == NOBODY then p
    else
      var add := p.armies / 2;
      GrowYard(GrowAgri(GrowFuel(p, conf.grow, add, clock), conf.grow, add, clock), conf, add, sb, clock)
  }

  // ---------------------------------------------------------------- popping

  function Bit(b: bool): nat {
    if b then 1 else 0
  }

  /** The facilities as a number below eight; a repair station and a shipyard count as one. */
  function Resources(f: Flags): (r: nat)
    ensures r < 8
  {
    Bit(f.repair || f.shipyard) + 2 * Bit(f.fuel) + 4 * Bit(f.agri)
  }

  const POPCHANCE: seq<seq<int>> := [
    [2, 3, 2, 2, 5, 7, 4, 8],
    [3, 5, 2, 4, 9, 11, 7, 12],
    [5, 7, 4, 6, 12, 14, 10, 15],
    [8, 12, 7, 10, 20, 24, 18, 23]]

  const POPMULT: seq<seq<real>> := [
    [-0.08, 0.00, -0.10, -0.03, 0.00, 0.05, -0.05, 0.05],
    [0.03, 0.05, 0.02, 0.04, 0.06, 0.07, 0.06, 0.07],
    [0.05, 0.07, 0.05, 0.06, 0.10, 0.11, 0.08, 0.10],
    [0.09, 0.12, 0.08, 0.10, 0.17, 0.19, 0.15, 0.18]]

  const POPCAP: seq<seq<int>> := [
    [5, 10, 7, 10, 15, 15, 10, 18],
    [9, 14, 11, 14, 20, 20, 14, 22],
    [12, 18, 15, 18, 25, 25, 19, 27],
    [15, 22, 18, 25, 40, 35, 27, 40]]

  function Chance(f: Flags): int { POPCHANCE[f.air][Resources(f)] }

  function Mult(f: Flags): real { POPMULT[f.air][Resources(f)] }

  function Cap(f: Flags): int { POPCAP[f.air][Resources(f)] }

  /** Armies lost to poison: one and a half plus the given share, rounded down. */
  function Loss(share: real, armies: int): int {
    (1.5 + share * armies as real).Floor
  }

  function PopUp(p: Planet, incr: int, clock: int): Planet {
    var q := if p.armies < 4 then Redrawn(p) else p;
    NoteArmies(WithArmies(q, p.armies + incr), p.owner, clock)
  }

  function Deserted(p: Planet, clock: int): Planet {
    NoteOwner(NoteArmies(WithArmies(p, 0), p.owner, clock), p.owner, NOBODY, clock).(owner := NOBODY)
  }

  function PopDown(p: Planet, decr: int, clock: int): Planet {
    var q := WithArmies(Redrawn(p), Max(p.armies - decr, 0));
    var r := if q.armies <= 0 then Deserted(q, clock) else q;
    NoteArmies(r, r.owner, clock)
  }

  /** Pop scheme 0: draw is out of a hundred, bronco the one to three armies of the old growth. */
  function PopOne1(p: Planet, conf: Conf, draw: int, bronco: int, clock: int): Planet {
    var m := Mult(p.flags);
    if Chance(p.flags) < draw then p
    else if m >= 0.0 then
      if p.armies >= Cap(p.flags) then p
      else PopUp(p, if conf.newArmyGrowth then Loss(m, p.armies) else bronco, clock)
    else if p.armies < 4 then p
    else PopDown(p, Loss(-m, p.armies), clock)
  }

  const POPTABLE: seq<int> := [2, 2, 2, 3, 3, 3, 4, 4]

  function Surface(f: Flags): (s: nat)
    ensures s < 8
  {
    Bit(f.dilyth) + 2 * Bit(f.metal) + 4 * Bit(f.arable)
  }

  /** What `delta += lrand48() % max` can draw from. */
  function Spread(p: Planet): (max: int)
    ensures max >= 1
  {
    POPTABLE[Surface(p.flags)] + if p.flags.agri && p.armies >= 4 then 1 else 0
  }

  /** The change pop scheme 1 draws; u is a draw from [0, 1) and extra one out of Spread. */
  function Delta(p: Planet, u: real, extra: int): int {
    var few := p.armies < 4;
    var base := if few && p.flags.agri then 1 else 0;
    if p.flags.air == 0 then
      if !few && u < 0.5 then base - 1 else base
    else if p.flags.air == 1 then
      if u < (if few then 0.2 else 0.1) then base + 1 else base
    else if p.flags.air == 2 then
      if u < (if few then 0.5 else 0.2) then base + 1 else base
    else
      if u < (if few then 0.3 else 0.2) then base + 1 + extra else base
  }

  function PopOne2(p: Planet, u: real, extra: int, clock: int): Planet {
    var d0 := Delta(p, u, extra);
    var d1 := if p.armies == 0 && d0 > 1 then 1 else d0;
    var d2 := if d1 > 0 && p.armies > Cap(p.flags) then 0 else d1;
    var q := WithArmies(p, p.armies + d2);
    var r := if q.armies <= 0 then Deserted(q, clock) else q;
    NoteArmies(r, r.owner, clock)
  }

  // ---------------------------------------------------------------- revolts and scouts

  function Freed(p: Planet, clock: int): Planet {
    Redrawn(NoteOwner(p, p.owner, NOBODY, clock).(owner := NOBODY))
  }

  /** One visit of the revolution; guarded says one of the owner's ships is in orbit, draw is out of
      a thousand. */
  function Revolt(p: Planet, conf: Conf, guarded: bool, draw: int, clock: int): Planet {
    if !conf.revolts || (!conf.revoltWithFacilities && p.flags.Facilities()) then p
    else if p.trevolt > 0 then
      if guarded then p
      else
        var q := p.(trevolt := p.trevolt - 1);
        if q.trevolt != 0 || q.armies > 2 then q
        else if q.armies == 2 then NoteArmies(q.(trevolt := STARTREV, armies := 1), q.owner, clock)
        else Freed(q, clock)
    else if p.armies <= 2 && p.armies != 0 && draw <= REVOLT then p.(trevolt := STARTREV)
    else p
  }

  /** check_revolt leaves alone what nobody owns. */
  function CheckRevolt(p: Planet, conf: Conf, guarded: bool, draw: int, clock: int): Planet {
    if p.armies > 0 && p.owner != NOBODY then Revolt(p, conf, guarded, draw, clock) else p
  }

  function Scout(p: Planet, t: Team, clock: int): Planet {
    if p.owner != t then p.(tinfo := p.tinfo[t := TeamInfo(p.owner, p.armies, p.flags, clock)]) else p
  }

  /** What happens to a planet of a team that surrenders. */
  function Surrendered(p: Planet, t: Team): Planet {
    if p.owner == t then p.(owner := NOBODY, armies := 0) else p
  }

  // ---------------------------------------------------------------- theorems about one planet

  /** The table never goes beyond these values, whatever the flags. */
  lemma TableBounds(f: Flags)
    ensures -0.10 <= Mult(f) <= 0.19 && Cap(f) >= 5
  {
    var a, r := f.air, Resources(f);
    assert a == 0 || a == 1 || a == 2 || a == 3;
    assert r == 0 || r == 1 || r == 2 || r == 3 || r == 4 || r == 5 || r == 6 || r == 7;
  }

  lemma LossBounds(share: real, armies: int)
    requires 0.0 <= share <= 0.19 && armies >= 0
    ensures 1 <= Loss(share, armies)
    ensures armies >= 4 && share <= 0.10 ==> Loss(share, armies) < armies
  {
    var a := armies as real;
    assert 0.0 <= share * a;
    if armies >= 4 && share <= 0.10 {
      assert share * a <= 0.10 * a;
    }
  }

  /** Scheme 0 never empties a planet and never changes its owner: the "all died" branch is dead. */
  lemma PopOneKeepsOwner(p: Planet, conf: Conf, draw: int, bronco: int, clock: int)
    requires p.armies >= 0 && 1 <= bronco <= 3
    ensures PopOne1(p, conf, draw, bronco, clock).owner == p.owner
    ensures p.armies >= 1 ==> PopOne1(p, conf, draw, bronco, clock).armies >= 1
  {
    TableBounds(p.flags);
    var m := Mult(p.flags);
    if m >= 0.0 {
      LossBounds(m, p.armies);
    } else if p.armies >= 4 {
      LossBounds(-m, p.armies);
    }
  }

  /** Scheme 0 grows a planet exactly when the draw succeeds, the air is not poison and there is room,
      and shrinks one exactly when the draw succeeds on poison with four armies or more. */
  lemma PopOneIff(p: Planet, conf: Conf, draw: int, bronco: int, clock: int)
    requires p.armies >= 0 && 1 <= bronco <= 3
    ensures var q, hit := PopOne1(p, conf, draw, bronco, clock), draw <= Chance(p.flags);
      && (q.armies > p.armies <==> hit && Mult(p.flags) >= 0.0 && p.armies < Cap(p.flags))
      && (q.armies < p.armies <==> hit && Mult(p.flags) < 0.0 && p.armies >= 4)
  {
    TableBounds(p.flags);
    var m := Mult(p.flags);
    if m >= 0.0 {
      LossBounds(m, p.armies);
    } else if p.armies >= 4 {
      LossBounds(-m, p.armies);
    }
  }

  /** Scheme 1 runs its "all died" branch exactly when the planet was empty already and drew no
      growth, so on an owned planet it is dead. */
  lemma PopTwoDesertsIff(p: Planet, u: real, extra: int, clock: int)
    requires p.armies >= 0 && 0 <= extra < Spread(p)
    ensures PopOne2(p, u, extra, clock).armies == 0 <==> p.armies == 0 && Delta(p, u, extra) == 0
    ensures p.armies >= 1 ==> PopOne2(p, u, extra, clock).owner == p.owner
  {
    TableBounds(p.flags);
  }

  lemma BombFuelSpares(p: Planet, t: Team, knock: int, clock: int)
    ensures var q := BombFuel(p, t, knock, clock);
      && q.owner == p.owner && q.armies == p.armies
      && q.tfuel == Max(p.tfuel - knock, 0) && q.tagri == p.tagri
      && q.tship == p.tship && q.flags.shipyard == p.flags.shipyard
    ensures forall g: Growth :: Sound(p, g) ==> Sound(BombFuel(p, t, knock, clock), g)
  {
  }

  lemma BombAgriSpares(p: Planet, t: Team, knock: int, clock: int)
    ensures var q := BombAgri(p, t, knock, clock);
      && q.owner == p.owner && q.armies == p.armies
      && q.tfuel == p.tfuel && q.tagri == Max(p.tagri - knock, 0)
      && q.tship == p.tship && q.flags.shipyard == p.flags.shipyard
    ensures forall g: Growth :: Sound(p, g) ==> Sound(BombAgri(p, t, knock, clock), g)
  {
  }

  lemma BombYardSpares(p: Planet, t: Team, g: Growth, knock: int, clock: int)
    ensures var q := BombYard(p, t, g, knock, clock);
      && q.owner == p.owner && q.armies == p.armies
      && q.tfuel == p.tfuel && q.tagri == p.tagri && q.tship == Max(p.tship - knock, 0)
    ensures Sound(p, g) && Sane(g) ==> Sound(BombYard(p, t, g, knock, clock), g)
  {
  }

  lemma BombFacilitiesSpares(p: Planet, b: Bomber, conf: Conf, rnd: int, clock: int)
    ensures var q := BombFacilities(p, b, conf, rnd, clock); q.owner == p.owner && q.armies == p.armies
    ensures Sound(p, conf.grow) && Sane(conf.grow) ==>
              Sound(BombFacilities(p, b, conf, rnd, clock), conf.grow)
  {
    var k, l := Hard(rnd, conf.slowBomb), Soft(rnd, conf.slowBomb);
    BombFuelSpares(p, b.team, k, clock);
    var p1 := if b.fuel then BombFuel(p, b.team, k, clock) else p;
    BombAgriSpares(p1, b.team, l, clock);
    var p2 := if b.agri then BombAgri(p1, b.team, l, clock) else p1;
    BombYardSpares(p2, b.team, conf.grow, k, clock);
  }

  lemma BombArmiesSpares(p: Planet, t: Team, rnd: int, clock: int)
    ensures var q := BombArmies(p, t, rnd, clock);
      && q.owner == p.owner && Like(q.flags, p.flags)
      && q.tfuel == p.tfuel && q.tagri == p.tagri && q.tship == p.tship
      && q.armies <= p.armies && (rnd > 0 && p.armies > 4 ==> q.armies < p.armies)
      && (p.armies >= 1 ==> q.armies >= 1)
      && (p.armies <= 4 ==> q.armies == p.armies)
  {
  }

  lemma BombArmiesSound(p: Planet, g: Growth, t: Team, rnd: int, clock: int)
    requires Sound(p, g)
    ensures Sound(BombArmies(p, t, rnd, clock), g)
  {
  }

  /** Bombing never removes the last army, never adds one, never changes the owner, and touches no
      facility while more than four armies stand against a bomber of armies. */
  lemma BombSpares(p: Planet, b: Bomber, conf: Conf, rnd: int, clock: int)
    ensures var q := Bomb(p, b, conf, rnd, clock);
      && q.owner == p.owner
      && q.armies <= p.armies
      && (p.armies >= 1 ==> q.armies >= 1)
      && (p.armies <= 4 ==> q.armies == p.armies)
      && (b.armies && q.armies > 4 ==> Like(q.flags, p.flags))
    ensures Sound(p, conf.grow) && Sane(conf.grow) ==> Sound(Bomb(p, b, conf, rnd, clock), conf.grow)
  {
    BombArmiesSpares(p, b.team, rnd, clock);
    if Sound(p, conf.grow) {
      BombArmiesSound(p, conf.grow, b.team, rnd, clock);
    }
    var q := if b.armies then BombArmies(p, b.team, rnd, clock) else p;
    BombFacilitiesSpares(q, b, conf, rnd, clock);
  }

  lemma GrowFuelSpares(p: Planet, g: Growth, add: int, clock: int)
    ensures var q := GrowFuel(p, g, add, clock);
      && q.owner == p.owner && q.armies == p.armies && q.tship == p.tship
      && q.flags.shipyard == p.flags.shipyard
  {
  }

  lemma GrowFuelSound(p: Planet, g: Growth, add: int, clock: int)
    requires add >= 0 && Sane(g)
    ensures p.owner != NOBODY && Sound(p, g) ==> Sound(GrowFuel(p, g, add, clock), g)
    ensures Coupled(p, g) ==> Coupled(GrowFuel(p, g, add, clock), g)
  {
  }

  lemma GrowAgriSpares(p: Planet, g: Growth, add: int, clock: int)
    ensures var q := GrowAgri(p, g, add, clock);
      && q.owner == p.owner && q.armies == p.armies && q.tship == p.tship
      && q.flags.shipyard == p.flags.shipyard
  {
  }

  lemma GrowAgriSound(p: Planet, g: Growth, add: int, clock: int)
    requires add >= 0 && Sane(g)
    ensures p.owner != NOBODY && Sound(p, g) ==> Sound(GrowAgri(p, g, add, clock), g)
    ensures Coupled(p, g) ==> Coupled(GrowAgri(p, g, add, clock), g)
  {
  }

  lemma GrowYardSound(p: Planet, conf: Conf, add: int, sb: bool, clock: int)
    requires add >= 0 && Sane(conf.grow)
    ensures var q := GrowYard(p, conf, add, sb, clock); q.owner == p.owner && q.armies == p.armies
    ensures p.owner != NOBODY && Sound(p, conf.grow) ==> Sound(GrowYard(p, conf, add, sb, clock), conf.grow)
    ensures Coupled(p, conf.grow) ==> Coupled(GrowYard(p, conf, add, sb, clock), conf.grow)
  {
  }

  lemma GrowSound(p: Planet, conf: Conf, sb: bool, clock: int)
    requires p.armies >= 0 && Sane(conf.grow)
    ensures var q := Grow(p, conf, sb, clock); q.owner == p.owner && q.armies == p.armies
    ensures Sound(p, conf.grow) ==> Sound(Grow(p, conf, sb, clock), conf.grow)
    ensures Coupled(p, conf.grow) ==> Coupled(Grow(p, conf, sb, clock), conf.grow)
  {
    if p.owner != NOBODY {
      var add := p.armies / 2;
      GrowFuelSpares(p, conf.grow, add, clock);
      GrowFuelSound(p, conf.grow, add, clock);
      var p1 := GrowFuel(p, conf.grow, add, clock);
      GrowAgriSpares(p1, conf.grow, add, clock);
      GrowAgriSound(p1, conf.grow, add, clock);
      var p2 := GrowAgri(p1, conf.grow, add, clock);
      GrowYardSound(p2, conf, add, sb, clock);
    }
  }

  lemma PopUpSound(p: Planet, g: Growth, incr: int, clock: int)
    requires Sound(p, g) && incr >= 0
    ensures Sound(PopUp(p, incr, clock), g)
  {
  }

  lemma PopDownSound(p: Planet, g: Growth, decr: int, clock: int)
    requires Sound(p, g) && decr < p.armies
    ensures Sound(PopDown(p, decr, clock), g)
  {
  }

  lemma PopOneSound(p: Planet, g: Growth, conf: Conf, draw: int, bronco: int, clock: int)
    requires Sound(p, g) && 1 <= bronco <= 3
    ensures Sound(PopOne1(p, conf, draw, bronco, clock), g)
  {
    TableBounds(p.flags);
    var m := Mult(p.flags);
    if m >= 0.0 {
      LossBounds(m, p.armies);
      PopUpSound(p, g, if conf.newArmyGrowth then Loss(m, p.armies) else bronco, clock);
    } else if p.armies >= 4 {
      LossBounds(-m, p.armies);
      PopDownSound(p, g, Loss(-m, p.armies), clock);
    }
  }

  lemma PopTwoSound(p: Planet, g: Growth, u: real, extra: int, clock: int)
    requires Sound(p, g) && 0 <= extra < Spread(p)
    ensures Sound(PopOne2(p, u, extra, clock), g)
  {
    PopTwoDesertsIff(p, u, extra, clock);
  }

  lemma BeamSound(p: Planet, t: Team, conf: Conf, draw: real, clock: int)
    requires Sound(p, conf.grow)
    ensures p.armies > 0 ==> Sound(LiftArmy(p, clock), conf.grow)
    ensures Sound(LandFriend(p, clock), conf.grow)
    ensures p.owner != t ==> Sound(LandFoe(p, t, conf, draw, clock), conf.grow)
  {
  }

  lemma RevoltSound(p: Planet, g: Growth, conf: Conf, guarded: bool, draw: int, clock: int)
    requires Sound(p, g)
    ensures Sound(CheckRevolt(p, conf, guarded, draw, clock), g)
  {
  }

  /** Team t's record agrees with the planet. */
  predicate Knows(p: Planet, t: Team) {
    p.tinfo[t].owner == p.owner && p.tinfo[t].armies == p.armies && Like(p.tinfo[t].flags, p.flags)
  }

  /** Scouting never disturbs the owner's record, and the scouting team knows the planet afterwards. */
  lemma ScoutSound(p: Planet, g: Growth, t: Team, clock: int)
    requires Sound(p, g)
    ensures Sound(Scout(p, t, clock), g)
    ensures t != NOBODY || p.owner != NOBODY ==> Knows(Scout(p, t, clock), t)
  {
  }

  lemma SurrenderedSound(p: Planet, g: Growth, t: Team)
    requires Sound(p, g)
    ensures Sound(Surrendered(p, t), g)
  {
  }

  lemma QuietSound(p: Planet, g: Growth)
    requires Sound(p, g)
    ensures Sound(Boost(p), g) && Sound(Redrawn(p), g) && Sound(Undrawn(p), g)
  {
  }

  // ---------------------------------------------------------------- growth: when the coupling holds

  function Bare(owner: Team, armies: int, f: Flags, tfuel: int, tagri: int, tship: int): Planet {
    Planet(owner, armies, f, tfuel, tagri, tship, 0,
           [UNKNOWN, UNKNOWN, UNKNOWN, UNKNOWN, UNKNOWN, UNKNOWN, UNKNOWN, UNKNOWN, UNKNOWN])
  }

  ghost predicate GrowthKeepsCoupling(conf: Conf) {
    forall p: Planet, sb: bool, clock: int {:trigger Grow(p, conf, sb, clock)} ::
      Coupled(p, conf.grow) && p.armies >= 0 ==> Coupled(Grow(p, conf, sb, clock), conf.grow)
  }

  /** Growth keeps facilities on running timers exactly for settings that ask for a positive time for
      every facility and no less for a shipyard than for a repair station. */
  lemma GrowthKeepsCouplingIff(conf: Conf)
    ensures GrowthKeepsCoupling(conf) <==> Sane(conf.grow)
  {
    if Sane(conf.grow) {
      forall p: Planet, sb: bool, clock: int | Coupled(p, conf.grow) && p.armies >= 0
        ensures Coupled(Grow(p, conf, sb, clock), conf.grow)
      {
        GrowSound(p, conf, sb, clock);
      }
    } else {
      GrowthBreaks(conf);
    }
  }

  lemma GrowthBreaks(conf: Conf)
    requires !Sane(conf.grow)
    ensures !GrowthKeepsCoupling(conf)
  {
    var g := conf.grow;
    var no := UNKNOWN.flags;
    var p :=
      if g.fuel <= 0 then Bare(1, 1, no.(fuel := true), 1, 0, 0)
      else if g.agri <= 0 then Bare(1, 1, no.(agri := true), 0, 1, 0)
      else if g.repair <= 0 then Bare(1, 1, no.(metal := true), 0, 0, 0)
      else Bare(1, 1, no.(repair := true, shipyard := true), 0, 0, g.repair);
    assert Coupled(p, g) && !Coupled(Grow(p, conf, false, 0), g);
  }

  // ---------------------------------------------------------------- growth and siege take their time

  /** n growths with nothing else in between. */
  function Grown(p: Planet, conf: Conf, clock: int, n: nat): Planet {
    if n == 0 then p else Grow(Grown(p, conf, clock, n - 1), conf, false, clock)
  }

  /** What is on the repair timer once `gained` has been added, with no starbase in orbit: where only
      starbases build shipyards it stops at the repair value. */
  function YardAt(t: int, gained: nat, conf: Conf): int {
    if conf.sbOnly then
      if t >= conf.grow.repair then Min(t, conf.grow.shipyard) else Min(t + gained, conf.grow.repair)
    else Min(t + gained, conf.grow.shipyard)
  }

  lemma YardAtTwice(t: int, a: nat, b: nat, conf: Conf)
    requires Sane(conf.grow)
    ensures YardAt(YardAt(t, a, conf), b, conf) == YardAt(t, a + b, conf) >= YardAt(t, a, conf)
  {
  }

  /** What growth makes of the timers and facilities. */
  ghost predicate OnTime(p: Planet, q: Planet, conf: Conf, gained: nat) {
    var g, yard := conf.grow, YardAt(p.tship, gained, conf);
    && q.tfuel == Min(p.tfuel + gained, g.fuel)
    && q.tagri == Min(p.tagri + gained, g.agri)
    && q.tship == yard
    && (q.flags.fuel <==> p.flags.fuel || (p.flags.dilyth && p.tfuel + gained >= g.fuel))
    && (q.flags.agri <==> p.flags.agri || (p.flags.arable && p.tagri + gained >= g.agri))
    && (q.flags.repair <==> p.flags.repair || (p.flags.metal && yard >= g.repair))
    && (q.flags.shipyard <==> p.flags.shipyard || (p.flags.metal && yard >= g.shipyard))
  }

  /** What growth leaves alone. */
  predicate SameGround(p: Planet, q: Planet) {
    && q.owner == p.owner && q.armies == p.armies
    && q.flags.dilyth == p.flags.dilyth && q.flags.metal == p.flags.metal && q.flags.arable == p.flags.arable
  }

  lemma GrowOnTime(p: Planet, conf: Conf, clock: int)
    requires p.owner != NOBODY && p.armies >= 0 && Sane(conf.grow)
    ensures SameGround(p, Grow(p, conf, false, clock))
    ensures OnTime(p, Grow(p, conf, false, clock), conf, p.armies / 2)
  {
    var add := p.armies / 2;
    var p1 := GrowFuel(p, conf.grow, add, clock);
    GrowFuelOnTime(p, conf.grow, add, clock);
    GrowAgriOnTime(p1, conf.grow, add, clock);
    GrowYardOnTime(GrowAgri(p1, conf.grow, add, clock), conf, add, clock);
  }

  lemma GrowFuelOnTime(p: Planet, g: Growth, add: nat, clock: int)
    ensures var q := GrowFuel(p, g, add, clock);
      && q.tfuel == Min(p.tfuel + add, g.fuel) && q.tagri == p.tagri && q.tship == p.tship
      && SameGround(p, q)
      && q.flags == p.flags.(fuel := q.flags.fuel, redraw := q.flags.redraw)
      && (q.flags.fuel <==> p.flags.fuel || (p.flags.dilyth && p.tfuel + add >= g.fuel))
  {
  }

  lemma GrowAgriOnTime(p: Planet, g: Growth, add: nat, clock: int)
    ensures var q := GrowAgri(p, g, add, clock);
      && q.tagri == Min(p.tagri + add, g.agri) && q.tfuel == p.tfuel && q.tship == p.tship
      && SameGround(p, q)
      && q.flags == p.flags.(agri := q.flags.agri, redraw := q.flags.redraw)
      && (q.flags.agri <==> p.flags.agri || (p.flags.arable && p.tagri + add >= g.agri))
  {
  }

  lemma GrowYardOnTime(p: Planet, conf: Conf, add: nat, clock: int)
    requires Sane(conf.grow)
    ensures var q, g := GrowYard(p, conf, add, false, clock), conf.grow;
      && q.tship == YardAt(p.tship, add, conf) && q.tfuel == p.tfuel && q.tagri == p.tagri
      && SameGround(p, q)
      && q.flags.fuel == p.flags.fuel && q.flags.agri == p.flags.agri
      && (q.flags.repair <==> p.flags.repair || (p.flags.metal && q.tship >= g.repair))
      && (q.flags.shipyard <==> p.flags.shipyard || (p.flags.metal && q.tship >= g.shipyard))
  {
  }

  lemma OnTimeTwice(p: Planet, q: Planet, r: Planet, conf: Conf, a: nat, b: nat)
    requires Sane(conf.grow) && SameGround(p, q) && OnTime(p, q, conf, a) && OnTime(q, r, conf, b)
    ensures OnTime(p, r, conf, a + b)
  {
    YardAtTwice(p.tship, a, b, conf);
  }

  /** q is p after n growths. */
  ghost predicate Matured(p: Planet, q: Planet, conf: Conf, n: nat)
    requires p.armies >= 0
  {
    if n == 0 then q == p else SameGround(p, q) && OnTime(p, q, conf, Times(n, p.armies / 2))
  }

  lemma MaturedStep(p: Planet, q: Planet, conf: Conf, clock: int, n: nat)
    requires p.owner != NOBODY && p.armies >= 0 && Sane(conf.grow) && n > 0
    requires Matured(p, q, conf, n - 1)
    ensures Matured(p, Grow(q, conf, false, clock), conf, n)
  {
    GrowOnTime(q, conf, clock);
    MaturedOn(p, q, Grow(q, conf, false, clock), conf, n);
  }

  lemma MaturedOn(p: Planet, q: Planet, r: Planet, conf: Conf, n: nat)
    requires p.armies >= 0 && Sane(conf.grow) && n > 0 && Matured(p, q, conf, n - 1)
    requires q.armies >= 0 && SameGround(q, r) && OnTime(q, r, conf, q.armies / 2)
    ensures Matured(p, r, conf, n)
  {
    var a := p.armies / 2;
    assert Times(n, a) == Times(n - 1, a) + a;
    if n > 1 {
      OnTimeTwice(p, q, r, conf, Times(n - 1, a), a);
    } else {
      assert q == p && Times(0, a) == 0;
    }
  }

  /** Left in peace, with no starbase in orbit, a planet has each facility its ground allows exactly from
      the growth on at which its timer, gaining half its armies each time, reaches the facility's value;
      where only starbases build shipyards the repair timer stops at the repair value. */
  lemma {:induction false} FacilitiesAppearOnTime(p: Planet, conf: Conf, clock: int, n: nat)
    requires p.owner != NOBODY && p.armies >= 0 && Sane(conf.grow)
    ensures Matured(p, Grown(p, conf, clock, n), conf, n)
    decreases n
  {
    if n > 0 {
      FacilitiesAppearOnTime(p, conf, clock, n - 1);
      MaturedStep(p, Grown(p, conf, clock, n - 1), conf, clock, n);
    }
  }

  /** A run of bombings by one bomber. */
  function Siege(p: Planet, b: Bomber, conf: Conf, rnds: seq<int>, clock: int): Planet
    decreases rnds
  {
    if rnds == [] then p else Siege(Bomb(p, b, conf, rnds[0], clock), b, conf, rnds[1..], clock)
  }

  /** How much a siege has still to break. */
  function Resistance(p: Planet): nat {
    Max(p.armies - 4, 0) + Max(Max(p.tfuel, 0), Max(Max(p.tagri, 0), Max(p.tship, 0)))
  }

  predicate Siegeworthy(b: Bomber, conf: Conf) {
    b.armies && b.fuel && b.agri && b.repair && b.shipyard && conf.resourceBombing
  }

  lemma SiegeStep(p: Planet, b: Bomber, conf: Conf, rnd: int, clock: int)
    requires Sound(p, conf.grow) && Siegeworthy(b, conf) && rnd >= 1
    ensures Resistance(Bomb(p, b, conf, rnd, clock)) <= Max(Resistance(p) - 1, 0)
  {
    BombArmiesSpares(p, b.team, rnd, clock);
    var q := BombArmies(p, b.team, rnd, clock);
    if q.armies <= 4 {
      var k, l := Hard(rnd, conf.slowBomb), Soft(rnd, conf.slowBomb);
      BombFuelSpares(q, b.team, k, clock);
      BombAgriSpares(BombFuel(q, b.team, k, clock), b.team, l, clock);
      BombYardSpares(BombAgri(BombFuel(q, b.team, k, clock), b.team, l, clock), b.team, conf.grow, k, clock);
    }
  }

  /** A siege breaks every planet: when every bombing knocks off something, as many bombings as there is
      resistance leave at most four armies and no facility, and still the owner and an army. */
  lemma {:induction false} SiegeBreaks(p: Planet, b: Bomber, conf: Conf, rnds: seq<int>, clock: int)
    requires Sound(p, conf.grow) && Sane(conf.grow) && Siegeworthy(b, conf)
    requires |rnds| >= Resistance(p) && forall k :: 0 <= k < |rnds| ==> rnds[k] >= 1
    ensures var q := Siege(p, b, conf, rnds, clock);
      && q.armies <= 4 && !q.flags.Facilities()
      && q.owner == p.owner && (p.armies >= 1 ==> q.armies >= 1)
    decreases rnds
  {
    if rnds != [] {
      var q := Bomb(p, b, conf, rnds[0], clock);
      BombSpares(p, b, conf, rnds[0], clock);
      SiegeStep(p, b, conf, rnds[0], clock);
      SiegeBreaks(q, b, conf, rnds[1..], clock);
    }
  }

  // ---------------------------------------------------------------- shipyards built by starbases only

  /** No shipyard, and no timer that could become one. */
  ghost predicate NoYard(p: Planet, g: Growth) {
    !p.flags.shipyard && p.tship <= g.repair
  }

  ghost predicate BombKeepsNoYard(b: Bomber, conf: Conf, rnd: int) {
    forall p: Planet, clock: int {:trigger Bomb(p, b, conf, rnd, clock)} ::
      NoYard(p, conf.grow) ==> NoYard(Bomb(p, b, conf, rnd, clock), conf.grow)
  }

  /** The bomber reaches the repair and shipyard timer of some planet without a shipyard. */
  predicate ReachesYard(b: Bomber, conf: Conf) {
    conf.resourceBombing && b.repair
  }

  /** Bombing keeps shipyards away unless it reaches the timer with a negative draw, as it can when
      the bomber cannot bomb armies and the draw is left unset. */
  lemma BombKeepsNoYardIff(b: Bomber, conf: Conf, rnd: int)
    requires conf.grow.repair >= 0
    ensures BombKeepsNoYard(b, conf, rnd) <==> rnd >= 0 || !ReachesYard(b, conf)
  {
    if rnd >= 0 || !ReachesYard(b, conf) {
      forall p: Planet, clock: int | NoYard(p, conf.grow)
        ensures NoYard(Bomb(p, b, conf, rnd, clock), conf.grow)
      {
        BombNoYard(p, b, conf, rnd, clock);
      }
    } else {
      var p := Bare(0, 0, UNKNOWN.flags, 0, 0, conf.grow.repair);
      BombRaises(p, b, conf, rnd);
      assert NoYard(p, conf.grow) && !NoYard(Bomb(p, b, conf, rnd, 0), conf.grow);
    }
  }

  /** What the bombing before the yard's turn leaves of the yard. */
  lemma BombBeforeYard(p: Planet, b: Bomber, conf: Conf, rnd: int, clock: int)
    ensures var p1 := if b.fuel then BombFuel(p, b.team, Hard(rnd, conf.slowBomb), clock) else p;
      var p2 := if b.agri then BombAgri(p1, b.team, Soft(rnd, conf.slowBomb), clock) else p1;
      p2.tship == p.tship && p2.flags.shipyard == p.flags.shipyard
  {
    BombFuelSpares(p, b.team, Hard(rnd, conf.slowBomb), clock);
    var p1 := if b.fuel then BombFuel(p, b.team, Hard(rnd, conf.slowBomb), clock) else p;
    BombAgriSpares(p1, b.team, Soft(rnd, conf.slowBomb), clock);
  }

  lemma BombYardNoYard(p: Planet, t: Team, g: Growth, knock: int, clock: int)
    requires g.repair >= 0 && NoYard(p, g) && knock >= 0
    ensures NoYard(BombYard(p, t, g, knock, clock), g)
  {
  }

  lemma BombNoYard(p: Planet, b: Bomber, conf: Conf, rnd: int, clock: int)
    requires conf.grow.repair >= 0 && NoYard(p, conf.grow)
    requires rnd >= 0 || !ReachesYard(b, conf)
    ensures NoYard(Bomb(p, b, conf, rnd, clock), conf.grow)
  {
    BombArmiesSpares(p, b.team, rnd, clock);
    var q := if b.armies then BombArmies(p, b.team, rnd, clock) else p;
    assert NoYard(q, conf.grow);
    BombBeforeYard(q, b, conf, rnd, clock);
    var p1 := if b.fuel then BombFuel(q, b.team, Hard(rnd, conf.slowBomb), clock) else q;
    var p2 := if b.agri then BombAgri(p1, b.team, Soft(rnd, conf.slowBomb), clock) else p1;
    if rnd >= 0 {
      BombYardNoYard(p2, b.team, conf.grow, Hard(rnd, conf.slowBomb), clock);
    }
  }

  lemma BombRaises(p: Planet, b: Bomber, conf: Conf, rnd: int)
    requires ReachesYard(b, conf) && rnd < 0 && p.armies <= 4
    requires !p.flags.shipyard && p.tship == conf.grow.repair >= 0
    ensures Bomb(p, b, conf, rnd, 0).tship > conf.grow.repair
  {
    BombArmiesSpares(p, b.team, rnd, 0);
    BombBeforeYard(if b.armies then BombArmies(p, b.team, rnd, 0) else p, b, conf, rnd, 0);
  }

  /** A proper draw is never negative. */
  lemma KnockedIsPositive(b: Bomber, r: int)
    requires 0 <= r < 50
    ensures Knocked(b, r) >= 0
    ensures 33 * (2 * Knocked(b, r) - 1) <= 2 * (r + b.strength) < 33 * (2 * Knocked(b, r) + 1)
  {
  }

  /** Without a starbase in orbit, growth under the starbase-only setting builds no shipyard. */
  lemma GrowKeepsNoYard(p: Planet, conf: Conf, clock: int)
    requires conf.sbOnly && conf.grow.repair < conf.grow.shipyard
    requires NoYard(p, conf.grow) && p.armies >= 0
    ensures NoYard(Grow(p, conf, false, clock), conf.grow)
  {
    if p.owner != NOBODY {
      var add := p.armies / 2;
      GrowFuelSpares(p, conf.grow, add, clock);
      var p1 := GrowFuel(p, conf.grow, add, clock);
      GrowAgriSpares(p1, conf.grow, add, clock);
    }
  }

  // ---------------------------------------------------------------- how long a revolution takes

  function Visits(p: Planet, conf: Conf, draws: seq<int>, clock: int): Planet
    decreases draws
  {
    if draws == [] then p else Visits(CheckRevolt(p, conf, false, draws[0], clock), conf, draws[1..], clock)
  }

  predicate Ripe(p: Planet, conf: Conf) {
    conf.revolts && (conf.revoltWithFacilities || !p.flags.Facilities()) && p.owner != NOBODY
  }

  /** While the timer runs, each unguarded visit takes one off it and changes nothing else. */
  lemma {:induction false} TimerRuns(p: Planet, conf: Conf, draws: seq<int>, clock: int)
    requires Ripe(p, conf) && p.armies >= 1 && |draws| < p.trevolt
    ensures Visits(p, conf, draws, clock) == p.(trevolt := p.trevolt - |draws|)
    decreases draws
  {
    if draws != [] {
      TimerRuns(CheckRevolt(p, conf, false, draws[0], clock), conf, draws[1..], clock);
    }
  }

  lemma {:induction false} VisitsSplit(p: Planet, conf: Conf, a: seq<int>, b: seq<int>, clock: int)
    ensures Visits(p, conf, a + b, clock) == Visits(Visits(p, conf, a, clock), conf, b, clock)
    decreases a
  {
    if a == [] {
      assert a + b == b;
    } else {
      assert (a + b)[1..] == a[1..] + b;
      VisitsSplit(CheckRevolt(p, conf, false, a[0], clock), conf, a[1..], b, clock);
    }
  }

  /** The visit that runs the timer out. */
  lemma TimerEnds(p: Planet, conf: Conf, draws: seq<int>, clock: int)
    requires Ripe(p, conf) && p.armies >= 1 && |draws| == p.trevolt > 0
    ensures Visits(p, conf, draws, clock) ==
            CheckRevolt(p.(trevolt := 1), conf, false, draws[|draws| - 1], clock)
  {
    var n := |draws| - 1;
    assert draws == draws[..n] + [draws[n]];
    TimerRuns(p, conf, draws[..n], clock);
    VisitsSplit(p, conf, draws[..n], [draws[n]], clock);
  }

  /** Unrelieved unrest on a planet of two armies: it has its owner, and one army from the eighth
      visit on, for fifteen visits, and loses the owner at the sixteenth. */
  lemma RevolutionTakesSixteenVisits(p: Planet, conf: Conf, draws: seq<int>, clock: int)
    requires Ripe(p, conf) && p.armies == 2 && p.trevolt == STARTREV && |draws| <= 16
    ensures (Visits(p, conf, draws, clock).owner == NOBODY) <==> |draws| == 16
    ensures Visits(p, conf, draws, clock).armies == if |draws| < STARTREV then 2 else 1
  {
    if |draws| < STARTREV {
      TimerRuns(p, conf, draws, clock);
    } else {
      var a, b := draws[..STARTREV], draws[STARTREV..];
      assert draws == a + b;
      TimerEnds(p, conf, a, clock);
      VisitsSplit(p, conf, a, b, clock);
      var q := Visits(p, conf, a, clock);
      if |b| < STARTREV {
        TimerRuns(q, conf, b, clock);
      } else {
        TimerEnds(q, conf, b, clock);
      }
    }
  }
}
