/** What every run of beaming, bombing, growth, popping, revolts, scouting and surrender keeps. */
module ConquestRuns {
  import opened PlanetSpec
  import opened ConquestSpec

  ghost predicate AllSound(ps: seq<Planet>, g: Growth) {
    forall i {:trigger ps[i]} :: 0 <= i < |ps| ==> Sound(ps[i], g)
  }

  ghost predicate Whole(w: World, g: Growth) {
    Crewed(w) && AllSound(w.planets, g)
  }

  // ---------------------------------------------------------------- every planet stays sound

  lemma PutSound(ps: seq<Planet>, g: Growth, i: nat, p: Planet)
    requires AllSound(ps, g) && i < |ps| && Sound(p, g)
    ensures AllSound(ps[i := p], g)
  {
  }

  lemma BeamUpSound(w: World, j: nat, conf: Conf, t: Turn)
    requires Whole(w, conf.grow) && j < |w.ships|
    ensures AllSound(BeamUp(w, j, conf, t).planets, conf.grow)
  {
    var s := w.ships[j];
    if s.orbit && w.planets[s.at].armies > 0 {
      BeamSound(w.planets[s.at], s.team, conf, t.draw, t.clock);
      PutSound(w.planets, conf.grow, s.at, LiftArmy(w.planets[s.at], t.clock));
    }
  }

  lemma BeamDownSound(w: World, j: nat, conf: Conf, t: Turn)
    requires Whole(w, conf.grow) && j < |w.ships|
    ensures AllSound(BeamDown(w, j, conf, t).planets, conf.grow)
  {
    var s := w.ships[j];
    if s.orbit {
      var l := w.planets[s.at];
      BeamSound(l, s.team, conf, t.draw, t.clock);
      if l.owner == s.team {
        PutSound(w.planets, conf.grow, s.at, LandFriend(l, t.clock));
      } else {
        PutSound(w.planets, conf.grow, s.at, LandFoe(l, s.team, conf, t.draw, t.clock));
      }
    }
  }

  lemma {:induction false} BoostsSound(ps: seq<Planet>, g: Growth, bases: seq<int>)
    requires AllSound(ps, g)
    ensures AllSound(Boosts(ps, bases), g)
    decreases bases
  {
    if bases != [] {
      var b := bases[0];
      if 0 <= b < |ps| {
        QuietSound(ps[b], g);
        PutSound(ps, g, b, Boost(ps[b]));
        BoostsSound(ps[b := Boost(ps[b])], g, bases[1..]);
      } else {
        BoostsSound(ps, g, bases[1..]);
      }
    }
  }

  lemma GrowAllSound(ps: seq<Planet>, conf: Conf, bases: seq<int>, clock: int)
    requires AllSound(ps, conf.grow) && Sane(conf.grow)
    ensures AllSound(GrowAll(ps, conf, bases, clock), conf.grow)
  {
    BoostsSound(ps, conf.grow, bases);
    var qs := Boosts(ps, bases);
    forall i | 0 <= i < |ps|
      ensures Sound(Grow(qs[i], conf, i in bases, clock), conf.grow)
    {
      GrowSound(qs[i], conf, i in bases, clock);
    }
  }

  lemma CollapseSound(ps: seq<Planet>, t: Team, g: Growth)
    requires AllSound(ps, g)
    ensures AllSound(Collapse(ps, t), g)
  {
    forall i | 0 <= i < |ps|
      ensures Sound(Surrendered(ps[i], t), g)
    {
      SurrenderedSound(ps[i], g, t);
    }
  }

  lemma BefallSound(p: Planet, conf: Conf, d: Deed, clock: int)
    requires Sound(p, conf.grow) && Fair(p, d) && Sane(conf.grow)
    ensures Sound(Befall(p, conf, d, clock), conf.grow)
  {
    match d
    case Bombing(b, _, die, stale) => BombSpares(p, b, conf, Draw(b, die, stale), clock);
    case PopOne(draw, bronco) => PopOneSound(p, conf.grow, conf, draw, bronco, clock);
    case PopTwo(u, extra) => PopTwoSound(p, conf.grow, u, extra, clock);
    case Unrest(guarded, chance) => RevoltSound(p, conf.grow, conf, guarded, chance, clock);
    case Scouting(t) => ScoutSound(p, conf.grow, t, clock);
    case Marking(_) => QuietSound(p, conf.grow);
  }

  /** One step keeps every planet sound: no negative garrison, no owner without an army, the owner's
      record right, facilities on running timers. */
  lemma DoKeepsSound(w: World, conf: Conf, s: Step)
    requires Whole(w, conf.grow) && Legal(w, s) && Sane(conf.grow)
    ensures Whole(Do(w, conf, s), conf.grow)
  {
    CrewsKept(w, conf, s);
    match s
    case BeamTurn(j, t) =>
      BeamUpSound(w, j, conf, t);
      BeamDownSound(w, j, conf, t);
    case Maneuver(_, _) =>
    case Casualty(_, _) =>
    case Replace(_, _) =>
    case Spot(i, d, clock, _) =>
      BefallSound(w.planets[i], conf, d, clock);
      PutSound(w.planets, conf.grow, i, Befall(w.planets[i], conf, d, clock));
    case Growing(bases, clock) => GrowAllSound(w.planets, conf, bases, clock);
    case Minute(t, _) => CollapseSound(w.planets, t, conf.grow);
    case Reckoning(_) =>
  }

  lemma {:induction false} RunsKeepSound(w: World, conf: Conf, run: seq<Step>)
    requires Whole(w, conf.grow) && Sane(conf.grow) && LegalRun(w, conf, run)
    ensures Whole(Run(w, conf, run), conf.grow)
    decreases run
  {
    if run != [] {
      DoKeepsSound(w, conf, run[0]);
      RunsKeepSound(Do(w, conf, run[0]), conf, run[1..]);
    }
  }

  // ---------------------------------------------------------------- the counts are true

  ghost predicate SameOwners(ps: seq<Planet>, qs: seq<Planet>) {
    |ps| == |qs| && forall i {:trigger ps[i]} {:trigger qs[i]} :: 0 <= i < |ps| ==> ps[i].owner == qs[i].owner
  }

  lemma {:induction false} SameOwnersCount(ps: seq<Planet>, qs: seq<Planet>, t: Team)
    requires SameOwners(ps, qs)
    ensures Owned(ps, t) == Owned(qs, t)
    decreases |ps|
  {
    if ps != [] {
      var n := |ps| - 1;
      assert ps[n].owner == qs[n].owner;
      SameOwnersCount(ps[..n], qs[..n], t);
    }
  }

  lemma {:induction false} BoostsOwners(ps: seq<Planet>, bases: seq<int>)
    ensures SameOwners(ps, Boosts(ps, bases))
    ensures forall i :: 0 <= i < |ps| ==> Boosts(ps, bases)[i].armies == ps[i].armies
    decreases bases
  {
    if bases != [] {
      var b := bases[0];
      BoostsOwners(if 0 <= b < |ps| then ps[b := Boost(ps[b])] else ps, bases[1..]);
    }
  }

  lemma GrowAllOwners(ps: seq<Planet>, conf: Conf, bases: seq<int>, clock: int)
    requires AllSound(ps, conf.grow) && Sane(conf.grow)
    ensures SameOwners(ps, GrowAll(ps, conf, bases, clock))
  {
    BoostsOwners(ps, bases);
    var qs := Boosts(ps, bases);
    forall i | 0 <= i < |ps|
      ensures Grow(qs[i], conf, i in bases, clock).owner == ps[i].owner
    {
      assert ps[i].owner == qs[i].owner;
      GrowSound(qs[i], conf, i in bases, clock);
    }
  }

  /** Nothing that befalls a planet gives it an owner, and the loss of one is reckoned. */
  lemma BefallOwner(p: Planet, conf: Conf, d: Deed, clock: int)
    requires p.armies >= 0 && (p.owner != NOBODY ==> p.armies >= 1) && Fair(p, d)
    ensures var q := Befall(p, conf, d, clock);
      q.owner != p.owner ==> q.owner == NOBODY && Reckons(p, q, d)
  {
    match d
    case Bombing(b, _, die, stale) => BombSpares(p, b, conf, Draw(b, die, stale), clock);
    case PopOne(draw, bronco) => PopOneKeepsOwner(p, conf, draw, bronco, clock);
    case PopTwo(u, extra) => PopTwoDesertsIff(p, u, extra, clock);
    case Unrest(_, _) =>
    case Scouting(_) =>
    case Marking(_) =>
  }

  /** Every step but a capture, a loss, a revolution, a death or a collapse leaves all owners alone;
      those end in a recount. */
  lemma DoRecountsOrKeepsOwners(w: World, conf: Conf, s: Step)
    requires Whole(w, conf.grow) && Legal(w, s) && Sane(conf.grow) && w.up
    ensures Counted(Do(w, conf, s)) ||
            (SameOwners(w.planets, Do(w, conf, s).planets) &&
             forall t: Team :: Do(w, conf, s).sides[t].count == w.sides[t].count)
  {
    match s
    case BeamTurn(j, t) =>
      UpRecounts(w, j, conf, t);
      DownRecounts(w, j, conf, t);
    case Maneuver(_, _) =>
    case Casualty(_, _) =>
    case Replace(_, _) =>
    case Growing(bases, clock) => GrowAllOwners(w.planets, conf, bases, clock);
    case Minute(t, crews) => MinuteRecounts(w, t, conf, crews);
    case Reckoning(crews) => CheckWinCounts(w, conf, crews);
    case Spot(i, d, clock, crews) =>
      BefallOwner(w.planets[i], conf, d, clock);
      CheckWinCounts(Put(w, i, Befall(w.planets[i], conf, d, clock)), conf, crews);
  }

  lemma UpRecounts(w: World, j: nat, conf: Conf, t: Turn)
    requires Whole(w, conf.grow) && j < |w.ships|
    ensures Counted(BeamUp(w, j, conf, t)) ||
            (SameOwners(w.planets, BeamUp(w, j, conf, t).planets) && BeamUp(w, j, conf, t).sides == w.sides)
  {
    var s := w.ships[j];
    if s.orbit {
      CheckWinCounts(Load(w, j, 1, s.at, LiftArmy(w.planets[s.at], t.clock)), conf, t.crews);
    }
  }

  lemma LandFoeOwner(l: Planet, t: Team, conf: Conf, draw: real, clock: int)
    ensures var q := LandFoe(l, t, conf, draw, clock);
      l.armies > 0 && q.armies != 0 ==> q.owner == l.owner
    ensures l.armies >= 0 ==>
              var q := LandFoe(l, t, conf, draw, clock);
              q.owner in {l.owner, NOBODY} || (q.owner == t && l.armies == 0 && q.armies == 1)
  {
  }

  lemma DownRecounts(w: World, j: nat, conf: Conf, t: Turn)
    requires Whole(w, conf.grow) && j < |w.ships|
    ensures Counted(BeamDown(w, j, conf, t)) ||
            (SameOwners(w.planets, BeamDown(w, j, conf, t).planets) && BeamDown(w, j, conf, t).sides == w.sides)
  {
    var s := w.ships[j];
    if s.orbit {
      var l := w.planets[s.at];
      if l.owner != s.team {
        var q := LandFoe(l, s.team, conf, t.draw, t.clock);
        LandFoeOwner(l, s.team, conf, t.draw, t.clock);
        CheckWinCounts(Load(w, j, -1, s.at, q), conf, t.crews);
      } else {
        assert LandFriend(l, t.clock).owner == l.owner;
      }
    }
  }

  lemma MinuteRecounts(w: World, t: Team, conf: Conf, crews: Crews)
    ensures var v := UdSurrend(w, t, conf, crews);
      Counted(v) || (v.planets == w.planets && forall u: Team :: v.sides[u].count == w.sides[u].count)
  {
    var s := w.sides[t];
    CheckWinCounts(w.(sides := w.sides[t := s.(surrender := -1)], planets := Collapse(w.planets, t)),
                   conf, crews);
  }

  /** Once the counts are true they stay true after every step; and any step that moves a planet to
      another owner makes them true. */
  lemma DoKeepsCounted(w: World, conf: Conf, s: Step)
    requires Whole(w, conf.grow) && Legal(w, s) && Sane(conf.grow)
    ensures Counted(w) || (w.up && s.Reckoning?) ==> Counted(Do(w, conf, s))
    ensures !SameOwners(w.planets, Do(w, conf, s).planets) ==> Counted(Do(w, conf, s))
  {
    if w.up {
      DoRecountsOrKeepsOwners(w, conf, s);
      var v := Do(w, conf, s);
      if SameOwners(w.planets, v.planets) && Counted(w) && !Counted(v) {
        forall t: Team ensures v.sides[t].count == Owned(v.planets, t) {
          SameOwnersCount(w.planets, v.planets, t);
        }
      }
      if s.Reckoning? {
        CheckWinCounts(w, conf, s.crews);
      }
    }
  }

  lemma {:induction false} RunsKeepCounted(w: World, conf: Conf, run: seq<Step>)
    requires Whole(w, conf.grow) && Counted(w) && Sane(conf.grow) && LegalRun(w, conf, run)
    ensures Counted(Run(w, conf, run))
    decreases run
  {
    if run != [] {
      DoKeepsSound(w, conf, run[0]);
      DoKeepsCounted(w, conf, run[0]);
      RunsKeepCounted(Do(w, conf, run[0]), conf, run[1..]);
    }
  }

  /** Sound planets, full crews and true counts stay so. */
  ghost predicate Upholds(w: World, v: World, conf: Conf) {
    Whole(w, conf.grow) && Sane(conf.grow) ==> Whole(v, conf.grow) && (Counted(w) ==> Counted(v))
  }

  lemma CountedStays(w: World, v: World)
    requires Counted(w)
    requires Counted(v) || (SameOwners(w.planets, v.planets) && forall t: Team :: v.sides[t].count == w.sides[t].count)
    ensures Counted(v)
  {
    forall t: Team
      ensures SameOwners(w.planets, v.planets) ==> Owned(v.planets, t) == Owned(w.planets, t)
    {
      if SameOwners(w.planets, v.planets) {
        SameOwnersCount(w.planets, v.planets, t);
      }
    }
  }

  lemma DoUpholds(w: World, conf: Conf, s: Step)
    requires Crewed(w) && Legal(w, s)
    ensures Upholds(w, Do(w, conf, s), conf)
  {
    if Whole(w, conf.grow) && Sane(conf.grow) {
      DoKeepsSound(w, conf, s);
      DoKeepsCounted(w, conf, s);
    }
  }

  lemma BeamUpholds(w: World, j: nat, conf: Conf, t: Turn)
    requires Crewed(w) && j < |w.ships|
    ensures Upholds(w, Beam(w, j, conf, t), conf)
  {
    BeamKeepsCrews(w, j, conf, t);
    if Whole(w, conf.grow) && Sane(conf.grow) {
      BeamUpSound(w, j, conf, t);
      BeamDownSound(w, j, conf, t);
      if Counted(w) {
        UpRecounts(w, j, conf, t);
        DownRecounts(w, j, conf, t);
        CountedStays(w, Beam(w, j, conf, t));
      }
    }
  }

  lemma {:induction false} BeamFromUpholds(w: World, conf: Conf, turns: seq<Turn>, j: nat)
    requires Crewed(w) && |turns| == |w.ships| && j <= |w.ships|
    ensures Upholds(w, BeamFrom(w, conf, turns, j), conf)
    decreases |w.ships| - j
  {
    if j < |w.ships| {
      BeamKeepsCrews(w, j, conf, turns[j]);
      BeamUpholds(w, j, conf, turns[j]);
      BeamFromUpholds(Beam(w, j, conf, turns[j]), conf, turns, j + 1);
    }
  }

  lemma MinuteUpholds(w: World, t: Team, conf: Conf, crews: Crews)
    ensures Upholds(w, UdSurrend(w, t, conf, crews), conf)
  {
    var s := w.sides[t];
    var v := w.(sides := w.sides[t := s.(surrender := -1)], planets := Collapse(w.planets, t));
    if Whole(w, conf.grow) && Sane(conf.grow) {
      CollapseSound(w.planets, t, conf.grow);
      CheckWinCounts(v, conf, crews);
      if Counted(w) {
        MinuteRecounts(w, t, conf, crews);
        CountedStays(w, UdSurrend(w, t, conf, crews));
      }
    }
  }

  // ---------------------------------------------------------------- planets change hands through nobody

  /** A planet gets an owner only when a ship of that team lands on it while it is empty and unowned,
      and then holds exactly the landed army; it loses one only to nobody. */
  lemma OwnersPassThroughNobody(w: World, conf: Conf, s: Step, i: nat)
    requires Whole(w, conf.grow) && Legal(w, s) && Sane(conf.grow) && i < |w.planets|
    requires |Do(w, conf, s).planets| == |w.planets|
    ensures var p, q := w.planets[i], Do(w, conf, s).planets[i];
      p.owner != q.owner ==>
        || q.owner == NOBODY
        || (&& p.owner == NOBODY && p.armies == 0 && q.armies == 1
            && s.BeamTurn? && w.ships[s.j].team == q.owner
            && w.ships[s.j].orbit && w.ships[s.j].at == i && w.ships[s.j].armies >= 1)
  {
    if w.up {
      match s
      case BeamTurn(j, t) =>
        UpOwners(w, j, conf, t, i);
        DownOwners(w, j, conf, t, i);
      case Maneuver(_, _) =>
      case Casualty(_, _) =>
      case Replace(_, _) =>
      case Growing(bases, clock) =>
        GrowAllOwners(w.planets, conf, bases, clock);
        assert w.planets[i].owner == GrowAll(w.planets, conf, bases, clock)[i].owner;
      case Minute(t, crews) => MinuteOwners(w, t, conf, crews, i);
      case Reckoning(_) =>
      case Spot(k, d, clock, _) => BefallOwner(w.planets[k], conf, d, clock);
    }
  }

  lemma UpOwners(w: World, j: nat, conf: Conf, t: Turn, i: nat)
    requires Whole(w, conf.grow) && j < |w.ships| && i < |w.planets|
    ensures |BeamUp(w, j, conf, t).planets| == |w.planets|
    ensures BeamUp(w, j, conf, t).planets[i].owner in {w.planets[i].owner, NOBODY}
  {
  }

  lemma DownOwners(w: World, j: nat, conf: Conf, t: Turn, i: nat)
    requires Whole(w, conf.grow) && j < |w.ships| && i < |w.planets|
    ensures |BeamDown(w, j, conf, t).planets| == |w.planets|
    ensures var p, q, s := w.planets[i], BeamDown(w, j, conf, t).planets[i], w.ships[j];
      || q.owner == p.owner
      || q.owner == NOBODY
      || (&& p.owner == NOBODY && p.armies == 0 && q.armies == 1
          && s.team == q.owner && s.orbit && s.at == i && s.armies >= 1)
  {
    var s := w.ships[j];
    if s.orbit {
      LandFoeOwner(w.planets[s.at], s.team, conf, t.draw, t.clock);
    }
  }

  lemma MinuteOwners(w: World, t: Team, conf: Conf, crews: Crews, i: nat)
    requires i < |w.planets|
    ensures UdSurrend(w, t, conf, crews).planets[i].owner in {w.planets[i].owner, NOBODY}
  {
  }

  // ---------------------------------------------------------------- army accounting

  function PlanetArmies(ps: seq<Planet>): int {
    if ps == [] then 0 else PlanetArmies(ps[..|ps| - 1]) + ps[|ps| - 1].armies
  }

  function ShipArmies(ss: seq<Crew>): int {
    if ss == [] then 0 else ShipArmies(ss[..|ss| - 1]) + ss[|ss| - 1].armies
  }

  function Armies(w: World): int {
    PlanetArmies(w.planets) + ShipArmies(w.ships)
  }

  lemma {:induction false} PlanetArmiesPut(ps: seq<Planet>, i: nat, p: Planet)
    requires i < |ps|
    ensures PlanetArmies(ps[i := p]) == PlanetArmies(ps) - ps[i].armies + p.armies
    decreases |ps|
  {
    var n := |ps| - 1;
    if i == n {
      assert ps[i := p][..n] == ps[..n];
    } else {
      assert ps[i := p][..n] == ps[..n][i := p];
      PlanetArmiesPut(ps[..n], i, p);
    }
  }

  lemma {:induction false} ShipArmiesPut(ss: seq<Crew>, i: nat, s: Crew)
    requires i < |ss|
    ensures ShipArmies(ss[i := s]) == ShipArmies(ss) - ss[i].armies + s.armies
    decreases |ss|
  {
    var n := |ss| - 1;
    if i == n {
      assert ss[i := s][..n] == ss[..n];
    } else {
      assert ss[i := s][..n] == ss[..n][i := s];
      ShipArmiesPut(ss[..n], i, s);
    }
  }

  /** Ship j is landing an army on a planet that is not its team's. */
  predicate Invading(w: World, j: nat, t: Turn)
    requires j < |w.ships| && Crewed(w)
  {
    var s := w.ships[j];
    && s.alive && s.orbit && !s.beamUp && s.beamDown && s.armies != 0
    && s.team != w.planets[s.at].owner
    && (t.hostile || w.planets[s.at].owner == NOBODY)
  }

  /** What an invasion costs: nothing on an empty planet, both armies when a defender falls, and the
      landed one alone when none does. */
  function Toll(w: World, j: nat, conf: Conf, t: Turn): (n: int)
    requires j < |w.ships| && Crewed(w)
  {
    if !Invading(w, j, t) then 0
    else
      var l := w.planets[w.ships[j].at];
      if l.armies == 0 then 0 else if DefenderFalls(l, conf, t.draw) then 2 else 1
  }

  lemma MoveConserves(ships: seq<Crew>, from: nat, to: nat)
    requires from < |ships| && to < |ships| && from != to
    ensures ShipArmies(MoveArmy(ships, from, to)) == ShipArmies(ships)
  {
    AdjustArmies(ships, from, -1);
    AdjustArmies(Adjust(ships, from, -1), to, 1);
  }

  lemma AdjustArmies(ships: seq<Crew>, j: nat, delta: int)
    requires j < |ships|
    ensures ShipArmies(Adjust(ships, j, delta)) == ShipArmies(ships) + delta
  {
    ShipArmiesPut(ships, j, ships[j].(armies := ships[j].armies + delta));
  }

  lemma LoadArmies(w: World, j: nat, delta: int, i: nat, p: Planet)
    requires j < |w.ships| && i < |w.planets|
    ensures Armies(Load(w, j, delta, i, p)) == Armies(w) + delta + p.armies - w.planets[i].armies
  {
    AdjustArmies(w.ships, j, delta);
    PlanetArmiesPut(w.planets, i, p);
  }

  lemma StopConserves(w: World, j: nat)
    requires j < |w.ships|
    ensures Armies(StopBeam(w, j)) == Armies(w)
  {
    ShipArmiesPut(w.ships, j, w.ships[j].(beamUp := false));
  }

  lemma UpConserves(w: World, j: nat, conf: Conf, t: Turn)
    requires Whole(w, conf.grow) && j < |w.ships|
    ensures Armies(BeamUp(w, j, conf, t)) == Armies(w)
  {
    var s := w.ships[j];
    StopConserves(w, j);
    if s.orbit {
      var q := LiftArmy(w.planets[s.at], t.clock);
      LoadArmies(w, j, 1, s.at, q);
    } else if s.dock {
      MoveConserves(w.ships, s.docked, j);
    }
  }

  lemma LandingTolls(l: Planet, t: Team, conf: Conf, draw: real, clock: int)
    requires l.armies >= 0
    ensures LandFoe(l, t, conf, draw, clock).armies ==
            l.armies + 1 - (if l.armies == 0 then 0 else if DefenderFalls(l, conf, draw) then 2 else 1)
  {
  }

  lemma DownTolls(w: World, j: nat, conf: Conf, t: Turn)
    requires Whole(w, conf.grow) && j < |w.ships|
    requires w.ships[j].alive && !w.ships[j].beamUp && w.ships[j].beamDown
    ensures Armies(BeamDown(w, j, conf, t)) == Armies(w) - Toll(w, j, conf, t)
  {
    var s := w.ships[j];
    if s.armies == 0 {
    } else if s.orbit {
      var l := w.planets[s.at];
      LoadArmies(w, j, -1, s.at, LandFriend(l, t.clock));
      LandingTolls(l, s.team, conf, t.draw, t.clock);
      LoadArmies(w, j, -1, s.at, LandFoe(l, s.team, conf, t.draw, t.clock));
    } else if s.dock {
      MoveConserves(w.ships, j, s.docked);
    }
  }

  /** Armies are moved, never made: a turn of beaming takes away exactly its toll. */
  lemma BeamTolls(w: World, j: nat, conf: Conf, t: Turn)
    requires Whole(w, conf.grow) && j < |w.ships|
    ensures Armies(Beam(w, j, conf, t)) == Armies(w) - Toll(w, j, conf, t)
  {
    var s := w.ships[j];
    if s.beamUp {
      UpConserves(w, j, conf, t);
    } else if s.alive && s.beamDown {
      DownTolls(w, j, conf, t);
    }
  }

  /** The armies a step destroys: an invasion's toll, the casualties aboard a ship, and everything a ship
      carries when it is lost. */
  function StepToll(w: World, conf: Conf, s: Step): int
    requires Crewed(w) && Legal(w, s)
  {
    if !w.up then 0
    else match s
      case BeamTurn(j, t) => Toll(w, j, conf, t)
      case Casualty(_, n) => n
      case Replace(j, _) => w.ships[j].armies
      case _ => 0
  }

  function Tolls(w: World, conf: Conf, run: seq<Step>): int
    requires Crewed(w) && LegalRun(w, conf, run)
    decreases run
  {
    if run == [] then 0
    else
      CrewsKept(w, conf, run[0]);
      StepToll(w, conf, run[0]) + Tolls(Do(w, conf, run[0]), conf, run[1..])
  }

  /** Steps of flying and beaming, and looking at planets. */
  predicate Ferries(s: Step) {
    s.BeamTurn? || Flies(s) || s.Reckoning? || (s.Spot? && (s.deed.Scouting? || s.deed.Marking?))
  }

  lemma ShipPut(w: World, j: nat, s: Crew)
    requires j < |w.ships|
    ensures Armies(PutShip(w, j, s)) == Armies(w) - w.ships[j].armies + s.armies
  {
    ShipArmiesPut(w.ships, j, s);
  }

  lemma FerryTolls(w: World, conf: Conf, s: Step)
    requires Whole(w, conf.grow) && Legal(w, s) && Ferries(s)
    ensures Armies(Do(w, conf, s)) == Armies(w) - StepToll(w, conf, s)
  {
    if w.up {
      match s
      case BeamTurn(j, t) => BeamTolls(w, j, conf, t);
      case Maneuver(j, c) => ShipPut(w, j, Steered(w.ships[j], c));
      case Casualty(j, n) => AdjustArmies(w.ships, j, -n);
      case Replace(j, ship) => ShipPut(w, j, ship);
      case Spot(i, d, clock, crews) =>
        PlanetArmiesPut(w.planets, i, Befall(w.planets[i], conf, d, clock));
      case Reckoning(_) =>
    }
  }

  /** However ships fly, load, land, are hit and are lost, the armies in the galaxy fall by exactly the
      tolls of the invasions and the armies lost with ships. */
  lemma {:induction false} FerryRunTolls(w: World, conf: Conf, run: seq<Step>)
    requires Whole(w, conf.grow) && Sane(conf.grow) && LegalRun(w, conf, run)
    requires forall k {:trigger run[k]} :: 0 <= k < |run| ==> Ferries(run[k])
    ensures Armies(Run(w, conf, run)) == Armies(w) - Tolls(w, conf, run)
    decreases run
  {
    if run != [] {
      DoKeepsSound(w, conf, run[0]);
      FerryTolls(w, conf, run[0]);
      FerryRunTolls(Do(w, conf, run[0]), conf, run[1..]);
    }
  }

  /** A ship whose player has vanished explodes and its armies turn up on a planet of its team. */
  function Ghosted(w: World, j: nat, i: nat): World
    requires j < |w.ships| && i < |w.planets|
  {
    var p := w.planets[i];
    Put(PutShip(w, j, w.ships[j].(alive := false)), i, WithArmies(p, p.armies + w.ships[j].armies))
  }

  /** Nobody tells the owner's record of that planet, so every planet stays sound if and only if the ship
      carried nothing. */
  lemma GhostKeepsSoundIff(w: World, g: Growth, j: nat, i: nat)
    requires Whole(w, g) && j < |w.ships| && i < |w.planets|
    requires w.planets[i].owner == w.ships[j].team != NOBODY
    ensures Whole(Ghosted(w, j, i), g) <==> w.ships[j].armies == 0
    ensures Armies(Ghosted(w, j, i)) == Armies(w) + w.ships[j].armies
  {
    var v := Ghosted(w, j, i);
    var p, q := w.planets[i], v.planets[i];
    ShipPut(w, j, w.ships[j].(alive := false));
    PlanetArmiesPut(w.planets, i, q);
    assert Sound(p, g);
    if w.ships[j].armies == 0 {
      assert q == p && v.planets == w.planets;
    } else {
      assert !Informed(q);
    }
  }

  // ---------------------------------------------------------------- shipyards built by starbases only

  ghost predicate NoYards(w: World, g: Growth) {
    forall i {:trigger w.planets[i]} :: 0 <= i < |w.planets| ==> NoYard(w.planets[i], g)
  }

  /** No starbase is in orbit, and no bombing uses an unset negative draw on a repair timer. */
  ghost predicate Baseless(s: Step, conf: Conf, n: nat) {
    match s
    case Growing(bases, _) => forall i :: 0 <= i < n ==> i !in bases
    case Spot(_, d, _, _) =>
      d.Bombing? && 0 <= d.die < 50 ==>
        Draw(d.bomber, d.die, d.stale) >= 0 || !ReachesYard(d.bomber, conf)
    case _ => true
  }

  lemma {:induction false} NoBoosts(ps: seq<Planet>, bases: seq<int>)
    requires forall i :: 0 <= i < |ps| ==> i !in bases
    ensures Boosts(ps, bases) == ps
    decreases bases
  {
    if bases != [] {
      assert bases[0] in bases;
      forall i | 0 <= i < |ps| ensures i !in bases[1..] {
        assert i !in bases;
      }
      NoBoosts(ps, bases[1..]);
    }
  }

  lemma UpNoYards(w: World, j: nat, conf: Conf, t: Turn)
    requires Whole(w, conf.grow) && NoYards(w, conf.grow) && j < |w.ships|
    ensures NoYards(BeamUp(w, j, conf, t), conf.grow)
  {
    var s := w.ships[j];
    if s.orbit {
      BeamSparesYard(w.planets[s.at], s.team, conf, t.draw, t.clock);
    }
  }

  lemma DownNoYards(w: World, j: nat, conf: Conf, t: Turn)
    requires Whole(w, conf.grow) && NoYards(w, conf.grow) && j < |w.ships|
    ensures NoYards(BeamDown(w, j, conf, t), conf.grow)
  {
    var s := w.ships[j];
    if s.orbit {
      BeamSparesYard(w.planets[s.at], s.team, conf, t.draw, t.clock);
    }
  }

  lemma BefallSparesYard(p: Planet, conf: Conf, d: Deed, clock: int)
    requires NoYard(p, conf.grow) && Fair(p, d) && 0 <= conf.grow.repair
    requires d.Bombing? ==> Draw(d.bomber, d.die, d.stale) >= 0 || !ReachesYard(d.bomber, conf)
    ensures NoYard(Befall(p, conf, d, clock), conf.grow)
  {
    match d
    case Bombing(b, _, die, stale) => BombNoYard(p, b, conf, Draw(b, die, stale), clock);
    case PopOne(_, _) =>
    case PopTwo(u, extra) => PopTwoSparesYard(p, conf.grow, u, extra, clock);
    case Unrest(_, _) =>
    case Scouting(_) =>
    case Marking(_) =>
  }

  lemma PopTwoSparesYard(p: Planet, g: Growth, u: real, extra: int, clock: int)
    requires NoYard(p, g)
    ensures NoYard(PopOne2(p, u, extra, clock), g)
  {
  }

  lemma BeamSparesYard(l: Planet, t: Team, conf: Conf, draw: real, clock: int)
    requires NoYard(l, conf.grow)
    ensures NoYard(LiftArmy(l, clock), conf.grow) && NoYard(LandFriend(l, clock), conf.grow)
    ensures NoYard(LandFoe(l, t, conf, draw, clock), conf.grow)
  {
  }

  lemma DoKeepsNoYards(w: World, conf: Conf, s: Step)
    requires Whole(w, conf.grow) && Legal(w, s) && NoYards(w, conf.grow)
    requires conf.sbOnly && 0 <= conf.grow.repair < conf.grow.shipyard && Baseless(s, conf, |w.planets|)
    ensures NoYards(Do(w, conf, s), conf.grow)
  {
    if w.up {
      match s
      case BeamTurn(j, t) =>
        UpNoYards(w, j, conf, t);
        DownNoYards(w, j, conf, t);
      case Maneuver(_, _) =>
      case Casualty(_, _) =>
      case Replace(_, _) =>
      case Growing(bases, clock) =>
        NoBoosts(w.planets, bases);
        forall i | 0 <= i < |w.planets|
          ensures NoYard(Grow(w.planets[i], conf, i in bases, clock), conf.grow)
        {
          GrowKeepsNoYard(w.planets[i], conf, clock);
        }
      case Spot(i, d, clock, _) => BefallSparesYard(w.planets[i], conf, d, clock);
      case Minute(t, crews) =>
      case Reckoning(_) =>
    }
  }

  /** With shipyards built by starbases only and no starbase ever in orbit, no planet ever gets a
      shipyard and no timer passes the repair value, in any run. */
  lemma {:induction false} RunsKeepNoYards(w: World, conf: Conf, run: seq<Step>)
    requires Whole(w, conf.grow) && Sane(conf.grow) && NoYards(w, conf.grow) && LegalRun(w, conf, run)
    requires conf.sbOnly && conf.grow.repair < conf.grow.shipyard
    requires forall k {:trigger run[k]} :: 0 <= k < |run| ==> Baseless(run[k], conf, |w.planets|)
    ensures NoYards(Run(w, conf, run), conf.grow)
    decreases run
  {
    if run != [] {
      CrewsKept(w, conf, run[0]);
      DoKeepsSound(w, conf, run[0]);
      DoKeepsNoYards(w, conf, run[0]);
      RunsKeepNoYards(Do(w, conf, run[0]), conf, run[1..]);
    }
  }

  // ---------------------------------------------------------------- surrender

  /** A clock of minus one is never moved again while the game goes on. */
  lemma CheckWinFinal(w: World, conf: Conf, crews: Crews, t: Team)
    requires w.sides[t].surrender == -1 && conf.surrLength != 0
    ensures CheckWin(w, conf, crews).sides[t].surrender == -1 || !CheckWin(w, conf, crews).up
  {
  }

  lemma DoKeepsSurrendered(w: World, conf: Conf, s: Step, t: Team)
    requires Crewed(w) && Legal(w, s) && conf.surrLength != 0
    requires w.sides[t].surrender == -1 || !w.up
    ensures Do(w, conf, s).sides[t].surrender == -1 || !Do(w, conf, s).up
  {
    if w.up {
      match s
      case BeamTurn(j, turn) => BeamSurrendered(w, j, conf, turn, t);
      case Maneuver(_, _) =>
      case Casualty(_, _) =>
      case Replace(_, _) =>
      case Minute(u, crews) =>
        var v := w.(sides := w.sides[u := w.sides[u].(surrender := -1)], planets := Collapse(w.planets, u));
        CheckWinFinal(v, conf, crews, t);
      case Reckoning(crews) => CheckWinFinal(w, conf, crews, t);
      case Spot(i, d, clock, crews) =>
        CheckWinFinal(Put(w, i, Befall(w.planets[i], conf, d, clock)), conf, crews, t);
      case Growing(_, _) =>
    }
  }

  lemma BeamSurrendered(w: World, j: nat, conf: Conf, turn: Turn, t: Team)
    requires Crewed(w) && j < |w.ships| && conf.surrLength != 0 && w.sides[t].surrender == -1
    ensures Beam(w, j, conf, turn).sides[t].surrender == -1 || !Beam(w, j, conf, turn).up
  {
    var s := w.ships[j];
    if s.orbit {
      var l := w.planets[s.at];
      CheckWinFinal(Load(w, j, 1, s.at, LiftArmy(l, turn.clock)), conf, turn.crews, t);
      CheckWinFinal(Load(w, j, -1, s.at, LandFoe(l, s.team, conf, turn.draw, turn.clock)), conf, turn.crews, t);
    }
  }

  /** Surrender is final: the clock of a team that has surrendered stays where it is in every run, and
      each later minute takes whatever planets the team then has if and only if it finds the team with few
      planets and enough ships. */
  lemma {:induction false} SurrenderIsFinal(w: World, conf: Conf, run: seq<Step>, t: Team, crews: Crews)
    requires Crewed(w) && LegalRun(w, conf, run) && conf.surrLength != 0 && t != NOBODY
    requires w.sides[t].surrender == -1 || !w.up
    ensures var v := Run(w, conf, run);
      v.up ==>
        && v.sides[t].surrender == -1
        && (Owned(UdSurrend(v, t, conf, crews).planets, t) == 0 <==>
              (crews[t] >= conf.tournPlayers && v.sides[t].count <= conf.surrStart) || Owned(v.planets, t) == 0)
    decreases run
  {
    if run == [] {
      CollapseTakesAll(w.planets, t);
    } else {
      CrewsKept(w, conf, run[0]);
      DoKeepsSurrendered(w, conf, run[0], t);
      SurrenderIsFinal(Do(w, conf, run[0]), conf, run[1..], t, crews);
    }
  }

  lemma {:induction false} CollapseTakesAll(ps: seq<Planet>, t: Team)
    requires t != NOBODY
    ensures Owned(Collapse(ps, t), t) == 0
    decreases |ps|
  {
    if ps != [] {
      var n := |ps| - 1;
      assert Collapse(ps, t)[..n] == Collapse(ps[..n], t);
      CollapseTakesAll(ps[..n], t);
    }
  }

  lemma {:induction false} CollapseSparesOthers(ps: seq<Planet>, t: Team, u: Team)
    requires u != t && u != NOBODY
    ensures Owned(Collapse(ps, t), u) == Owned(ps, u)
    decreases |ps|
  {
    if ps != [] {
      var n := |ps| - 1;
      assert Collapse(ps, t)[..n] == Collapse(ps[..n], t);
      CollapseSparesOthers(ps[..n], t, u);
    }
  }

  /** The minute in which a team's clock runs out, or finds it run out before. */
  predicate RunsOut(w: World, t: Team, conf: Conf, crews: Crews) {
    var s := w.sides[t];
    s.surrender != 0 && s.surrender <= 1 && crews[t] >= conf.tournPlayers && s.count <= conf.surrStart
  }

  /** The surrender of one of the two largest teams ends the game at once; that of a third team leaves it
      going if and only if neither of the two is down to the planets of a conquest.  So only a third team
      can live to see its clock at minus one and its planets taken again. */
  lemma RunningOutEndsGameIff(w: World, t: Team, conf: Conf, crews: Crews)
    requires RunsOut(w, t, conf, crews) && t != NOBODY && conf.victoryPlanets >= 0
    ensures var p := TopTwo(crews);
      UdSurrend(w, t, conf, crews).up <==>
        && w.up && t != p.0 && t != p.1
        && Owned(w.planets, p.0) > conf.victoryPlanets && Owned(w.planets, p.1) > conf.victoryPlanets
  {
    var p := TopTwo(crews);
    CollapseTakesAll(w.planets, t);
    if t != p.0 {
      CollapseSparesOthers(w.planets, t, p.0);
    }
    if t != p.1 {
      CollapseSparesOthers(w.planets, t, p.1);
    }
  }

  /** k minutes of team t's clock, with nothing else in between. */
  function Minutes(w: World, t: Team, conf: Conf, crews: Crews, k: nat): World
    decreases k
  {
    if k == 0 then w else Minutes(UdSurrend(w, t, conf, crews), t, conf, crews, k - 1)
  }

  /** A team that stays below the mark keeps its planets for every minute but the last of its clock,
      and has none after the last. */
  lemma {:induction false} ClockRunsOut(w: World, t: Team, conf: Conf, crews: Crews, k: nat)
    requires t != NOBODY && 1 <= k <= w.sides[t].surrender
    requires crews[t] >= conf.tournPlayers && w.sides[t].count <= conf.surrStart
    ensures k < w.sides[t].surrender ==>
              Minutes(w, t, conf, crews, k) ==
              w.(sides := w.sides[t := w.sides[t].(surrender := w.sides[t].surrender - k)])
    ensures k == w.sides[t].surrender ==> Owned(Minutes(w, t, conf, crews, k).planets, t) == 0
    decreases k
  {
    if k == 1 {
      CollapseTakesAll(w.planets, t);
      assert Minutes(w, t, conf, crews, 1) == Minutes(UdSurrend(w, t, conf, crews), t, conf, crews, 0);
    } else {
      ClockRunsOut(UdSurrend(w, t, conf, crews), t, conf, crews, k - 1);
    }
  }
}
