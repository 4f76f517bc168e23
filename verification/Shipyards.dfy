/** How many ships of a type a team can fly: requisition looks at the ships flying and at the time still
    needed to build replacements for those lost. */
module Shipyards {

  const TEAMS := 9

  datatype Pilot = Pilot(alive: bool, exploding: bool, team: nat, kind: nat)

  /** The most ships of a type a team may fly, and the minutes it takes to build one. */
  datatype Design = Design(maxNum: nat, timer: nat)

  /** turns[t][k] is the minutes of building left for team t and type k. */
  datatype Yard = Yard(pilots: seq<Pilot>, turns: seq<seq<int>>)

  predicate Shaped(y: Yard, ds: seq<Design>) {
    && |y.turns| == TEAMS
    && (forall t :: 0 <= t < TEAMS ==> |y.turns[t]| == |ds|)
    && (forall p :: 0 <= p < |y.pilots| ==> y.pilots[p].team < TEAMS && y.pilots[p].kind < |ds|)
  }

  // ---------------------------------------------------------------- counting

  predicate Flies(p: Pilot, t: nat, k: nat) {
    p.alive && p.team == t && p.kind == k
  }

  predicate Burns(p: Pilot, t: nat, k: nat) {
    p.exploding && p.team == t && p.kind == k
  }

  /** The ships of a type a team flies, without pilot `but`. */
  function Flying(ps: seq<Pilot>, t: nat, k: nat, but: int): (n: nat)
    ensures n <= |ps|
  {
    if ps == [] then 0
    else
      var i := |ps| - 1;
      Flying(ps[..i], t, k, but) + if i != but && Flies(ps[i], t, k) then 1 else 0
  }

  function Burning(ps: seq<Pilot>, t: nat, k: nat): (n: nat)
  {
    if ps == [] then 0
    else
      var i := |ps| - 1;
      Burning(ps[..i], t, k) + if Burns(ps[i], t, k) then 1 else 0
  }

  const NOBODY := -1

  lemma {:induction false} FlyingPut(ps: seq<Pilot>, p: nat, q: Pilot, t: nat, k: nat)
    requires p < |ps|
    ensures Flying(ps[p := q], t, k, NOBODY) ==
            Flying(ps, t, k, NOBODY) - (if Flies(ps[p], t, k) then 1 else 0) + (if Flies(q, t, k) then 1 else 0)
    decreases |ps|
  {
    var i := |ps| - 1;
    if p == i {
      assert ps[p := q][..i] == ps[..i];
    } else {
      assert ps[p := q][..i] == ps[..i][p := q];
      FlyingPut(ps[..i], p, q, t, k);
    }
  }

  lemma {:induction false} BurningPut(ps: seq<Pilot>, p: nat, q: Pilot, t: nat, k: nat)
    requires p < |ps|
    ensures Burning(ps[p := q], t, k) ==
            Burning(ps, t, k) - (if Burns(ps[p], t, k) then 1 else 0) + (if Burns(q, t, k) then 1 else 0)
    decreases |ps|
  {
    var i := |ps| - 1;
    if p == i {
      assert ps[p := q][..i] == ps[..i];
    } else {
      assert ps[p := q][..i] == ps[..i][p := q];
      BurningPut(ps[..i], p, q, t, k);
    }
  }

  lemma {:induction false} FlyingBut(ps: seq<Pilot>, t: nat, k: nat, but: int)
    ensures Flying(ps, t, k, but) ==
            Flying(ps, t, k, NOBODY) - (if 0 <= but < |ps| && Flies(ps[but], t, k) then 1 else 0)
    decreases |ps|
  {
    if ps != [] {
      FlyingBut(ps[..|ps| - 1], t, k, but);
    }
  }

  // ---------------------------------------------------------------- the operations

  /** Whether team t may have one more ship of type k; qualified stands for rank, defenders and planets.
      A pilot asking for a refit is not counted. */
  predicate Allowed(y: Yard, ds: seq<Design>, t: nat, k: nat, but: int, qualified: bool)
    requires Shaped(y, ds) && t < TEAMS && k < |ds|
  {
    var count := Flying(y.pilots, t, k, but);
    qualified && count < ds[k].maxNum && y.turns[t][k] <= (ds[k].maxNum - count - 1) * ds[k].timer
  }

  function Board(y: Yard, p: nat, t: nat, k: nat): Yard
    requires p < |y.pilots|
  {
    y.(pilots := y.pilots[p := Pilot(true, false, t, k)])
  }

  function Charge(turns: seq<seq<int>>, t: nat, k: nat, minutes: nat): (r: seq<seq<int>>)
    requires t < |turns| && k < |turns[t]|
    ensures |r| == |turns|
  {
    turns[t := turns[t][k := turns[t][k] + minutes]]
  }

  function Built(row: seq<int>): (r: seq<int>)
    ensures |r| == |row|
  {
    seq(|row|, k requires 0 <= k < |row| => if row[k] > 0 then row[k] - 1 else row[k])
  }

  datatype Step =
    | Enter(p: nat, team: nat, kind: nat, qualified: bool)
    | Refit(p: nat, kind: nat, qualified: bool)
    | Kaboom(p: nat)
    | Die(p: nat, charged: bool)
    | Leave(p: nat)
    | Minute

  /** Only a pilot without a ship enters; the pilot refitting, blowing up or leaving flies one; the one
      dying is blowing up. */
  predicate Legal(y: Yard, ds: seq<Design>, s: Step) {
    match s
    case Enter(p, t, k, _) =>
      p < |y.pilots| && t < TEAMS && k < |ds| && !y.pilots[p].alive && !y.pilots[p].exploding
    case Refit(p, k, _) => p < |y.pilots| && k < |ds| && y.pilots[p].alive && !y.pilots[p].exploding
    case Kaboom(p) => p < |y.pilots| && y.pilots[p].alive && !y.pilots[p].exploding
    case Die(p, _) => p < |y.pilots| && !y.pilots[p].alive && y.pilots[p].exploding
    case Leave(p) => p < |y.pilots| && !(y.pilots[p].alive && y.pilots[p].exploding)
    case Minute => true
  }

  function Do(y: Yard, ds: seq<Design>, s: Step): Yard
    requires Shaped(y, ds) && Legal(y, ds, s)
  {
    match s
    case Enter(p, t, k, qualified) => if Allowed(y, ds, t, k, NOBODY, qualified) then Board(y, p, t, k) else y
    case Refit(p, k, qualified) =>
      var t := y.pilots[p].team;
      if Allowed(y, ds, t, k, p, qualified) then Board(y, p, t, k) else y
    case Kaboom(p) => y.(pilots := y.pilots[p := y.pilots[p].(alive := false, exploding := true)])
    case Die(p, charged) =>
      var q := y.pilots[p];
      Yard(y.pilots[p := q.(exploding := false)],
           if charged then Charge(y.turns, q.team, q.kind, ds[q.kind].timer) else y.turns)
    case Leave(p) => y.(pilots := y.pilots[p := y.pilots[p].(alive := false, exploding := false)])
    case Minute => y.(turns := seq(|y.turns|, t requires 0 <= t < |y.turns| => Built(y.turns[t])))
  }

  lemma DoKeepsShape(y: Yard, ds: seq<Design>, s: Step)
    requires Shaped(y, ds) && Legal(y, ds, s)
    ensures Shaped(Do(y, ds, s), ds) && |Do(y, ds, s).pilots| == |y.pilots|
  {
  }

  // ---------------------------------------------------------------- the capacity

  /** No team flies more ships of a type than the type allows. */
  ghost predicate Within(y: Yard, ds: seq<Design>) {
    forall t, k {:trigger Flying(y.pilots, t, k, NOBODY)} ::
      0 <= t < TEAMS && 0 <= k < |ds| ==> Flying(y.pilots, t, k, NOBODY) <= ds[k].maxNum
  }

  /** The minutes n ships take to build. */
  function Cost(n: nat, timer: nat): nat {
    n * timer
  }

  function Capacity(d: Design): nat {
    Cost(d.maxNum, d.timer)
  }

  lemma CostStep(n: nat, timer: nat)
    ensures Cost(n + 1, timer) == Cost(n, timer) + timer
  {
  }

  /** The minutes spoken for: those still to be built, and one ship's worth for each ship flying or
      blowing up. */
  function Spoken(y: Yard, ds: seq<Design>, t: nat, k: nat): int
    requires Shaped(y, ds) && t < TEAMS && k < |ds|
  {
    y.turns[t][k] + Cost(Flying(y.pilots, t, k, NOBODY) + Burning(y.pilots, t, k), ds[k].timer)
  }

  predicate Covered(y: Yard, ds: seq<Design>, t: nat, k: nat)
    requires Shaped(y, ds) && t < TEAMS && k < |ds|
  {
    y.turns[t][k] >= 0 && Spoken(y, ds, t, k) <= Capacity(ds[k])
  }

  /** What is spoken for stays within the capacity of the yards. */
  ghost predicate Funded(y: Yard, ds: seq<Design>) {
    Shaped(y, ds) &&
    forall t: nat, k: nat {:trigger Covered(y, ds, t, k)} :: t < TEAMS && k < |ds| ==> Covered(y, ds, t, k)
  }

  /** No step, in whatever state of the timers, lets a team fly more ships of a type than allowed. */
  lemma DoKeepsWithin(y: Yard, ds: seq<Design>, s: Step)
    requires Shaped(y, ds) && Legal(y, ds, s) && Within(y, ds)
    ensures Within(Do(y, ds, s), ds)
  {
    var z := Do(y, ds, s);
    forall t: nat, k: nat | t < TEAMS && k < |ds|
      ensures Flying(z.pilots, t, k, NOBODY) <= ds[k].maxNum
    {
      if !s.Minute? {
        FlyingPut(y.pilots, s.p, z.pilots[s.p], t, k);
        FlyingBut(y.pilots, t, k, s.p);
        assert z.pilots == y.pilots || z.pilots == y.pilots[s.p := z.pilots[s.p]];
      }
    }
  }

  function Weight(p: Pilot, t: nat, k: nat): nat {
    (if Flies(p, t, k) then 1 else 0) + (if Burns(p, t, k) then 1 else 0)
  }

  function Replaced(y: Yard, p: nat, q: Pilot): Yard
    requires p < |y.pilots|
  {
    y.(pilots := y.pilots[p := q])
  }

  lemma CostOf(a: int, m: nat, n: nat, timer: nat)
    ensures m == n ==> a + Cost(m, timer) == a + Cost(n, timer)
    ensures m == n + 1 ==> a + Cost(m, timer) == a + Cost(n, timer) + timer
    ensures m + 1 == n ==> a + Cost(m, timer) == a + Cost(n, timer) - timer
  {
    if m == n + 1 {
      CostStep(n, timer);
    } else if m + 1 == n {
      CostStep(m, timer);
    }
  }

  /** Replacing one pilot moves what is spoken for by one ship's worth for each ship more or less. */
  lemma SpokenPut(y: Yard, ds: seq<Design>, p: nat, q: Pilot, t: nat, k: nat)
    requires Shaped(y, ds) && p < |y.pilots| && t < TEAMS && k < |ds| && q.team < TEAMS && q.kind < |ds|
    ensures Shaped(Replaced(y, p, q), ds)
    ensures var z, was := Replaced(y, p, q), y.pilots[p];
      && (Weight(q, t, k) == Weight(was, t, k) ==> Spoken(z, ds, t, k) == Spoken(y, ds, t, k))
      && (Weight(q, t, k) == Weight(was, t, k) + 1 ==> Spoken(z, ds, t, k) == Spoken(y, ds, t, k) + ds[k].timer)
      && (Weight(q, t, k) + 1 == Weight(was, t, k) ==> Spoken(z, ds, t, k) == Spoken(y, ds, t, k) - ds[k].timer)
  {
    FlyingPut(y.pilots, p, q, t, k);
    BurningPut(y.pilots, p, q, t, k);
    var z := Replaced(y, p, q);
    CostOf(y.turns[t][k], Flying(z.pilots, t, k, NOBODY) + Burning(z.pilots, t, k),
           Flying(y.pilots, t, k, NOBODY) + Burning(y.pilots, t, k), ds[k].timer);
  }

  /** Granting one more ship than f of m leaves room for b others exactly when a fits beside them. */
  lemma RoomFor(a: int, f: nat, b: nat, m: nat, timer: nat)
    requires f < m
    ensures a + Cost(f + b, timer) + timer <= Cost(m, timer) <==> a + Cost(b, timer) <= (m - f - 1) * timer
  {
    assert (f + b) * timer == f * timer + b * timer;
    assert (m - f - 1) * timer + f * timer + timer == m * timer;
  }

  /** Counting also the ships of that team and type that are blowing up, which the requisition does not
      look at, the yards have room for one more. */
  predicate Roomy(y: Yard, ds: seq<Design>, t: nat, k: nat, but: int)
    requires Shaped(y, ds) && t < TEAMS && k < |ds|
  {
    y.turns[t][k] + Cost(Burning(y.pilots, t, k), ds[k].timer)
    <= (ds[k].maxNum - Flying(y.pilots, t, k, but) - 1) * ds[k].timer
  }

  /** A ship that requisition allows keeps the yards funded if and only if there is room for it beside the
      ships that are blowing up. */
  lemma GrantKeepsFundedIff(y: Yard, ds: seq<Design>, p: nat, t: nat, k: nat)
    requires Funded(y, ds) && p < |y.pilots| && t < TEAMS && k < |ds| && !y.pilots[p].alive && !y.pilots[p].exploding
    requires Allowed(y, ds, t, k, NOBODY, true)
    ensures Funded(Board(y, p, t, k), ds) <==> Roomy(y, ds, t, k, NOBODY)
  {
    var q := Pilot(true, false, t, k);
    var z := Replaced(y, p, q);
    SpokenPut(y, ds, p, q, t, k);
    RoomFor(y.turns[t][k], Flying(y.pilots, t, k, NOBODY), Burning(y.pilots, t, k), ds[k].maxNum, ds[k].timer);
    if Roomy(y, ds, t, k, NOBODY) {
      forall u: nat, l: nat | u < TEAMS && l < |ds|
        ensures Covered(z, ds, u, l)
      {
        SpokenPut(y, ds, p, q, u, l);
        assert Covered(y, ds, u, l);
      }
    } else {
      assert !Covered(z, ds, t, k);
    }
  }

  /** What is spoken for when pilot p's ship does not count. */
  lemma WithoutShip(y: Yard, ds: seq<Design>, p: nat)
    requires Funded(y, ds) && p < |y.pilots| && !(y.pilots[p].alive && y.pilots[p].exploding)
    ensures Funded(y.(pilots := y.pilots[p := y.pilots[p].(alive := false, exploding := false)]), ds)
  {
    var q := y.pilots[p].(alive := false, exploding := false);
    var z := Replaced(y, p, q);
    forall t: nat, k: nat | t < TEAMS && k < |ds|
      ensures Shaped(z, ds) && Covered(z, ds, t, k)
    {
      SpokenPut(y, ds, p, q, t, k);
      assert Covered(y, ds, t, k);
    }
  }

  /** A refit that requisition allows keeps the yards funded under the same condition, its own old ship
      not counted: it is leaving that ship and entering with the new one. */
  lemma RefitKeepsFundedIff(y: Yard, ds: seq<Design>, p: nat, k: nat)
    requires Funded(y, ds) && p < |y.pilots| && k < |ds| && y.pilots[p].alive && !y.pilots[p].exploding
    requires Allowed(y, ds, y.pilots[p].team, k, p, true)
    ensures Funded(Board(y, p, y.pilots[p].team, k), ds) <==> Roomy(y, ds, y.pilots[p].team, k, p)
  {
    var t := y.pilots[p].team;
    var q := y.pilots[p].(alive := false, exploding := false);
    var z := y.(pilots := y.pilots[p := q]);
    WithoutShip(y, ds, p);
    FlyingPut(y.pilots, p, q, t, k);
    BurningPut(y.pilots, p, q, t, k);
    FlyingBut(y.pilots, t, k, p);
    assert Flying(z.pilots, t, k, NOBODY) == Flying(y.pilots, t, k, p);
    GrantKeepsFundedIff(z, ds, p, t, k);
    assert Board(z, p, t, k) == Board(y, p, t, k);
  }

  lemma KaboomKeepsFunded(y: Yard, ds: seq<Design>, s: Step)
    requires Funded(y, ds) && Legal(y, ds, s) && s.Kaboom?
    ensures Funded(Do(y, ds, s), ds)
  {
    var q := y.pilots[s.p].(alive := false, exploding := true);
    var z := Do(y, ds, s);
    DoKeepsShape(y, ds, s);
    forall t: nat, k: nat | t < TEAMS && k < |ds|
      ensures Covered(z, ds, t, k)
    {
      SpokenPut(y, ds, s.p, q, t, k);
      assert z == Replaced(y, s.p, q);
      assert Covered(y, ds, t, k);
    }
  }

  lemma ChargeAdds(turns: seq<seq<int>>, t: nat, k: nat, minutes: nat, u: nat, l: nat)
    requires t < |turns| && k < |turns[t]| && u < |turns| && l < |turns[u]|
    ensures |Charge(turns, t, k, minutes)[u]| == |turns[u]|
    ensures Charge(turns, t, k, minutes)[u][l] == turns[u][l] + if u == t && l == k then minutes else 0
  {
  }

  /** A death gives back one ship's worth, and a charge takes it again. */
  lemma DieSpoken(y: Yard, ds: seq<Design>, s: Step, t: nat, k: nat)
    requires Shaped(y, ds) && Legal(y, ds, s) && s.Die? && t < TEAMS && k < |ds|
    ensures Shaped(Do(y, ds, s), ds)
    ensures Spoken(Do(y, ds, s), ds, t, k) <= Spoken(y, ds, t, k) && Do(y, ds, s).turns[t][k] >= y.turns[t][k]
  {
    DoKeepsShape(y, ds, s);
    var was := y.pilots[s.p];
    var q := was.(exploding := false);
    SpokenPut(y, ds, s.p, q, t, k);
    ChargeAdds(y.turns, was.team, was.kind, ds[was.kind].timer, t, k);
    var z, r := Do(y, ds, s), Replaced(y, s.p, q);
    assert z.pilots == r.pilots;
    assert Spoken(z, ds, t, k) - z.turns[t][k] == Spoken(r, ds, t, k) - y.turns[t][k];
  }

  lemma DieKeepsFunded(y: Yard, ds: seq<Design>, s: Step)
    requires Funded(y, ds) && Legal(y, ds, s) && s.Die?
    ensures Funded(Do(y, ds, s), ds)
  {
    var z := Do(y, ds, s);
    DoKeepsShape(y, ds, s);
    forall t: nat, k: nat | t < TEAMS && k < |ds|
      ensures Covered(z, ds, t, k)
    {
      DieSpoken(y, ds, s, t, k);
      assert Covered(y, ds, t, k);
    }
  }

  lemma MinuteKeepsFunded(y: Yard, ds: seq<Design>)
    requires Funded(y, ds)
    ensures Funded(Do(y, ds, Minute), ds)
  {
    var z := Do(y, ds, Minute);
    forall t: nat, k: nat | t < TEAMS && k < |ds|
      ensures Covered(z, ds, t, k)
    {
      assert Covered(y, ds, t, k);
    }
  }

  /** Whatever the step grants, the yards have room for. */
  predicate Solvent(y: Yard, ds: seq<Design>, s: Step)
    requires Shaped(y, ds) && Legal(y, ds, s)
  {
    match s
    case Enter(_, t, k, qualified) => Allowed(y, ds, t, k, NOBODY, qualified) ==> Roomy(y, ds, t, k, NOBODY)
    case Refit(p, k, qualified) =>
      var t := y.pilots[p].team;
      Allowed(y, ds, t, k, p, qualified) ==> Roomy(y, ds, t, k, p)
    case _ => true
  }

  /** A step keeps the yards funded if and only if there is room for the ship it grants, if it grants one. */
  lemma DoKeepsFundedIff(y: Yard, ds: seq<Design>, s: Step)
    requires Funded(y, ds) && Legal(y, ds, s)
    ensures Funded(Do(y, ds, s), ds) <==> Solvent(y, ds, s)
  {
    match s
    case Enter(p, t, k, qualified) =>
      if Allowed(y, ds, t, k, NOBODY, qualified) {
        GrantKeepsFundedIff(y, ds, p, t, k);
      }
    case Refit(p, k, qualified) =>
      if Allowed(y, ds, y.pilots[p].team, k, p, qualified) {
        RefitKeepsFundedIff(y, ds, p, k);
      }
    case Kaboom(_) => KaboomKeepsFunded(y, ds, s);
    case Die(_, _) => DieKeepsFunded(y, ds, s);
    case Leave(p) => WithoutShip(y, ds, p);
    case Minute => MinuteKeepsFunded(y, ds);
  }

  // ---------------------------------------------------------------- runs

  ghost predicate LegalRun(y: Yard, ds: seq<Design>, run: seq<Step>)
    requires Shaped(y, ds)
    decreases run
  {
    run == [] || (Legal(y, ds, run[0]) && (DoKeepsShape(y, ds, run[0]); LegalRun(Do(y, ds, run[0]), ds, run[1..])))
  }

  /** Every ship the run grants has room beside those of its team and type that are blowing up. */
  ghost predicate SolventRun(y: Yard, ds: seq<Design>, run: seq<Step>)
    requires Shaped(y, ds) && LegalRun(y, ds, run)
    decreases run
  {
    run == [] ||
    (Solvent(y, ds, run[0]) && (DoKeepsShape(y, ds, run[0]); SolventRun(Do(y, ds, run[0]), ds, run[1..])))
  }

  function Run(y: Yard, ds: seq<Design>, run: seq<Step>): Yard
    requires Shaped(y, ds) && LegalRun(y, ds, run)
    decreases run
  {
    if run == [] then y else DoKeepsShape(y, ds, run[0]); Run(Do(y, ds, run[0]), ds, run[1..])
  }

  lemma {:induction false} RunsKeepWithin(y: Yard, ds: seq<Design>, run: seq<Step>)
    requires Shaped(y, ds) && Within(y, ds) && LegalRun(y, ds, run)
    ensures Within(Run(y, ds, run), ds)
    decreases run
  {
    if run != [] {
      DoKeepsShape(y, ds, run[0]);
      DoKeepsWithin(y, ds, run[0]);
      RunsKeepWithin(Do(y, ds, run[0]), ds, run[1..]);
    }
  }

  /** When every ship granted has room beside those blowing up, the minutes still to be built and the ships
      flying never claim more than the yards can build. */
  lemma {:induction false} RunsKeepFunded(y: Yard, ds: seq<Design>, run: seq<Step>)
    requires Funded(y, ds) && LegalRun(y, ds, run) && SolventRun(y, ds, run)
    ensures Funded(Run(y, ds, run), ds)
    decreases run
  {
    if run != [] {
      DoKeepsShape(y, ds, run[0]);
      DoKeepsFundedIff(y, ds, run[0]);
      RunsKeepFunded(Do(y, ds, run[0]), ds, run[1..]);
    }
  }

  lemma CountTwo(a: Pilot, b: Pilot, t: nat, k: nat)
    ensures Flying([a, b], t, k, NOBODY) == (if Flies(a, t, k) then 1 else 0) + (if Flies(b, t, k) then 1 else 0)
    ensures Burning([a, b], t, k) == (if Burns(a, t, k) then 1 else 0) + (if Burns(b, t, k) then 1 else 0)
  {
    assert [a, b][..1] == [a] && [a][..0] == [];
    assert Flying([a], t, k, NOBODY) == if Flies(a, t, k) then 1 else 0;
    assert Burning([], t, k) == 0;
    assert Burning([a], t, k) == if Burns(a, t, k) then 1 else 0;
  }

  /** A yard with two pilots and one type, all of whose timers stand at zero. */
  function TwoPilots(a: Pilot, b: Pilot): Yard {
    Yard([a, b], seq(TEAMS, _ => [0]))
  }

  /** The first pilot's ship blows up, the second pilot takes a new one, the death is charged: two ships'
      worth is spoken for. */
  ghost predicate Overdrawn(y: Yard, ds: seq<Design>)
    requires Funded(y, ds) && |ds| == 1
  {
    Legal(y, ds, Kaboom(0)) && (
      var y1 := Do(y, ds, Kaboom(0));
      Shaped(y1, ds) && Legal(y1, ds, Enter(1, 1, 0, true)) && (
        var y2 := Do(y1, ds, Enter(1, 1, 0, true));
        Shaped(y2, ds) && Legal(y2, ds, Die(0, true)) && (
          var y3 := Do(y2, ds, Die(0, true));
          Shaped(y3, ds) && Spoken(y3, ds, 1, 0) == 2 * Capacity(ds[0]))))
  }

  /** The window: with every ship of a type in the air, one that blows up is replaced before its death is
      charged, and the charge then overdraws the yards by a whole ship. */
  lemma WindowOverdraws(d: Design)
    requires d.maxNum == 1 && d.timer > 0
    ensures Funded(TwoPilots(Pilot(true, false, 1, 0), Pilot(false, false, 1, 0)), [d])
    ensures Overdrawn(TwoPilots(Pilot(true, false, 1, 0), Pilot(false, false, 1, 0)), [d])
  {
    var ds := [d];
    var a, b := Pilot(true, false, 1, 0), Pilot(false, false, 1, 0);
    var y := TwoPilots(a, b);
    assert Shaped(y, ds);
    forall t: nat, k: nat | t < TEAMS && k < |ds|
      ensures Covered(y, ds, t, k)
    {
      CountTwo(a, b, t, k);
    }
    var c := Pilot(false, true, 1, 0);
    var y1 := Do(y, ds, Kaboom(0));
    assert y1.pilots == [c, b];
    CountTwo(c, b, 1, 0);
    assert Allowed(y1, ds, 1, 0, NOBODY, true);
    var y2 := Do(y1, ds, Enter(1, 1, 0, true));
    assert y2.pilots == [c, a];
    var y3 := Do(y2, ds, Die(0, true));
    assert y3.pilots == [b, a];
    CountTwo(b, a, 1, 0);
  }

  /** Each pilot's own process first asks and later boards; `granted` holds those who have been told yes
      and have not boarded yet. */
  datatype Desk = Desk(yard: Yard, granted: set<nat>)

  function Ask(d: Desk, ds: seq<Design>, p: nat, t: nat, k: nat): Desk
    requires Shaped(d.yard, ds) && t < TEAMS && k < |ds|
  {
    if Allowed(d.yard, ds, t, k, NOBODY, true) then d.(granted := d.granted + {p}) else d
  }

  function Take(d: Desk, p: nat, t: nat, k: nat): Desk
    requires p < |d.yard.pilots|
  {
    if p in d.granted then Desk(Board(d.yard, p, t, k), d.granted - {p}) else d
  }

  lemma TakeCounts(d: Desk, p: nat, t: nat, k: nat)
    requires p < |d.yard.pilots| && !d.yard.pilots[p].alive
    ensures Flying(Take(d, p, t, k).yard.pilots, t, k, NOBODY) ==
            Flying(d.yard.pilots, t, k, NOBODY) + if p in d.granted then 1 else 0
  {
    FlyingPut(d.yard.pilots, p, Pilot(true, false, t, k), t, k);
  }

  /** Two pilots ask for the same type.  When both ask before either boards, the team keeps within the
      number if and only if neither is allowed or there was room for two; when the second asks after the
      first has boarded, it always does. */
  lemma TwoGrantsIff(y: Yard, ds: seq<Design>, p: nat, q: nat, t: nat, k: nat)
    requires Shaped(y, ds) && p < |y.pilots| && q < |y.pilots| && p != q && t < TEAMS && k < |ds|
    requires !y.pilots[p].alive && !y.pilots[q].alive
    requires Flying(y.pilots, t, k, NOBODY) <= ds[k].maxNum
    ensures var d := Ask(Ask(Desk(y, {}), ds, p, t, k), ds, q, t, k);
      Flying(Take(Take(d, p, t, k), q, t, k).yard.pilots, t, k, NOBODY) <= ds[k].maxNum <==>
      !Allowed(y, ds, t, k, NOBODY, true) || Flying(y.pilots, t, k, NOBODY) + 2 <= ds[k].maxNum
    ensures var d := Take(Ask(Desk(y, {}), ds, p, t, k), p, t, k);
      Shaped(d.yard, ds) &&
      Flying(Take(Ask(d, ds, q, t, k), q, t, k).yard.pilots, t, k, NOBODY) <= ds[k].maxNum
  {
    var d := Ask(Ask(Desk(y, {}), ds, p, t, k), ds, q, t, k);
    TakeCounts(d, p, t, k);
    TakeCounts(Take(d, p, t, k), q, t, k);
    var e := Ask(Desk(y, {}), ds, p, t, k);
    var f := Take(e, p, t, k);
    TakeCounts(e, p, t, k);
    assert Shaped(f.yard, ds);
    TakeCounts(Ask(f, ds, q, t, k), q, t, k);
  }

  // ---------------------------------------------------------------- in place

  class Fleet {
    const pilots: array<Pilot>
    /** One row of timers for each team. */
    const turns: array<seq<int>>

    constructor (pilots: array<Pilot>, turns: array<seq<int>>)
      ensures this.pilots == pilots && this.turns == turns
    {
      this.pilots, this.turns := pilots, turns;
    }

    ghost function Value(): Yard
      reads pilots, turns
    {
      Yard(pilots[..], turns[..])
    }

    /** Counts the team's ships of the type and looks at the timer; the pilot asking for a refit, if any,
        is passed over. */
    method AllowedShip(ds: seq<Design>, t: nat, k: nat, but: int, qualified: bool) returns (allowed: bool)
      requires Shaped(Value(), ds) && t < TEAMS && k < |ds|
      ensures allowed == Allowed(Value(), ds, t, k, but, qualified)
    {
      var count := 0;
      var i := 0;
      while i < pilots.Length
        invariant 0 <= i <= pilots.Length && count == Flying(pilots[..i], t, k, but)
      {
        assert pilots[..i + 1][..i] == pilots[..i];
        if i != but && pilots[i].alive && pilots[i].team == t && pilots[i].kind == k {
          count := count + 1;
        }
        i := i + 1;
      }
      assert pilots[..i] == pilots[..];
      if count >= ds[k].maxNum {
        return false;
      }
      if turns[t][k] > (ds[k].maxNum - count - 1) * ds[k].timer {
        return false;
      }
      return qualified;
    }

    method EnterShip(ds: seq<Design>, p: nat, t: nat, k: nat, qualified: bool)
      requires Shaped(Value(), ds) && Legal(Value(), ds, Enter(p, t, k, qualified))
      modifies pilots
      ensures Value() == Do(old(Value()), ds, Enter(p, t, k, qualified))
    {
      var allowed := AllowedShip(ds, t, k, NOBODY, qualified);
      if allowed {
        pilots[p] := Pilot(true, false, t, k);
      }
    }

    method DoRefit(ds: seq<Design>, p: nat, k: nat, qualified: bool)
      requires Shaped(Value(), ds) && Legal(Value(), ds, Refit(p, k, qualified))
      modifies pilots
      ensures Value() == Do(old(Value()), ds, Refit(p, k, qualified))
    {
      var allowed := AllowedShip(ds, pilots[p].team, k, p, qualified);
      if allowed {
        pilots[p] := Pilot(true, false, pilots[p].team, k);
      }
    }

    method CauseKaboom(ds: seq<Design>, p: nat)
      requires Shaped(Value(), ds) && Legal(Value(), ds, Kaboom(p))
      modifies pilots
      ensures Value() == Do(old(Value()), ds, Kaboom(p))
    {
      pilots[p] := pilots[p].(alive := false, exploding := true);
    }

    /** The last of an explosion: another ship has to be built. */
    method LastExplosion(ds: seq<Design>, p: nat, charged: bool)
      requires Shaped(Value(), ds) && Legal(Value(), ds, Die(p, charged))
      modifies pilots, turns
      ensures Value() == Do(old(Value()), ds, Die(p, charged))
    {
      var t, k := pilots[p].team, pilots[p].kind;
      pilots[p] := pilots[p].(exploding := false);
      if charged {
        turns[t] := turns[t][k := turns[t][k] + ds[k].timer];
      }
    }

    /** A minute passes for every team and type. */
    method ShipbuildTimers(ds: seq<Design>)
      requires Shaped(Value(), ds)
      modifies turns
      ensures Value() == Do(old(Value()), ds, Minute)
    {
      var t := 0;
      while t < turns.Length
        invariant 0 <= t <= turns.Length
        invariant forall u :: 0 <= u < t ==> turns[u] == Built(old(turns[u]))
        invariant forall u :: t <= u < turns.Length ==> turns[u] == old(turns[u])
      {
        BuildRow(t);
        t := t + 1;
      }
    }

    method BuildRow(t: nat)
      requires t < turns.Length
      modifies turns
      ensures turns[t] == Built(old(turns[t]))
      ensures forall u :: 0 <= u < turns.Length && u != t ==> turns[u] == old(turns[u])
    {
      ghost var row := turns[t];
      var k := 0;
      while k < |turns[t]|
        invariant 0 <= k <= |turns[t]| == |row|
        invariant forall l :: 0 <= l < k ==> turns[t][l] == Built(row)[l]
        invariant forall l :: k <= l < |row| ==> turns[t][l] == row[l]
        invariant forall u :: 0 <= u < turns.Length && u != t ==> turns[u] == old(turns[u])
        decreases |row| - k
      {
        if turns[t][k] > 0 {
          turns[t] := turns[t][k := turns[t][k] - 1];
        }
        k := k + 1;
      }
    }
  }
}
