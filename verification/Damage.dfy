/** What a hit does to shields, hull and cargo, and what a docked ship draws from its base. */
module Damage {
  import opened Arith

  /** The parts of a ship a hit can change. */
  datatype Hull = Hull(
    shieldsUp: bool, shield: int, maxShield: int, damage: int, maxDamage: int, armies: int)
  {
    /** What the ship can still take before its hull gives way, shields included. */
    function Strength(): int {
      shield + (maxDamage - damage)
    }

    predicate Lost() {
      damage >= maxDamage
    }
  }

  datatype Rules = Rules(penetration: real, erosion: real, killArmies: real)

  /** The draws of one hit: armies out of a hundred, a chance for them to escape, the coin of each half
      point of erosion, and a chance for the rest. */
  datatype Draws = Draws(share: int, luck: real, coin: int -> bool, rest: real)

  predicate Sound(h: Hull) {
    0 <= h.shield <= h.maxShield && 0 < h.maxShield
  }

  /** C's conversion to int. */
  function Truncated(x: real): int {
    if x >= 0.0 then x.Floor else -((-x).Floor)
  }

  // ---------------------------------------------------------------- the hit

  /** The part of a hit that comes through the shields; the lower they are, the more. */
  function Penetrated(h: Hull, hit: int, rules: Rules): int
    requires h.maxShield != 0
  {
    Truncated(hit as real * rules.penetration * (h.maxShield - h.shield) as real / h.maxShield as real)
  }

  function AfterShields(h: Hull, hit: int, rules: Rules): (r: (Hull, int))
    requires h.shieldsUp ==> h.maxShield != 0
    ensures r.0.(shield := h.shield) == h
  {
    if h.shieldsUp then
      var p := Penetrated(h, hit, rules);
      var left := h.shield - (hit - p);
      (h.(shield := if left < 0 then 0 else left), (if left < 0 then -left else 0) + p)
    else (h, hit)
  }

  function Half(maxDamage: int): int {
    if maxDamage >= 0 then maxDamage / 2 else -(-maxDamage / 2)
  }

  function Quotient(a: int, b: int): int
    requires b > 0
  {
    if a >= 0 then a / b else -(-a / b)
  }

  predicate CargoAtRisk(h: Hull, rules: Rules) {
    rules.killArmies > 0.0 && h.damage > Half(h.maxDamage) && h.armies > 0
  }

  /** The damage beyond half, for each army. */
  function Beyond(h: Hull): int {
    (h.damage - Half(h.maxDamage)) * h.armies
  }

  /** The most armies a hit can kill, in proportion to the damage beyond half. */
  function Doomed(h: Hull): int
    requires Half(h.maxDamage) > 0
  {
    Quotient(Beyond(h), Half(h.maxDamage))
  }

  function Killed(h: Hull, rules: Rules, d: Draws): int
    requires Half(h.maxDamage) > 0
  {
    if d.luck >= rules.killArmies then 0 else Quotient(Doomed(h) * d.share, 100)
  }

  function AfterCargo(h: Hull, rules: Rules, d: Draws): (r: Hull)
    requires CargoAtRisk(h, rules) ==> Half(h.maxDamage) > 0
    ensures r.(armies := h.armies) == h
  {
    if CargoAtRisk(h, rules) && Killed(h, rules, d) > 0
    then h.(armies := h.armies - Killed(h, rules, d)) else h
  }

  lemma HalvesLeft(chance: real)
    requires chance >= 0.5
    ensures (2.0 * (chance - 0.5)).Floor == (2.0 * chance).Floor - 1 && (2.0 * chance).Floor >= 1
  {
    assert 2.0 * (chance - 0.5) == 2.0 * chance - 1.0;
  }

  /** How many points of damage become permanent: one toss for each half point of chance, from the k-th
      coin on, and a last draw for what is left. */
  function Eroded(chance: real, coin: int -> bool, rest: real, k: nat): (n: nat)
    ensures chance < 0.0 ==> n <= 1
    ensures chance >= 0.0 ==> n <= (2.0 * chance).Floor + 1
    decreases if chance >= 0.5 then (2.0 * chance).Floor else 0
  {
    if chance >= 0.5 then
      HalvesLeft(chance);
      (if coin(k) then 1 else 0) + Eroded(chance - 0.5, coin, rest, k + 1)
    else if rest < chance then 1
    else 0
  }

  function Inflict(h: Hull, hit: int, rules: Rules, d: Draws): Hull
    requires h.shieldsUp ==> h.maxShield != 0
    requires h.armies > 0 && rules.killArmies > 0.0 ==> Half(h.maxDamage) > 0
  {
    if hit < 0 then h
    else
      var g, through := AfterShields(h, hit, rules).0, AfterShields(h, hit, rules).1;
      if through <= 0 then g
      else Pierced(g, through, rules, d)
  }

  function Chance(through: int, rules: Rules): real {
    through as real * rules.erosion
  }

  /** n points of damage become a smaller hull instead. */
  function Worn(h: Hull, n: nat): Hull {
    h.(maxDamage := h.maxDamage - n, damage := h.damage - n)
  }

  /** What comes through to the hull: damage, cargo and erosion. */
  function Pierced(g: Hull, through: int, rules: Rules, d: Draws): Hull
    requires g.armies > 0 && rules.killArmies > 0.0 ==> Half(g.maxDamage) > 0
  {
    var c := AfterCargo(g.(damage := g.damage + through), rules, d);
    if rules.erosion > 0.0 then Worn(c, Eroded(Chance(through, rules), d.coin, d.rest, 0)) else c
  }

  // ---------------------------------------------------------------- what a hit takes

  lemma PenetratedBounds(h: Hull, hit: int, rules: Rules)
    requires Sound(h) && hit >= 0 && 0.0 <= rules.penetration <= 1.0
    ensures 0 <= Penetrated(h, hit, rules) <= hit
  {
    var a := hit as real * rules.penetration;
    var gap := (h.maxShield - h.shield) as real;
    var max := h.maxShield as real;
    assert 0.0 <= a <= hit as real;
    ScaleBounds(a, gap, max);
  }

  lemma ScaleBounds(a: real, gap: real, max: real)
    requires a >= 0.0 && 0.0 <= gap <= max && max > 0.0
    ensures 0.0 <= a * gap / max <= a
  {
    var q := a * gap / max;
    assert q * max == a * gap;
    if a > 0.0 {
      RealMulAtMost(gap, max, a);
    }
    if q > a {
      RealMulLess(a, q, max);
    }
    if q < 0.0 {
      RealMulLess(q, 0.0, max);
    }
  }

  lemma RealMulLess(a: real, b: real, c: real)
    requires a < b && c > 0.0
    ensures a * c < b * c
  {
  }

  lemma RealMulAtMost(a: real, b: real, c: real)
    requires a <= b && c >= 0.0
    ensures a * c <= b * c && c * a <= c * b
  {
  }

  /** A hit takes exactly its damage from shields and hull together, however much penetrates and
      whatever becomes permanent; shields stay within their range, and lose no more than the hit. */
  lemma HitConserves(h: Hull, hit: int, rules: Rules, d: Draws)
    requires Sound(h) && hit >= 0 && 0.0 <= rules.penetration <= 1.0
    requires h.armies > 0 && rules.killArmies > 0.0 ==> Half(h.maxDamage) > 0
    ensures var r := Inflict(h, hit, rules, d);
      && r.Strength() == h.Strength() - hit
      && Sound(r) && h.shield - hit <= r.shield <= h.shield
      && (!h.shieldsUp ==> r.shield == h.shield)
      && (r.Lost() <==> h.maxDamage - h.damage + h.shield - r.shield <= hit)
  {
    PenetratedBounds(h, hit, rules);
  }

  lemma {:induction false} ErosionAtMost(chance: real, coin: int -> bool, rest: real, k: nat, most: nat)
    requires 0.0 <= chance && 2.0 * chance <= most as real && rest >= 0.0
    ensures Eroded(chance, coin, rest, k) <= most
    decreases most
  {
    if chance >= 0.5 {
      HalvesLeft(chance);
      ErosionAtMost(chance - 0.5, coin, rest, k + 1, most - 1);
    } else if rest < chance {
      assert most >= 1;
    }
  }

  ghost predicate KeepsDamagePositive(rules: Rules) {
    forall h: Hull, hit: int, d: Draws {:trigger Inflict(h, hit, rules, d)} ::
      Sound(h) && h.damage >= 0 && hit >= 0 && d.rest >= 0.0 &&
      (h.armies > 0 && rules.killArmies > 0.0 ==> Half(h.maxDamage) > 0) ==>
        Inflict(h, hit, rules, d).damage >= 0
  }

  /** Erosion never takes back more than the hit did exactly when its rate is at most a half. */
  lemma DamagePositiveIff(rules: Rules)
    requires 0.0 <= rules.penetration <= 1.0
    ensures KeepsDamagePositive(rules) <==> rules.erosion <= 0.5
  {
    if rules.erosion <= 0.5 {
      forall h: Hull, hit: int, d: Draws |
        Sound(h) && h.damage >= 0 && hit >= 0 && d.rest >= 0.0 &&
        (h.armies > 0 && rules.killArmies > 0.0 ==> Half(h.maxDamage) > 0)
        ensures Inflict(h, hit, rules, d).damage >= 0
      {
        DamageStaysPositive(h, hit, rules, d);
      }
    } else {
      ErosionOverpays(rules);
    }
  }

  lemma DamageStaysPositive(h: Hull, hit: int, rules: Rules, d: Draws)
    requires Sound(h) && h.damage >= 0 && hit >= 0 && d.rest >= 0.0
    requires 0.0 <= rules.penetration <= 1.0 && rules.erosion <= 0.5
    requires h.armies > 0 && rules.killArmies > 0.0 ==> Half(h.maxDamage) > 0
    ensures Inflict(h, hit, rules, d).damage >= 0
  {
    var g, through := AfterShields(h, hit, rules).0, AfterShields(h, hit, rules).1;
    assert g.damage == h.damage;
    if through > 0 && rules.erosion > 0.0 {
      RealMulAtMost(rules.erosion, 0.5, through as real);
      ErosionAtMost(Chance(through, rules), d.coin, d.rest, 0, through);
    }
  }

  /** An undamaged ship without shields that takes one point of damage, and every draw against it. */
  lemma ErosionOverpays(rules: Rules)
    requires rules.erosion > 0.5
    ensures !KeepsDamagePositive(rules)
  {
    var h := Hull(false, 0, 1, 0, 100, 0);
    var d := Draws(0, 1.0, _ => true, 0.0);
    var e := rules.erosion;
    assert 1 as real * e == e;
    TwoTosses(e, d.coin);
    assert Chance(1, rules) == e;
    assert Inflict(h, 1, rules, d).damage == 1 - Eroded(Chance(1, rules), d.coin, 0.0, 0);
    assert Half(h.maxDamage) == 50;
  }

  lemma TwoTosses(e: real, coin: int -> bool)
    requires e > 0.5 && coin(0) && coin(1)
    ensures Eroded(e, coin, 0.0, 0) >= 2
  {
    assert Eroded(e - 0.5, coin, 0.0, 1) >= 1;
  }

  // ---------------------------------------------------------------- cargo

  /** A hit can leave a ship with a negative number of armies; it cannot, whatever the draws, exactly when
      the damage beyond half does not kill more than all in proportion. */
  lemma ArmiesSurviveIff(h: Hull, rules: Rules)
    requires CargoAtRisk(h, rules) && Half(h.maxDamage) > 0
    ensures (forall d: Draws {:trigger AfterCargo(h, rules, d)} ::
               0 <= d.share <= 100 ==> AfterCargo(h, rules, d).armies >= 0)
            <==> Beyond(h) < Half(h.maxDamage) * (h.armies + 1)
  {
    DoomedBelow(h);
    if Doomed(h) <= h.armies {
      forall d: Draws | 0 <= d.share <= 100 ensures AfterCargo(h, rules, d).armies >= 0 {
        CargoSafe(h, rules, d);
      }
    } else {
      CargoLost(h, rules);
    }
  }

  lemma DoomedBelow(h: Hull)
    requires h.damage > Half(h.maxDamage) > 0 && h.armies > 0
    ensures Doomed(h) >= 0
    ensures Doomed(h) <= h.armies <==>
            Beyond(h) < Half(h.maxDamage) * (h.armies + 1)
  {
    Positive(h.damage - Half(h.maxDamage), h.armies);
    QuotientBelow(Beyond(h), Half(h.maxDamage), h.armies);
  }

  lemma Positive(a: int, b: int)
    requires a > 0 && b > 0
    ensures a * b > 0
  {
  }

  lemma CargoSafe(h: Hull, rules: Rules, d: Draws)
    requires CargoAtRisk(h, rules) && Half(h.maxDamage) > 0 && 0 <= Doomed(h) <= h.armies && 0 <= d.share <= 100
    ensures AfterCargo(h, rules, d).armies >= 0
  {
    ShareBounds(Doomed(h), d.share);
  }

  /** Every draw against the cargo. */
  const WORST := Draws(100, 0.0, _ => true, 0.0)

  lemma CargoLost(h: Hull, rules: Rules)
    requires CargoAtRisk(h, rules) && Half(h.maxDamage) > 0 && Doomed(h) > h.armies
    ensures 0 <= WORST.share <= 100 && AfterCargo(h, rules, WORST).armies < 0
  {
    var n := Doomed(h);
    assert n * 100 / 100 == n;
    assert Killed(h, rules, WORST) == n;
  }

  lemma QuotientBelow(a: nat, b: nat, c: nat)
    requires b > 0
    ensures a / b <= c <==> a < b * (c + 1)
  {
    var q := a / b;
    assert a == q * b + a % b;
    if q <= c {
      assert q * b <= c * b;
    } else {
      assert q * b >= (c + 1) * b;
    }
  }

  lemma ShareBounds(n: nat, share: int)
    requires 0 <= share <= 100
    ensures 0 <= n * share / 100 <= n
  {
    assert n * share <= n * 100;
  }

  /** A ship that is not overkilled and has an even hull keeps a proper number of armies. */
  lemma EvenHullKeepsCargo(h: Hull)
    requires h.maxDamage % 2 == 0 && 0 < h.maxDamage && h.damage <= h.maxDamage && h.armies >= 0
    ensures Beyond(h) < Half(h.maxDamage) * (h.armies + 1)
  {
    var half := Half(h.maxDamage);
    assert (h.damage - half) * h.armies <= half * h.armies;
    assert half * (h.armies + 1) == half * h.armies + half;
  }

  /** In particular a ship that outlives a hit has lost no more armies than it carried: only a hit that
      destroys the ship can kill more. */
  lemma SurvivorKeepsCargo(h: Hull, hit: int, rules: Rules, d: Draws)
    requires h.shieldsUp ==> h.maxShield != 0
    requires h.armies > 0 && rules.killArmies > 0.0 ==> Half(h.maxDamage) > 0
    requires h.armies >= 0 && h.maxDamage >= 0 && 0 <= d.share <= 100
    requires !Inflict(h, hit, rules, d).Lost()
    ensures 0 <= Inflict(h, hit, rules, d).armies <= h.armies
  {
    var (g, through) := AfterShields(h, hit, rules);
    if hit >= 0 && through > 0 {
      var c := g.(damage := g.damage + through);
      if CargoAtRisk(c, rules) {
        HalfIsEnough(c);
        DoomedBelow(c);
        ShareBounds(Doomed(c), d.share);
      }
    }
  }

  /** Both at once, where each applies. */
  lemma HitEffect(h: Hull, hit: int, rules: Rules, d: Draws)
    requires h.shieldsUp ==> h.maxShield != 0
    requires h.armies > 0 && rules.killArmies > 0.0 ==> Half(h.maxDamage) > 0
    ensures Sound(h) && hit >= 0 && 0.0 <= rules.penetration <= 1.0 ==>
              Sound(Inflict(h, hit, rules, d)) && Inflict(h, hit, rules, d).Strength() == h.Strength() - hit
    ensures h.armies >= 0 && h.maxDamage >= 0 && 0 <= d.share <= 100 && !Inflict(h, hit, rules, d).Lost() ==>
              0 <= Inflict(h, hit, rules, d).armies <= h.armies
  {
    if Sound(h) && hit >= 0 && 0.0 <= rules.penetration <= 1.0 {
      HitConserves(h, hit, rules, d);
    }
    if h.armies >= 0 && h.maxDamage >= 0 && 0 <= d.share <= 100 && !Inflict(h, hit, rules, d).Lost() {
      SurvivorKeepsCargo(h, hit, rules, d);
    }
  }

  lemma HalfIsEnough(h: Hull)
    requires 0 <= h.damage < h.maxDamage && h.armies > 0 && Half(h.maxDamage) > 0
    ensures Beyond(h) < Half(h.maxDamage) * (h.armies + 1)
  {
    var half := Half(h.maxDamage);
    assert h.damage - half <= half;
    assert (h.damage - half) * h.armies <= half * h.armies;
    assert half * (h.armies + 1) == half * h.armies + half;
  }

  // ---------------------------------------------------------------- the hit in place

  class Victim {
    var shieldsUp: bool
    var shield: int
    var maxShield: int
    var damage: int
    var maxDamage: int
    var armies: int
    var exploding: bool

    constructor (h: Hull)
      ensures Value() == h && !exploding
    {
      shieldsUp, shield, maxShield := h.shieldsUp, h.shield, h.maxShield;
      damage, maxDamage, armies := h.damage, h.maxDamage, h.armies;
      exploding := false;
    }

    ghost function Value(): Hull
      reads this
    {
      Hull(shieldsUp, shield, maxShield, damage, maxDamage, armies)
    }

    method InflictDamage(hit: int, rules: Rules, d: Draws) returns (killed: bool)
      requires shieldsUp ==> maxShield != 0
      requires armies > 0 && rules.killArmies > 0.0 ==> Half(maxDamage) > 0
      modifies this
      ensures Value() == Inflict(old(Value()), hit, rules, d)
      ensures killed == (hit >= 0 && Value().Lost())
      ensures exploding == (old(exploding) || killed)
      ensures old(Sound(Value())) && hit >= 0 && 0.0 <= rules.penetration <= 1.0 ==>
                Sound(Value()) && Value().Strength() == old(Value().Strength()) - hit
      ensures old(armies >= 0 && maxDamage >= 0) && 0 <= d.share <= 100 && !Value().Lost() ==>
                0 <= armies <= old(armies)
    {
      HitEffect(Value(), hit, rules, d);
      if hit < 0 {
        return false;
      }
      var through := hit;
      if shieldsUp {
        through := HitShields(hit, rules);
      }
      assert (Value(), through) == AfterShields(old(Value()), hit, rules);
      if through > 0 {
        Pierce(through, rules, d);
      }
      killed := damage >= maxDamage;
      if killed {
        exploding := true;
      }
    }

    method Pierce(through: int, rules: Rules, d: Draws)
      requires armies > 0 && rules.killArmies > 0.0 ==> Half(maxDamage) > 0
      modifies this`damage, this`maxDamage, this`armies
      ensures Value() == Pierced(old(Value()), through, rules, d)
    {
      damage := damage + through;
      KillCargo(rules, d);
      if rules.erosion > 0.0 {
        Erode(Chance(through, rules), d.coin, d.rest);
      }
    }

    method HitShields(hit: int, rules: Rules) returns (through: int)
      requires shieldsUp && maxShield != 0
      modifies this`shield
      ensures (Value(), through) == AfterShields(old(Value()), hit, rules)
      ensures through + old(shield) - shield == hit
    {
      var penetrated := Penetrated(Hull(shieldsUp, shield, maxShield, damage, maxDamage, armies), hit, rules);
      through := hit - penetrated;
      shield := shield - through;
      if shield < 0 {
        through := -shield;
        shield := 0;
      } else {
        through := 0;
      }
      through := through + penetrated;
    }

    method KillCargo(rules: Rules, d: Draws)
      requires armies > 0 && rules.killArmies > 0.0 ==> Half(maxDamage) > 0
      modifies this`armies
      ensures Value() == AfterCargo(old(Value()), rules, d)
    {
      if rules.killArmies > 0.0 && damage > Half(maxDamage) && armies > 0 {
        assert Beyond(Value()) == (damage - Half(maxDamage)) * armies;
        var maxCanKill := Quotient((damage - Half(maxDamage)) * armies, Half(maxDamage));
        var ak := Quotient(maxCanKill * d.share, 100);
        if d.luck >= rules.killArmies {
          ak := 0;
        }
        if ak > 0 {
          armies := armies - ak;
        }
      }
    }

    method Erode(start: real, coin: int -> bool, rest: real)
      modifies this`damage, this`maxDamage
      ensures damage == old(damage) - Eroded(start, coin, rest, 0)
      ensures maxDamage == old(maxDamage) - Eroded(start, coin, rest, 0)
      ensures maxDamage - damage == old(maxDamage - damage)
    {
      var chance := start;
      ghost var k := 0;
      var toss := 0;
      while chance >= 0.5
        invariant toss == k >= 0
        invariant damage - Eroded(chance, coin, rest, k) == old(damage) - Eroded(start, coin, rest, 0)
        invariant maxDamage - damage == old(maxDamage) - old(damage)
        decreases if chance >= 0.5 then (2.0 * chance).Floor else 0
      {
        HalvesLeft(chance);
        if coin(toss) {
          maxDamage := maxDamage - 1;
          damage := damage - 1;
        }
        chance := chance - 0.5;
        toss := toss + 1;
        k := k + 1;
      }
      if rest < chance {
        maxDamage := maxDamage - 1;
        damage := damage - 1;
      }
    }
  }

  // ---------------------------------------------------------------- docked refuelling

  datatype Tank = Tank(fuel: int, max: int)

  /** A docked ship with its missiles, and its base. */
  datatype Dockside = Dockside(ship: Tank, base: Tank, missiles: int)

  /** What decides the flow: the base fuels only if it can and only above its minimum; the ship takes so
      much at a time, regains so much of its own, and may be a patrol ship, which takes on missiles up to
      a limit at the base's cost. */
  datatype Pump = Pump(canFuel: bool, minGive: int, take: nat, recharge: nat, patrol: bool, limit: int, cost: nat)

  predicate Gives(d: Dockside, p: Pump) {
    d.base.fuel > p.minGive && p.canFuel && d.ship.fuel < d.ship.max
  }

  /** The docked branches, before anything has overflowed. */
  function Flow(d: Dockside, p: Pump): Dockside {
    if d.ship.fuel < d.ship.max then
      if Gives(d, p) then
        d.(ship := d.ship.(fuel := d.ship.fuel + p.take), base := d.base.(fuel := d.base.fuel - p.take))
      else d
    else if p.patrol then
      if d.missiles < p.limit then d.(base := d.base.(fuel := d.base.fuel - p.cost), missiles := d.missiles + 1)
      else d
    else d.(ship := d.ship.(fuel := d.ship.fuel + p.recharge))
  }

  /** What does not fit goes to the base, as far as it has room. */
  function Spill(d: Dockside): Dockside {
    if d.ship.fuel <= d.ship.max then d
    else
      var over := d.ship.fuel - d.ship.max;
      var b := if d.base.fuel < d.base.max then Min(d.base.fuel + over, d.base.max) else d.base.fuel;
      d.(ship := d.ship.(fuel := d.ship.max), base := d.base.(fuel := b))
  }

  /** One tick of a docked ship. */
  function Refuel(d: Dockside, p: Pump): Dockside {
    var r := Spill(Flow(d, p));
    if r.ship.fuel < 0 then r.(ship := r.ship.(fuel := 0)) else r
  }

  function Total(d: Dockside): int {
    d.ship.fuel + d.base.fuel
  }

  /** The fuel a tick adds to two tanks within their limits. */
  function Gained(d: Dockside, p: Pump): int {
    if d.ship.fuel < d.ship.max then 0
    else if !p.patrol then Min(p.recharge, d.base.max - d.base.fuel)
    else if d.missiles < p.limit then 0 - p.cost
    else 0
  }

  /** What a tick makes of the fuel in the two tanks: nothing while the ship has room; once it is full,
      a patrol ship's missiles cost the base fuel, and any other ship's own recharge goes to the base
      until that is full. */
  lemma RefuelTotal(d: Dockside, p: Pump)
    requires 0 <= d.ship.fuel <= d.ship.max && d.base.fuel <= d.base.max
    ensures Total(Refuel(d, p)) == Total(d) + Gained(d, p)
  {
  }

  /** A tick keeps the fuel in the two tanks if and only if: a ship with room draws nothing, or what it
      draws fits, or the base has room for what comes back; a full patrol ship has its missiles, or they
      are free; any other full ship regains nothing or the base is full. */
  lemma RefuelConservesIff(d: Dockside, p: Pump)
    requires 0 <= d.ship.fuel <= d.ship.max
    ensures Total(Refuel(d, p)) == Total(d) <==>
            if d.ship.fuel < d.ship.max then
              !Gives(d, p) || d.ship.fuel + p.take <= d.ship.max
              || d.base.fuel - (d.ship.max - d.ship.fuel) <= d.base.max
            else if p.patrol then d.missiles >= p.limit || p.cost == 0
            else p.recharge == 0 || d.base.fuel >= d.base.max
  {
  }

  /** Neither tank overflows; a ship with room never takes the base below its minimum by more than one
      load; a full ship stays full. */
  lemma RefuelKeepsTanks(d: Dockside, p: Pump)
    requires 0 <= d.ship.fuel <= d.ship.max && d.base.fuel <= d.base.max
    ensures var r := Refuel(d, p);
      && r.ship.max == d.ship.max && r.base.max == d.base.max
      && d.ship.fuel <= r.ship.fuel <= r.ship.max && r.base.fuel <= r.base.max
      && (Gives(d, p) ==> p.minGive - p.take < r.base.fuel <= d.base.fuel)
      && (d.ship.fuel < d.ship.max && !Gives(d, p) ==> r == d)
  {
  }

  function Ticks(d: Dockside, p: Pump, n: nat): Dockside
    decreases n
  {
    if n == 0 then d else Ticks(Refuel(d, p), p, n - 1)
  }

  /** How many loads a base gives before it is down to its minimum. */
  function Loads(base: int, p: Pump): nat
    decreases base - p.minGive
  {
    if p.take == 0 || !p.canFuel || base <= p.minGive then 0 else 1 + Loads(base - p.take, p)
  }

  /** How many loads fill the ship. */
  function Fills(t: Tank, take: nat): nat
    requires take > 0
    decreases t.max - t.fuel
  {
    if t.fuel >= t.max then 0 else 1 + Fills(t.(fuel := t.fuel + take), take)
  }

  /** The ship never fills up. */
  predicate NeverFull(d: Dockside, p: Pump) {
    d.ship.fuel < d.ship.max && (p.take == 0 || Fills(d.ship, p.take) > Loads(d.base.fuel, p))
  }

  /** How many of n ticks find the ship full. */
  function FullTicks(d: Dockside, p: Pump, n: nat): nat {
    if d.ship.fuel >= d.ship.max then n
    else if NeverFull(d, p) then 0
    else Max(0, n - Fills(d.ship, p.take))
  }

  /** How many missiles are taken on in n ticks with a full tank. */
  function Armed(d: Dockside, p: Pump, n: nat): nat {
    Min(n, Max(0, p.limit - d.missiles))
  }

  ghost predicate Within(d: Dockside) {
    0 <= d.ship.fuel <= d.ship.max && d.base.fuel <= d.base.max
  }

  /** What the tanks hold after n ticks. */
  ghost predicate HeldAfter(d: Dockside, p: Pump, n: nat, e: Dockside) {
    && e.ship.max == d.ship.max && e.base.max == d.base.max
    && e.ship.fuel == Min(d.ship.max, d.ship.fuel + Times(Min(n, Loads(d.base.fuel, p)), p.take))
    && (!p.patrol ==>
          && e.missiles == d.missiles
          && Total(e) == Min(d.ship.max + d.base.max, Total(d) + Times(FullTicks(d, p, n), p.recharge)))
    && (p.patrol ==>
          && e.missiles == d.missiles + Armed(d, p, FullTicks(d, p, n))
          && Total(e) == Total(d) - Times(Armed(d, p, FullTicks(d, p, n)), p.cost))
  }

  /** A full ship stays full; only the base and the missiles change. */
  lemma {:induction false} FullStaysFull(d: Dockside, p: Pump, n: nat)
    requires Within(d) && d.ship.fuel == d.ship.max
    ensures HeldAfter(d, p, n, Ticks(d, p, n))
    decreases n
  {
    if n > 0 {
      var e := Ticks(d, p, n);
      FullStaysFull(Refuel(d, p), p, n - 1);
      if p.patrol {
        PatrolTick(d, p, n, e);
      } else {
        RechargeTick(d, p, n, e);
      }
    }
  }

  lemma PatrolTick(d: Dockside, p: Pump, n: nat, e: Dockside)
    requires Within(d) && d.ship.fuel == d.ship.max && p.patrol && n > 0
    requires HeldAfter(Refuel(d, p), p, n - 1, e)
    ensures HeldAfter(d, p, n, e)
  {
    var r := Refuel(d, p);
    assert FullTicks(r, p, n - 1) == n - 1 && FullTicks(d, p, n) == n;
    assert Armed(d, p, n) == (if d.missiles < p.limit then 1 + Armed(r, p, n - 1) else 0);
  }

  lemma RechargeTick(d: Dockside, p: Pump, n: nat, e: Dockside)
    requires Within(d) && d.ship.fuel == d.ship.max && !p.patrol && n > 0
    requires HeldAfter(Refuel(d, p), p, n - 1, e)
    ensures HeldAfter(d, p, n, e)
  {
    RefuelTotal(d, p);
    var r := Refuel(d, p);
    assert FullTicks(r, p, n - 1) == n - 1 && FullTicks(d, p, n) == n;
    assert Times(n, p.recharge) == p.recharge + Times(n - 1, p.recharge);
  }

  /** However long a ship stays docked: it holds all the loads that the base could give or its tank could
      take; the two tanks together hold what they held, plus its own recharge for every tick that found it
      full, as far as the base has room; or, for a patrol ship, less the cost of the missiles taken on. */
  lemma {:induction false} DockedTanks(d: Dockside, p: Pump, n: nat)
    requires Within(d)
    ensures HeldAfter(d, p, n, Ticks(d, p, n))
    decreases n
  {
    if d.ship.fuel == d.ship.max {
      FullStaysFull(d, p, n);
    } else if n > 0 {
      var e := Ticks(d, p, n);
      RefuelKeepsTanks(d, p);
      DockedTanks(Refuel(d, p), p, n - 1);
      if !Gives(d, p) {
        DryTick(d, p, n, e);
      } else if d.ship.fuel + p.take < d.ship.max {
        RoomTick(d, p, n, e);
      } else {
        FillingTick(d, p, n, e);
      }
    }
  }

  /** The base gives nothing, now and later. */
  lemma DryTick(d: Dockside, p: Pump, n: nat, e: Dockside)
    requires Within(d) && d.ship.fuel < d.ship.max && n > 0 && !Gives(d, p)
    requires HeldAfter(Refuel(d, p), p, n - 1, e)
    ensures HeldAfter(d, p, n, e)
  {
    assert Refuel(d, p) == d && Loads(d.base.fuel, p) == 0;
  }

  /** A load that leaves room for more. */
  lemma RoomTick(d: Dockside, p: Pump, n: nat, e: Dockside)
    requires Within(d) && n > 0 && Gives(d, p) && d.ship.fuel + p.take < d.ship.max
    requires HeldAfter(Refuel(d, p), p, n - 1, e)
    ensures HeldAfter(d, p, n, e)
  {
    var r := Refuel(d, p);
    assert Total(r) == Total(d) && r.missiles == d.missiles;
    if p.take > 0 {
      assert Loads(d.base.fuel, p) == 1 + Loads(r.base.fuel, p);
      assert Fills(d.ship, p.take) == 1 + Fills(r.ship, p.take);
      assert FullTicks(d, p, n) == FullTicks(r, p, n - 1);
      var k := Min(n, Loads(d.base.fuel, p));
      assert Times(k, p.take) == p.take + Times(k - 1, p.take);
    }
  }

  /** The load that fills the ship. */
  lemma FillingTick(d: Dockside, p: Pump, n: nat, e: Dockside)
    requires Within(d) && n > 0 && Gives(d, p) && d.ship.fuel < d.ship.max <= d.ship.fuel + p.take
    requires HeldAfter(Refuel(d, p), p, n - 1, e)
    ensures HeldAfter(d, p, n, e)
  {
    var r := Refuel(d, p);
    RefuelTotal(d, p);
    assert r.ship.fuel == r.ship.max && r.missiles == d.missiles;
    assert Fills(d.ship, p.take) == 1;
    assert Loads(d.base.fuel, p) >= 1;
    assert FullTicks(d, p, n) == n - 1 == FullTicks(r, p, n - 1);
    var k := Min(n, Loads(d.base.fuel, p));
    assert Times(k, p.take) == p.take + Times(k - 1, p.take);
  }

  /** Over n ticks docked the fuel in the two tanks stays the same if and only if: no tick finds the ship
      full; or it is a patrol ship with all its missiles, or they are free; or another ship that regains
      nothing, or the two tanks began with all they can hold. */
  lemma DockedFuelConservedIff(d: Dockside, p: Pump, n: nat)
    requires Within(d)
    ensures Total(Ticks(d, p, n)) == Total(d) <==>
            || FullTicks(d, p, n) == 0
            || (if p.patrol then d.missiles >= p.limit || p.cost == 0
                else p.recharge == 0 || Total(d) == d.ship.max + d.base.max)
  {
    DockedTanks(d, p, n);
    TimesPositive(FullTicks(d, p, n), p.recharge);
    TimesPositive(Armed(d, p, FullTicks(d, p, n)), p.cost);
  }

  lemma {:induction false} TimesPositive(n: nat, a: nat)
    ensures Times(n, a) == 0 <==> n == 0 || a == 0
  {
    if n > 0 {
      TimesPositive(n - 1, a);
    }
  }

  class FuelTank {
    var fuel: int
    var missiles: int
    const max: int

    constructor (fuel: int, max: int, missiles: int)
      ensures this.fuel == fuel && this.max == max && this.missiles == missiles
    {
      this.fuel, this.max, this.missiles := fuel, max, missiles;
    }

    ghost function Value(): Tank
      reads this
    {
      Tank(fuel, max)
    }
  }

  ghost function Beside(ship: FuelTank, base: FuelTank): Dockside
    reads ship, base
  {
    Dockside(ship.Value(), base.Value(), ship.missiles)
  }

  /** The docked branches of refuelling and the overflow that follows them. */
  method DoRefuel(ship: FuelTank, base: FuelTank, p: Pump)
    requires ship != base
    modifies ship`fuel, ship`missiles, base`fuel
    ensures Beside(ship, base) == Refuel(old(Beside(ship, base)), p)
    ensures old(Within(Beside(ship, base))) ==>
              && Within(Beside(ship, base))
              && Total(Beside(ship, base)) == old(Total(Beside(ship, base))) + Gained(old(Beside(ship, base)), p)
  {
    if Within(Beside(ship, base)) {
      RefuelTotal(Beside(ship, base), p);
    }
    if ship.fuel < ship.max {
      if base.fuel > p.minGive && p.canFuel && ship.fuel < ship.max {
        ship.fuel := ship.fuel + p.take;
        base.fuel := base.fuel - p.take;
      }
    } else if ship.fuel >= ship.max && p.patrol {
      if ship.missiles < p.limit {
        base.fuel := base.fuel - p.cost;
        ship.missiles := ship.missiles + 1;
      }
    } else {
      ship.fuel := ship.fuel + p.recharge;
    }
    if ship.fuel > ship.max {
      if base.fuel < base.max {
        base.fuel := base.fuel + ship.fuel - ship.max;
        if base.fuel > base.max {
          base.fuel := base.max;
        }
      }
      ship.fuel := ship.max;
    }
    if ship.fuel < 0 {
      ship.fuel := 0;
    }
  }
}
