/** How a ship turns and changes speed: thousandths of a step add up until they move the ship by whole
    steps toward what its captain wants. */
module Helm {
  import opened Arith

  const CIRCLE := 256

  type Heading = d: int | 0 <= d < CIRCLE

  // ---------------------------------------------------------------- turning

  datatype Rudder = Rudder(dir: Heading, des: Heading, sub: nat)

  /** The way from b around to a, counting up. */
  function Arc(a: Heading, b: Heading): (r: nat)
    ensures r < CIRCLE
  {
    if a >= b then a - b else a - b + CIRCLE
  }

  /** The shorter way between two headings. */
  function Distance(a: Heading, b: Heading): (r: nat)
    ensures r <= CIRCLE / 2 && (r == 0 <==> a == b)
  {
    if Arc(a, b) <= CIRCLE - Arc(a, b) then Arc(a, b) else CIRCLE - Arc(a, b)
  }

  function Around(d: int): Heading {
    d % CIRCLE
  }

  function Power2(n: nat): (p: nat)
    ensures p > 0
  {
    if n == 0 then 1 else 2 * Power2(n - 1)
  }

  /** How much a ship's speed hinders its turning. */
  function Drag(speed: nat, newTurn: bool): (d: nat)
    requires speed > 0
    ensures d > 0
  {
    if newTurn then Squared(speed) else if speed < 30 then Power2(speed) else 1000000000
  }

  function Squared(n: nat): (s: nat)
    ensures n > 0 ==> s > 0
  {
    n * n
  }

  /** The thousandths a ship gains in a tick; slow ships turn fast. */
  function Gain(turns: nat, speed: nat, newTurn: bool): nat
    requires speed > 0
  {
    Quotient(turns, Drag(speed, newTurn))
  }

  function Quotient(a: nat, b: nat): nat
    requires b > 0
  {
    a / b
  }

  /** Turns by whole ticks, the shorter way round. */
  function Turned(r: Rudder, ticks: nat): Heading {
    var max := if r.dir > r.des then r.dir else r.des;
    var min := if r.dir > r.des then r.des else r.dir;
    if ticks > max - min || ticks > CIRCLE - max + min then r.des
    else if Around(r.dir - r.des) > 127 then Around(r.dir + ticks)
    else Around(r.dir - ticks)
  }

  function TurnBy(r: Rudder, gain: nat): Rudder {
    var sub := r.sub + gain;
    if sub / 1000 == 0 then r.(sub := sub) else r.(dir := Turned(r, sub / 1000), sub := sub % 1000)
  }

  function ChangeDir(r: Rudder, turns: nat, speed: nat, newTurn: bool): Rudder {
    if speed == 0 then r.(dir := r.des, sub := 0) else TurnBy(r, Gain(turns, speed, newTurn))
  }

  lemma AroundOnce(d: int)
    requires -CIRCLE <= d < 2 * CIRCLE
    ensures Around(d) == if d < 0 then d + CIRCLE else if d < CIRCLE then d else d - CIRCLE
  {
  }

  /** A turn shortens the way to the wanted heading by exactly its ticks, and ends on it when the ticks
      are more than the way: it never overshoots. */
  lemma TurnShortens(r: Rudder, ticks: nat)
    ensures Distance(Turned(r, ticks), r.des) ==
            if ticks > Distance(r.dir, r.des) then 0 else Distance(r.dir, r.des) - ticks
  {
    AroundOnce(r.dir - r.des);
    if ticks <= CIRCLE {
      AroundOnce(r.dir + ticks);
      AroundOnce(r.dir - ticks);
    }
  }

  /** What is left of a way of d after t steps. */
  function Left(d: nat, t: nat): nat {
    if t > d then 0 else d - t
  }

  /** One tick of turning: the way is shorter by the whole steps gained, and what is over is kept. */
  lemma TurnedBy(r: Rudder, gain: nat)
    ensures TurnBy(r, gain).des == r.des && TurnBy(r, gain).sub == (r.sub + gain) % 1000
    ensures Distance(TurnBy(r, gain).dir, r.des) == Left(Distance(r.dir, r.des), (r.sub + gain) / 1000)
  {
    TurnShortens(r, (r.sub + gain) / 1000);
  }

  /** n ticks of steering at a steady gain; a ship on its heading does not turn. */
  function Steer(r: Rudder, gain: nat, n: nat): Rudder
    decreases n
  {
    if n == 0 then r else Steer(if r.dir != r.des then TurnBy(r, gain) else r, gain, n - 1)
  }

  lemma CarryOnce(a: nat, b: nat)
    ensures (a + b) / 1000 == a / 1000 + (a % 1000 + b) / 1000
    ensures (a + b) % 1000 == (a % 1000 + b) % 1000
  {
  }

  lemma LeftTwice(d: nat, t: nat, more: nat)
    ensures Left(Left(d, t), more) == Left(d, t + more)
  {
  }

  /** At a steady speed no thousandth is lost: after n ticks the way to the wanted heading is shorter by
      the whole steps in all that was gained, and the ship is on its heading once they cover the way. */
  lemma {:induction false} SteadyTurn(r: Rudder, gain: nat, n: nat)
    requires r.sub < 1000
    ensures var gained := r.sub + Times(n, gain);
      && Distance(Steer(r, gain, n).dir, r.des) == Left(Distance(r.dir, r.des), gained / 1000)
      && (gained / 1000 < Distance(r.dir, r.des) ==> Steer(r, gain, n).sub == gained % 1000)
    decreases n
  {
    if n > 0 {
      if r.dir == r.des {
        SteadyTurn(r, gain, n - 1);
      } else {
        var a, b := r.sub + gain, Times(n - 1, gain);
        CarryOnce(a, b);
        TurnedBy(r, gain);
        LeftTwice(Distance(r.dir, r.des), a / 1000, (a % 1000 + b) / 1000);
        SteadyTurn(TurnBy(r, gain), gain, n - 1);
      }
    }
  }

  // ---------------------------------------------------------------- speed

  datatype Engine = Engine(speed: int, sub: int, des: int)

  /** The limits of a tick: what damage and drive allow, how fast the drive gains and loses speed, whether
      the engines are overheated and not under repair, whether the fuel allows acceleration, and whether
      it has run out. */
  datatype Limits = Limits(
    maxSpeed: nat, acc: nat, dec: nat, overheated: bool, fuelled: bool, dry: bool, warpDecel: bool)

  ghost predicate Running(e: Engine) {
    e.speed >= 0 && e.des >= 0 && -1000 < e.sub < 1000
  }

  /** C's division and remainder by a thousand. */
  function Whole(sub: int): int {
    if sub >= 0 then sub / 1000 else -(-sub / 1000)
  }

  function Part(sub: int): int {
    if sub >= 0 then sub % 1000 else -(-sub % 1000)
  }

  /** The wanted speed after the limits. */
  function Wanted(des: int, l: Limits): int {
    if l.overheated then 0 else if des > l.maxSpeed then l.maxSpeed else des
  }

  /** The wanted speed once a dry tank has had its say. */
  function Settled(des: int, l: Limits): int {
    if l.dry then 1 else Wanted(des, l)
  }

  function Pushed(e: Engine, l: Limits): int {
    var sub := if Wanted(e.des, l) > e.speed && l.fuelled then e.sub + l.acc else e.sub;
    if Settled(e.des, l) < e.speed then sub - l.dec else sub
  }

  function Capped(speed: int, l: Limits): int {
    if !l.warpDecel && speed > l.maxSpeed then l.maxSpeed else speed
  }

  /** Whole steps go into the speed, up to the wanted one; what is left stays in hand. */
  function Shifted(e: Engine, l: Limits): Engine {
    var speed := e.speed + Whole(e.sub);
    if (e.sub < 0 && speed < e.des) || (e.sub > 0 && speed > e.des) then Engine(Capped(e.des, l), 0, e.des)
    else Engine(Capped(if speed < 0 then 0 else speed, l), Part(e.sub), e.des)
  }

  function Accelerate(e: Engine, l: Limits): Engine {
    var f := Engine(e.speed, Pushed(e, l), Settled(e.des, l));
    if Whole(f.sub) == 0 then f else Shifted(f, l)
  }

  /** A tick moves the speed toward the wanted one and not past it, and keeps less than a whole step in
      hand.  The one exception is a ship out of fuel whose hull allows no speed at all: the code wants it
      to creep, and then stops it. */
  lemma SpeedTowardWanted(e: Engine, l: Limits)
    requires Running(e) && !(l.dry && l.fuelled)
    ensures var f := Accelerate(e, l);
      && Running(f) && f.des == Settled(e.des, l)
      && (e.speed <= f.des ==> e.speed <= f.speed)
      && (e.speed >= f.des ==> f.speed <= e.speed)
      && ((if e.speed <= f.des then f.speed <= f.des else f.des <= f.speed) <==>
            !(l.dry && l.maxSpeed == 0 && !l.warpDecel && e.speed > 1 && e.sub - l.dec <= -1000))
  {
  }

  /** n ticks under the same limits. */
  function Hold(e: Engine, l: Limits, n: nat): Engine
    decreases n
  {
    if n == 0 then e else Hold(Accelerate(e, l), l, n - 1)
  }

  predicate Free(l: Limits) {
    !l.overheated && l.fuelled && !l.dry
  }

  lemma OneGain(e: Engine, l: Limits)
    requires Running(e) && e.sub >= 0 && Free(l) && e.speed < e.des <= l.maxSpeed
    ensures var f, total := Accelerate(e, l), 1000 * e.speed + e.sub + l.acc;
      && f.des == e.des && 0 <= f.sub < 1000
      && f.speed == (if total / 1000 > e.des then e.des else total / 1000)
      && (total / 1000 <= e.des ==> 1000 * f.speed + f.sub == total)
  {
    WholePart(e.speed, e.sub + l.acc);
  }

  lemma WholePart(speed: nat, sub: nat)
    ensures (1000 * speed + sub) / 1000 == speed + sub / 1000
    ensures 1000 * (speed + sub / 1000) + sub % 1000 == 1000 * speed + sub
  {
  }

  /** Under full power a ship gains its acceleration exactly: after n ticks its speed is all it has gained
      in whole steps, or the wanted speed once that is reached. */
  lemma {:induction false} SteadyGain(e: Engine, l: Limits, n: nat)
    requires Running(e) && e.sub >= 0 && Free(l) && e.speed <= e.des <= l.maxSpeed
    ensures var f, gained := Hold(e, l, n), (1000 * e.speed + e.sub + Times(n, l.acc)) / 1000;
      f.speed == (if gained > e.des then e.des else gained) && f.des == e.des
    decreases n
  {
    if n == 0 {
      WholePart(e.speed, e.sub);
    } else if e.speed == e.des {
      SteadyGain(e, l, n - 1);
      AtLeast(e.des, 1000 * e.speed + e.sub + Times(n, l.acc));
    } else {
      OneGain(e, l);
      SteadyGain(Accelerate(e, l), l, n - 1);
      GainOn(Accelerate(e, l), e.des, 1000 * e.speed + e.sub + l.acc, Times(n - 1, l.acc));
    }
  }

  /** What is gained after the wanted speed has been passed does not count. */
  lemma GainOn(f: Engine, des: nat, total: nat, more: nat)
    requires f.speed >= 0 && f.sub >= 0
    requires total / 1000 <= des ==> 1000 * f.speed + f.sub == total
    requires total / 1000 > des ==> f.speed == des
    ensures var a, b := (1000 * f.speed + f.sub + more) / 1000, (total + more) / 1000;
      (if a > des then des else a) == (if b > des then des else b)
  {
    if total / 1000 > des {
      AtLeast(des, 1000 * f.speed + f.sub + more);
      AtLeast(des, total + more);
    }
  }

  lemma AtLeast(s: nat, t: nat)
    requires t >= 1000 * s
    ensures t / 1000 >= s
  {
  }

  // ---------------------------------------------------------------- in place

  class Ship {
    var dir: Heading
    var desDir: Heading
    var subDir: nat
    var speed: int
    var subSpeed: int
    var desSpeed: int

    constructor (r: Rudder, e: Engine)
      ensures RudderOf() == r && EngineOf() == e
    {
      dir, desDir, subDir := r.dir, r.des, r.sub;
      speed, subSpeed, desSpeed := e.speed, e.sub, e.des;
    }

    ghost function RudderOf(): Rudder
      reads this
    {
      Rudder(dir, desDir, subDir)
    }

    ghost function EngineOf(): Engine
      reads this
    {
      Engine(speed, subSpeed, desSpeed)
    }

    method Turn(turns: nat, newTurn: bool)
      requires speed >= 0
      modifies this`dir, this`subDir
      ensures RudderOf() == ChangeDir(old(RudderOf()), turns, speed, newTurn)
      ensures old(subDir) < 1000 ==> subDir < 1000
      ensures Distance(dir, desDir) ==
              if speed == 0 then 0
              else Left(Distance(old(dir), desDir), (old(subDir) + Gain(turns, speed, newTurn)) / 1000)
    {
      if speed == 0 {
        dir := desDir;
        subDir := 0;
      } else {
        TurnGaining(Gain(turns, speed, newTurn));
      }
    }

    method TurnGaining(gain: nat)
      modifies this`dir, this`subDir
      ensures RudderOf() == TurnBy(old(RudderOf()), gain)
      ensures subDir == (old(subDir) + gain) % 1000
      ensures Distance(dir, desDir) == Left(Distance(old(dir), desDir), (old(subDir) + gain) / 1000)
    {
      TurnedBy(RudderOf(), gain);
      subDir := subDir + gain;
      if subDir / 1000 != 0 {
        TurnTicks(subDir / 1000);
        subDir := subDir % 1000;
      }
    }

    method TurnTicks(ticks: nat)
      modifies this`dir
      ensures dir == Turned(old(RudderOf()), ticks)
      ensures Distance(dir, desDir) == Left(Distance(old(dir), desDir), ticks)
    {
      TurnShortens(RudderOf(), ticks);
      var min, max;
      if dir > desDir {
        min, max := desDir, dir;
      } else {
        min, max := dir, desDir;
      }
      if ticks > max - min || ticks > CIRCLE - max + min {
        dir := desDir;
      } else if Around(dir - desDir) > 127 {
        dir := Around(dir + ticks);
      } else {
        dir := Around(dir - ticks);
      }
    }

    /** The part of a move that changes the speed. */
    method AlterSpeed(l: Limits)
      requires Running(EngineOf()) && !(l.dry && l.fuelled)
      modifies this`speed, this`subSpeed, this`desSpeed
      ensures EngineOf() == Accelerate(old(EngineOf()), l)
      ensures Running(EngineOf())
      ensures old(speed) <= desSpeed ==> old(speed) <= speed
      ensures old(speed) >= desSpeed ==> old(speed) >= speed
    {
      SpeedTowardWanted(EngineOf(), l);
      if desSpeed > l.maxSpeed {
        desSpeed := l.maxSpeed;
      }
      if l.overheated {
        desSpeed := 0;
      }
      if desSpeed > speed && l.fuelled {
        subSpeed := subSpeed + l.acc;
      }
      if l.dry {
        desSpeed := 1;
      }
      if desSpeed < speed {
        subSpeed := subSpeed - l.dec;
      }
      assert EngineOf() == Engine(old(speed), Pushed(old(EngineOf()), l), Settled(old(desSpeed), l));
      if Whole(subSpeed) != 0 {
        ShiftSpeed(l);
      }
    }

    method ShiftSpeed(l: Limits)
      modifies this`speed, this`subSpeed
      ensures EngineOf() == Shifted(old(EngineOf()), l)
    {
      speed := speed + Whole(subSpeed);
      if (subSpeed < 0 && speed < desSpeed) || (subSpeed > 0 && speed > desSpeed) {
        speed := desSpeed;
        subSpeed := 0;
      } else {
        subSpeed := Part(subSpeed);
        if speed < 0 {
          speed := 0;
        }
      }
      if !l.warpDecel && speed > l.maxSpeed {
        speed := l.maxSpeed;
      }
    }
  }
}
