/** Integer square root by odd numbers, and the table-driven hypotenuse with its true error bound. */
module IntMath {

  const HYPOTMIN := 1000
  const INT_MAX := 0x7fff_ffff

  /** The integer square root. */
  function Root(n: nat): (r: nat)
    ensures r * r <= n < (r + 1) * (r + 1)
  {
    if n == 0 then 0
    else
      var r := Root(n - 1);
      if (r + 1) * (r + 1) <= n then r + 1 else r
  }

  lemma SquareMono(a: nat, b: nat)
    requires a <= b
    ensures a * a <= b * b
  {
    assert b * b == a * a + (b - a) * (b + a);
  }

  /** Only one number squares to at most n and its successor to more. */
  lemma RootUnique(n: nat, r: nat)
    requires r * r <= n < (r + 1) * (r + 1)
    ensures Root(n) == r
  {
    if Root(n) < r {
      SquareMono(Root(n) + 1, r);
    } else if Root(n) > r {
      SquareMono(r + 1, Root(n));
    }
  }

  /** Sums the odd numbers 1, 3, 5, ... while they stay within n. */
  method Isqrt(n: int) returns (result: int)
    ensures n < 0 ==> result == 0
    ensures n >= 0 ==> result == Root(n)
    ensures n >= 0 ==> result >= 0 && result * result <= n < (result + 1) * (result + 1)
  {
    var sum, prev := 1, 1;
    result := 0;
    while sum <= n
      invariant result >= 0 && prev == 2 * result + 1
      invariant sum == (result + 1) * (result + 1)
      invariant n >= 0 ==> result * result <= n
      invariant n < 0 ==> result == 0
      decreases n - sum
    {
      prev := prev + 2;
      sum := sum + prev;
      result := result + 1;
    }
    if n >= 0 {
      RootUnique(n, result);
    }
  }

  /** The largest sum the loop forms, the square after the root, fits a 32-bit int exactly for
      arguments below 46340 squared. */
  lemma IsqrtFitsIff(n: nat)
    ensures (Root(n) + 1) * (Root(n) + 1) <= INT_MAX <==> n < 46340 * 46340
  {
    var r := Root(n);
    if r + 1 <= 46340 {
      SquareMono(r + 1, 46340);
    } else {
      SquareMono(46341, r + 1);
      SquareMono(46340, r);
    }
  }

  // ---------------------------------------------------------------- the hypotenuse

  function Abs(x: int): nat {
    if x < 0 then -x else x
  }

  /** Entry i of the table: the hypotenuse of i and a thousand, rounded down. */
  function Lookup(i: nat): (t: nat)
  {
    Root(i * i + HYPOTMIN * HYPOTMIN)
  }

  function Slot(max: nat, min: nat): (i: nat)
    requires max > 0 && min <= max
    ensures i <= HYPOTMIN
    ensures i * max <= HYPOTMIN * min < (i + 1) * max
  {
    SlotBounds(max, min);
    HYPOTMIN * min / max
  }

  lemma DivBounds(a: nat, b: nat)
    requires b > 0
    ensures a / b >= 0 && (a / b) * b <= a < (a / b + 1) * b
  {
    assert a == (a / b) * b + a % b;
  }

  lemma SlotBounds(max: nat, min: nat)
    requires max > 0 && min <= max
    ensures var i := HYPOTMIN * min / max;
      0 <= i <= HYPOTMIN && i * max <= HYPOTMIN * min < (i + 1) * max
  {
    DivBounds(HYPOTMIN * min, max);
    var i := HYPOTMIN * min / max;
    if i > HYPOTMIN {
      MulMono(HYPOTMIN + 1, i, max);
    }
  }

  function Scaled(max: nat, min: nat): nat
    requires min <= max
  {
    if max == 0 then 0 else Lookup(Slot(max, min)) * max / HYPOTMIN
  }

  function Hypot(x: int, y: int): nat {
    if Abs(x) > Abs(y) then Scaled(Abs(x), Abs(y)) else Scaled(Abs(y), Abs(x))
  }

  method IHypot(x: int, y: int) returns (d: int)
    ensures d == Hypot(x, y)
    ensures d * d <= x * x + y * y
  {
    var ax, ay := if x < 0 then -x else x, if y < 0 then -y else y;
    var max, min;
    if ax > ay {
      max, min := ax, ay;
    } else {
      max, min := ay, ax;
    }
    HypotBound(x, y);
    if max == 0 {
      return 0;
    }
    SlotBounds(max, min);
    d := Lookup(HYPOTMIN * min / max) * max / HYPOTMIN;
  }

  lemma LookupBounds(i: nat)
    requires i <= HYPOTMIN
    ensures HYPOTMIN <= Lookup(i) <= 1414
    ensures (i + 1) * (i + 1) + HYPOTMIN * HYPOTMIN < (Lookup(i) + 2) * (Lookup(i) + 2)
  {
    var t := Lookup(i);
    SquareMono(i, HYPOTMIN);
    if t < HYPOTMIN {
      SquareMono(t + 1, HYPOTMIN);
    }
    if t > 1414 {
      SquareMono(1415, t);
    }
  }

  lemma SquareOfProduct(a: nat, b: nat)
    ensures (a * b) * (a * b) == (a * a) * (b * b)
  {
  }

  lemma ScaledUpper(max: nat, min: nat)
    requires 0 < max && min <= max
    ensures Scaled(max, min) * Scaled(max, min) <= max * max + min * min
  {
    var i := Slot(max, min);
    var t := Lookup(i);
    var r := Scaled(max, min);
    var m := HYPOTMIN * HYPOTMIN;
    assert r * HYPOTMIN <= t * max;
    SquareMono(r * HYPOTMIN, t * max);
    SquareMono(i * max, HYPOTMIN * min);
    calc {
      (r * r) * m;
    ==  { SquareOfProduct(r, HYPOTMIN); }
      (r * HYPOTMIN) * (r * HYPOTMIN);
    <=
      (t * max) * (t * max);
    ==  { SquareOfProduct(t, max); }
      (t * t) * (max * max);
    <=  { MulMono(t * t, i * i + m, max * max); }
      (i * i + m) * (max * max);
    ==  { Distribute(i * i, m, max * max); SquareOfProduct(i, max); }
      (i * max) * (i * max) + m * (max * max);
    <=
      (HYPOTMIN * min) * (HYPOTMIN * min) + m * (max * max);
    ==  { SquareOfProduct(HYPOTMIN, min); }
      m * (min * min) + m * (max * max);
    }
  }

  lemma MulMono(a: nat, b: nat, c: nat)
    requires a <= b
    ensures a * c <= b * c
  {
  }

  lemma Distribute(a: nat, b: nat, c: nat)
    ensures (a + b) * c == a * c + b * c
  {
  }

  lemma SideSquare(max: nat, min: nat, i: nat)
    requires HYPOTMIN * min < (i + 1) * max
    ensures 1000000 * (min * min) <= ((i + 1) * (i + 1)) * (max * max)
  {
    SquareMono(HYPOTMIN * min, (i + 1) * max);
    SquareOfProduct(HYPOTMIN, min);
    SquareOfProduct(i + 1, max);
  }

  lemma EntrySquare(max: nat, j: nat, t: nat)
    requires j + 1000000 <= (t + 2) * (t + 2)
    ensures j * (max * max) + 1000000 * (max * max) <= ((t + 2) * max) * ((t + 2) * max)
  {
    MulMono(j + 1000000, (t + 2) * (t + 2), max * max);
    Distribute(j, 1000000, max * max);
    SquareOfProduct(t + 2, max);
  }

  lemma RoundedSquare(max: nat, t: nat, r: nat)
    requires t * max < HYPOTMIN * (r + 1)
    ensures var bound := HYPOTMIN * (r + 1) + 2 * max;
      ((t + 2) * max) * ((t + 2) * max) < bound * bound
  {
    var bound := HYPOTMIN * (r + 1) + 2 * max;
    Distribute(t, 2, max);
    var p := (t + 2) * max;
    assert p + 1 <= bound;
    SquareMono(p + 1, bound);
    assert (p + 1) * (p + 1) == p * p + 2 * p + 1;
  }

  lemma ScaledLower(max: nat, min: nat)
    requires 0 < max && min <= max
    ensures var bound := HYPOTMIN * (Scaled(max, min) + 1) + 2 * max;
      1000000 * (max * max) + 1000000 * (min * min) < bound * bound
  {
    var i := Slot(max, min);
    var t := Lookup(i);
    LookupBounds(i);
    SideSquare(max, min, i);
    EntrySquare(max, (i + 1) * (i + 1), t);
    DivBounds(t * max, HYPOTMIN);
    RoundedSquare(max, t, Scaled(max, min));
  }

  /** The table never overstates a distance, and understates it by less than one plus two thousandths
      of the longer side; sign and order of the sides do not matter. */
  lemma HypotBound(x: int, y: int)
    ensures Hypot(x, y) * Hypot(x, y) <= x * x + y * y
    ensures var bound := HYPOTMIN * (Hypot(x, y) + 1) + 2 * (if Abs(x) > Abs(y) then Abs(x) else Abs(y));
      1000000 * (x * x + y * y) < bound * bound
    ensures Hypot(x, y) == Hypot(y, x) == Hypot(-x, y)
  {
    assert Abs(x) * Abs(x) == x * x && Abs(y) * Abs(y) == y * y;
    if Abs(x) > Abs(y) {
      ScaledUpper(Abs(x), Abs(y));
      ScaledLower(Abs(x), Abs(y));
    } else if Abs(y) > 0 {
      ScaledUpper(Abs(y), Abs(x));
      ScaledLower(Abs(y), Abs(x));
    }
  }

  /** Along an axis the distance is exact. */
  lemma HypotOnAxis(x: int)
    ensures Hypot(x, 0) == Abs(x)
  {
    if x != 0 {
      assert Slot(Abs(x), 0) == 0;
      RootUnique(HYPOTMIN * HYPOTMIN, HYPOTMIN);
    }
  }

  /** The table's answer is the true distance, rounded down. */
  predicate Exact(max: nat, min: nat)
    requires min <= max
  {
    Scaled(max, min) == Root(max * max + min * min)
  }

  /** i, t and r are the slot, its entry and the distance the table then gives, and r is the true one. */
  predicate Witness(max: nat, min: nat, i: nat, t: nat, r: nat) {
    && 0 < max && min <= max
    && i * max <= HYPOTMIN * min < (i + 1) * max
    && t * t <= i * i + HYPOTMIN * HYPOTMIN < (t + 1) * (t + 1)
    && r * HYPOTMIN <= t * max < (r + 1) * HYPOTMIN
    && r * r <= max * max + min * min < (r + 1) * (r + 1)
  }

  /** Only one quotient fits. */
  lemma QuotientUnique(a: nat, b: nat, q: nat)
    requires b > 0 && q * b <= a < (q + 1) * b
    ensures a / b == q
  {
    DivBounds(a, b);
    if a / b < q {
      MulMono(a / b + 1, q, b);
    } else if a / b > q {
      MulMono(q + 1, a / b, b);
    }
  }

  lemma WitnessExact(max: nat, min: nat, i: nat, t: nat, r: nat)
    requires Witness(max, min, i, t, r)
    ensures min <= max && Exact(max, min)
  {
    QuotientUnique(HYPOTMIN * min, max, i);
    RootUnique(i * i + HYPOTMIN * HYPOTMIN, t);
    QuotientUnique(t * max, HYPOTMIN, r);
    RootUnique(max * max + min * min, r);
  }

  lemma Side1(min: nat)
    requires min <= 1
    ensures Exact(1, min)
  {
    WitnessExact(1, min,
                 [0, 1000][min],
                 [1000, 1414][min],
                 [1, 1][min]);
  }

  lemma Side2(min: nat)
    requires min <= 2
    ensures Exact(2, min)
  {
    WitnessExact(2, min,
                 [0, 500, 1000][min],
                 [1000, 1118, 1414][min],
                 [2, 2, 2][min]);
  }

  lemma Side3(min: nat)
    requires min <= 3
    ensures Exact(3, min)
  {
    WitnessExact(3, min,
                 [0, 333, 666, 1000][min],
                 [1000, 1053, 1201, 1414][min],
                 [3, 3, 3, 4][min]);
  }

  lemma Side4(min: nat)
    requires min <= 4
    ensures Exact(4, min)
  {
    WitnessExact(4, min,
                 [0, 250, 500, 750, 1000][min],
                 [1000, 1030, 1118, 1250, 1414][min],
                 [4, 4, 4, 5, 5][min]);
  }

  lemma Side5(min: nat)
    requires min <= 5
    ensures Exact(5, min)
  {
    WitnessExact(5, min,
                 [0, 200, 400, 600, 800, 1000][min],
                 [1000, 1019, 1077, 1166, 1280, 1414][min],
                 [5, 5, 5, 5, 6, 7][min]);
  }

  lemma Side6(min: nat)
    requires min <= 6
    ensures Exact(6, min)
  {
    WitnessExact(6, min,
                 [0, 166, 333, 500, 666, 833, 1000][min],
                 [1000, 1013, 1053, 1118, 1201, 1301, 1414][min],
                 [6, 6, 6, 6, 7, 7, 8][min]);
  }

  lemma Side7(min: nat)
    requires min <= 7
    ensures Exact(7, min)
  {
    WitnessExact(7, min,
                 [0, 142, 285, 428, 571, 714, 857, 1000][min],
                 [1000, 1010, 1039, 1087, 1151, 1228, 1316, 1414][min],
                 [7, 7, 7, 7, 8, 8, 9, 9][min]);
  }

  lemma Side8(min: nat)
    requires min <= 8
    ensures Exact(8, min)
  {
    WitnessExact(8, min,
                 [0, 125, 250, 375, 500, 625, 750, 875, 1000][min],
                 [1000, 1007, 1030, 1068, 1118, 1179, 1250, 1328, 1414][min],
                 [8, 8, 8, 8, 8, 9, 10, 10, 11][min]);
  }

  lemma Side9(min: nat)
    requires min <= 9
    ensures Exact(9, min)
  {
    WitnessExact(9, min,
                 [0, 111, 222, 333, 444, 555, 666, 777, 888, 1000][min],
                 [1000, 1006, 1024, 1053, 1094, 1143, 1201, 1266, 1337, 1414][min],
                 [9, 9, 9, 9, 9, 10, 10, 11, 12, 12][min]);
  }

  lemma Side10(min: nat)
    requires min <= 10
    ensures Exact(10, min)
  {
    WitnessExact(10, min,
                 [0, 100, 200, 300, 400, 500, 600, 700, 800, 900, 1000][min],
                 [1000, 1004, 1019, 1044, 1077, 1118, 1166, 1220, 1280, 1345, 1414][min],
                 [10, 10, 10, 10, 10, 11, 11, 12, 12, 13, 14][min]);
  }

  lemma Side11(min: nat)
    requires min <= 11
    ensures Exact(11, min)
  {
    WitnessExact(11, min,
                 [0, 90, 181, 272, 363, 454, 545, 636, 727, 818, 909, 1000][min],
                 [1000, 1004, 1016, 1036, 1063, 1098, 1138, 1185, 1236, 1291, 1351, 1414][min],
                 [11, 11, 11, 11, 11, 12, 12, 13, 13, 14, 14, 15][min]);
  }

  lemma SidesToEleven(max: nat, min: nat)
    requires min <= max <= 11
    ensures Exact(max, min)
  {
    match max
    case 0 => RootUnique(0, 0);
    case 1 => Side1(min);
    case 2 => Side2(min);
    case 3 => Side3(min);
    case 4 => Side4(min);
    case 5 => Side5(min);
    case 6 => Side6(min);
    case 7 => Side7(min);
    case 8 => Side8(min);
    case 9 => Side9(min);
    case 10 => Side10(min);
    case 11 => Side11(min);
  }

  /** Five and twelve give twelve, not thirteen. */
  lemma HypotInexact()
    ensures Hypot(5, 12) == 12 && Root(5 * 5 + 12 * 12) == 13
  {
    QuotientUnique(5000, 12, 416);
    RootUnique(416 * 416 + HYPOTMIN * HYPOTMIN, 1083);
    QuotientUnique(1083 * 12, HYPOTMIN, 12);
    RootUnique(169, 13);
  }

  lemma HypotIsScaled(x: int, y: int)
    ensures var max, min := if Abs(x) > Abs(y) then Abs(x) else Abs(y), if Abs(x) > Abs(y) then Abs(y) else Abs(x);
      Hypot(x, y) == Scaled(max, min) && x * x + y * y == max * max + min * min
  {
    assert Abs(x) * Abs(x) == x * x && Abs(y) * Abs(y) == y * y;
  }

  /** The distance of every pair of sides up to a length is exact, as it is claimed to be up to a thousand,
      exactly when that length is at most eleven. */
  lemma HypotExactIff(side: nat)
    ensures (forall x: int, y: int {:trigger Hypot(x, y)} ::
               Abs(x) <= side && Abs(y) <= side ==> Hypot(x, y) == Root(x * x + y * y))
            <==> side <= 11
  {
    if side <= 11 {
      forall x: int, y: int | Abs(x) <= side && Abs(y) <= side
        ensures Hypot(x, y) == Root(x * x + y * y)
      {
        HypotIsScaled(x, y);
        if Abs(x) > Abs(y) {
          SidesToEleven(Abs(x), Abs(y));
        } else {
          SidesToEleven(Abs(y), Abs(x));
        }
      }
    } else {
      HypotInexact();
      assert Hypot(5, 12) != Root(5 * 5 + 12 * 12);
    }
  }

  /** The values on the way to a distance fit a 32-bit int. */
  predicate Fits(max: nat, min: nat)
    requires 0 < max && min <= max
  {
    HYPOTMIN * min <= INT_MAX && Lookup(Slot(max, min)) * max <= INT_MAX
  }

  /** They fit for all sides up to a given length exactly when that length is at most 1518729. */
  lemma HypotFitsIff(side: nat)
    ensures (forall max: nat, min: nat {:trigger Fits(max, min)} ::
               0 < max <= side && min <= max ==> Fits(max, min))
            <==> side <= 1518729
  {
    if side <= 1518729 {
      forall max: nat, min: nat | 0 < max <= side && min <= max
        ensures Fits(max, min)
      {
        LookupBounds(Slot(max, min));
        MulMono(Lookup(Slot(max, min)), 1414, max);
      }
    } else {
      DiagonalSlot(side);
      assert !Fits(side, side);
    }
  }

  lemma DiagonalSlot(side: nat)
    requires side > 0
    ensures Lookup(Slot(side, side)) == 1414
  {
    QuotientUnique(HYPOTMIN * side, side, HYPOTMIN);
    RootUnique(2000000, 1414);
  }
}
