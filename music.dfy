/**
 * Musical arithmetic of the sequencer: rounding as the source's Math.round does it, the
 * rotation and note durations of a polygon, the radius-to-octave mapping, and the least
 * common multiple used to size the exported arrangement.
 */
module Music {

  /** Ticks per beat, fixed everywhere (playback timing and export). */
  const TicksPerBeat: int := 480

  /** Beats in one measure. */
  const BeatsPerMeasure: int := 4

  /** Math.round: the integer nearest to x, halves rounding up. */
  function Round(x: real): (r: int)
    ensures x - 0.5 < r as real <= x + 0.5
  {
    (x + 0.5).Floor
  }

  /** Math.ceil: the least integer not below x. */
  function Ceil(x: real): (r: int)
    ensures x <= r as real < x + 1.0
  {
    -((-x).Floor)
  }

  /** Rounding commutes with a shift by a whole number of units: no drift across rotations. */
  lemma RoundShift(x: real, n: int)
    ensures Round(x + n as real) == Round(x) + n
  {
    var a, b := Round(x + n as real), Round(x) + n;
    assert x + n as real - 0.5 < a as real <= x + n as real + 0.5;
    assert x + n as real - 0.5 < b as real <= x + n as real + 0.5;
  }

  /** getRotationDuration: one rotation lasts `measures` measures, in beats. */
  function RotationDuration(measures: int): int
  {
    BeatsPerMeasure * measures
  }

  /** getNoteDurationSeconds: the share of one rotation that falls to one corner, in seconds. */
  function NoteDurationSeconds(measures: int, sides: int, bpm: real): (d: real)
    requires sides > 0 && bpm > 0.0
    ensures d * sides as real * bpm / 60.0 == RotationDuration(measures) as real
  {
    var beats := RotationDuration(measures) as real / sides as real;
    assert beats * sides as real == RotationDuration(measures) as real;
    beats / bpm * 60.0
  }

  /** getNoteDurationTicks: the share of one rotation that falls to one corner, in whole ticks. */
  function NoteDurationTicks(measures: int, sides: int): (t: int)
    requires sides > 0
    ensures measures >= 0 ==> t >= 0
    ensures (RotationDuration(measures) * TicksPerBeat) % sides == 0 ==>
              t * sides == RotationDuration(measures) * TicksPerBeat
  {
    var x := RotationDuration(measures) as real / sides as real * TicksPerBeat as real;
    var n := RotationDuration(measures) * TicksPerBeat;
    assert x == n as real / sides as real;
    if n % sides == 0 then
      ExactQuotient(n, sides);
      Round(x)
    else
      Round(x)
  }

  /** The ticks per corner are 1920·measures / sides rounded to the nearest whole tick. */
  lemma NoteDurationTicksNear(measures: int, sides: int)
    requires sides > 0
    ensures var q := (RotationDuration(measures) * TicksPerBeat) as real / sides as real;
            q - 0.5 < NoteDurationTicks(measures, sides) as real <= q + 0.5
  {
    var q := (RotationDuration(measures) * TicksPerBeat) as real / sides as real;
    var x := RotationDuration(measures) as real / sides as real * TicksPerBeat as real;
    assert x == q;
    assert NoteDurationTicks(measures, sides) == Round(x);
  }

  /** One measure: 480 ticks per corner of a square, 320 of a hexagon, 274 of a heptagon. */
  lemma NoteDurationTicksExamples()
    ensures NoteDurationTicks(1, 4) == 480 && NoteDurationTicks(1, 6) == 320
    ensures NoteDurationTicks(1, 3) == 640 && NoteDurationTicks(1, 7) == 274
    ensures NoteDurationTicks(1, 9) == 213
  {
    assert NoteDurationTicks(1, 9) == Round(4.0 / 9.0 * 480.0);
    assert NoteDurationTicks(1, 7) == Round(4.0 / 7.0 * 480.0);
  }

  /** An exact integer quotient is its own rounding. */
  lemma ExactQuotient(n: int, d: int)
    requires d > 0 && n % d == 0
    ensures Round(n as real / d as real) == n / d
    ensures (n / d) * d == n
  {
    var q := n / d;
    assert n == d * q;
    assert n as real == d as real * q as real;
    assert n as real / d as real == q as real;
  }

  // ---------------------------------------------------------------------------------------
  // Octave by radius

  /**
   * getNoteByRadius: smaller polygons sound higher. The breakpoints are strict: a radius
   * exactly on a breakpoint already takes the lower octave.
   */
  function GetNoteByRadius(note: real, radius: real): (f: real)
    ensures note == 0.0 <==> f == 0.0
    ensures note > 0.0 ==> note / 8.0 <= f <= note * 4.0
  {
    if radius < 20.0 then note * 4.0
    else if radius < 50.0 then note * 2.0
    else if radius < 100.0 then note
    else if radius < 200.0 then note / 2.0
    else if radius < 250.0 then note / 4.0
    else note / 8.0
  }

  /** The octave mapping as a sorted table: (exclusive upper radius, frequency multiplier). */
  const OctaveTable: seq<(real, real)> :=
    [(20.0, 4.0), (50.0, 2.0), (100.0, 1.0), (200.0, 0.5), (250.0, 0.25)]

  /** Multiplier for radii beyond the last breakpoint. */
  const OutermostFactor: real := 0.125

  /** Reference reading of a breakpoint table: the first row whose bound exceeds the radius. */
  function TableFactor(table: seq<(real, real)>, radius: real): real
  {
    if table == [] then OutermostFactor
    else if radius < table[0].0 then table[0].1
    else TableFactor(table[1..], radius)
  }

  /** The chained conditionals of getNoteByRadius agree with the breakpoint table. */
  lemma GetNoteByRadiusIsTable(note: real, radius: real)
    ensures GetNoteByRadius(note, radius) == note * TableFactor(OctaveTable, radius)
  {
    var t := OctaveTable;
    assert t[1..][1..][1..][1..][1..] == [];
    assert TableFactor(t[1..][1..][1..][1..], radius)
        == if radius < 250.0 then 0.25 else OutermostFactor;
    assert TableFactor(t[1..][1..][1..], radius)
        == if radius < 200.0 then 0.5 else TableFactor(t[1..][1..][1..][1..], radius);
    assert TableFactor(t[1..][1..], radius)
        == if radius < 100.0 then 1.0 else TableFactor(t[1..][1..][1..], radius);
  }

  /** A polygon never sounds higher than a smaller one with the same note. */
  lemma GetNoteByRadiusMonotone(note: real, r1: real, r2: real)
    requires note >= 0.0 && r1 <= r2
    ensures GetNoteByRadius(note, r2) <= GetNoteByRadius(note, r1)
  {
  }

  /** The breakpoints, including the ones on the boundary of a band. */
  lemma OctaveBoundaries()
    ensures GetNoteByRadius(440.0, 19.0) == 1760.0
    ensures GetNoteByRadius(440.0, 20.0) == 880.0
    ensures GetNoteByRadius(440.0, 30.0) == 880.0
    ensures GetNoteByRadius(440.0, 99.0) == 440.0
    ensures GetNoteByRadius(440.0, 100.0) == 220.0
    ensures GetNoteByRadius(440.0, 249.0) == 110.0
    ensures GetNoteByRadius(440.0, 250.0) == 55.0
  {
  }

  // ---------------------------------------------------------------------------------------
  // Least common multiple of the measures

  ghost predicate Divides(d: int, n: int)
  {
    exists k: int :: d * k == n
  }

  /** The inner gcd of lcm: Euclid's algorithm; the second argument strictly decreases. */
  function Gcd(x: nat, y: nat): (g: nat)
    decreases y
    ensures x > 0 || y > 0 ==> g > 0
    ensures Divides(g, x) && Divides(g, y)
    ensures forall d :: Divides(d, x) && Divides(d, y) ==> Divides(d, g)
  {
    if y == 0 then
      assert g0: x * 1 == x && x * 0 == 0;
      x
    else
      var g := Gcd(y, x % y);
      GcdStep(x, y, g);
      GcdKeepsDivisors(x, y);
      g
  }

  /** Euclid's step keeps the common divisors: a divisor of x and y divides x % y. */
  lemma GcdKeepsDivisors(x: nat, y: nat)
    requires y > 0
    ensures forall d :: Divides(d, x) && Divides(d, y) ==> Divides(d, x % y)
  {
    forall d | Divides(d, x) && Divides(d, y) ensures Divides(d, x % y) {
      var a :| d * a == x;
      var b :| d * b == y;
      assert x % y == x - (x / y) * y;
      assert d * (a - (x / y) * b) == x % y by {
        calc {
          d * (a - (x / y) * b);
          d * a - (x / y) * (d * b);
          x - (x / y) * y;
        }
      }
    }
  }

  /** Bezout's identity, by the extended Euclidean algorithm. */
  lemma Bezout(x: nat, y: nat) returns (s: int, t: int)
    decreases y
    ensures s * x + t * y == Gcd(x, y)
  {
    if y == 0 {
      s, t := 1, 0;
    } else {
      var s', t' := Bezout(y, x % y);
      var q, r := x / y, x % y;
      BezoutStep(x, y, q, r, s', t');
      s, t := t', s' - t' * q;
    }
  }

  /** One step of the extended Euclidean algorithm: coefficients for (y, r) give ones for (x, y). */
  lemma BezoutStep(x: int, y: int, q: int, r: int, s': int, t': int)
    requires x == q * y + r
    ensures t' * x + (s' - t' * q) * y == s' * y + t' * r
  {
    calc {
      t' * x + (s' - t' * q) * y;
      t' * (q * y + r) + s' * y - (t' * q) * y;
      { assert t' * (q * y + r) == (t' * q) * y + t' * r; }
      s' * y + t' * r;
    }
  }

  lemma GcdStep(x: nat, y: nat, g: nat)
    requires y > 0 && Divides(g, y) && Divides(g, x % y)
    ensures Divides(g, x)
  {
    var a :| g * a == y;
    var b :| g * b == x % y;
    assert x == (x / y) * y + x % y;
    assert g * ((x / y) * a + b) == x by {
      calc {
        g * ((x / y) * a + b);
        (x / y) * (g * a) + g * b;
        (x / y) * y + x % y;
      }
    }
  }

  /** lcm(a, b) = a*b / gcd(a, b): the least positive common multiple of two positive counts. */
  function Lcm(a: int, b: int): (m: int)
    requires a > 0 && b > 0
    ensures m > 0 && Divides(a, m) && Divides(b, m)
    ensures forall n :: Divides(a, n) && Divides(b, n) ==> Divides(m, n)
  {
    var g := Gcd(a, b);
    LcmMultiple(a, b, g);
    LcmLeast(a, b);
    a * b / g
  }

  /** Every common multiple of a and b is a multiple of a*b/gcd(a, b). */
  lemma LcmLeast(a: int, b: int)
    requires a > 0 && b > 0
    ensures forall n :: Divides(a, n) && Divides(b, n) ==> Divides(a * b / Gcd(a, b), n)
  {
    var g := Gcd(a, b);
    var s, t := Bezout(a, b);
    var a' :| g * a' == a;
    var m := a * b / g;
    assert a * b == g * (a' * b);
    DivExact(a * b, g, a' * b);
    assert m * g == a * b;
    forall n | Divides(a, n) && Divides(b, n) ensures Divides(m, n) {
      CommonMultiple(a, b, g, m, s, t, n);
    }
  }

  lemma CommonMultiple(a: int, b: int, g: int, m: int, s: int, t: int, n: int)
    requires g > 0 && m * g == a * b && s * a + t * b == g
    requires Divides(a, n) && Divides(b, n)
    ensures Divides(m, n)
  {
    var p :| a * p == n;
    var q :| b * q == n;
    var ab := a * b;
    Distribute(n, s * a, t * b);
    Regroup(s, a, b, q);
    Regroup(t, b, a, p);
    assert b * a == ab;
    Distribute(ab, s * q, t * p);
    Swap(m, g, s * q + t * p);
    assert n * g == (m * (s * q + t * p)) * g;
    MulCancel(n, m * (s * q + t * p), g);
  }

  lemma Distribute(n: int, x: int, y: int)
    ensures n * (x + y) == n * x + n * y
  {
  }

  lemma Regroup(s: int, a: int, b: int, q: int)
    ensures (b * q) * (s * a) == (a * b) * (s * q)
  {
  }

  lemma Swap(m: int, g: int, k: int)
    ensures (m * g) * k == (m * k) * g
  {
  }

  lemma MulCancel(x: int, y: int, g: int)
    requires g > 0 && x * g == y * g
    ensures x == y
  {
    assert (x - y) * g == 0;
    if x - y >= 1 {
      MulMono(g, 1, x - y);
    } else if x - y <= -1 {
      MulMono(g, 1, y - x);
    }
  }

  lemma LcmMultiple(a: int, b: int, g: int)
    requires a > 0 && b > 0 && g > 0 && Divides(g, a) && Divides(g, b)
    ensures a * b / g > 0 && Divides(a, a * b / g) && Divides(b, a * b / g)
  {
    var p :| g * p == a;
    var q :| g * q == b;
    assert p > 0 && q > 0;
    assert a * b == g * (a * q) by { calc { a * b; a * (g * q); g * (a * q); } }
    DivExact(a * b, g, a * q);
    assert a * b == g * (b * p) by { calc { a * b; (g * p) * b; g * (b * p); } }
    DivExact(a * b, g, b * p);
    assert a * q > 0;
  }

  lemma DivExact(n: int, g: int, k: int)
    requires g > 0 && n == g * k
    ensures n / g == k
  {
    var q, r := n / g, n % g;
    assert n == g * q + r && 0 <= r < g;
    assert g * (k - q) == r by { calc { g * (k - q); g * k - g * q; r; } }
    if k - q >= 1 {
      MulMono(g, 1, k - q);
    } else if k - q <= -1 {
      MulMono(g, 1, q - k);
    }
  }

  lemma MulMono(g: int, a: int, b: int)
    requires g > 0 && a <= b
    ensures g * a <= g * b
  {
    assert g * b - g * a == g * (b - a);
  }

  /** Divisibility is transitive. */
  lemma DividesTrans(a: int, b: int, c: int)
    requires Divides(a, b) && Divides(b, c)
    ensures Divides(a, c)
  {
    var p :| a * p == b;
    var q :| b * q == c;
    assert a * (p * q) == c;
  }

  /** lcmArray: arr.reduce(lcm, 1). */
  function LcmArray(arr: seq<int>): int
    requires forall i :: 0 <= i < |arr| ==> arr[i] > 0
  {
    LcmFold(1, arr)
  }

  function LcmFold(acc: int, arr: seq<int>): (m: int)
    requires acc > 0
    requires forall i :: 0 <= i < |arr| ==> arr[i] > 0
    ensures m > 0
    decreases |arr|
  {
    if arr == [] then acc else LcmFold(Lcm(acc, arr[0]), arr[1..])
  }

  /** The fold is a multiple of its seed and of every element it folds in. */
  lemma {:induction false} LcmFoldMultiple(acc: int, arr: seq<int>)
    requires acc > 0
    requires forall i :: 0 <= i < |arr| ==> arr[i] > 0
    ensures Divides(acc, LcmFold(acc, arr))
    ensures forall i :: 0 <= i < |arr| ==> Divides(arr[i], LcmFold(acc, arr))
    decreases |arr|
  {
    if arr == [] {
      assert acc * 1 == acc;
    } else {
      var next := Lcm(acc, arr[0]);
      LcmFoldMultiple(next, arr[1..]);
      var m := LcmFold(acc, arr);
      DividesTrans(acc, next, m);
      DividesTrans(arr[0], next, m);
      forall i | 0 <= i < |arr| ensures Divides(arr[i], m) {
        if i > 0 { assert arr[i] == arr[1..][i - 1]; }
      }
    }
  }

  /** The fold divides every common multiple of its seed and its elements: it is the least one. */
  lemma {:induction false} LcmFoldLeast(acc: int, arr: seq<int>, n: int)
    requires acc > 0
    requires forall i :: 0 <= i < |arr| ==> arr[i] > 0
    requires Divides(acc, n) && forall i :: 0 <= i < |arr| ==> Divides(arr[i], n)
    ensures Divides(LcmFold(acc, arr), n)
    decreases |arr|
  {
    if arr != [] {
      assert Divides(Lcm(acc, arr[0]), n);
      forall i | 0 <= i < |arr[1..]| ensures Divides(arr[1..][i], n) {
        assert arr[1..][i] == arr[i + 1];
      }
      LcmFoldLeast(Lcm(acc, arr[0]), arr[1..], n);
    }
  }

  /** lcmArray divides every common multiple of the list: the arrangement is the shortest one. */
  lemma LcmArrayLeast(arr: seq<int>, n: int)
    requires forall i :: 0 <= i < |arr| ==> arr[i] > 0
    requires forall i :: 0 <= i < |arr| ==> Divides(arr[i], n)
    ensures Divides(LcmArray(arr), n)
  {
    assert 1 * n == n;
    LcmFoldLeast(1, arr, n);
  }

  /** An empty list has lcm 1; otherwise the result is a positive multiple of every element. */
  lemma LcmArrayMultiple(arr: seq<int>)
    requires forall i :: 0 <= i < |arr| ==> arr[i] > 0
    ensures LcmArray(arr) > 0
    ensures arr == [] ==> LcmArray(arr) == 1
    ensures forall i :: 0 <= i < |arr| ==> Divides(arr[i], LcmArray(arr))
  {
    LcmFoldMultiple(1, arr);
  }
}
