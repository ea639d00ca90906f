/** Geometry, number-formatting and randomness helpers shared by the simulation.
    Square roots, trigonometry and Math.random are not modelled: distances are
    compared through their squares, and the trigonometric constructions and the
    random rolls are supplied by the caller through an `Env`. */
module Utils {

  datatype Option<T> = None | Some(value: T)

  datatype Point = Point(x: real, y: real)

  /** The squared Euclidean distance; `distance(a, b) <= r` is `Within(a, b, r)`. */
  function Dist2(a: Point, b: Point): (d: real)
    ensures d >= 0.0
  {
    (a.x - b.x) * (a.x - b.x) + (a.y - b.y) * (a.y - b.y)
  }

  /** `distance(a, b) <= r`, stated without a square root (a distance is never negative). */
  predicate Within(a: Point, b: Point, r: real) {
    r >= 0.0 && Dist2(a, b) <= r * r
  }

  /** Which use a random roll is drawn for. */
  datatype Roll = DodgeAttempt | DodgeSide | Wander | WanderX | WanderY | FallbackUnit | SpawnAngle

  /** Everything the simulation obtains from trigonometry or from Math.random.
      - toward(a, b, d): the point at distance d from a on the line towards b;
      - perpendicular(p, u, d, left): u moved by d at right angles to the line p -> u;
      - ring(c, r, roll): the point on the circle of radius r round c at angle roll * 2pi;
      - heading(a, b, len): the displacement of length len in the direction a -> b;
      - roll(id, use): the value of Math.random() for entity id and that use this tick. */
  datatype Env = Env(
    toward: (Point, Point, real) -> Point,
    perpendicular: (Point, Point, real, bool) -> Point,
    ring: (Point, real, real) -> Point,
    heading: (Point, Point, real) -> Point,
    roll: (nat, Roll) -> real)

  function Min(a: real, b: real): real { if a <= b then a else b }
  function Max(a: real, b: real): real { if a >= b then a else b }

  /** clamp(value, min, max) = Math.min(Math.max(value, min), max). */
  function Clamp(v: real, lo: real, hi: real): (r: real)
    ensures lo <= hi ==> lo <= r <= hi
    ensures lo <= v <= hi ==> r == v
    ensures v < lo && lo <= hi ==> r == lo
    ensures v > hi ==> r == hi
    ensures lo > hi ==> r == hi
  {
    Min(Max(v, lo), hi)
  }

  /** Clamping twice is clamping once. */
  lemma ClampIdempotent(v: real, lo: real, hi: real)
    requires lo <= hi
    ensures Clamp(Clamp(v, lo, hi), lo, hi) == Clamp(v, lo, hi)
  {
  }

  /** pointInRect: the rectangle includes its edges. */
  function PointInRect(x: real, y: real, rx: real, ry: real, w: real, h: real): (b: bool)
    ensures b ==> w >= 0.0 && h >= 0.0 && Clamp(x, rx, rx + w) == x && Clamp(y, ry, ry + h) == y
  {
    x >= rx && x <= rx + w && y >= ry && y <= ry + h
  }

  /** A point lies in a rectangle of non-negative size exactly when clamping it
      into the rectangle's two coordinate ranges does not move it. */
  lemma PointInRectIsClampFixpoint(x: real, y: real, rx: real, ry: real, w: real, h: real)
    requires w >= 0.0 && h >= 0.0
    ensures PointInRect(x, y, rx, ry, w, h) <==> Clamp(x, rx, rx + w) == x && Clamp(y, ry, ry + h) == y
  {
  }

  /** All four corners of a rectangle of non-negative size are inside it. */
  lemma PointInRectCorners(rx: real, ry: real, w: real, h: real)
    requires w >= 0.0 && h >= 0.0
    ensures PointInRect(rx, ry, rx, ry, w, h) && PointInRect(rx + w, ry + h, rx, ry, w, h)
    ensures PointInRect(rx + w, ry, rx, ry, w, h) && PointInRect(rx, ry + h, rx, ry, w, h)
  {
  }

  /** Math.floor(roll * (max - min + 1)) + min, with Math.random() passed in as roll. */
  function RandomInt(min: int, max: int, roll: real): (r: int)
    ensures 0.0 <= roll < 1.0 && min <= max ==> min <= r <= max
  {
    var n := max - min + 1;
    if 0.0 <= roll < 1.0 && n >= 1 then
      ScaledRollBounds(roll, n);
      (roll * n as real).Floor + min
    else
      (roll * n as real).Floor + min
  }

  lemma ScaledRollBounds(roll: real, n: int)
    requires 0.0 <= roll < 1.0 && n >= 1
    ensures 0 <= (roll * n as real).Floor < n
  {
    var m := n as real;
    assert roll * m >= 0.0;
    assert m - roll * m == (1.0 - roll) * m;
    assert (1.0 - roll) * m > 0.0;
  }

  /** randomPosition(bounds, padding): both coordinates drawn with randomInt. */
  function RandomPosition(width: int, height: int, padding: int, rx: real, ry: real): (p: Point)
    ensures 0.0 <= rx < 1.0 && 0.0 <= ry < 1.0 && padding <= width - padding && padding <= height - padding ==>
              padding as real <= p.x <= (width - padding) as real &&
              padding as real <= p.y <= (height - padding) as real
  {
    Point(RandomInt(padding, width - padding, rx) as real, RandomInt(padding, height - padding, ry) as real)
  }

  /** The padding randomPosition uses when none is given. */
  const DefaultPadding: int := 50

  // ---------------------------------------------------------------------
  // formatNumber: num.toString().replace(/\B(?=(\d{3})+(?!\d))/g, ",")
  // ---------------------------------------------------------------------

  predicate IsDigit(c: char) { '0' <= c <= '9' }

  predicate IsWordChar(c: char) {
    IsDigit(c) || 'a' <= c <= 'z' || 'A' <= c <= 'Z' || c == '_'
  }

  predicate AllDigits(s: string) { forall i :: 0 <= i < |s| ==> IsDigit(s[i]) }

  function DigitChar(d: int): (c: char)
    requires 0 <= d < 10
    ensures IsDigit(c)
  {
    "0123456789"[d]
  }

  /** The decimal numeral of n, as Number.prototype.toString writes it. */
  function Decimal(n: nat): (s: string)
    ensures 1 <= |s| && AllDigits(s)
    ensures n < 10 <==> |s| == 1
  {
    if n < 10 then [DigitChar(n)] else Decimal(n / 10) + [DigitChar(n % 10)]
  }

  /** toString of an integer: a minus sign for negative numbers, then the digits. */
  function IntToString(n: int): string {
    if n < 0 then "-" + Decimal(-n) else Decimal(n)
  }

  lemma {:induction false} DecimalShort(n: nat)
    requires n < 1000
    ensures |Decimal(n)| <= 3
  {
    if n >= 10 {
      DecimalShort(n / 10);
      assert n / 10 < 100;
      if n / 10 >= 10 {
        assert |Decimal(n / 10 / 10)| == 1;
      }
    }
  }

  /** Number of consecutive digits of s starting at position k. */
  function DigitRun(s: string, k: nat): (r: nat)
    ensures k + r <= |s| || r == 0
    decreases |s| - k
  {
    if k < |s| && IsDigit(s[k]) then 1 + DigitRun(s, k + 1) else 0
  }

  /** The regular expression \B(?=(\d{3})+(?!\d)) matches at position k: k is not a
      word boundary, and from k on comes a run of digits whose length is a positive
      multiple of three, not followed by another digit. */
  predicate CommaAt(s: string, k: nat) {
    0 < k < |s| && IsWordChar(s[k - 1]) && IsWordChar(s[k]) &&
    DigitRun(s, k) > 0 && DigitRun(s, k) % 3 == 0
  }

  /** The global replacement: a comma inserted at every matching position from k on. */
  function CommasFrom(s: string, k: nat): (r: string)
    ensures |r| >= |s| - k
    decreases |s| - k
  {
    if k >= |s| then "" else (if CommaAt(s, k) then "," else "") + [s[k]] + CommasFrom(s, k + 1)
  }

  /** formatNumber for an integer argument: no character of toString is lost, and the
      output starts as toString does, with the sign or the leading digit, never a comma. */
  function FormatNumber(n: int): (s: string)
    ensures |s| >= |IntToString(n)|
    ensures s[0] == IntToString(n)[0]
    ensures n < 0 <==> s[0] == '-'
  {
    CommasFrom(IntToString(n), 0)
  }

  /** An independent reference: group the digits in threes from the right. */
  function Group(d: string): string
    decreases |d|
  {
    if |d| <= 3 then d else Group(d[..|d| - 3]) + "," + d[|d| - 3..]
  }

  function StripCommas(s: string): string {
    if s == [] then [] else (if s[0] == ',' then [] else [s[0]]) + StripCommas(s[1..])
  }

  /** The leading group has one to three digits and every later group exactly three. */
  predicate WellGrouped(s: string)
    decreases |s|
  {
    if ',' !in s then 1 <= |s| <= 3 && AllDigits(s)
    else |s| >= 5 && s[|s| - 4] == ',' && AllDigits(s[|s| - 3..]) && WellGrouped(s[..|s| - 4])
  }

  lemma {:induction false} DigitRunAllDigits(s: string, k: nat)
    requires AllDigits(s) && k <= |s|
    ensures DigitRun(s, k) == |s| - k
    decreases |s| - k
  {
    if k < |s| { DigitRunAllDigits(s, k + 1); }
  }

  lemma {:induction false} DigitRunAfterSign(d: string, k: nat)
    requires AllDigits(d) && 1 <= k <= |d| + 1
    ensures DigitRun("-" + d, k) == |d| + 1 - k
    decreases |d| + 1 - k
  {
    var s := "-" + d;
    assert s[k..] == d[k - 1..];
    if k <= |d| {
      assert s[k] == d[k - 1];
      DigitRunAfterSign(d, k + 1);
    }
  }

  /** On a digit string the regex's positions are those k with 0 < k and |d| - k a multiple of 3. */
  lemma CommaAtDigits(d: string, k: nat)
    requires AllDigits(d) && k < |d|
    ensures CommaAt(d, k) <==> 0 < k && (|d| - k) % 3 == 0
  {
    DigitRunAllDigits(d, k);
    assert IsDigit(d[k]);
    if k > 0 { assert IsDigit(d[k - 1]); }
  }

  /** The last three digits of a digit string longer than three: one comma in front of them. */
  lemma CommasFromLastThree(d: string)
    requires AllDigits(d) && |d| > 3
    ensures CommasFrom(d, |d| - 3) == "," + d[|d| - 3..]
  {
    var n := |d|;
    CommaAtDigits(d, n - 3);
    CommaAtDigits(d, n - 2);
    CommaAtDigits(d, n - 1);
    assert CommaAt(d, n - 3) && !CommaAt(d, n - 2) && !CommaAt(d, n - 1);
    CommasFromUnfold(d, n - 1);
    CommasFromUnfold(d, n - 2);
    CommasFromUnfold(d, n - 3);
    assert CommasFrom(d, n) == "";
    assert d[n - 3..] == [d[n - 3], d[n - 2], d[n - 1]];
  }

  /** Dropping the last three digits does not change where the regex matches before them. */
  lemma CommaAtPrefix(d: string, k: nat)
    requires AllDigits(d) && |d| > 3 && k < |d| - 3
    ensures CommaAt(d, k) == CommaAt(d[..|d| - 3], k)
    ensures d[..|d| - 3][k] == d[k]
  {
    var p := d[..|d| - 3];
    assert AllDigits(p);
    CommaAtDigits(d, k);
    CommaAtDigits(p, k);
  }

  lemma PrependGroup(h: string, rest: string, tail: string)
    ensures h + (rest + "," + tail) == h + rest + "," + tail
  {
  }

  lemma CommasFromUnfold(s: string, k: nat)
    requires k < |s|
    ensures CommasFrom(s, k) == (if CommaAt(s, k) then "," else "") + [s[k]] + CommasFrom(s, k + 1)
  {
  }

  /** Splitting off the last three digits of a digit string moves its tail behind the regex output of the rest. */
  lemma {:induction false} CommasFromSplit(d: string, k: nat)
    requires AllDigits(d) && |d| > 3 && k <= |d| - 3
    ensures CommasFrom(d, k) == CommasFrom(d[..|d| - 3], k) + "," + d[|d| - 3..]
    decreases |d| - 3 - k
  {
    if k == |d| - 3 {
      CommasFromLastThree(d);
      assert CommasFrom(d[..|d| - 3], k) == "";
    } else {
      CommasFromSplit(d, k + 1);
      CommasFromSplitStep(d, k);
    }
  }

  /** One step of the split: the position k of the prefix behaves as it does in d. */
  lemma CommasFromSplitStep(d: string, k: nat)
    requires AllDigits(d) && |d| > 3 && k < |d| - 3
    requires CommasFrom(d, k + 1) == CommasFrom(d[..|d| - 3], k + 1) + "," + d[|d| - 3..]
    ensures CommasFrom(d, k) == CommasFrom(d[..|d| - 3], k) + "," + d[|d| - 3..]
  {
    var p := d[..|d| - 3];
    var tail := d[|d| - 3..];
    var rest := CommasFrom(p, k + 1);
    CommaAtPrefix(d, k);
    CommasFromUnfold(d, k);
    CommasFromUnfold(p, k);
    var h := (if CommaAt(d, k) then "," else "") + [d[k]];
    assert CommasFrom(d, k) == h + (rest + "," + tail);
    assert CommasFrom(p, k) == h + rest;
    PrependGroup(h, rest, tail);
  }

  lemma {:induction false} CommasFromNoMatch(d: string, k: nat)
    requires AllDigits(d) && |d| <= 3 && k <= |d|
    ensures CommasFrom(d, k) == d[k..]
    decreases |d| - k
  {
    if k < |d| {
      CommaAtDigits(d, k);
      CommasFromNoMatch(d, k + 1);
    }
  }

  /** The regex replacement and grouping-by-threes agree on every digit string. */
  lemma {:induction false} CommasEqualGroup(d: string)
    requires AllDigits(d)
    ensures CommasFrom(d, 0) == Group(d)
    decreases |d|
  {
    if |d| <= 3 {
      CommasFromNoMatch(d, 0);
    } else {
      CommasFromSplit(d, 0);
      assert AllDigits(d[..|d| - 3]);
      CommasEqualGroup(d[..|d| - 3]);
    }
  }

  /** After a leading minus sign the regex behaves as on the bare digits (no comma after the sign). */
  lemma {:induction false} CommasAfterSign(d: string, k: nat)
    requires AllDigits(d) && 1 <= k <= |d| + 1
    ensures CommasFrom("-" + d, k) == CommasFrom(d, k - 1)
    decreases |d| + 1 - k
  {
    var s := "-" + d;
    if k <= |d| {
      DigitRunAfterSign(d, k);
      DigitRunAllDigits(d, k - 1);
      assert s[k] == d[k - 1];
      assert IsWordChar(s[k - 1]) <==> k > 1;
      assert CommaAt(s, k) <==> CommaAt(d, k - 1);
      CommasAfterSign(d, k + 1);
    }
  }

  /** formatNumber is digit grouping by threes, after the sign. */
  lemma FormatNumberIsGrouping(n: int)
    ensures FormatNumber(n) == if n < 0 then "-" + Group(Decimal(-n)) else Group(Decimal(n))
  {
    if n < 0 {
      var d := Decimal(-n);
      var s := "-" + d;
      assert CommaAt(s, 0) == false;
      CommasAfterSign(d, 1);
      assert CommasFrom(s, 0) == "-" + CommasFrom(s, 1);
      CommasEqualGroup(d);
    } else {
      CommasEqualGroup(Decimal(n));
    }
  }

  lemma {:induction false} StripCommasConcat(a: string, b: string)
    ensures StripCommas(a + b) == StripCommas(a) + StripCommas(b)
    decreases |a|
  {
    if a != [] {
      var h := if a[0] == ',' then [] else [a[0]];
      assert (a + b)[0] == a[0];
      assert (a + b)[1..] == a[1..] + b;
      StripCommasConcat(a[1..], b);
      calc {
        StripCommas(a + b);
        h + StripCommas(a[1..] + b);
        h + (StripCommas(a[1..]) + StripCommas(b));
        (h + StripCommas(a[1..])) + StripCommas(b);
        StripCommas(a) + StripCommas(b);
      }
    } else {
      assert a + b == b;
    }
  }

  lemma {:induction false} StripCommasDigits(d: string)
    requires AllDigits(d)
    ensures StripCommas(d) == d
    decreases |d|
  {
    if d != [] {
      assert AllDigits(d[1..]);
      StripCommasDigits(d[1..]);
    }
  }

  lemma StripCommaOnly()
    ensures StripCommas(",") == []
  {
  }

  /** Deleting the commas across a comma joint leaves the digits after it intact. */
  lemma StripCommaJoin(g: string, t: string)
    requires AllDigits(t)
    ensures StripCommas(g + "," + t) == StripCommas(g) + t
  {
    StripCommasConcat(g + ",", t);
    StripCommasConcat(g, ",");
    StripCommasDigits(t);
    StripCommaOnly();
  }

  lemma {:induction false} StripGroup(d: string)
    requires AllDigits(d)
    ensures StripCommas(Group(d)) == d
    decreases |d|
  {
    if |d| > 3 {
      var p, t := d[..|d| - 3], d[|d| - 3..];
      assert AllDigits(p) && AllDigits(t);
      StripGroup(p);
      assert Group(d) == Group(p) + "," + t;
      StripCommaJoin(Group(p), t);
      assert d == p + t;
    } else {
      StripCommasDigits(d);
    }
  }

  lemma {:induction false} GroupShape(d: string)
    requires AllDigits(d) && |d| >= 1
    ensures WellGrouped(Group(d))
    ensures |d| > 3 ==> ',' in Group(d)
    ensures |d| <= 3 ==> Group(d) == d
    decreases |d|
  {
    if |d| > 3 {
      var p, t := d[..|d| - 3], d[|d| - 3..];
      assert AllDigits(p) && AllDigits(t);
      GroupShape(p);
      var g := Group(d);
      assert g == Group(p) + "," + t;
      assert g[|g| - 4] == ',';
      assert g[|g| - 3..] == t;
      assert g[..|g| - 4] == Group(p);
      assert ',' in g;
    } else {
      assert ',' !in d;
    }
  }

  /** Deleting the commas from formatNumber(n) gives back n's decimal string. */
  lemma FormatNumberStripsToString(n: int)
    ensures StripCommas(FormatNumber(n)) == IntToString(n)
  {
    FormatNumberIsGrouping(n);
    if n < 0 {
      StripCommasConcat("-", Group(Decimal(-n)));
      StripGroup(Decimal(-n));
    } else {
      StripGroup(Decimal(n));
    }
  }

  /** For n >= 0: groups of three after a leading group of one to three digits,
      and numbers below 1000 come back unchanged. */
  lemma FormatNumberGroups(n: nat)
    ensures WellGrouped(FormatNumber(n))
    ensures n < 1000 ==> FormatNumber(n) == Decimal(n)
    ensures n >= 1000 ==> ',' in FormatNumber(n)
  {
    FormatNumberIsGrouping(n);
    GroupShape(Decimal(n));
    if n < 1000 {
      DecimalShort(n);
    } else {
      DecimalLong(n);
    }
  }

  lemma DecimalLong(n: nat)
    requires n >= 1000
    ensures |Decimal(n)| > 3
  {
    var m := n / 10;
    var q := m / 10;
    assert m >= 100 && q >= 10;
    assert |Decimal(q)| >= 2;
    assert |Decimal(m)| == |Decimal(q)| + 1;
    assert |Decimal(n)| == |Decimal(m)| + 1;
  }

  // ---------------------------------------------------------------------
  // getSideColor
  // ---------------------------------------------------------------------

  function GreenRgba(alpha: string): string { "rgba(76, 175, 80, " + alpha + ")" }
  function RedRgba(alpha: string): string { "rgba(244, 67, 54, " + alpha + ")" }

  /** colors[side] || colors[0]: any side other than 1 gets the side-0 colour. */
  function SideColor(side: int, alpha: string): (c: string)
    ensures side == 1 ==> c == RedRgba(alpha)
    ensures side != 1 ==> c == GreenRgba(alpha)
  {
    var colors := [GreenRgba(alpha), RedRgba(alpha)];
    if 0 <= side < |colors| then colors[side] else colors[0]
  }
}
