/** Heading arithmetic: Python's float `x % 360` (a floor modulo whose
    result takes the sign of the divisor) on exact reals, and the
    shortest angular distance between two headings. */
module Angles {
  import opened Common

  const FullTurn: real := 360.0

  /** `x % 360` as Python computes it for a positive divisor. */
  function Mod360(x: real): (r: real)
    ensures 0.0 <= r < FullTurn
  {
    x - FullTurn * ((x / FullTurn).Floor as real)
  }

  /** The result of `Mod360` is the unique value in [0, 360) that differs
      from `x` by a whole number of turns. */
  lemma Mod360Unique(x: real, y: real, n: int)
    requires 0.0 <= y < FullTurn
    requires x == y + FullTurn * n as real
    ensures Mod360(x) == y
  {
    var q := x / FullTurn;
    assert q == y / FullTurn + n as real;
    assert n as real <= q < n as real + 1.0;
    assert q.Floor == n;
  }

  /** Adding whole turns does not change the normalised heading. */
  lemma Mod360Shift(x: real, k: int)
    ensures Mod360(x + FullTurn * k as real) == Mod360(x)
  {
    var f := (x / FullTurn).Floor;
    Mod360Unique(x + FullTurn * k as real, Mod360(x), f + k);
  }

  /** A heading already in [0, 360) is left alone. */
  lemma Mod360Normalised(x: real)
    requires 0.0 <= x < FullTurn
    ensures Mod360(x) == x
  {
    Mod360Unique(x, x, 0);
  }

  /** Turning by `t` and renormalising changes the heading by `t` modulo a
      full turn: the direction and size of the turn survive the wrap. */
  lemma TurnOffset(h: real, t: real)
    ensures Mod360(Mod360(h + t) - h) == Mod360(t)
  {
    var n := ((h + t) / FullTurn).Floor;
    assert Mod360(h + t) - h == t + FullTurn * (-n) as real;
    Mod360Shift(t, -n);
  }

  /** Shortest rotation, in degrees, that takes heading `a` to heading `b`. */
  function CircularDistance(a: real, b: real): (r: real)
    ensures 0.0 <= r <= 180.0
  {
    var d := Mod360(b - a);
    if d <= 180.0 then d else FullTurn - d
  }

  /** Turning by `t` degrees (at most half a turn either way) and
      renormalising moves the heading by exactly |t| around the circle,
      whatever the starting heading. */
  lemma TurnDistance(h: real, t: real)
    requires -180.0 <= t <= 180.0
    ensures CircularDistance(h, Mod360(h + t)) == Abs(t)
  {
    var n := ((h + t) / FullTurn).Floor;
    assert Mod360(h + t) - h == t + FullTurn * (-n) as real;
    Mod360Shift(t, -n);
    if t >= 0.0 {
      Mod360Unique(t, t, 0);
    } else {
      Mod360Unique(t, t + FullTurn, -1);
    }
  }
}
