/** The fan curve (`curve_pwm` and `cooling.fan.set_curve` in rust/src/cooling.rs). */
module CoolingCurve {
  import opened Common

  datatype Point = Point(temp: int, pwm: int)

  const HOT := 80

  predicate InRange(p: Point) {
    20 <= p.temp <= 80 && 0 <= p.pwm <= 255
  }

  predicate Follows(a: Point, b: Point) {
    a.temp < b.temp && a.pwm <= b.pwm
  }

  predicate ValidCurve(c: seq<Point>) {
    && 2 <= |c| <= 8
    && (forall i :: 0 <= i < |c| ==> InRange(c[i]))
    && (forall i :: 0 <= i < |c| - 1 ==> Follows(c[i], c[i + 1]))
  }

  lemma {:induction false} FollowsFar(c: seq<Point>, i: nat, j: nat)
    requires i < j < |c| && forall k :: 0 <= k < |c| - 1 ==> Follows(c[k], c[k + 1])
    ensures Follows(c[i], c[j])
    decreases j - i
  {
    assert Follows(c[i], c[i + 1]);
    if i + 1 < j {
      FollowsFar(c, i + 1, j);
    }
  }

  lemma ValidExactly(c: seq<Point>)
    ensures ValidCurve(c) <==>
      && 2 <= |c| <= 8
      && (forall i :: 0 <= i < |c| ==> 20 <= c[i].temp <= 80 && 0 <= c[i].pwm <= 255)
      && (forall i, j :: 0 <= i < j < |c| ==> c[i].temp < c[j].temp && c[i].pwm <= c[j].pwm)
  {
    if ValidCurve(c) {
      forall i, j | 0 <= i < j < |c|
        ensures c[i].temp < c[j].temp && c[i].pwm <= c[j].pwm
      {
        FollowsFar(c, i, j);
      }
      forall i | 0 <= i < |c|
        ensures 20 <= c[i].temp <= 80 && 0 <= c[i].pwm <= 255
      {
        assert InRange(c[i]);
      }
    }
  }

  /** The checks of `set_curve`, one point after the other. */
  method CheckCurve(points: seq<Point>) returns (ok: bool)
    ensures ok == ValidCurve(points)
    ensures ok <==>
      && 2 <= |points| <= 8
      && (forall i :: 0 <= i < |points| ==> 20 <= points[i].temp <= 80 && 0 <= points[i].pwm <= 255)
      && (forall i, j :: 0 <= i < j < |points| ==> points[i].temp < points[j].temp && points[i].pwm <= points[j].pwm)
  {
    ValidExactly(points);
    if !(2 <= |points| <= 8) {
      return false;
    }
    for i := 0 to |points|
      invariant forall k :: 0 <= k < i ==> InRange(points[k])
      invariant forall k :: 0 <= k < i - 1 ==> Follows(points[k], points[k + 1])
    {
      var p := points[i];
      if !(20 <= p.temp <= 80) || !(0 <= p.pwm <= 255)
         || (i > 0 && (p.temp <= points[i - 1].temp || p.pwm < points[i - 1].pwm)) {
        assert !InRange(points[i]) || (i > 0 && !Follows(points[i - 1], points[i - 1 + 1]));
        return false;
      }
    }
    return true;
  }

  /** Linear interpolation, rounded to nearest. */
  function Between(a: Point, b: Point, temp: int): int
    requires a.temp < b.temp
  {
    a.pwm + ((temp - a.temp) * (b.pwm - a.pwm) + (b.temp - a.temp) / 2) / (b.temp - a.temp)
  }

  function Along(c: seq<Point>, i: nat, temp: int): int
    requires ValidCurve(c) && i < |c|
    decreases |c| - i
  {
    if i == |c| - 1 then c[i].pwm
    else if temp <= c[i + 1].temp then Between(c[i], c[i + 1], temp)
    else Along(c, i + 1, temp)
  }

  function CurvePwm(c: seq<Point>, temp: int): Option<int>
    requires ValidCurve(c)
  {
    if temp >= HOT then Some(255)
    else if temp <= 0 then None
    else if temp <= c[0].temp then Some(c[0].pwm)
    else Some(Along(c, 0, temp))
  }

  // ---- Rounded interpolation ----

  lemma BetweenRises(a: Point, b: Point, s: int, t: int)
    requires Follows(a, b) && a.temp <= s <= t <= b.temp
    ensures a.pwm <= Between(a, b, s) <= Between(a, b, t) <= b.pwm
    ensures Between(a, b, b.temp) == b.pwm
  {
    var d, h := b.temp - a.temp, b.pwm - a.pwm;
    MulMono(0, s - a.temp, h);
    MulMono(s - a.temp, t - a.temp, h);
    MulMono(t - a.temp, d, h);
    DivExact(0, d / 2, d);
    DivExact(h, d / 2, d);
    DivMono(0 * d + d / 2, (s - a.temp) * h + d / 2, d);
    DivMono((s - a.temp) * h + d / 2, (t - a.temp) * h + d / 2, d);
    DivMono((t - a.temp) * h + d / 2, h * d + d / 2, d);
  }

  lemma {:induction false} AlongRises(c: seq<Point>, i: nat, s: int, t: int)
    requires ValidCurve(c) && i < |c| && c[i].temp <= s <= t
    ensures c[i].pwm <= Along(c, i, s) <= Along(c, i, t) <= 255
    decreases |c| - i
  {
    if i < |c| - 1 {
      assert Follows(c[i], c[i + 1]) && InRange(c[i + 1]);
      var x := c[i + 1].temp;
      if t <= x {
        BetweenRises(c[i], c[i + 1], s, t);
      } else if s <= x {
        BetweenRises(c[i], c[i + 1], s, x);
        AlongRises(c, i + 1, t, t);
      } else {
        AlongRises(c, i + 1, s, t);
      }
    } else {
      assert InRange(c[i]);
    }
  }

  /** A valid curve gives a duty for every positive temperature, within 0..255,
      and a hotter device never gets a slower fan. */
  lemma HotterIsNotSlower(c: seq<Point>, s: int, t: int)
    requires ValidCurve(c) && 0 < s <= t
    ensures CurvePwm(c, s).Some? && CurvePwm(c, t).Some?
    ensures 0 <= CurvePwm(c, s).value <= CurvePwm(c, t).value <= 255
  {
    assert InRange(c[0]);
    if c[0].temp < s && s < HOT {
      AlongRises(c, 0, s, s);
    }
    if c[0].temp < t && t < HOT {
      AlongRises(c, 0, if s < c[0].temp then c[0].temp else s, t);
    }
  }

  lemma {:induction false} AlongHits(c: seq<Point>, i: nat, k: nat)
    requires ValidCurve(c) && i < k < |c|
    ensures Along(c, i, c[k].temp) == c[k].pwm && c[i].temp < c[k].temp
    decreases k - i
  {
    assert Follows(c[i], c[i + 1]);
    if k == i + 1 {
      BetweenRises(c[i], c[k], c[k].temp, c[k].temp);
    } else {
      AlongHits(c, i + 1, k);
    }
  }

  /** The curve passes through each of its points below the guard. */
  lemma CurveHitsItsPoints(c: seq<Point>, k: nat)
    requires ValidCurve(c) && k < |c| && c[k].temp < HOT
    ensures CurvePwm(c, c[k].temp) == Some(c[k].pwm)
  {
    assert InRange(c[k]);
    if k > 0 {
      AlongHits(c, 0, k);
    }
  }

  lemma RoundedQuotient(num: int, d: int)
    requires d > 0
    ensures -d <= 2 * (d * ((num + d / 2) / d) - num) <= d
  {}

  /** Between two points the duty is the straight line, rounded to nearest. */
  lemma BetweenIsNearest(a: Point, b: Point, temp: int)
    requires a.temp < b.temp
    ensures var d := b.temp - a.temp;
      -d <= 2 * (d * (Between(a, b, temp) - a.pwm) - (temp - a.temp) * (b.pwm - a.pwm)) <= d
  {
    RoundedQuotient((temp - a.temp) * (b.pwm - a.pwm), b.temp - a.temp);
  }

  lemma {:induction false} AlongSegment(c: seq<Point>, from: nat, i: nat, temp: int)
    requires ValidCurve(c) && from <= i < |c| - 1 && c[i].temp < temp <= c[i + 1].temp
    ensures Along(c, from, temp) == Between(c[i], c[i + 1], temp)
    decreases i - from
  {
    if from < i {
      FollowsOrSame(c, from + 1, i);
      AlongSegment(c, from + 1, i, temp);
    }
  }

  lemma FollowsOrSame(c: seq<Point>, i: nat, j: nat)
    requires ValidCurve(c) && i <= j < |c|
    ensures c[i].temp <= c[j].temp
  {
    if i < j {
      FollowsFar(c, i, j);
    }
  }

  lemma {:induction false} AlongEnd(c: seq<Point>, from: nat, temp: int)
    requires ValidCurve(c) && from < |c| && temp > c[|c| - 1].temp
    ensures Along(c, from, temp) == c[|c| - 1].pwm
    decreases |c| - from
  {
    if from < |c| - 1 {
      FollowsOrSame(c, from + 1, |c| - 1);
      AlongEnd(c, from + 1, temp);
    }
  }

  /** What the curve answers: full speed from 80 degrees on, nothing without a
      reading, the first duty below the first point, the last one beyond the last,
      and between two neighbours the straight line, rounded to nearest. */
  lemma CurveExactly(c: seq<Point>, temp: int, i: nat)
    requires ValidCurve(c) && i < |c| - 1
    ensures temp >= 80 ==> CurvePwm(c, temp) == Some(255)
    ensures temp <= 0 ==> CurvePwm(c, temp) == None
    ensures 0 < temp < 80 && temp <= c[0].temp ==> CurvePwm(c, temp) == Some(c[0].pwm)
    ensures 0 < temp < 80 && temp > c[|c| - 1].temp ==> CurvePwm(c, temp) == Some(c[|c| - 1].pwm)
    ensures 0 < temp < 80 && c[i].temp < temp <= c[i + 1].temp ==>
      var d := c[i + 1].temp - c[i].temp;
      && CurvePwm(c, temp).Some? && d > 0
      && -d <= 2 * (d * (CurvePwm(c, temp).value - c[i].pwm) - (temp - c[i].temp) * (c[i + 1].pwm - c[i].pwm)) <= d
  {
    FollowsOrSame(c, 0, |c| - 1);
    FollowsOrSame(c, 0, i);
    if 0 < temp < 80 && temp > c[|c| - 1].temp {
      AlongEnd(c, 0, temp);
    }
    if 0 < temp < 80 && c[i].temp < temp <= c[i + 1].temp {
      AlongSegment(c, 0, i, temp);
      BetweenIsNearest(c[i], c[i + 1], temp);
    }
  }
}
