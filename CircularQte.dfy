/**
 * The radial defense QTE (CircularQTE): a needle sweeps the dial; one trigger samples its
 * angle, which is judged against a centre by the shortest angular distance into three
 * tiers. No trigger before the duration elapses is a Miss.
 *
 * Angles are exact real degrees; the sampled needle angle is an input of each frame
 * rather than computed from the sweep.
 */
module CircularQte {
  import opened Wrappers
  import opened Mathf

  datatype QteResult = Miss | Good | Perfect

  /** The order of the tiers, worst first. */
  function Rank(r: QteResult): nat {
    match r
    case Miss => 0
    case Good => 1
    case Perfect => 2
  }

  function Abs(x: real): real { if x >= 0.0 then x else -x }

  // ---------------------------------------------------------------- angles

  /** C#'s float remainder by 360: the quotient is truncated, so the result takes the dividend's sign. */
  function CsRem360(x: real): (r: real)
    ensures -360.0 < r < 360.0
    ensures x >= 0.0 ==> r >= 0.0
    ensures x <= 0.0 ==> r <= 0.0
    ensures (x - r) / 360.0 == ((x - r) / 360.0).Floor as real
  {
    var q := x / 360.0;
    var trunc := if q >= 0.0 then q.Floor else -((-q).Floor);
    x - trunc as real * 360.0
  }

  /** Mathf.Repeat(x, 360): x wrapped into [0, 360) by the floored remainder. */
  function Repeat360(x: real): (r: real)
    ensures 0.0 <= r < 360.0
  {
    x - (x / 360.0).Floor as real * 360.0
  }

  lemma Repeat360Shift(x: real, k: int)
    ensures Repeat360(x + k as real * 360.0) == Repeat360(x)
  {
    var y := x + k as real * 360.0;
    assert (y / 360.0).Floor == (x / 360.0).Floor + k by {
      assert y / 360.0 == x / 360.0 + k as real;
    }
  }

  /** Repeat360 returns x itself when x is already in [0, 360). */
  lemma Repeat360InRange(x: real)
    requires 0.0 <= x < 360.0
    ensures Repeat360(x) == x
  {
    assert (x / 360.0).Floor == 0;
  }

  /** ((deg % 360) + 360) % 360: SetCenterAngle and GetCurrentAngleDeg bring an angle into [0, 360). */
  function Normalize(deg: real): (r: real)
    ensures 0.0 <= r < 360.0
    ensures r == Repeat360(deg)
  {
    var a := CsRem360(deg);
    var k := ((deg - a) / 360.0).Floor;
    assert deg == a + k as real * 360.0;
    Repeat360Shift(a, k);
    var b := CsRem360(a + 360.0);
    var m := ((a + 360.0 - b) / 360.0).Floor;
    assert a + 360.0 == b + m as real * 360.0;
    Repeat360Shift(b, m);
    Repeat360InRange(b);
    Repeat360Shift(a, 1);
    b
  }

  lemma NormalizeIdempotent(deg: real)
    ensures Normalize(Normalize(deg)) == Normalize(deg)
  {
    Repeat360InRange(Normalize(deg));
  }

  /** Mathf.DeltaAngle(current, target): the signed difference target - current brought into (-180, 180]. */
  function DeltaAngle(current: real, target: real): (d: real)
    ensures -180.0 < d <= 180.0
  {
    var delta := Repeat360(target - current);
    if delta > 180.0 then delta - 360.0 else delta
  }

  /** The error Judge measures: the absolute shortest angular distance. */
  function AngularError(angle: real, center: real): (e: real)
    ensures 0.0 <= e <= 180.0
  {
    Abs(DeltaAngle(angle, center))
  }

  /** The difference center - angle moved by k full turns. */
  function ShiftedByTurns(angle: real, center: real, k: int): real {
    center - angle + k as real * 360.0
  }

  /** The error is no larger than the distance along any number of full turns: it is the shortest path. */
  lemma ErrorIsShortest(angle: real, center: real, k: int)
    ensures AngularError(angle, center) <= Abs(ShiftedByTurns(angle, center, k))
  {
    var d := center - angle;
    var f := (d / 360.0).Floor;
    var r := Repeat360(d);
    var m := k + f;
    assert ShiftedByTurns(angle, center, k) == r + m as real * 360.0;
    if m <= -1 {
      assert ShiftedByTurns(angle, center, k) <= r - 360.0;
    }
  }

  /** Some number of full turns gives exactly the error: it is a distance between the two angles. */
  lemma ErrorIsAttained(angle: real, center: real)
    ensures exists k :: AngularError(angle, center) == Abs(ShiftedByTurns(angle, center, k))
  {
    var d := center - angle;
    var f := (d / 360.0).Floor;
    if Repeat360(d) > 180.0 {
      assert AngularError(angle, center) == Abs(ShiftedByTurns(angle, center, -f - 1));
    } else {
      assert AngularError(angle, center) == Abs(ShiftedByTurns(angle, center, -f));
    }
  }

  lemma ErrorSymmetric(a: real, c: real)
    ensures AngularError(a, c) == AngularError(c, a)
  {
    var d := c - a;
    var f := (d / 360.0).Floor;
    var r := Repeat360(d);
    if r == 0.0 {
      Repeat360Shift(-d, f);
      Repeat360InRange(0.0);
    } else {
      Repeat360Shift(-d, f + 1);
      assert -d + (f + 1) as real * 360.0 == 360.0 - r;
      Repeat360InRange(360.0 - r);
    }
  }

  /** An angle off the centre by d degrees, 0 <= d <= 180, has error d, on either side. */
  lemma ErrorOfOffset(center: real, d: real)
    requires 0.0 <= d <= 180.0
    ensures AngularError(center + d, center) == d
    ensures AngularError(center - d, center) == d
  {
    if d > 0.0 {
      Repeat360Shift(-d, 1);
      Repeat360InRange(360.0 - d);
    } else {
      Repeat360InRange(0.0);
    }
    Repeat360InRange(d);
  }

  // ---------------------------------------------------------------- judging

  /** Half of a zone width, the width first clamped to at least 0.1 degree. */
  function HalfWidth(width: real): (h: real)
    ensures h >= 0.05
    ensures width >= 0.1 ==> h == width / 2.0
  {
    RealMax(0.1, width) * 0.5
  }

  /** The tier of an angular error: inside half the green zone, then inside half the yellow zone beyond it. */
  function Tier(err: real, green: real, yellow: real): (r: QteResult)
    ensures r == Perfect <==> err <= HalfWidth(green)
    ensures r == Good <==> HalfWidth(green) < err <= HalfWidth(green) + HalfWidth(yellow)
    ensures r == Miss <==> HalfWidth(green) + HalfWidth(yellow) < err
  {
    var halfGreen := HalfWidth(green);
    var halfYellow := HalfWidth(yellow);
    if err <= halfGreen then Perfect
    else if err <= halfGreen + halfYellow then Good
    else Miss
  }

  /** A larger error never gives a better tier. */
  lemma TierMonotone(e1: real, e2: real, green: real, yellow: real)
    requires e1 <= e2
    ensures Rank(Tier(e2, green, yellow)) <= Rank(Tier(e1, green, yellow))
  {
  }

  /** Judge: the tier of the shortest distance between the sampled angle and the centre. */
  function Judge(angle: real, center: real, green: real, yellow: real): (r: QteResult)
    ensures r == Perfect <==> AngularError(angle, center) <= HalfWidth(green)
    ensures r == Good <==> HalfWidth(green) < AngularError(angle, center) <= HalfWidth(green) + HalfWidth(yellow)
    ensures r == Miss <==> HalfWidth(green) + HalfWidth(yellow) < AngularError(angle, center)
  {
    Tier(AngularError(angle, center), green, yellow)
  }

  lemma CenterIsPerfect(center: real, green: real, yellow: real)
    ensures Judge(center, center, green, yellow) == Perfect
  {
    ErrorOfOffset(center, 0.0);
  }

  /** The outer edge of the yellow zone is still Good, on either side of the centre (the test is <=). */
  lemma OuterEdgeIsGood(center: real, green: real, yellow: real)
    requires HalfWidth(green) + HalfWidth(yellow) <= 180.0
    ensures Judge(center + (HalfWidth(green) + HalfWidth(yellow)), center, green, yellow) == Good
    ensures Judge(center - (HalfWidth(green) + HalfWidth(yellow)), center, green, yellow) == Good
  {
    ErrorOfOffset(center, HalfWidth(green) + HalfWidth(yellow));
  }

  /** Beyond the outer edge of the yellow zone the result is Miss. */
  lemma BeyondEdgeIsMiss(center: real, d: real, green: real, yellow: real)
    requires HalfWidth(green) + HalfWidth(yellow) < d <= 180.0
    ensures Judge(center + d, center, green, yellow) == Miss
    ensures Judge(center - d, center, green, yellow) == Miss
  {
    ErrorOfOffset(center, d);
  }

  // ---------------------------------------------------------------- the session

  /** One frame of a defense session: delta time, whether the trigger went down, the needle's raw angle. */
  datatype DefenseFrame = DefenseFrame(dt: real, trigger: bool, needleZ: real)

  /** The time the frames take together. */
  function Span(frames: seq<DefenseFrame>): real {
    if frames == [] then 0.0 else frames[0].dt + Span(frames[1..])
  }

  /**
   * The routine's loop from an elapsed time: each frame first adds its delta time; a
   * trigger in it is judged at the needle's normalised angle and ends the session;
   * once the elapsed time reaches the duration the result is Miss.
   */
  function DefenseFrom(frames: seq<DefenseFrame>, elapsed: real, duration: real, center: real, green: real, yellow: real): QteResult
  {
    if elapsed >= duration || frames == [] then Miss
    else if frames[0].trigger then Judge(Normalize(frames[0].needleZ), center, green, yellow)
    else DefenseFrom(frames[1..], elapsed + frames[0].dt, duration, center, green, yellow)
  }

  /** The time the first n frames take: the elapsed time at which frame n starts. */
  function Elapsed(frames: seq<DefenseFrame>, n: nat): real
    requires n <= |frames|
  {
    if n == 0 then 0.0 else Elapsed(frames, n - 1) + frames[n - 1].dt
  }

  lemma {:induction false} ElapsedShift(frames: seq<DefenseFrame>, n: nat)
    requires 0 < |frames| && n < |frames|
    ensures Elapsed(frames, n + 1) == frames[0].dt + Elapsed(frames[1..], n)
  {
    if n > 0 {
      ElapsedShift(frames, n - 1);
    }
  }

  /**
   * Only a trigger on a frame that starts before the duration is up is judged: with no
   * trigger on any such frame the session ends as a Miss, whatever later frames hold.
   */
  lemma {:induction false} LateTriggerMisses(frames: seq<DefenseFrame>, elapsed: real, duration: real, center: real, green: real, yellow: real)
    requires forall k :: 0 <= k < |frames| && elapsed + Elapsed(frames, k) < duration ==> !frames[k].trigger
    ensures DefenseFrom(frames, elapsed, duration, center, green, yellow) == Miss
    decreases |frames|
  {
    if elapsed < duration && frames != [] {
      assert elapsed + Elapsed(frames, 0) < duration;
      var rest := frames[1..];
      var elapsed' := elapsed + frames[0].dt;
      forall k | 0 <= k < |rest| && elapsed' + Elapsed(rest, k) < duration
        ensures !rest[k].trigger
      {
        ElapsedShift(frames, k);
        assert elapsed + Elapsed(frames, k + 1) < duration;
      }
      LateTriggerMisses(rest, elapsed', duration, center, green, yellow);
    }
  }

  /**
   * The first trigger decides: a trigger on frame k, none before it, and frame k starting
   * before the duration is up (frame times non-negative) judges the needle of frame k.
   */
  lemma {:induction false} FirstTriggerJudged(frames: seq<DefenseFrame>, k: nat, elapsed: real, duration: real, center: real, green: real, yellow: real)
    requires k < |frames| && frames[k].trigger
    requires forall j :: 0 <= j < k ==> !frames[j].trigger
    requires forall j :: 0 <= j < |frames| ==> frames[j].dt >= 0.0
    requires elapsed + Elapsed(frames, k) < duration
    ensures DefenseFrom(frames, elapsed, duration, center, green, yellow) == Judge(Normalize(frames[k].needleZ), center, green, yellow)
    decreases k
  {
    ElapsedNonNegative(frames, k);
    if k > 0 {
      var rest := frames[1..];
      ElapsedShift(frames, k - 1);
      assert !frames[0].trigger && rest[k - 1] == frames[k];
      FirstTriggerJudged(rest, k - 1, elapsed + frames[0].dt, duration, center, green, yellow);
    }
  }

  lemma {:induction false} ElapsedNonNegative(frames: seq<DefenseFrame>, n: nat)
    requires n <= |frames|
    requires forall j :: 0 <= j < |frames| ==> frames[j].dt >= 0.0
    ensures Elapsed(frames, n) >= 0.0
  {
    if n > 0 {
      ElapsedNonNegative(frames, n - 1);
    }
  }

  class CircularQteSession {
    var running: bool
    var timeToFail: real
    var centerAngleDeg: real
    const greenWidthDeg: real
    const yellowWidthDeg: real

    /** Serialized defaults: centre 270 (bottom), green 20, yellow 90, two seconds. */
    constructor (greenWidthDeg: real := 20.0, yellowWidthDeg: real := 90.0)
      ensures !running && timeToFail == 2.0 && centerAngleDeg == 270.0
      ensures this.greenWidthDeg == greenWidthDeg && this.yellowWidthDeg == yellowWidthDeg
    {
      running := false;
      timeToFail := 2.0;
      centerAngleDeg := 270.0;
      this.greenWidthDeg := greenWidthDeg;
      this.yellowWidthDeg := yellowWidthDeg;
    }

    /** The duration, clamped to at least 0.1 second. */
    method SetDuration(seconds: real)
      modifies this`timeToFail
      ensures timeToFail == RealMax(0.1, seconds)
      ensures timeToFail >= 0.1 && (seconds >= 0.1 ==> timeToFail == seconds)
    {
      timeToFail := RealMax(0.1, seconds);
    }

    method SetCenterAngle(deg: real)
      modifies this`centerAngleDeg
      ensures centerAngleDeg == Normalize(deg)
      ensures 0.0 <= centerAngleDeg < 360.0
    {
      centerAngleDeg := Normalize(deg);
    }

    /** What a session over these frames delivers. */
    function Outcome(frames: seq<DefenseFrame>): QteResult
      reads this
    {
      DefenseFrom(frames, 0.0, timeToFail, centerAngleDeg, greenWidthDeg, yellowWidthDeg)
    }

    /**
     * RunDefense: returns at once, without calling onDone, while a session is running;
     * otherwise marks a session running and runs it. The result is what onDone receives.
     */
    method RunDefense(frames: seq<DefenseFrame>) returns (delivered: Option<QteResult>)
      requires Span(frames) >= timeToFail
      modifies this`running
      ensures old(running) ==> delivered.None? && running
      ensures !old(running) ==> delivered == Some(Outcome(frames)) && !running
    {
      if running {
        return None;
      }
      running := true;
      var result := RunDefenseRoutine(frames);
      return Some(result);
    }

    /** RunDefenseRoutine: the timed loop, then the session is cleared and its one result delivered. */
    method RunDefenseRoutine(frames: seq<DefenseFrame>) returns (result: QteResult)
      requires Span(frames) >= timeToFail
      modifies this`running
      ensures result == Outcome(frames)
      ensures !running
    {
      var elapsed := 0.0;
      result := Miss;
      var k := 0;
      while elapsed < timeToFail
        invariant 0 <= k <= |frames|
        invariant Span(frames[k..]) >= timeToFail - elapsed
        invariant DefenseFrom(frames[k..], elapsed, timeToFail, centerAngleDeg, greenWidthDeg, yellowWidthDeg) == Outcome(frames)
        decreases |frames| - k
      {
        assert frames[k..] != [];
        assert frames[k..][1..] == frames[k + 1..];
        var frame := frames[k];
        elapsed := elapsed + frame.dt;
        if frame.trigger {
          result := Judge(Normalize(frame.needleZ), centerAngleDeg, greenWidthDeg, yellowWidthDeg);
          break;
        }
        k := k + 1;
      }
      running := false;
    }
  }
}
