/** From a ready snapshot to one angle per servo entry: the head-roll frame
    (roll angle, eye-corner reference distance, nose-tip rotation centre),
    the roll-corrected raw delta of an entry's two landmarks, its
    normalisation and bias correction, and the clamped remap onto the
    entry's angle range followed by `Math.round`. */
module Resolver {
  import opened Base
  import opened Calibration
  import opened Geometry
  import opened Landmarks
  import opened ServoTable

  /** The per-snapshot quantities computed before the loop over the table. */
  datatype Frame = Frame(roll: real, dRef: real, center: Point)

  function FrameOf(num: Numerics, lm: seq<Point>): (f: Frame)
    requires |lm| >= MinLandmarks
    ensures f.center == lm[NoseTip]
  {
    var leftEye := lm[LeftEyeOuter];
    var rightEye := lm[RightEyeOuter];
    Frame(
      num.atan2(rightEye.y - leftEye.y, rightEye.x - leftEye.x),
      Distance2D(num, leftEye, rightEye),
      lm[NoseTip])
  }

  /** The measured quantity of an entry: the distance between its two
      (corrected) points, or the absolute difference along one axis. */
  function RawDelta(num: Numerics, axis: Axis, p1: Point, p2: Point): (d: real)
    ensures axis != Distance ==> 0.0 <= d
  {
    match axis
    case Distance => Distance2D(num, p1, p2)
    case X => Abs(p1.x - p2.x)
    case Y => Abs(p1.y - p2.y)
  }

  /** `Math.round(map(normCorrected, dMin, dMax, closed, open))`: never
      outside the entry's angle range, however far the measurement falls
      outside the calibration range, and pinned to the nearer end past it. */
  function Angle(cfg: ServoConfig, normCorrected: real): (a: int)
    requires WellFormed(cfg)
    ensures MinInt(cfg.closed, cfg.open) <= a <= MaxInt(cfg.closed, cfg.open)
    ensures normCorrected <= cfg.dMin ==> a == cfg.closed
    ensures cfg.dMax <= normCorrected ==> a == cfg.open
  {
    var v := Remap(normCorrected, cfg.dMin, cfg.dMax, cfg.closed as real, cfg.open as real);
    RoundWithin(v, MinInt(cfg.closed, cfg.open), MaxInt(cfg.closed, cfg.open));
    Round(v)
  }

  /** Angles move with the measurement in the direction the entry's range
      runs: up for `closed <= open`, down for an inverted actuator. */
  lemma AngleMonotone(cfg: ServoConfig, v1: real, v2: real)
    requires WellFormed(cfg)
    requires v1 <= v2
    ensures cfg.closed <= cfg.open ==> Angle(cfg, v1) <= Angle(cfg, v2)
    ensures cfg.open <= cfg.closed ==> Angle(cfg, v2) <= Angle(cfg, v1)
  {
    var lo, hi := cfg.closed as real, cfg.open as real;
    RemapMonotone(v1, v2, cfg.dMin, cfg.dMax, lo, hi);
    var r1, r2 := Remap(v1, cfg.dMin, cfg.dMax, lo, hi), Remap(v2, cfg.dMin, cfg.dMax, lo, hi);
    if cfg.closed <= cfg.open {
      RoundMonotone(r1, r2);
    }
    if cfg.open <= cfg.closed {
      RoundMonotone(r2, r1);
    }
  }

  /** One iteration of the loop body up to the comparison: `None` when the
      entry's point or reference is not found, otherwise its angle. */
  function Resolve(num: Numerics, lm: seq<Point>, f: Frame, cfg: ServoConfig): (r: Option<int>)
    requires WellFormed(cfg)
    requires f.dRef > 0.0
    ensures r.None? <==> Lookup(lm, cfg.idx).None? || Lookup(lm, cfg.ref).None?
    ensures r.Some? ==> MinInt(cfg.closed, cfg.open) <= r.value <= MaxInt(cfg.closed, cfg.open)
  {
    match (Lookup(lm, cfg.idx), Lookup(lm, cfg.ref))
    case (Some(p1), Some(p2)) =>
      var q1 := RotatePoint(num, p1, f.center, f.roll);
      var q2 := RotatePoint(num, p2, f.center, f.roll);
      var normDelta := RawDelta(num, cfg.axis, q1, q2) / f.dRef;
      Some(Angle(cfg, Correct(normDelta, f.roll)))
    case _ => None
  }

  /** The frame depends on the snapshot only through the two outer eye
      corners and the nose tip: snapshots that agree there give the same
      frame, whatever their other points. */
  lemma FrameLocal(num: Numerics, lm1: seq<Point>, lm2: seq<Point>)
    requires |lm1| >= MinLandmarks && |lm2| >= MinLandmarks
    requires lm1[LeftEyeOuter] == lm2[LeftEyeOuter]
    requires lm1[RightEyeOuter] == lm2[RightEyeOuter]
    requires lm1[NoseTip] == lm2[NoseTip]
    ensures FrameOf(num, lm1) == FrameOf(num, lm2)
  {
  }

  /** The entries' resolutions, in table order: each one skipped exactly
      when a lookup misses, and otherwise inside its entry's angle range. */
  function ResolveAll(num: Numerics, lm: seq<Point>, f: Frame, cfgs: seq<ServoConfig>): (rs: seq<Option<int>>)
    requires AllWellFormed(cfgs)
    requires f.dRef > 0.0
    ensures |rs| == |cfgs|
    ensures forall i :: 0 <= i < |cfgs| ==> rs[i] == Resolve(num, lm, f, cfgs[i])
    ensures forall i :: 0 <= i < |cfgs| ==>
      (rs[i].None? <==> Lookup(lm, cfgs[i].idx).None? || Lookup(lm, cfgs[i].ref).None?)
    ensures forall i :: 0 <= i < |cfgs| && rs[i].Some? ==>
      MinInt(cfgs[i].closed, cfgs[i].open) <= rs[i].value <= MaxInt(cfgs[i].closed, cfgs[i].open)
  {
    seq(|cfgs|, i requires 0 <= i < |cfgs| => Resolve(num, lm, f, cfgs[i]))
  }

  /** A worked calibration: level eyes one unit apart, an `x` entry with
      calibration range [0.2, 0.8] onto [0, 180] and a raw difference of 0.5.
      The bias correction lifts 0.5 to 0.602, which remaps to 120.6 and
      rounds to 121. */
  lemma WorkedExample()
    ensures Angle(ServoConfig("p", "r", X, 0, 0, 180, 0.2, 0.8, "U"), Correct(0.5 / 1.0, 0.0)) == 121
  {
    var cfg := ServoConfig("p", "r", X, 0, 0, 180, 0.2, 0.8, "U");
    assert Correct(0.5 / 1.0, 0.0) == 0.602;
    assert Remap(0.602, 0.2, 0.8, 0.0, 180.0) == 120.6;
    RoundUnique(120.6, 121);
  }

  /** On a ready snapshot no entry of the default table is skipped. */
  lemma DefaultTableNeverSkips(num: Numerics, lm: seq<Point>, f: Frame)
    requires |lm| >= MinLandmarks && f.dRef > 0.0
    ensures AllWellFormed(DefaultConfigs)
    ensures forall i :: 0 <= i < |DefaultConfigs| ==> Resolve(num, lm, f, DefaultConfigs[i]).Some?
  {
    DefaultTableSound();
    forall i | 0 <= i < |DefaultConfigs|
      ensures Resolve(num, lm, f, DefaultConfigs[i]).Some?
    {
      assert DefaultConfigs[i].idx in Idx && DefaultConfigs[i].ref in Idx;
    }
  }
}
