/** The landmark vocabulary: the frozen table `IDX` from semantic names to
    positions in a snapshot, the readiness test on a snapshot, and the
    lookup `lm[IDX[name]]` that yields no point for an unknown name. */
module Landmarks {
  import opened Base
  import opened Geometry

  /** A snapshot from the vision collaborator, or `None` when it has none. */
  type Snapshot = Option<seq<Point>>

  /** The number of points a snapshot needs before it is processed. */
  const MinLandmarks: nat := 478

  /** The three landmarks the frame is computed from. */
  const LeftEyeOuter: nat := 359
  const RightEyeOuter: nat := 130
  const NoseTip: nat := 4

  const Idx: map<string, nat> := map[
    "leftEyeOuter" := LeftEyeOuter,
    "rightEyeOuter" := RightEyeOuter,
    "leftEyebrow" := 336,
    "leftEyebrowCorner" := 300,
    "rightEyebrow" := 107,
    "rightEyebrowCorner" := 70,
    "middleEyebrow" := 8,
    "leftEyeball" := 473,
    "leftUpperEyelid" := 386,
    "leftLowerEyelid" := 374,
    "rightUpperEyelid" := 159,
    "rightLowerEyelid" := 145,
    "leftUpperMouth" := 391,
    "leftLowerMouth" := 314,
    "rightUpperMouth" := 37,
    "rightLowerMouth" := 84,
    "rightUpperCheek" := 207,
    "rightLowerCheek" := 214,
    "leftUpperCheek" := 427,
    "leftLowerCheek" := 434,
    "noseTip" := NoseTip,
    "upperLip" := 11,
    "lowerLip" := 16,
    "zero" := 0
  ]

  /** `lm && lm.length >= 478`. */
  predicate Ready(lm: Snapshot)
  {
    lm.Some? && |lm.value| >= MinLandmarks
  }

  /** `lm[IDX[name]]`: absent when the name is not in the table or the
      index lies past the end of the snapshot. Every index of the table
      addresses a point of a ready snapshot, so on such a snapshot a lookup
      misses exactly when the name is unknown. */
  function Lookup(lm: seq<Point>, name: string): (r: Option<Point>)
    ensures r.Some? ==> name in Idx && Idx[name] < |lm| && r.value == lm[Idx[name]]
    ensures |lm| >= MinLandmarks ==> (r.Some? <==> name in Idx)
  {
    if name in Idx then IdxInRange(name); (if Idx[name] < |lm| then Some(lm[Idx[name]]) else None)
    else None
  }

  lemma IdxInRange(name: string)
    requires name in Idx
    ensures Idx[name] < MinLandmarks
  {
  }
}
