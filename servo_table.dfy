/** The servo mapping table: one descriptor per actuator channel, tying a
    landmark and a reference landmark, a measured axis, a calibration range
    and an output angle range to a pin behind a command prefix. */
module ServoTable {
  import opened Landmarks

  datatype Axis = X | Y | Distance

  /** One entry of `servoConfigs`. `closed` and `open` may come in either
      order; a descending pair drives an inverted actuator. */
  datatype ServoConfig = ServoConfig(
    idx: string,
    ref: string,
    axis: Axis,
    pin: int,
    closed: int,
    open: int,
    dMin: real,
    dMax: real,
    prefix: string)

  /** `map` divides by `dMax - dMin`, so a usable entry has a non-empty
      calibration range. */
  predicate WellFormed(cfg: ServoConfig)
  {
    cfg.dMin < cfg.dMax
  }

  predicate AllWellFormed(cfgs: seq<ServoConfig>)
  {
    forall i :: 0 <= i < |cfgs| ==> WellFormed(cfgs[i])
  }

  /** The table the service starts with. */
  const DefaultConfigs: seq<ServoConfig> := [
    // eyebrows
    ServoConfig("leftEyebrow", "middleEyebrow", Y, 5, 45, 125, 0.219, 0.279, "U"),
    ServoConfig("leftEyebrow", "middleEyebrow", Y, 7, 130, 70, 0.219, 0.279, "U"),
    ServoConfig("rightEyebrow", "middleEyebrow", Y, 4, 130, 70, 0.219, 0.279, "U"),
    ServoConfig("rightEyebrow", "middleEyebrow", Y, 6, 50, 125, 0.219, 0.279, "U"),
    // eyes
    ServoConfig("leftEyeball", "leftEyeOuter", X, 2, 130, 50, 0.186, 0.312, "U"),
    ServoConfig("leftEyeball", "leftEyeOuter", Y, 3, 90, 140, 0.132, 0.174, "U"),
    ServoConfig("rightLowerEyelid", "rightUpperEyelid", Y, 11, 80, 43, 0.1, 0.262, "U"),
    ServoConfig("rightUpperEyelid", "rightLowerEyelid", Y, 10, 90, 180, 0.1, 0.244, "U"),
    ServoConfig("leftLowerEyelid", "leftUpperEyelid", Y, 13, 80, 134, 0.1, 0.262, "U"),
    ServoConfig("leftUpperEyelid", "leftLowerEyelid", Y, 12, 110, 20, 0.1, 0.244, "U"),
    // mouth
    ServoConfig("rightUpperMouth", "zero", Distance, 6, 40, 130, 0.18, 0.23, "F"),
    ServoConfig("rightLowerMouth", "zero", Distance, 7, 120, 40, 0.39, 0.94, "F"),
    ServoConfig("leftUpperMouth", "zero", Distance, 8, 135, 50, 0.18, 0.23, "F"),
    ServoConfig("leftLowerMouth", "zero", Distance, 9, 92, 150, 0.39, 0.94, "F"),
    // cheeks
    ServoConfig("upperLip", "lowerLip", Distance, 3, 20, 120, 0.58, 0.64, "F"),
    ServoConfig("upperLip", "lowerLip", Distance, 2, 125, 35, 0.68, 0.73, "F"),
    ServoConfig("upperLip", "lowerLip", Distance, 5, 70, 160, 0.54, 0.61, "F"),
    ServoConfig("upperLip", "lowerLip", Distance, 4, 140, 62, 0.65, 0.75, "F"),
    // lips
    ServoConfig("upperLip", "lowerLip", Distance, 0, 100, 70, 0.25, 1.05, "F")
  ]

  /** Every default entry has a usable calibration range and names only
      landmarks of the vocabulary, so on a ready snapshot none is skipped. */
  lemma DefaultTableSound()
    ensures AllWellFormed(DefaultConfigs)
    ensures forall i :: 0 <= i < |DefaultConfigs| ==>
      DefaultConfigs[i].idx in Idx && DefaultConfigs[i].ref in Idx
  {
  }

  /** The default table drives pin 5 twice: once behind prefix `U` (the left
      eyebrow) and once behind prefix `F` (the cheek). */
  lemma DefaultTableSharesPin5()
    ensures DefaultConfigs[0].pin == DefaultConfigs[16].pin == 5
    ensures DefaultConfigs[0].prefix == "U" && DefaultConfigs[16].prefix == "F"
  {
  }
}
