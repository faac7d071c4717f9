/**
  The volume arithmetic of the fallback sink: a per-channel level vector, its
  maximum, and the clamped one-step increase and decrease used by the
  wheel gestures (test.py, `set_fsink_vol_up` and `set_fsink_vol_down`).
*/
module Volume {

  /** One channel level as carried on the bus: an unsigned 32-bit integer. */
  type Level = x: int | 0 <= x < 0x1_0000_0000

  /** The amount one wheel step adds or removes. */
  const VolumeStep: int := 2000

  /** The ceiling an increase is clamped to (100% on the audio server). */
  const MaxVolume: int := 65536

  /** The effective scalar volume of a vector, as Python's `max` computes it. */
  function Max(v: seq<Level>): (m: Level)
    requires |v| > 0
    ensures m in v
    ensures forall i :: 0 <= i < |v| ==> v[i] <= m
  {
    if |v| == 1 then v[0]
    else
      var rest := Max(v[1..]);
      if v[0] >= rest then v[0] else rest
  }

  /**
    The value `set_fsink_vol_up` writes: `max(v) + 2000`, clamped to 65536.
    The result is the smaller of the two, so it always fits a UInt32.
  */
  function StepUp(v: seq<Level>): (r: Level)
    requires |v| > 0
    ensures r <= Max(v) + VolumeStep && r <= MaxVolume
    ensures r == Max(v) + VolumeStep || r == MaxVolume
  {
    var up := Max(v) + VolumeStep;
    if up <= MaxVolume then up else MaxVolume
  }

  /**
    The value `set_fsink_vol_down` writes: `max(v) - 2000`, clamped to 0.
    The result is the larger of the two, so it always fits a UInt32.
  */
  function StepDown(v: seq<Level>): (r: Level)
    requires |v| > 0
    ensures r >= Max(v) - VolumeStep && r >= 0
    ensures r == Max(v) - VolumeStep || r == 0
  {
    var down := Max(v) - VolumeStep;
    if down > 0 then down else 0
  }

  /** Every level in the audio server's nominal range [0, MaxVolume]. */
  predicate InRange(v: seq<Level>)
  {
    forall i :: 0 <= i < |v| ==> v[i] <= MaxVolume
  }

  /** From a vector in range, both steps produce a value in range. */
  lemma StepsStayInRange(v: seq<Level>)
    requires |v| > 0 && InRange(v)
    ensures 0 <= StepUp(v) <= MaxVolume
    ensures 0 <= StepDown(v) <= MaxVolume
    ensures InRange([StepUp(v)]) && InRange([StepDown(v)])
  {
  }

  /**
    One step up followed by one step down (on the single-element vector the
    first step writes) returns to the old maximum when no clamp applied, and
    the same holds for down followed by up.
  */
  lemma StepsUndoEachOther(v: seq<Level>)
    requires |v| > 0
    ensures Max(v) + VolumeStep <= MaxVolume ==> StepDown([StepUp(v)]) == Max(v)
    ensures VolumeStep <= Max(v) <= MaxVolume ==> StepUp([StepDown(v)]) == Max(v)
  {
  }

  /** The step values on the observed examples. */
  lemma StepExamples()
    ensures StepUp([30000]) == 32000
    ensures StepUp([64500]) == 65536
    ensures StepDown([1000]) == 0
    ensures StepUp([0]) == 2000 && StepDown([0]) == 0
    ensures StepUp([65536]) == 65536 && StepDown([65536]) == 63536
  {
  }
}
