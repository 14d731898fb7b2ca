/** The read side: the characteristic values every accessory derives from a
    polled snapshot. */
module Readout {
  import opened Optional
  import opened Js
  import opened SyncState
  import opened Tables
  import opened Translate
  import opened Remote

  /** On of switches, light bulbs and companion lights. */
  function OnValue(e: Execution): CharValue {
    Bool(IsSyncMode(e.mode))
  }

  /** Active of the TV-style services: passthrough counts as active. */
  function ActiveValue(e: Execution): CharValue {
    Bool(e.mode != Powersave)
  }

  /** Brightness of light bulbs and companion lights. */
  function PercentValue(e: Execution): CharValue {
    Num(BrightnessToPercent(e.brightness))
  }

  /** The plain TV's ActiveIdentifier: the number after `input` in
      `hdmiSource`, or `NaN`. */
  function HdmiIdentifier(e: Execution): (v: CharValue)
    ensures forall n: nat :: e.hdmiSource == "input" + ShowNat(n) ==> v == Num(n)
  {
    forall n: nat | e.hdmiSource == "input" + ShowNat(n) ensures SourcePosition(e.hdmiSource) == Some(n) {
      ReplacePrefix("input", ShowNat(n));
      ParseShow(n);
    }
    match SourcePosition(e.hdmiSource)
    case Some(n) => Num(n)
    case None => NotANumber
  }

  /** The mode TV's ActiveIdentifier: the mode's rank, `undefined` for
      powersave. */
  function ModeIdentifier(e: Execution): (v: CharValue)
    ensures e.mode != Powersave ==> v == Num(ModeRank(e.mode).value) && 1 <= v.n <= 4
    ensures e.mode == Powersave ==> v == Undefined
  {
    match ModeRank(e.mode)
    case Some(r) => Num(r)
    case None => Undefined
  }

  /** The intensity TV's ActiveIdentifier: the rank of the effective mode's
      intensity; `None` when the effective mode has no intensity record and
      reading it throws. */
  function IntensityIdentifier(e: Execution): (v: Option<CharValue>)
    ensures v.None? <==> !IsSyncMode(EffectiveMode(e))
    ensures v.Some? ==> v.value == Num(IntensityRank(IntensityOf(e, EffectiveMode(e)).value)) && 1 <= v.value.n <= 4
  {
    match IntensityOf(e, EffectiveMode(e))
    case Some(i) => Some(Num(IntensityRank(i)))
    case None => None
  }

  /** The entertainment TV's ActiveIdentifier: the 1-based position of the
      active group, `|groups| + 1` when it is not listed. */
  function GroupIdentifier(h: Hue): CharValue {
    Num(GroupIndexOf(h.groups, h.groupId))
  }
}
