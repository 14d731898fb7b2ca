/** The write side of the ActiveIdentifier and Brightness characteristics:
    what each TV kind writes when the user picks an input or a brightness,
    and the poll that confirms it. */
module Intents {
  import opened Optional
  import opened Js
  import opened SyncState
  import opened Tables
  import opened Translate
  import opened Remote
  import opened Readout

  /** Brightness set handler: `{brightness: Math.round(p / 100 * 200)}`. */
  function BrightnessWrite(percent: int): (p: Payload)
    ensures p.ExecutionPut? && p.update.BrightnessUpdate?
    ensures BrightnessToPercent(p.update.brightness) == percent
    ensures 0 <= percent <= 100 ==> ValidBrightness(p.update.brightness)
  {
    PercentRoundTrip(percent);
    ExecutionPut(BrightnessUpdate(PercentToBrightness(percent)))
  }

  /** A brightness percentage, once written and polled, is shown unchanged. */
  lemma BrightnessThenPoll(s: State, percent: int)
    ensures PercentValue(Apply(s, BrightnessWrite(percent)).execution) == Num(percent)
  {
  }

  /** Plain TV: input `value` writes `{hdmiSource: 'input' + value}`. */
  function SelectHdmi(value: nat): (p: Payload)
    ensures p.ExecutionPut? && p.update.HdmiSourceUpdate?
    ensures SourcePosition(p.update.source) == Some(value)
  {
    ReplacePrefix("input", ShowNat(value));
    ParseShow(value);
    ExecutionPut(HdmiSourceUpdate("input" + ShowNat(value)))
  }

  /** A selected HDMI input, once written and polled, is the TV's
      ActiveIdentifier. */
  lemma HdmiThenPoll(s: State, value: nat)
    ensures HdmiIdentifier(Apply(s, SelectHdmi(value)).execution) == Num(value)
  {
  }

  /** Mode TV: identifier `value` writes `{mode: numberToMode.get(value)}`,
      which is `{}` outside 1..4. */
  function SelectMode(value: int): (p: Payload)
    ensures p.ExecutionPut?
    ensures 1 <= value <= 4 ==> p.update.ModeUpdate? && ModeRank(p.update.mode) == Some(value)
    ensures !(1 <= value <= 4) ==> p.update == EmptyUpdate
  {
    ExecutionPut(ModeWrite(ModeAt(value)))
  }

  /** Selecting a mode's rank writes exactly that mode. */
  lemma ModeRoundTrip(m: Mode)
    requires m != Powersave
    ensures SelectMode(ModeRank(m).value) == ExecutionPut(ModeUpdate(m))
  {
  }

  /** A selected mode identifier, once written and polled, is the mode TV's
      ActiveIdentifier. */
  lemma ModeThenPoll(s: State, value: int)
    requires 1 <= value <= 4
    ensures ModeIdentifier(Apply(s, SelectMode(value)).execution) == Num(value)
  {
  }

  /** Intensity TV: identifier `value` writes
      `{[effectiveMode]: {intensity: numberToIntensity.get(value) || ''}}`. */
  function SelectIntensity(e: Execution, value: int): (p: Payload)
    ensures p.ExecutionPut? && p.update.IntensityUpdate? && p.update.target == EffectiveMode(e)
    ensures 1 <= value <= 4 ==> p.update.intensity.Level? && IntensityRank(p.update.intensity.level) == value
    ensures !(1 <= value <= 4) ==> p.update.intensity == Blank
  {
    var field := match IntensityAt(value)
      case Some(i) => Level(i)
      case None => Blank;
    ExecutionPut(IntensityUpdate(EffectiveMode(e), field))
  }

  /** A selected intensity identifier, once written and polled, is the
      intensity TV's ActiveIdentifier, provided the effective mode is a sync
      mode. */
  lemma IntensityThenPoll(s: State, value: int)
    requires IsSyncMode(EffectiveMode(s.execution))
    requires 1 <= value <= 4
    ensures IntensityIdentifier(Apply(s, SelectIntensity(s.execution, value)).execution) == Some(Num(value))
  {
    var t := Apply(s, SelectIntensity(s.execution, value));
    assert t.execution.mode == s.execution.mode && t.execution.lastSyncMode == s.execution.lastSyncMode;
  }

  /** Entertainment TV: identifier `value` writes `{groupId}` of the
      `value`-th group to the `hue` resource; nothing when there is no such
      group or its id is the (falsy) empty string. */
  function SelectArea(h: Hue, value: int): (w: Option<Payload>)
    ensures w.Some? <==> 1 <= value <= |h.groups| && h.groups[value - 1].id != ""
    ensures w.Some? ==> w.value == HuePut(h.groups[value - 1].id)
  {
    match GroupIdAt(h.groups, value)
    case Some(id) => if id == "" then None else Some(HuePut(id))
    case None => None
  }

  /** The whole handler: the write, and its failure logged and swallowed. */
  function SwitchArea(h: Hue, value: int, reply: Reply): (c: Completion)
    ensures |c.sent| <= 1 && |c.logged| <= 1
    ensures c.sent == [] <==> SelectArea(h, value).None?
    ensures SelectArea(h, value).Some? ==> c.sent == [SelectArea(h, value).value]
    ensures |c.logged| == 1 <==> SelectArea(h, value).Some? && reply.Failed?
    ensures |c.logged| == 1 ==> (
      && 1 <= value <= |h.groups|
      && reply.Failed?
      && c.logged[0] == "Failed to switch entertainment area to " + h.groups[value - 1].name)
  {
    var name := if 1 <= value <= |h.groups| then h.groups[value - 1].name else "";
    Settle(SelectArea(h, value), reply, "Failed to switch entertainment area to " + name)
  }

  /** The identifier the entertainment TV shows for the active group selects
      that same group again. */
  lemma AreaIndexRoundTrip(h: Hue)
    requires h.groupId != ""
    requires exists k :: 0 <= k < |h.groups| && h.groups[k].id == h.groupId
    ensures SelectArea(h, GroupIdentifier(h).n) == Some(HuePut(h.groupId))
  {
    GroupIndexRoundTrip(h.groups, h.groupId);
  }

  /** A selected area, once written and polled, is the entertainment TV's
      ActiveIdentifier (group ids are distinct). */
  lemma AreaThenPoll(s: State, value: int)
    requires DistinctIds(s.hue.groups)
    requires SelectArea(s.hue, value).Some?
    ensures GroupIdentifier(Apply(s, SelectArea(s.hue, value).value).hue) == Num(value)
  {
    GroupIdRoundTrip(s.hue.groups, value);
  }
}
