/** The refactored entertainment TV: one input per entertainment group, the
    active group's position as ActiveIdentifier. Its input services are
    `Inputs.EntertainmentInputs`, its ActiveIdentifier handler is
    `Intents.SwitchArea`, and its `setOn`/`setOnLightBulb` overrides repeat
    `BaseDevice.HandlePowerCharacteristicSet` and
    `BaseTvDevice.SetOnLightBulb`. */
module EntertainmentTvDevice {
  import opened Optional
  import opened Js
  import opened SyncState
  import opened Translate
  import opened Host
  import opened Readout
  import opened Intents
  import opened Inputs
  import opened BaseDevice
  import BaseTvDevice
  import Device

  /** `update(state)` with `updateTv`: ActiveIdentifier is the 1-based
      position of the active group, one past the end when it is not listed. */
  function Update(a: Accessory, s: State): (r: Accessory)
    ensures r.state == s
    ensures r.service.on == Bool(IsSyncMode(s.execution.mode))
    ensures r.service.activeIdentifier.Num?
    ensures 1 <= r.service.activeIdentifier.n <= |s.hue.groups| + 1
    ensures r.service.activeIdentifier.n <= |s.hue.groups| ==>
      s.hue.groups[r.service.activeIdentifier.n - 1].id == s.hue.groupId
    ensures r.service.activeIdentifier.n == |s.hue.groups| + 1 <==>
      forall k :: 0 <= k < |s.hue.groups| ==> s.hue.groups[k].id != s.hue.groupId
    ensures r.service.active == a.service.active
  {
    BaseTvDevice.Update(a, s, GroupIdentifier(s.hue))
  }

  /** The identifier shown for a listed, non-empty active group selects that
      group again. */
  lemma ShownAreaSelectsItself(a: Accessory, s: State)
    requires s.hue.groupId != ""
    requires exists k :: 0 <= k < |s.hue.groups| && s.hue.groups[k].id == s.hue.groupId
    ensures SelectArea(s.hue, Update(a, s).service.activeIdentifier.n) == Some(HuePut(s.hue.groupId))
  {
    AreaIndexRoundTrip(s.hue);
  }

  /** An area picked by identifier, once written and polled, is what the
      entertainment TV shows (group ids are distinct). */
  lemma SelectedAreaIsShown(a: Accessory, s: State, value: int)
    requires DistinctIds(s.hue.groups)
    requires SelectArea(s.hue, value).Some?
    ensures Update(a, Apply(s, SelectArea(s.hue, value).value)).service.activeIdentifier == Num(value)
  {
    AreaThenPoll(s, value);
  }

  /** Each entertainment input's Identifier is its own: distinct across the
      inputs, and as an ActiveIdentifier it selects that input's group. */
  lemma InputSelectsItsGroup(h: Hue, k: int)
    requires 0 <= k < |h.groups| && h.groups[k].id != ""
    ensures var r := EntertainmentInputs(h.groups);
            forall j :: 0 <= j < |r| && j != k ==> r[j].identifier != r[k].identifier
    ensures SelectArea(h, EntertainmentInputs(h.groups)[k].identifier) == Some(HuePut(h.groups[k].id))
  {
    var r := EntertainmentInputs(h.groups);
    assert r[k].identifier == k + 1;
  }

  /** Whether the entertainment TV gets a companion light: its own flag. */
  function IsLightBulbEnabled(cfg: Config): bool {
    cfg.entertainmentTvAccessoryLightbulb
  }

  /** The entertainment TV accessory has a companion light exactly when the
      device class gives its entertainment TV one. */
  lemma LightBulbAgreesWithDevice(cfg: Config)
    ensures IsLightBulbEnabled(cfg) == Device.CompanionLightFlag(cfg, Device.EntertainmentTvService)
  {
  }
}
