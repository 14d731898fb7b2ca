/** The refactored mode TV: the four modes as inputs, the running mode as
    ActiveIdentifier. Its input services are `Inputs.ModeInputs` and its
    ActiveIdentifier handler is `Intents.SelectMode`. */
module ModeDevice {
  import opened Optional
  import opened Js
  import opened SyncState
  import opened Tables
  import opened Host
  import opened Readout
  import opened Intents
  import opened BaseDevice
  import BaseTvDevice
  import Device

  /** `update(state)` with `updateTv`: ActiveIdentifier is the running mode's
      rank, `undefined` at powersave. */
  function Update(a: Accessory, s: State): (r: Accessory)
    ensures r.state == s
    ensures r.service.on == Bool(IsSyncMode(s.execution.mode))
    ensures s.execution.mode != Powersave ==> (
      && r.service.activeIdentifier.Num?
      && ModeAt(r.service.activeIdentifier.n) == Some(s.execution.mode))
    ensures s.execution.mode == Powersave ==> r.service.activeIdentifier == Undefined
    ensures r.service.active == a.service.active
  {
    ModeTablesInverse();
    BaseTvDevice.Update(a, s, ModeIdentifier(s.execution))
  }

  /** The identifier the mode TV shows, selected again, writes the running
      mode. */
  lemma ShownModeSelectsItself(a: Accessory, s: State)
    requires s.execution.mode != Powersave
    ensures SelectMode(Update(a, s).service.activeIdentifier.n) == ExecutionPut(ModeUpdate(s.execution.mode))
  {
    ModeRoundTrip(s.execution.mode);
  }

  /** A mode picked by identifier, once written and polled, is what the mode
      TV shows. */
  lemma SelectedModeIsShown(a: Accessory, s: State, value: int)
    requires 1 <= value <= 4
    ensures Update(a, Apply(s, SelectMode(value))).service.activeIdentifier == Num(value)
  {
    ModeThenPoll(s, value);
  }

  /** `isLightBulbEnabled`: the mode TV's own flag. */
  function IsLightBulbEnabled(cfg: Config): bool {
    cfg.modeTvAccessoryLightbulb
  }

  /** The mode TV accessory has a companion light exactly when the device
      class gives its mode TV one. */
  lemma LightBulbAgreesWithDevice(cfg: Config)
    ensures IsLightBulbEnabled(cfg) == Device.CompanionLightFlag(cfg, Device.ModeTvService)
  {
  }
}
