/** The refactored switch: a Switch service whose power characteristic is
    On. Its `update` repeats `BaseDevice.Update`. */
module SwitchDevice {
  import opened Optional
  import opened Js
  import opened SyncState
  import opened Translate
  import opened Host
  import opened Readout
  import opened BaseDevice

  /** `setOn(value)`: the current value is the switch's On, then
      `updateMode`. */
  function SetOn(cfg: Config, a: Accessory, value: CharValue): (w: Option<Payload>)
    ensures w.None? <==> StrictEquals(a.service.on, value)
    ensures w.Some? ==> w.value == ExecutionPut(ModeUpdate(ToggleTarget(cfg, a.state.execution, value)))
  {
    ModeWriteOf(UpdateMode(cfg, a.state.execution, a.service.on, value))
  }

  /** Right after a poll, switching to what the switch shows writes nothing,
      and with sane modes switching to the opposite writes a mode the next
      poll shows as requested. */
  lemma SwitchFollowsPoll(cfg: Config, a: Accessory, s: State, value: bool)
    requires SaneModes(cfg, s.execution)
    ensures var shown := Update(a, s);
            SetOn(cfg, shown, Bool(value)).None? <==> value == IsSyncMode(s.execution.mode)
    ensures var shown := Update(a, s);
            var w := SetOn(cfg, shown, Bool(value));
            w.Some? ==> Update(shown, Apply(s, w.value)).service.on == Bool(value)
  {
    var shown := Update(a, s);
    if value != IsSyncMode(s.execution.mode) {
      ToggleThenPoll(cfg, s, shown.service.on, Bool(value));
    }
  }
}
