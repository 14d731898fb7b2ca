/** The refactored accessory base class: one service whose power
    characteristic is Active, and the last snapshot it was given. */
module BaseDevice {
  import opened Optional
  import opened Js
  import opened SyncState
  import opened Translate
  import opened Host
  import opened Readout

  /** An accessory: its last snapshot, its main service and, for the TV
      kinds, an optional companion light service. */
  datatype Accessory = Accessory(state: State, service: Chars, lightBulb: Option<Chars>)

  /** The toggle decision as a payload. */
  function ModeWriteOf(w: Option<ExecutionUpdate>): Option<Payload> {
    match w
    case Some(u) => Some(ExecutionPut(u))
    case None => None
  }

  /** The mode a toggle to `value` writes. */
  function ToggleTarget(cfg: Config, e: Execution, value: CharValue): Mode {
    if Truthy(value) then ResolveOnMode(cfg, e) else cfg.defaultOffMode
  }

  /** `update(state)`: the snapshot is replaced wholesale and the main
      service's On shows whether a sync mode runs; nothing else changes. */
  function Update(a: Accessory, s: State): (r: Accessory)
    ensures r.state == s
    ensures Read(r.service, On) == Bool(s.execution.mode != Powersave && s.execution.mode != Passthrough)
    ensures forall k :: k != On ==> Read(r.service, k) == Read(a.service, k)
    ensures r.lightBulb == a.lightBulb
  {
    a.(state := s, service := Write(a.service, On, OnValue(s.execution)))
  }

  /** `handlePowerCharacteristicSet(value)`: the current value is the main
      service's Active, then `updateMode` against the stored snapshot. */
  function HandlePowerCharacteristicSet(cfg: Config, a: Accessory, value: CharValue): (w: Option<Payload>)
    ensures w.None? <==> StrictEquals(a.service.active, value)
    ensures w.Some? ==> w.value == ExecutionPut(ModeUpdate(ToggleTarget(cfg, a.state.execution, value)))
  {
    ModeWriteOf(UpdateMode(cfg, a.state.execution, a.service.active, value))
  }
}
