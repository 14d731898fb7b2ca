/** The refactored TV base class: a Television service with an
    ActiveIdentifier that each subclass derives, and an optional companion
    light. Its remote-key handler is `Remote.HandleRemoteKey`. */
module BaseTvDevice {
  import opened Optional
  import opened Js
  import opened SyncState
  import opened Translate
  import opened Host
  import opened Readout
  import opened BaseDevice

  /** `setOnLightBulb(value)`: nothing without a companion light; otherwise
      the current value is the light's On, then `updateMode`. */
  function SetOnLightBulb(cfg: Config, a: Accessory, value: CharValue): (w: Option<Payload>)
    ensures a.lightBulb.None? ==> w.None?
    ensures a.lightBulb.Some? ==> (w.None? <==> StrictEquals(a.lightBulb.value.on, value))
    ensures w.Some? ==> w.value == ExecutionPut(ModeUpdate(ToggleTarget(cfg, a.state.execution, value)))
  {
    match a.lightBulb
    case None => None
    case Some(light) => ModeWriteOf(UpdateMode(cfg, a.state.execution, light.on, value))
  }

  datatype Target = MainService | CompanionLight

  /** The pushes of `update(state)`, in order: the base class's On, the
      subclass's ActiveIdentifier, then the companion light's On and
      Brightness. */
  function UpdatePushes(a: Accessory, s: State, identifier: CharValue): (r: seq<Push<Target>>)
    ensures |r| == if a.lightBulb.Some? then 4 else 2
    ensures r[0] == Push(MainService, On, Bool(IsSyncMode(s.execution.mode)))
    ensures r[1] == Push(MainService, ActiveIdentifier, identifier)
    ensures a.lightBulb.Some? ==> (
      && r[2] == Push(CompanionLight, On, Bool(IsSyncMode(s.execution.mode)))
      && r[3] == Push(CompanionLight, Brightness, Num(BrightnessToPercent(s.execution.brightness))))
  {
    [Push(MainService, On, OnValue(s.execution)), Push(MainService, ActiveIdentifier, identifier)]
    + (if a.lightBulb.Some? then
         [Push(CompanionLight, On, OnValue(s.execution)), Push(CompanionLight, Brightness, PercentValue(s.execution))]
       else [])
  }

  /** One push delivered to the accessory's services; a push for a light the
      accessory lacks is dropped. */
  function Deliver(a: Accessory, q: Push<Target>): Accessory {
    match q.target
    case MainService => a.(service := Write(a.service, q.characteristic, q.value))
    case CompanionLight =>
      match a.lightBulb
      case Some(light) => a.(lightBulb := Some(Write(light, q.characteristic, q.value)))
      case None => a
  }

  /** `update(state)`: the pushes of `UpdatePushes` delivered in order.
      Active is never refreshed here. */
  function Update(a: Accessory, s: State, identifier: CharValue): (r: Accessory)
    ensures r.state == s
    ensures r.service.on == Bool(s.execution.mode != Powersave && s.execution.mode != Passthrough)
    ensures r.service.activeIdentifier == identifier
    ensures r.service.active == a.service.active && r.service.brightness == a.service.brightness
    ensures r.lightBulb.Some? <==> a.lightBulb.Some?
    ensures r.lightBulb.Some? ==> (
      && r.lightBulb.value.on == Bool(s.execution.mode != Powersave && s.execution.mode != Passthrough)
      && r.lightBulb.value.brightness == Num(BrightnessToPercent(s.execution.brightness))
      && (ValidBrightness(s.execution.brightness) ==> 0 <= r.lightBulb.value.brightness.n <= 100)
      && r.lightBulb.value.active == a.lightBulb.value.active
      && r.lightBulb.value.activeIdentifier == a.lightBulb.value.activeIdentifier)
  {
    var qs := UpdatePushes(a, s, identifier);
    var a1 := Deliver(a.(state := s), qs[0]);
    var a2 := Deliver(a1, qs[1]);
    if a.lightBulb.None? then
      a2
    else
      var a3 := Deliver(a2, qs[2]);
      var a4 := Deliver(a3, qs[3]);
      a4
  }
}
