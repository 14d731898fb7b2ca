/** The monolithic device class: its on/off handler and the characteristic
    refresh it runs on every snapshot. Its other handlers are the shared ones
    of `Intents` and `Remote`. */
module Device {
  import opened Optional
  import opened Js
  import opened SyncState
  import opened Translate
  import opened Host
  import opened Readout

  /** `setServiceActive(service)(value)`: the current value is
      `Active || On` of the service, then the shared toggle decision. */
  function SetServiceActive(cfg: Config, e: Execution, service: Chars, value: CharValue): (w: Option<Payload>)
    ensures Truthy(service.active) ==> (w.None? <==> StrictEquals(service.active, value))
    ensures !Truthy(service.active) ==> (w.None? <==> StrictEquals(service.on, value))
    ensures w.Some? ==> w.value.ExecutionPut? && w.value.update.ModeUpdate?
    ensures w.Some? ==> w.value.update.mode == (if Truthy(value) then ResolveOnMode(cfg, e) else cfg.defaultOffMode)
  {
    match UpdateMode(cfg, e, Or(service.active, service.on), value)
    case Some(u) => Some(ExecutionPut(u))
    case None => None
  }

  /** The services the device class holds (a companion light only exists with
      its TV). */
  datatype Present = Present(
    lightBulb: bool, switch: bool,
    tv: bool, tvBulb: bool,
    modeTv: bool, modeTvBulb: bool,
    intensityTv: bool, intensityTvBulb: bool,
    entertainmentTv: bool, entertainmentTvBulb: bool)

  datatype ServiceId =
    | LightBulbService | SwitchService
    | TvService | TvLightBulb
    | ModeTvService | ModeTvLightBulb
    | IntensityTvService | IntensityTvLightBulb
    | EntertainmentTvService | EntertainmentTvLightBulb

  predicate Enabled(p: Present, t: ServiceId) {
    match t
    case LightBulbService => p.lightBulb
    case SwitchService => p.switch
    case TvService => p.tv
    case TvLightBulb => p.tv && p.tvBulb
    case ModeTvService => p.modeTv
    case ModeTvLightBulb => p.modeTv && p.modeTvBulb
    case IntensityTvService => p.intensityTv
    case IntensityTvLightBulb => p.intensityTv && p.intensityTvBulb
    case EntertainmentTvService => p.entertainmentTv
    case EntertainmentTvLightBulb => p.entertainmentTv && p.entertainmentTvBulb
  }

  predicate IsTvService(t: ServiceId) {
    t == TvService || t == ModeTvService || t == IntensityTvService || t == EntertainmentTvService
  }

  /** The companion light of a TV service. */
  function CompanionOf(t: ServiceId): ServiceId
    requires IsTvService(t)
  {
    match t
    case TvService => TvLightBulb
    case ModeTvService => ModeTvLightBulb
    case IntensityTvService => IntensityTvLightBulb
    case _ => EntertainmentTvLightBulb
  }

  /** The configuration flag under which the device class gives a TV service
      its companion light. */
  function CompanionLightFlag(cfg: Config, t: ServiceId): bool
    requires IsTvService(t)
  {
    match t
    case TvService => cfg.tvAccessoryLightbulb
    case ModeTvService => cfg.modeTvAccessoryLightbulb
    case IntensityTvService => cfg.intensityTvAccessoryLightbulb
    case _ => cfg.entertainmentTvAccessoryLightbulb
  }

  /** The services the device class holds, given which accessories exist: a
      TV has its companion light exactly when the TV exists and its flag is
      set. */
  function ServicesFor(cfg: Config, lightBulb: bool, switch: bool, tv: bool, modeTv: bool,
                       intensityTv: bool, entertainmentTv: bool): (p: Present)
    ensures Enabled(p, LightBulbService) == lightBulb && Enabled(p, SwitchService) == switch
    ensures Enabled(p, TvService) == tv && Enabled(p, ModeTvService) == modeTv
    ensures Enabled(p, IntensityTvService) == intensityTv && Enabled(p, EntertainmentTvService) == entertainmentTv
    ensures forall t :: IsTvService(t) ==>
              (Enabled(p, CompanionOf(t)) <==> Enabled(p, t) && CompanionLightFlag(cfg, t))
  {
    Present(lightBulb, switch,
            tv, cfg.tvAccessoryLightbulb,
            modeTv, cfg.modeTvAccessoryLightbulb,
            intensityTv, cfg.intensityTvAccessoryLightbulb,
            entertainmentTv, cfg.entertainmentTvAccessoryLightbulb)
  }

  /** The read-side rules: the value each kind of characteristic must show for
      snapshot `s`. */
  predicate Derived(s: State, q: Push<ServiceId>) {
    var e := s.execution;
    match q.characteristic
    case On => !IsTvService(q.target) && q.value == Bool(e.mode != Powersave && e.mode != Passthrough)
    case Active => IsTvService(q.target) && q.value == Bool(e.mode != Powersave)
    case Brightness =>
      !IsTvService(q.target) &&
      q.value == Num(if e.brightness in RoundedDown then e.brightness / 2 else (e.brightness + 1) / 2)
    case ActiveIdentifier =>
      match q.target
      case TvService => q.value == HdmiIdentifier(e)
      case ModeTvService => q.value == ModeIdentifier(e)
      case IntensityTvService =>
        IntensityOf(e, EffectiveMode(e)).Some? && q.value == Num(Tables.IntensityRank(IntensityOf(e, EffectiveMode(e)).value))
      case EntertainmentTvService => q.value == Num(GroupIndexOf(s.hue.groups, s.hue.groupId))
      case _ => false
  }

  /** The power characteristic of a service: Active for the TV services, On
      for the others. */
  function PowerPush(s: State, t: ServiceId): Push<ServiceId> {
    if IsTvService(t) then Push(t, Active, ActiveValue(s.execution)) else Push(t, On, OnValue(s.execution))
  }

  /** The pushes of one `update(state)` call, and whether it stopped on a
      thrown error. */
  datatype UpdateRun = UpdateRun(pushes: seq<Push<ServiceId>>, aborted: bool)

  /** Every push goes to a present service and shows the derived value. */
  predicate Sound(p: Present, s: State, qs: seq<Push<ServiceId>>) {
    forall q :: q in qs ==> Enabled(p, q.target) && Derived(s, q)
  }

  /** The characteristics a refresh pushes for a service: power and input for
      a TV, power for the switch, power and Brightness for a light. */
  function Required(t: ServiceId): set<CharKind> {
    if IsTvService(t) then {Active, ActiveIdentifier}
    else if t == SwitchService then {On}
    else {On, Brightness}
  }

  /** Some push in `qs` sets characteristic `k` of service `t`. */
  predicate HasPush(qs: seq<Push<ServiceId>>, t: ServiceId, k: CharKind) {
    exists q :: q in qs && q.target == t && q.characteristic == k
  }

  /** Every present service among `ts` has its power characteristic pushed,
      and every characteristic it requires pushed (with `Sound`, each of
      those shows its derived value). */
  predicate Covers(p: Present, s: State, qs: seq<Push<ServiceId>>, ts: set<ServiceId>) {
    (forall t :: t in ts && Enabled(p, t) ==> PowerPush(s, t) in qs) &&
    (forall t, k :: t in ts && Enabled(p, t) && k in Required(t) ==> HasPush(qs, t, k))
  }

  lemma SoundConcat(p: Present, s: State, a: seq<Push<ServiceId>>, b: seq<Push<ServiceId>>)
    requires Sound(p, s, a) && Sound(p, s, b)
    ensures Sound(p, s, a + b)
  {
  }

  lemma CoversConcat(p: Present, s: State, a: seq<Push<ServiceId>>, b: seq<Push<ServiceId>>, ta: set<ServiceId>, tb: set<ServiceId>)
    requires Covers(p, s, a, ta) && Covers(p, s, b, tb)
    ensures Covers(p, s, a + b, ta + tb)
  {
  }

  lemma CoversPrefix(p: Present, s: State, a: seq<Push<ServiceId>>, b: seq<Push<ServiceId>>, ts: set<ServiceId>)
    requires Covers(p, s, a, ts)
    ensures Covers(p, s, a + b, ts)
  {
  }

  function LightPushes(t: ServiceId, e: Execution): seq<Push<ServiceId>> {
    [Push(t, On, OnValue(e)), Push(t, Brightness, PercentValue(e))]
  }

  lemma LightPushesReach(t: ServiceId, e: Execution)
    ensures HasPush(LightPushes(t, e), t, On) && HasPush(LightPushes(t, e), t, Brightness)
  {
    assert LightPushes(t, e)[0].characteristic == On;
    assert LightPushes(t, e)[1].characteristic == Brightness;
  }

  /** The stand-alone light bulb's segment. */
  function BulbSegment(p: Present, s: State): (r: seq<Push<ServiceId>>)
    ensures Sound(p, s, r) && Covers(p, s, r, {LightBulbService})
  {
    LightPushesReach(LightBulbService, s.execution);
    if p.lightBulb then LightPushes(LightBulbService, s.execution) else []
  }

  /** The switch's segment. */
  function SwitchSegment(p: Present, s: State): (r: seq<Push<ServiceId>>)
    ensures Sound(p, s, r) && Covers(p, s, r, {SwitchService})
  {
    if p.switch then [Push(SwitchService, On, OnValue(s.execution))] else []
  }

  /** A TV service's Active and ActiveIdentifier, then its companion light. */
  function TvPushes(t: ServiceId, id: CharValue, bulb: bool, b: ServiceId, e: Execution): seq<Push<ServiceId>> {
    [Push(t, Active, ActiveValue(e)), Push(t, ActiveIdentifier, id)] + (if bulb then LightPushes(b, e) else [])
  }

  /** A present TV's pushes cover the TV and, when present, its companion
      light. */
  lemma TvPushesCover(p: Present, s: State, t: ServiceId, id: CharValue, bulb: bool, b: ServiceId)
    requires IsTvService(t) && !IsTvService(b) && b != SwitchService
    requires Enabled(p, t) && (Enabled(p, b) <==> bulb)
    ensures Covers(p, s, TvPushes(t, id, bulb, b, s.execution), {t, b})
  {
    var r := TvPushes(t, id, bulb, b, s.execution);
    assert r[0] == PowerPush(s, t);
    assert r[0].characteristic == Active && r[1].characteristic == ActiveIdentifier;
    forall u, k | u in {t, b} && Enabled(p, u) && k in Required(u) ensures HasPush(r, u, k) {
      if u == b {
        assert r[2] == Push(b, On, OnValue(s.execution)) && r[2] == PowerPush(s, b);
        assert r[3] == Push(b, Brightness, PercentValue(s.execution));
      }
    }
    if bulb {
      assert r[2] == PowerPush(s, b);
    }
  }

  /** The plain TV's segment. */
  function TvSegment(p: Present, s: State): (r: seq<Push<ServiceId>>)
    ensures Sound(p, s, r) && Covers(p, s, r, {TvService, TvLightBulb})
  {
    if p.tv then
      TvPushesCover(p, s, TvService, HdmiIdentifier(s.execution), p.tvBulb, TvLightBulb);
      TvPushes(TvService, HdmiIdentifier(s.execution), p.tvBulb, TvLightBulb, s.execution)
    else []
  }

  /** The mode TV's segment. */
  function ModeTvSegment(p: Present, s: State): (r: seq<Push<ServiceId>>)
    ensures Sound(p, s, r) && Covers(p, s, r, {ModeTvService, ModeTvLightBulb})
  {
    if p.modeTv then
      TvPushesCover(p, s, ModeTvService, ModeIdentifier(s.execution), p.modeTvBulb, ModeTvLightBulb);
      TvPushes(ModeTvService, ModeIdentifier(s.execution), p.modeTvBulb, ModeTvLightBulb, s.execution)
    else []
  }

  /** The intensity TV's segment, when the effective mode has an intensity. */
  function IntensityTvSegment(p: Present, s: State): (r: seq<Push<ServiceId>>)
    requires IsSyncMode(EffectiveMode(s.execution))
    ensures Sound(p, s, r) && Covers(p, s, r, {IntensityTvService, IntensityTvLightBulb})
  {
    if p.intensityTv then
      TvPushesCover(p, s, IntensityTvService, IntensityIdentifier(s.execution).value, p.intensityTvBulb, IntensityTvLightBulb);
      TvPushes(IntensityTvService, IntensityIdentifier(s.execution).value, p.intensityTvBulb, IntensityTvLightBulb, s.execution)
    else []
  }

  /** The entertainment TV's segment. */
  function EntertainmentTvSegment(p: Present, s: State): (r: seq<Push<ServiceId>>)
    ensures Sound(p, s, r) && Covers(p, s, r, {EntertainmentTvService, EntertainmentTvLightBulb})
  {
    if p.entertainmentTv then
      TvPushesCover(p, s, EntertainmentTvService, GroupIdentifier(s.hue), p.entertainmentTvBulb, EntertainmentTvLightBulb);
      TvPushes(EntertainmentTvService, GroupIdentifier(s.hue), p.entertainmentTvBulb, EntertainmentTvLightBulb, s.execution)
    else []
  }

  /** The services refreshed before, and from, the intensity TV. */
  const FrontServices: set<ServiceId> :=
    {LightBulbService, SwitchService, TvService, TvLightBulb, ModeTvService, ModeTvLightBulb}
  const BackServices: set<ServiceId> :=
    {IntensityTvService, IntensityTvLightBulb, EntertainmentTvService, EntertainmentTvLightBulb}

  lemma InAllServices(t: ServiceId)
    ensures t in FrontServices + BackServices
  {
    match t
    case LightBulbService => case SwitchService =>
    case TvService => case TvLightBulb =>
    case ModeTvService => case ModeTvLightBulb =>
    case IntensityTvService => case IntensityTvLightBulb =>
    case EntertainmentTvService => case EntertainmentTvLightBulb =>
  }

  /** Covering both halves covers every present service. */
  lemma CoversEverything(p: Present, s: State, qs: seq<Push<ServiceId>>)
    requires Covers(p, s, qs, FrontServices + BackServices)
    ensures forall t :: Enabled(p, t) ==> PowerPush(s, t) in qs
    ensures forall t, k :: Enabled(p, t) && k in Required(t) ==> HasPush(qs, t, k)
  {
    forall t | Enabled(p, t) ensures PowerPush(s, t) in qs {
      InAllServices(t);
    }
    forall t, k | Enabled(p, t) && k in Required(t) ensures HasPush(qs, t, k) {
      InAllServices(t);
    }
  }

  /** The light bulb, switch, plain TV and mode TV segments, in order. */
  function FrontSegments(p: Present, s: State): (r: seq<Push<ServiceId>>)
    ensures Sound(p, s, r) && Covers(p, s, r, FrontServices)
  {
    var b := BulbSegment(p, s);
    var w := SwitchSegment(p, s);
    var tv := TvSegment(p, s);
    var mtv := ModeTvSegment(p, s);
    SoundConcat(p, s, b, w);
    SoundConcat(p, s, b + w, tv);
    SoundConcat(p, s, b + w + tv, mtv);
    CoversConcat(p, s, b, w, {LightBulbService}, {SwitchService});
    CoversConcat(p, s, b + w, tv, {LightBulbService, SwitchService}, {TvService, TvLightBulb});
    CoversConcat(p, s, b + w + tv, mtv, {LightBulbService, SwitchService, TvService, TvLightBulb},
                 {ModeTvService, ModeTvLightBulb});
    assert {LightBulbService, SwitchService, TvService, TvLightBulb} + {ModeTvService, ModeTvLightBulb} == FrontServices;
    b + w + tv + mtv
  }

  /** The intensity TV and entertainment TV segments, when the intensity TV
      does not throw. */
  function BackSegments(p: Present, s: State): (r: seq<Push<ServiceId>>)
    requires p.intensityTv ==> IsSyncMode(EffectiveMode(s.execution))
    ensures Sound(p, s, r) && Covers(p, s, r, BackServices)
  {
    var itv := if p.intensityTv then IntensityTvSegment(p, s) else [];
    var etv := EntertainmentTvSegment(p, s);
    SoundConcat(p, s, itv, etv);
    CoversConcat(p, s, itv, etv, {IntensityTvService, IntensityTvLightBulb},
                 {EntertainmentTvService, EntertainmentTvLightBulb});
    itv + etv
  }

  /** `update(state)`: refreshes every present service in declaration order.
      Reading the intensity of an effective mode that has none throws, right
      after the intensity TV's Active was pushed, and the later services are
      not refreshed. */
  function Update(p: Present, s: State): (r: UpdateRun)
    ensures r.aborted <==> p.intensityTv && !IsSyncMode(EffectiveMode(s.execution))
    ensures Sound(p, s, r.pushes)
    ensures Covers(p, s, r.pushes, FrontServices)
    ensures !r.aborted ==> forall t :: Enabled(p, t) ==> PowerPush(s, t) in r.pushes
    ensures !r.aborted ==> forall t, k :: Enabled(p, t) && k in Required(t) ==> HasPush(r.pushes, t, k)
  {
    var head := FrontSegments(p, s);
    if !IsSyncMode(EffectiveMode(s.execution)) && p.intensityTv then
      var stop := [Push(IntensityTvService, Active, ActiveValue(s.execution))];
      assert Sound(p, s, stop);
      SoundConcat(p, s, head, stop);
      CoversPrefix(p, s, head, stop, FrontServices);
      UpdateRun(head + stop, true)
    else
      var tail := BackSegments(p, s);
      SoundConcat(p, s, head, tail);
      CoversConcat(p, s, head, tail, FrontServices, BackServices);
      CoversEverything(p, s, head + tail);
      UpdateRun(head + tail, false)
  }
}
