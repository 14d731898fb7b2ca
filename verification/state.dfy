/** The device state snapshot the Sync Box returns on every poll, the plugin
    configuration the core reads, and the partial-update bodies it writes. */
module SyncState {
  import opened Optional

  /** `execution.mode`. */
  datatype Mode = Video | Music | Game | Passthrough | Powersave

  /** The per-mode `intensity` of `execution.video`, `.music` and `.game`. */
  datatype Intensity = Subtle | Moderate | High | Intense

  /** A running sync mode: the only modes that carry an intensity, and the
      modes for which On characteristics read true. */
  predicate IsSyncMode(m: Mode) {
    m != Powersave && m != Passthrough
  }

  /** The mode literal the device API uses. */
  function ModeName(m: Mode): string {
    match m
    case Video => "video"
    case Music => "music"
    case Game => "game"
    case Passthrough => "passthrough"
    case Powersave => "powersave"
  }

  /** The intensity literal the device API uses. */
  function IntensityName(i: Intensity): string {
    match i
    case Subtle => "subtle"
    case Moderate => "moderate"
    case High => "high"
    case Intense => "intense"
  }

  /** The `execution` sub-resource. `lastSyncMode` is `None` when the device
      reports none (or an empty, falsy string). */
  datatype Execution = Execution(
    mode: Mode,
    brightness: int,
    hdmiSource: string,
    lastSyncMode: Option<Mode>,
    video: Intensity,
    music: Intensity,
    game: Intensity)

  /** `execution[m].intensity`: only the three sync modes have a record. */
  function IntensityOf(e: Execution, m: Mode): (r: Option<Intensity>)
    ensures r.Some? <==> IsSyncMode(m)
  {
    match m
    case Video => Some(e.video)
    case Music => Some(e.music)
    case Game => Some(e.game)
    case _ => None
  }

  /** One entry of `hue.groups`, in the object's iteration order. */
  datatype Group = Group(id: string, name: string)

  /** The `hue` sub-resource. */
  datatype Hue = Hue(groupId: string, groups: seq<Group>)

  /** `hdmi.inputN.name`; the empty string when the device reports no name. */
  datatype HdmiInput = HdmiInput(name: string)

  datatype Hdmi = Hdmi(input1: HdmiInput, input2: HdmiInput, input3: HdmiInput, input4: HdmiInput)

  /** A full state snapshot. The device identity block is only used for
      accessory registration and is not part of this model. */
  datatype State = State(execution: Execution, hue: Hue, hdmi: Hdmi)

  /** All four device brightness values lie in 0..200. */
  predicate ValidBrightness(b: int) { 0 <= b <= 200 }

  /** Group ids are object keys, so they are distinct. */
  predicate DistinctIds(groups: seq<Group>) {
    forall j, k :: 0 <= j < k < |groups| ==> groups[j].id != groups[k].id
  }

  // ---------------------------------------------------------------------
  // Configuration

  /** `defaultOnMode`: a mode literal or the sentinel `"lastSyncMode"`. */
  datatype OnModeSetting = LastSyncMode | FixedOnMode(mode: Mode)

  datatype Config = Config(
    defaultOnMode: OnModeSetting,
    defaultOffMode: Mode,
    tvAccessoryLightbulb: bool,
    modeTvAccessoryLightbulb: bool,
    intensityTvAccessoryLightbulb: bool,
    entertainmentTvAccessoryLightbulb: bool)

  // ---------------------------------------------------------------------
  // Partial-update bodies

  /** The `intensity` member of a nested per-mode body: a level, the empty
      string, or absent (a member whose value is `undefined` is dropped when
      the body is serialised). */
  datatype IntensityField = Level(level: Intensity) | Blank | Absent

  /** A body for `PUT /api/v1/execution`; each handler writes one field.
      `EmptyUpdate` is `{mode: undefined}`, which serialises to `{}`. */
  datatype ExecutionUpdate =
    | ModeUpdate(mode: Mode)
    | BrightnessUpdate(brightness: int)
    | HdmiSourceUpdate(source: string)
    | IntensityUpdate(target: Mode, intensity: IntensityField)
    | EmptyUpdate

  /** One write to the device: an `execution` or a `hue` partial update. */
  datatype Payload = ExecutionPut(update: ExecutionUpdate) | HuePut(groupId: string)

  /** `{mode: m}` where `m` may be `undefined`. */
  function ModeWrite(m: Option<Mode>): (u: ExecutionUpdate)
    ensures m.Some? ==> u == ModeUpdate(m.value)
    ensures m.None? ==> u == EmptyUpdate
  {
    match m
    case Some(x) => ModeUpdate(x)
    case None => EmptyUpdate
  }

  /** `{intensity: i}` where `i` may be `undefined`. */
  function IntensityWrite(i: Option<Intensity>): IntensityField {
    match i
    case Some(x) => Level(x)
    case None => Absent
  }

  /** The snapshot the device reports after it has accepted a write: the
      written field changes and nothing else does. This is the device's
      documented partial-update behaviour, assumed rather than modelled
      (the device is external); an intensity for a mode without an
      intensity record, a blank or absent intensity, and `{}` change nothing. */
  function Apply(s: State, p: Payload): (t: State)
    ensures t.hdmi == s.hdmi
    ensures p.ExecutionPut? ==> t.hue == s.hue
    ensures p.HuePut? ==> t.execution == s.execution && t.hue.groups == s.hue.groups
  {
    match p
    case HuePut(g) => s.(hue := s.hue.(groupId := g))
    case ExecutionPut(u) =>
      var e := s.execution;
      var e' := match u
        case ModeUpdate(m) => e.(mode := m)
        case BrightnessUpdate(b) => e.(brightness := b)
        case HdmiSourceUpdate(src) => e.(hdmiSource := src)
        case IntensityUpdate(Video, Level(i)) => e.(video := i)
        case IntensityUpdate(Music, Level(i)) => e.(music := i)
        case IntensityUpdate(Game, Level(i)) => e.(game := i)
        case IntensityUpdate(_, _) => e
        case EmptyUpdate => e;
      s.(execution := e')
  }
}
