/** The remote-control key handler of the TV accessories. Both copies of it
    (the monolithic device and the refactored TV base class) are the same
    code, modelled once here. */
module Remote {
  import opened Optional
  import opened Js
  import opened SyncState
  import opened Tables
  import opened Translate

  /** The remote keys the handler reacts to; every other key code is ignored. */
  datatype RemoteKey =
    | ArrowUp | ArrowDown | ArrowLeft | ArrowRight
    | Select | PlayPause | Information
    | OtherKey(code: int)

  /** The handler's effect: no write, one `execution` write, or a thrown
      `TypeError` (reading `.intensity` of a mode that has no intensity
      record, which happens only when `lastSyncMode` is not a sync mode). */
  datatype Reaction = Skip | Emit(update: ExecutionUpdate) | Fault

  /** The HDMI position parsed from `hdmiSource`:
      `parseInt(hdmiSource.replace('input', ''))`. */
  function SourcePosition(hdmiSource: string): Option<nat> {
    ParseInt(ReplaceFirst(hdmiSource, "input", ""))
  }

  /** The source after `hdmiSource` in the INFORMATION cycle. */
  function NextSource(hdmiSource: string): (next: string)
    ensures SourcePosition(hdmiSource).None? ==> next == "inputNaN"
    ensures SourcePosition(hdmiSource).Some? ==>
      next == "input" + ShowNat(SourcePosition(hdmiSource).value % 4 + 1)
  {
    var pos := SourcePosition(hdmiSource);
    var nextPos := if pos.Some? then Some(pos.value % 4 + 1) else None;
    "input" + NumberText(nextPos)
  }

  /** The mode after `m` in the SELECT cycle; `{}` for powersave, which has no
      rank. */
  function NextMode(m: Mode): (u: ExecutionUpdate)
    ensures m == Powersave ==> u == EmptyUpdate
    ensures m != Powersave ==> u.ModeUpdate? && ModeRank(u.mode) == Some(ModeRank(m).value % 4 + 1)
  {
    match ModeRank(m)
    case None => EmptyUpdate
    case Some(r) => ModeWrite(ModeAt(r % 4 + 1))
  }

  /** One intensity step (`delta` is -1 or +1) of the effective mode: nothing
      past rank 1 or rank 4, otherwise the neighbouring level nested under the
      effective mode's key. */
  function StepIntensity(e: Execution, delta: int): (r: Reaction)
    requires delta == -1 || delta == 1
    ensures r.Fault? <==> IntensityOf(e, EffectiveMode(e)).None?
    ensures r.Skip? <==> IntensityOf(e, EffectiveMode(e)).Some? &&
                         !(1 <= IntensityRank(IntensityOf(e, EffectiveMode(e)).value) + delta <= 4)
    ensures r.Emit? ==> (
      && r.update.IntensityUpdate?
      && r.update.target == EffectiveMode(e)
      && r.update.intensity.Level?
      && IntensityRank(r.update.intensity.level) == IntensityRank(IntensityOf(e, EffectiveMode(e)).value) + delta)
  {
    var mode := EffectiveMode(e);
    match IntensityOf(e, mode)
    case None => Fault
    case Some(current) =>
      var next := IntensityRank(current) + delta;
      if next < 1 || next > 4 then Skip
      else Emit(IntensityUpdate(mode, IntensityWrite(IntensityAt(next))))
  }

  /** `handleRemoteButton(key)` against the last polled execution state. */
  function HandleRemoteKey(cfg: Config, e: Execution, key: RemoteKey): (r: Reaction)
    ensures r.Fault? <==> (key == ArrowLeft || key == ArrowRight) && !IsSyncMode(EffectiveMode(e))
    ensures r.Skip? <==> (
      || key.OtherKey?
      || (key == ArrowLeft && IntensityOf(e, EffectiveMode(e)) == Some(Subtle))
      || (key == ArrowRight && IntensityOf(e, EffectiveMode(e)) == Some(Intense)))
  {
    match key
    case ArrowUp => Emit(BrightnessUpdate(Min(200, e.brightness + 50)))
    case ArrowDown => Emit(BrightnessUpdate(Max(0, e.brightness - 50)))
    case ArrowLeft => StepIntensity(e, -1)
    case ArrowRight => StepIntensity(e, 1)
    case Select => Emit(NextMode(e.mode))
    case PlayPause =>
      if IsSyncMode(e.mode) then Emit(ModeUpdate(cfg.defaultOffMode))
      else Emit(ModeUpdate(ResolveOnMode(cfg, e)))
    case Information => Emit(HdmiSourceUpdate(NextSource(e.hdmiSource)))
    case OtherKey(_) => Skip
  }

  /** The snapshot after the device accepts a key's write (unchanged when the
      key writes nothing). */
  function AfterKey(cfg: Config, s: State, key: RemoteKey): State {
    match HandleRemoteKey(cfg, s.execution, key)
    case Emit(u) => Apply(s, ExecutionPut(u))
    case _ => s
  }

  // ---------------------------------------------------------------------
  // Properties

  /** ARROW_UP and ARROW_DOWN write the brightness 50 steps up or down,
      clamped, and the written value stays within 0..200. */
  lemma BrightnessKeysClamp(cfg: Config, e: Execution)
    requires ValidBrightness(e.brightness)
    ensures HandleRemoteKey(cfg, e, ArrowUp) == Emit(BrightnessUpdate(Min(200, e.brightness + 50)))
    ensures HandleRemoteKey(cfg, e, ArrowDown) == Emit(BrightnessUpdate(Max(0, e.brightness - 50)))
    ensures ValidBrightness(HandleRemoteKey(cfg, e, ArrowUp).update.brightness)
    ensures ValidBrightness(HandleRemoteKey(cfg, e, ArrowDown).update.brightness)
    ensures HandleRemoteKey(cfg, e, ArrowUp).update.brightness >= e.brightness
    ensures HandleRemoteKey(cfg, e, ArrowDown).update.brightness <= e.brightness
  {
  }

  /** ARROW_LEFT at rank 1 and ARROW_RIGHT at rank 4 write nothing; otherwise
      each writes exactly the neighbouring level under the effective mode. */
  lemma IntensityKeysSaturate(cfg: Config, e: Execution, i: Intensity)
    requires IntensityOf(e, EffectiveMode(e)) == Some(i)
    ensures i == Subtle ==> HandleRemoteKey(cfg, e, ArrowLeft) == Skip
    ensures i == Intense ==> HandleRemoteKey(cfg, e, ArrowRight) == Skip
    ensures i != Subtle ==> (HandleRemoteKey(cfg, e, ArrowLeft) ==
      Emit(IntensityUpdate(EffectiveMode(e), Level(IntensityAt(IntensityRank(i) - 1).value))))
    ensures i != Intense ==> (HandleRemoteKey(cfg, e, ArrowRight) ==
      Emit(IntensityUpdate(EffectiveMode(e), Level(IntensityAt(IntensityRank(i) + 1).value))))
  {
  }

  /** Saturation law: below the top rank, ARROW_RIGHT then ARROW_LEFT (each
      confirmed by a poll) restores the intensity; at the top rank ARROW_RIGHT
      changes nothing. */
  lemma IntensityUpThenDown(cfg: Config, s: State, i: Intensity)
    requires IntensityOf(s.execution, EffectiveMode(s.execution)) == Some(i)
    ensures var t := AfterKey(cfg, AfterKey(cfg, s, ArrowRight), ArrowLeft);
            EffectiveMode(t.execution) == EffectiveMode(s.execution) &&
            IntensityOf(t.execution, EffectiveMode(t.execution)) ==
              (if i == Intense then Some(High) else Some(i))
    ensures i == Intense ==> AfterKey(cfg, s, ArrowRight) == s
  {
    var m := EffectiveMode(s.execution);
    var s1 := AfterKey(cfg, s, ArrowRight);
    assert EffectiveMode(s1.execution) == m;
  }

  /** SELECT steps video, music, game, passthrough and back to video; from
      powersave it writes `{}`. */
  lemma SelectCyclesModes(cfg: Config, e: Execution)
    ensures e.mode == Video ==> HandleRemoteKey(cfg, e, Select) == Emit(ModeUpdate(Music))
    ensures e.mode == Music ==> HandleRemoteKey(cfg, e, Select) == Emit(ModeUpdate(Game))
    ensures e.mode == Game ==> HandleRemoteKey(cfg, e, Select) == Emit(ModeUpdate(Passthrough))
    ensures e.mode == Passthrough ==> HandleRemoteKey(cfg, e, Select) == Emit(ModeUpdate(Video))
    ensures e.mode == Powersave ==> HandleRemoteKey(cfg, e, Select) == Emit(EmptyUpdate)
  {
  }

  /** Wraparound law: four SELECT presses, each confirmed by a poll, return to
      the starting mode. */
  lemma SelectFourTimes(cfg: Config, s: State)
    ensures AfterKey(cfg, AfterKey(cfg, AfterKey(cfg, AfterKey(cfg, s, Select), Select), Select), Select)
              .execution.mode == s.execution.mode
  {
    SelectCyclesModes(cfg, s.execution);
    var s1 := AfterKey(cfg, s, Select);
    SelectCyclesModes(cfg, s1.execution);
    var s2 := AfterKey(cfg, s1, Select);
    SelectCyclesModes(cfg, s2.execution);
    var s3 := AfterKey(cfg, s2, Select);
    SelectCyclesModes(cfg, s3.execution);
  }

  /** PLAY_PAUSE turns a running sync mode off and anything else on. */
  lemma PlayPauseToggles(cfg: Config, e: Execution)
    ensures IsSyncMode(e.mode) ==> HandleRemoteKey(cfg, e, PlayPause) == Emit(ModeUpdate(cfg.defaultOffMode))
    ensures !IsSyncMode(e.mode) ==> HandleRemoteKey(cfg, e, PlayPause) == Emit(ModeUpdate(ResolveOnMode(cfg, e)))
    ensures !IsSyncMode(e.mode) && cfg.defaultOnMode == LastSyncMode ==>
      HandleRemoteKey(cfg, e, PlayPause) == Emit(ModeUpdate(e.lastSyncMode.GetOr(Video)))
  {
  }

  /** With sane modes, PLAY_PAUSE is confirmed by the next poll: whether a
      sync mode runs flips. */
  lemma PlayPauseThenPoll(cfg: Config, s: State)
    requires SaneModes(cfg, s.execution)
    ensures IsSyncMode(AfterKey(cfg, s, PlayPause).execution.mode) == !IsSyncMode(s.execution.mode)
  {
  }

  /** INFORMATION steps `inputN` to `input((N % 4) + 1)`. */
  lemma InformationCycles(cfg: Config, e: Execution, n: nat)
    requires e.hdmiSource == "input" + ShowNat(n)
    ensures HandleRemoteKey(cfg, e, Information) == Emit(HdmiSourceUpdate("input" + ShowNat(n % 4 + 1)))
  {
    ReplacePrefix("input", ShowNat(n));
    ParseShow(n);
  }

  /** The cycle closes: `input4` is followed by `input1`. */
  lemma InformationWraps(cfg: Config, e: Execution)
    requires e.hdmiSource == "input4"
    ensures HandleRemoteKey(cfg, e, Information) == Emit(HdmiSourceUpdate("input1"))
  {
    assert ShowNat(4) == "4" && ShowNat(1) == "1";
    assert e.hdmiSource == "input" + ShowNat(4);
    InformationCycles(cfg, e, 4);
    assert 4 % 4 + 1 == 1;
    assert "input" + ShowNat(1) == "input1";
  }
}
