/** The source's behaviour where it departs from what it evidently means.
    The rest of the model uses the corrected definitions; each member here
    pairs with a lemma that exhibits the difference. */
module AsWritten {
  import opened Optional
  import opened Js
  import opened SyncState
  import opened Tables
  import opened Translate
  import opened Remote
  import opened Readout
  import opened Inputs
  import Intents
  import BaseDevice
  import ModeDevice
  import EntertainmentTvDevice
  import Device

  // ---------------------------------------------------------------------
  // Rank tables read with brackets

  /** `table[key]` on a JS `Map`: entries are not properties, so the read is
      `undefined` whatever the key. */
  function BracketRead<K>(key: K): CharValue {
    Undefined
  }

  /** JS `v + d` for a number `d`: `NaN` unless `v` is a number. */
  function Plus(v: CharValue, d: int): CharValue {
    if v.Num? then Num(v.n + d) else NotANumber
  }

  /** JS `v % 4 + 1`: `NaN` unless `v` is a number. */
  function CycleNext(v: CharValue): CharValue {
    if v.Num? then Num(v.n % 4 + 1) else NotANumber
  }

  /** JS `v < bound` and `v > bound`: false whenever `v` is not a number. */
  predicate Below(v: CharValue, bound: int) { v.Num? && v.n < bound }
  predicate Above(v: CharValue, bound: int) { v.Num? && v.n > bound }

  /** The `mode` member of a JSON body holding a mode name read from
      `numberToMode`; `None` when the read gave `undefined`. */
  function ModeOf(v: CharValue): Option<Mode> {
    if v.Num? then ModeAt(v.n) else None
  }

  /** The `intensity` member of a JSON body holding a level read from
      `numberToIntensity`: dropped when the read gave `undefined`. */
  function LevelOf(v: CharValue): IntensityField {
    if v.Num? && IntensityAt(v.n).Some? then Level(IntensityAt(v.n).value) else Absent
  }

  /** One arrow press as written: the rank read is `undefined`, the step is
      `NaN`, neither bound test fires, and the level read back is
      `undefined`, so the body is `{[mode]: {}}`. */
  function StepIntensity(e: Execution, delta: int): (r: Reaction)
    ensures r.Fault? <==> IntensityOf(e, EffectiveMode(e)).None?
    ensures r.Fault? || r == Emit(IntensityUpdate(EffectiveMode(e), Absent))
  {
    var mode := EffectiveMode(e);
    match IntensityOf(e, mode)
    case None => Fault
    case Some(current) =>
      var next := Plus(BracketRead(current), delta);
      if Below(next, 1) || Above(next, 4) then Skip
      else Emit(IntensityUpdate(mode, LevelOf(BracketRead(next))))
  }

  /** `handleRemoteButton` as written: the arrows and SELECT go through the
      bracket reads; the other keys behave as in `Remote.HandleRemoteKey`. */
  function HandleRemoteKey(cfg: Config, e: Execution, key: RemoteKey): (r: Reaction)
    ensures key == Select ==> r == Emit(EmptyUpdate)
    ensures key == ArrowLeft || key == ArrowRight ==>
      r.Fault? || r == Emit(IntensityUpdate(EffectiveMode(e), Absent))
    ensures key != ArrowLeft && key != ArrowRight && key != Select ==>
      r == Remote.HandleRemoteKey(cfg, e, key)
  {
    match key
    case ArrowLeft => StepIntensity(e, -1)
    case ArrowRight => StepIntensity(e, 1)
    case Select => Emit(ModeWrite(ModeOf(BracketRead(CycleNext(BracketRead(e.mode))))))
    case _ => Remote.HandleRemoteKey(cfg, e, key)
  }

  /** The snapshot after the device accepts an as-written key's write. */
  function AfterKey(cfg: Config, s: State, key: RemoteKey): State {
    match HandleRemoteKey(cfg, s.execution, key)
    case Emit(u) => Apply(s, ExecutionPut(u))
    case _ => s
  }

  /** As written, SELECT and the intensity arrows never change the device,
      and ARROW_RIGHT at `intense` still writes; the corrected handler
      cycles the mode and skips at the top level. */
  lemma RemoteKeysAsWritten(cfg: Config, s: State)
    requires IsSyncMode(s.execution.mode)
    ensures AfterKey(cfg, s, Select) == s
    ensures AfterKey(cfg, s, ArrowLeft) == s && AfterKey(cfg, s, ArrowRight) == s
    ensures Remote.AfterKey(cfg, s, Select).execution.mode != s.execution.mode
    ensures IntensityOf(s.execution, s.execution.mode) == Some(Intense) ==>
      HandleRemoteKey(cfg, s.execution, ArrowRight).Emit? && Remote.HandleRemoteKey(cfg, s.execution, ArrowRight) == Skip
  {
    var m := s.execution.mode;
    assert ModeRank(m).Some?;
    var u := Remote.NextMode(m);
    assert ModeRank(u.mode) == Some(ModeRank(m).value % 4 + 1);
  }

  /** The mode TV's ActiveIdentifier as written: `modeToNumber[mode]`. */
  function ModeIdentifier(e: Execution): (v: CharValue)
    ensures v == Undefined
  {
    BracketRead(e.mode)
  }

  /** The mode TV's ActiveIdentifier handler as written:
      `{mode: numberToMode[value]}`, which serialises to `{}`. */
  function SelectMode(value: int): (p: Payload)
    ensures p == ExecutionPut(EmptyUpdate)
  {
    ExecutionPut(ModeWrite(ModeOf(BracketRead(value))))
  }

  /** As written, the mode TV never shows a mode and picking one changes
      nothing; the corrected TV shows each picked mode. */
  lemma ModeTvAsWritten(a: BaseDevice.Accessory, s: State, value: int)
    requires 1 <= value <= 4
    ensures Apply(s, SelectMode(value)) == s
    ensures ModeIdentifier(s.execution) == Undefined
    ensures ModeDevice.Update(a, Apply(s, Intents.SelectMode(value))).service.activeIdentifier == Num(value)
  {
    ModeDevice.SelectedModeIsShown(a, s, value);
  }

  /** The intensity TV's ActiveIdentifier pushes as written: the value read
      is `intensityToNumber[intensity]`, and the `if (brightness)` guard
      pushes it only when truthy. `None` when the intensity read throws. */
  function IntensityPushes(e: Execution): (r: Option<seq<CharValue>>)
    ensures r.None? <==> !IsSyncMode(EffectiveMode(e))
    ensures r.Some? ==> r.value == []
  {
    match IntensityOf(e, EffectiveMode(e))
    case Some(i) =>
      var rank := BracketRead(i);
      Some(if Truthy(rank) then [rank] else [])
    case None => None
  }

  /** The intensity TV's ActiveIdentifier handler as written:
      `numberToIntensity[value] || ''`, always the blank level. */
  function SelectIntensity(e: Execution, value: int): (p: Payload)
    ensures p == ExecutionPut(IntensityUpdate(EffectiveMode(e), Blank))
  {
    var read := BracketRead(value);
    var field := if Truthy(read) then LevelOf(read) else Blank;
    ExecutionPut(IntensityUpdate(EffectiveMode(e), field))
  }

  /** As written, picking an intensity changes nothing and a poll never
      refreshes the intensity TV's ActiveIdentifier; the corrected TV shows
      each picked intensity. */
  lemma IntensityTvAsWritten(s: State, value: int)
    requires IsSyncMode(EffectiveMode(s.execution))
    requires 1 <= value <= 4
    ensures Apply(s, SelectIntensity(s.execution, value)) == s
    ensures IntensityPushes(s.execution) == Some([])
    ensures Readout.IntensityIdentifier(Apply(s, Intents.SelectIntensity(s.execution, value)).execution)
            == Some(Num(value))
  {
    Intents.IntensityThenPoll(s, value);
  }

  // ---------------------------------------------------------------------
  // The intensity input loop

  /** The intensity TV's inputs as written: `for (i = 1; i < size; i++)`. */
  function IntensityInputs(): (r: seq<InputSource>)
    ensures |r| == |NumberToIntensity| - 1 == 3
  {
    IntensityTableSize();
    IntensityInputsUpTo(|NumberToIntensity| - 1)
  }

  /** As written, `intense` has no input, so the intensity TV cannot show
      or offer it; the corrected list has one. */
  lemma IntenseHasNoInput()
    ensures forall k :: 0 <= k < |IntensityInputs()| ==> IntensityInputs()[k].identifier != IntensityRank(Intense)
    ensures Inputs.IntensityInputs()[IntensityRank(Intense) - 1].identifier == IntensityRank(Intense)
  {
    var r := IntensityInputs();
    assert IntensityRank(Intense) == 4;
    forall k | 0 <= k < |r| ensures r[k].identifier != 4 {
      assert r[k].identifier == k + 1;
    }
  }

  // ---------------------------------------------------------------------
  // The entertainment TV's companion-light flag

  /** `isLightBulbEnabled` of the entertainment TV as written: the intensity
      TV's flag. */
  function EntertainmentLightBulbEnabled(cfg: Config): (b: bool)
    ensures b == cfg.intensityTvAccessoryLightbulb
  {
    cfg.intensityTvAccessoryLightbulb
  }

  /** As written, turning the entertainment TV's own flag on gives it no
      companion light while the intensity TV's flag is off, although the
      device class gives its entertainment TV one. */
  lemma LightBulbFlagCrossed(cfg: Config)
    requires cfg.entertainmentTvAccessoryLightbulb && !cfg.intensityTvAccessoryLightbulb
    ensures !EntertainmentLightBulbEnabled(cfg)
    ensures Device.CompanionLightFlag(cfg, Device.EntertainmentTvService)
    ensures EntertainmentTvDevice.IsLightBulbEnabled(cfg)
  {
  }

  // ---------------------------------------------------------------------
  // Input identifiers

  /** `parseInt` of a one-character string: the digit it spells, or `NaN`. */
  lemma ParseOneChar(c: char)
    ensures IsDigit(c) ==> ParseInt([c]) == Some((c as int) - ('0' as int))
    ensures !IsDigit(c) ==> ParseInt([c]).None?
  {
    var s := [c];
    assert s[1..] == [];
    if IsDigit(c) {
      assert LeadingDigits(s[1..]) == [];
      assert LeadingDigits(s) == [s[0]] + [] == s;
      assert s[..|s| - 1] == [];
      assert DigitsValue(s) == DigitsValue([]) * 10 + ((c as int) - ('0' as int));
    }
  }

  /** `getInputService`'s Identifier as written: the last character of the
      position label, read as the number it spells (`None` when it is not
      a digit). */
  function InputIdentifier(position: string): (r: Option<nat>)
    ensures |position| > 0 && IsDigit(position[|position| - 1]) ==>
      r == Some((position[|position| - 1] as int) - ('0' as int))
    ensures (|position| == 0 || !IsDigit(position[|position| - 1])) ==> r.None?
  {
    if |position| == 0 then None
    else
      ParseOneChar(position[|position| - 1]);
      ParseInt([position[|position| - 1]])
  }

  /** As written, the eleventh entertainment area gets the first area's
      Identifier and the tenth gets 0, which no area index selects, and an
      HDMI input named `Apple TV` gets none; the corrected identifiers are
      the 1-based positions. */
  lemma IdentifierCollision(groups: seq<Group>)
    requires |groups| >= 11
    ensures var r := EntertainmentInputs(groups);
            InputIdentifier(r[10].position) == InputIdentifier(r[0].position) == Some(1)
            && InputIdentifier(r[9].position) == Some(0)
            && r[10].identifier == 11 && r[9].identifier == 10 && r[0].identifier == 1
    ensures InputIdentifier("Apple TV").None?
  {
    var r := EntertainmentInputs(groups);
    assert ShowNat(1) == "1";
    assert ShowNat(10) == "10" by { assert ShowNat(1) == "1"; assert ShowNat(0) == "0"; }
    assert ShowNat(11) == "11" by { assert ShowNat(1) == "1"; }
    assert r[0].position == "AREA 1";
    assert r[9].position == "AREA 10";
    assert r[10].position == "AREA 11";
  }
}
