/** The input sources the TV accessories register, in registration order.
    Each input's Identifier is what the TV's ActiveIdentifier selects. The
    model gives the k-th input identifier k; see `AsWritten.InputIdentifier`
    for what the source derives. */
module Inputs {
  import opened Js
  import opened SyncState
  import opened Tables

  /** An input source: its ConfiguredName, its position prefix (the service
      subtype) and its Identifier. */
  datatype InputSource = InputSource(name: string, position: string, identifier: int)

  /** Inputs named `names`, labelled `prefix first`, `prefix first+1`, … and
      identified by the same numbers, in order. */
  function Numbered(names: seq<string>, prefix: string, first: nat): (r: seq<InputSource>)
    ensures |r| == |names|
    ensures forall k :: 0 <= k < |r| ==>
      r[k] == InputSource(names[k], prefix + " " + ShowNat(first + k), first + k)
    decreases |names|
  {
    if |names| == 0 then []
    else [InputSource(names[0], prefix + " " + ShowNat(first), first)] + Numbered(names[1..], prefix, first + 1)
  }

  /** The mode TV's inputs `MODE 1` … `MODE 4`, each named by `numberToMode`. */
  function ModeInputs(): (r: seq<InputSource>)
    ensures |r| == 4
    ensures forall k :: 0 <= k < 4 ==>
      r[k].identifier == k + 1 && ModeAt(k + 1).Some? && r[k].name == ModeName(ModeAt(k + 1).value)
    ensures forall k :: 0 <= k < 4 ==> r[k].position == "MODE " + ShowNat(k + 1)
  {
    Numbered(seq(4, k requires 0 <= k < 4 => ModeName(ModeAt(k + 1).value)), "MODE", 1)
  }

  /** Every mode with a rank has exactly one mode input, the one whose
      Identifier is its rank, and that input carries the mode's name. */
  lemma ModeInputsMatchRanks(m: Mode)
    requires m != Powersave
    ensures var r := ModeInputs();
            exists k :: 0 <= k < 4 && r[k].identifier == ModeRank(m).value && r[k].name == ModeName(m)
    ensures var r := ModeInputs();
            forall k :: 0 <= k < 4 && r[k].identifier == ModeRank(m).value ==> r[k].name == ModeName(m)
  {
    var r := ModeInputs();
    var k := ModeRank(m).value - 1;
    assert r[k].identifier == ModeRank(m).value;
  }

  /** The intensity TV's inputs `INTENSITY 1` … `INTENSITY last`, named by
      `numberToIntensity`. */
  function IntensityInputsUpTo(last: nat): (r: seq<InputSource>)
    requires last <= 4
    ensures |r| == last
    ensures forall k :: 0 <= k < last ==>
      r[k].identifier == k + 1 && IntensityAt(k + 1).Some? && r[k].name == IntensityName(IntensityAt(k + 1).value)
    ensures forall k :: 0 <= k < last ==> r[k].position == "INTENSITY " + ShowNat(k + 1)
  {
    Numbered(seq(last, k requires 0 <= k < last => IntensityName(IntensityAt(k + 1).value)), "INTENSITY", 1)
  }

  lemma IntensityTableSize()
    ensures |NumberToIntensity| == 4
  {
    assert NumberToIntensity.Keys == {1, 2, 3, 4};
  }

  /** One intensity input for each of the `numberToIntensity.size` ranks
      (the source's loop stops one short; see `AsWritten.IntensityInputs`). */
  function IntensityInputs(): (r: seq<InputSource>)
    ensures |r| == 4
    ensures forall i: Intensity :: r[IntensityRank(i) - 1].identifier == IntensityRank(i)
                                   && r[IntensityRank(i) - 1].name == IntensityName(i)
  {
    IntensityTableSize();
    IntensityInputsUpTo(|NumberToIntensity|)
  }

  /** The entertainment TV's inputs `AREA 1` … `AREA n`, one per group, in
      `hue.groups` iteration order, named by the group's name. */
  function EntertainmentInputs(groups: seq<Group>): (r: seq<InputSource>)
    ensures |r| == |groups|
    ensures forall k :: 0 <= k < |r| ==>
      r[k].identifier == k + 1 && r[k].name == groups[k].name && r[k].position == "AREA " + ShowNat(k + 1)
  {
    Numbered(seq(|groups|, k requires 0 <= k < |groups| => groups[k].name), "AREA", 1)
  }

  /** The name shown for HDMI input `n`: the device's name for it, or
      `HDMI n` when it has none. */
  function HdmiName(input: HdmiInput, n: nat): (name: string)
    ensures input.name != "" ==> name == input.name
    ensures input.name == "" ==> name == "HDMI " + ShowNat(n)
  {
    if input.name != "" then input.name else "HDMI " + ShowNat(n)
  }

  /** The plain TV's four HDMI inputs; the name doubles as the position prefix. */
  function HdmiInputs(hdmi: Hdmi): (r: seq<InputSource>)
    ensures |r| == 4
    ensures forall k :: 0 <= k < 4 ==> r[k].identifier == k + 1 && r[k].position == r[k].name
    ensures r[0].name == HdmiName(hdmi.input1, 1) && r[1].name == HdmiName(hdmi.input2, 2)
    ensures r[2].name == HdmiName(hdmi.input3, 3) && r[3].name == HdmiName(hdmi.input4, 4)
  {
    var names := [HdmiName(hdmi.input1, 1), HdmiName(hdmi.input2, 2), HdmiName(hdmi.input3, 3), HdmiName(hdmi.input4, 4)];
    seq(4, k requires 0 <= k < 4 => InputSource(names[k], names[k], k + 1))
  }
}
