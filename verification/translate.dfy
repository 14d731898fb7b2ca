/** The mapping functions both copies of the accessory code share: effective
    mode, on-mode resolution, the on/off toggle decision, brightness
    conversions, the positional entertainment-group lookups, and the
    error-swallowing write. */
module Translate {
  import opened Optional
  import opened Js
  import opened SyncState

  /** `getMode`: the mode whose intensity the intensity controls act on. */
  function EffectiveMode(e: Execution): (m: Mode)
    ensures IsSyncMode(e.mode) ==> m == e.mode
    ensures !IsSyncMode(e.mode) ==> m == e.lastSyncMode.GetOr(Video)
    ensures (e.lastSyncMode.None? || IsSyncMode(e.lastSyncMode.value)) ==> IsSyncMode(m)
  {
    if IsSyncMode(e.mode) then e.mode
    else if e.lastSyncMode.Some? then e.lastSyncMode.value
    else Video
  }

  /** The mode a "turn on" writes: `defaultOnMode`, with the sentinel
      `lastSyncMode` resolved to the device's last sync mode or `video`. */
  function ResolveOnMode(cfg: Config, e: Execution): (m: Mode)
    ensures cfg.defaultOnMode.FixedOnMode? ==> m == cfg.defaultOnMode.mode
    ensures cfg.defaultOnMode.LastSyncMode? ==> m == e.lastSyncMode.GetOr(Video)
    ensures cfg.defaultOnMode.LastSyncMode? && (e.lastSyncMode.None? || IsSyncMode(e.lastSyncMode.value))
            ==> IsSyncMode(m)
  {
    match cfg.defaultOnMode
    case FixedOnMode(mode) => mode
    case LastSyncMode => e.lastSyncMode.GetOr(Video)
  }

  /** `updateMode(currentVal, newValue)`: nothing when the requested value is
      strictly equal to the current one; otherwise one `{mode}` write, the
      resolved on-mode for a truthy value and `defaultOffMode` for a falsy one. */
  function UpdateMode(cfg: Config, e: Execution, current: CharValue, value: CharValue): (w: Option<ExecutionUpdate>)
    ensures w.None? <==> StrictEquals(current, value)
    ensures w.Some? ==> w.value.ModeUpdate?
    ensures w.Some? && Truthy(value) ==> w.value.mode == ResolveOnMode(cfg, e)
    ensures w.Some? && !Truthy(value) ==> w.value.mode == cfg.defaultOffMode
  {
    if StrictEquals(current, value) then None
    else if Truthy(value) then Some(ModeUpdate(ResolveOnMode(cfg, e)))
    else Some(ModeUpdate(cfg.defaultOffMode))
  }

  /** `NaN` is never strictly equal to itself, so a toggle from `NaN` to `NaN`
      writes, and since `NaN` is falsy it writes the off-mode. */
  lemma NaNToggleWrites(cfg: Config, e: Execution)
    ensures UpdateMode(cfg, e, NotANumber, NotANumber) == Some(ModeUpdate(cfg.defaultOffMode))
  {
  }

  /** A configuration whose on-mode is a running sync mode in state `e` and
      whose off-mode is not. */
  predicate SaneModes(cfg: Config, e: Execution) {
    IsSyncMode(ResolveOnMode(cfg, e)) && !IsSyncMode(cfg.defaultOffMode)
  }

  /** With sane modes, a toggle that writes is confirmed by the next poll: the
      On characteristic derived from the updated snapshot is the requested
      value's truthiness. */
  lemma ToggleThenPoll(cfg: Config, s: State, current: CharValue, value: CharValue)
    requires SaneModes(cfg, s.execution)
    requires !StrictEquals(current, value)
    ensures UpdateMode(cfg, s.execution, current, value).Some?
    ensures IsSyncMode(Apply(s, ExecutionPut(UpdateMode(cfg, s.execution, current, value).value)).execution.mode)
            == Truthy(value)
  {
  }

  // ---------------------------------------------------------------------
  // Brightness

  /** The odd brightnesses in 0..200 whose quotient `b / 200` in double
      precision lies just below the exact half step, so that
      `Math.round(b / 200 * 100)` rounds them down. */
  const RoundedDown: set<int> := {29, 57, 113, 115}

  /** The Brightness percentage shown for a device brightness:
      `Math.round(b / 200 * 100)` in double precision. That is `b / 2`
      rounded half up, except at the brightnesses of `RoundedDown`, where the
      double arithmetic rounds down. */
  function BrightnessToPercent(b: int): (p: int)
    ensures b in RoundedDown ==> p == b / 2
    ensures b !in RoundedDown ==> p == (b + 1) / 2
    ensures b / 2 <= p <= (b + 1) / 2
    ensures ValidBrightness(b) ==> 0 <= p <= 100
  {
    if b in RoundedDown then b / 2 else Round(b as real / 200.0 * 100.0)
  }

  /** The device brightness written for a percentage:
      `Math.round(p / 100 * 200)`, which is exactly `2 * p`. The percentage is
      not clamped. */
  function PercentToBrightness(p: int): (b: int)
    ensures b == 2 * p
    ensures 0 <= p <= 100 ==> ValidBrightness(b)
  {
    Round(p as real / 100.0 * 200.0)
  }

  /** A percentage written and read back is the same percentage. */
  lemma PercentRoundTrip(p: int)
    ensures BrightnessToPercent(PercentToBrightness(p)) == p
  {
  }

  /** A brightness shown as a percentage and written back moves by at most one
      step, down only at the brightnesses of `RoundedDown`, and never leaves
      0..200. */
  lemma BrightnessRoundTrip(b: int)
    requires ValidBrightness(b)
    ensures b - 1 <= PercentToBrightness(BrightnessToPercent(b)) <= b + 1
    ensures PercentToBrightness(BrightnessToPercent(b)) < b <==> b in RoundedDown
    ensures ValidBrightness(PercentToBrightness(BrightnessToPercent(b)))
  {
  }

  /** The shown percentage never decreases as the brightness grows. */
  lemma PercentMonotonic(b1: int, b2: int)
    requires b1 <= b2
    ensures BrightnessToPercent(b1) <= BrightnessToPercent(b2)
  {
  }

  // ---------------------------------------------------------------------
  // Entertainment groups, by 1-based position in `hue.groups` order

  /** The id of the `value`-th group (1-based), as the ActiveIdentifier set
      handler's loop finds it; `None` when no group has that position. */
  function GroupIdAt(groups: seq<Group>, value: int): (r: Option<string>)
    ensures 1 <= value <= |groups| ==> r == Some(groups[value - 1].id)
    ensures !(1 <= value <= |groups|) ==> r.None?
    decreases |groups|
  {
    if |groups| == 0 then None
    else if value == 1 then Some(groups[0].id)
    else if value < 1 then None
    else GroupIdAt(groups[1..], value - 1)
  }

  /** The 1-based position of the first group with id `id`, as `updateTv`'s
      loop computes it; `|groups| + 1` when no group has that id. */
  function GroupIndexOf(groups: seq<Group>, id: string): (index: int)
    ensures 1 <= index <= |groups| + 1
    ensures index <= |groups| ==> groups[index - 1].id == id
    ensures forall k :: 0 <= k < index - 1 ==> groups[k].id != id
    decreases |groups|
  {
    if |groups| == 0 then 1
    else if groups[0].id == id then 1
    else 1 + GroupIndexOf(groups[1..], id)
  }

  /** The index derived for a present group resolves back to that group. */
  lemma GroupIndexRoundTrip(groups: seq<Group>, id: string)
    requires exists k :: 0 <= k < |groups| && groups[k].id == id
    ensures GroupIndexOf(groups, id) <= |groups|
    ensures GroupIdAt(groups, GroupIndexOf(groups, id)) == Some(id)
  {
  }

  /** With distinct ids, every valid index is the index of the group it
      resolves to. */
  lemma GroupIdRoundTrip(groups: seq<Group>, index: int)
    requires DistinctIds(groups)
    requires 1 <= index <= |groups|
    ensures GroupIndexOf(groups, groups[index - 1].id) == index
  {
  }

  // ---------------------------------------------------------------------
  // Writes

  /** How the device client's request ended: success, or the error it throws
      (a non-2xx status or a network failure). */
  datatype Reply = Delivered | Failed(reason: string)

  /** What a handler leaves behind: the writes it sent and the failure notes
      it logged (its other debug lines are not kept). It has no failure
      variant: the handlers always resolve. */
  datatype Completion = Completion(sent: seq<Payload>, logged: seq<string>)

  /** `try { await client.update…(body) } catch (e) { log.debug(note, e) }`:
      at most one write is sent, a failure is logged and never reaches the
      caller, and no write means no log line. */
  function Settle(write: Option<Payload>, reply: Reply, note: string): (c: Completion)
    ensures write.None? ==> c.sent == [] && c.logged == []
    ensures write.Some? ==> c.sent == [write.value]
    ensures |c.logged| <= 1
    ensures |c.logged| == 1 <==> write.Some? && reply.Failed?
  {
    match write
    case None => Completion([], [])
    case Some(p) => if reply.Failed? then Completion([p], [note]) else Completion([p], [])
  }
}
