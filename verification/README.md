# Sync Box bridge: state-to-accessory mapping and user-intent translation

This project models the part of the Philips Hue Sync Box bridge for Homebridge
that turns a polled device snapshot into HomeKit characteristic values, and
turns HomeKit user intents into partial-update writes to the box.

- **Read side.** Given a snapshot (`execution`, `hue`, `hdmi`), it derives:
  - On for light bulbs, switches and companion lights;
  - Active for the TV-style services;
  - the Brightness percentage;
  - the ActiveIdentifier of each TV kind: the HDMI input, the mode rank, the
    intensity rank, or the entertainment-group position.
- **Write side.** Each intent leads to at most one write:
  - intents are an on/off toggle, a brightness percentage, an ActiveIdentifier
    pick, or a remote-control key;
  - the write is an `execution` payload or a `hue` payload;
  - a failed write is logged and swallowed.

The logic exists twice in the source:
- the monolithic `src/device.ts`;
- the class hierarchy `src/accessories/` (base, TV base, mode TV,
  entertainment TV, switch).

The shared meaning is modelled once, and each copy has a thin adapter. The
modules are:
- `Js`: the JavaScript semantics the code relies on (strict equality,
  truthiness, `Math.round`, `parseInt`, first-occurrence `replace`).
- `SyncState`: the snapshot, the configuration and the payloads.
- `Tables`: the rank tables.
- `Translate`: effective mode, toggle decision, brightness conversions,
  group lookups, error swallowing.
- `Remote`: the remote-key handler.
- `Inputs`: the input sources.
- `Readout`: the read-side values.
- `Intents`: the ActiveIdentifier and Brightness set handlers.
- `Host`: the characteristic store.
- `Device`: the monolith.
- `BaseDevice`, `BaseTvDevice`, `ModeDevice`, `EntertainmentTvDevice`,
  `SwitchDevice`: the refactored classes.
- `AsWritten`: the source's behaviour where it departs from its evident
  intent; see "## Findings".

Assumptions the model makes:
- **Rank tables.** They are JS `Map`s, but the code reads them with
  brackets. The model uses the intended `Map.get` lookups everywhere except
  in `AsWritten`.
- **Device writes.** The device's reaction to a write is
  `SyncState.Apply`: only the written field changes, and a level for a
  non-sync mode or an empty body changes nothing. It is used only by the
  "write, then poll" lemmas.
- **Characteristic values.** They are `Js.CharValue`: `null`, `undefined`,
  `NaN`, a boolean or an integer. Strict equality is `Js.StrictEquals`:
  datatype equality, except that `NaN` is not equal to itself.

Notes on the source's behaviour:
- `setBrightness` does not clamp the percentage: 150 % writes brightness 300.
- Writes do not go through the rate limiter; the limiter only schedules one
  fetch.
- At powersave, the mode TV's ActiveIdentifier is pushed `undefined`
  (`src/device.ts:1133-1136`).
- The refactored TV classes never refresh Active after a poll. The base
  `update` pushes On to the Television service; `BaseTvDevice.Update`
  states that Active is unchanged.

## Model

| member | source | states |
|---|---|---|
| Tables.IntensityRank | src/device.ts:48-53 | every intensity has a rank in 1..4, and `numberToIntensity` maps that rank back to it |
| Tables.IntensityAt | src/device.ts:55-60 | a number has an intensity exactly when it is in 1..4, and that intensity's rank is the number |
| Tables.ModeRank | src/device.ts:62-67 | a mode has a rank exactly when it is not powersave; the rank is in 1..4 and `numberToMode` maps it back to the mode |
| Tables.ModeAt | src/device.ts:69-74 | a number has a mode exactly when it is in 1..4; that mode is never powersave and its rank is the number |
| Tables.IntensityTablesInverse | src/accessories/baseTv.ts:16-28 | the two intensity tables have keys {subtle..intense} and {1..4} and are inverse bijections in both directions |
| Tables.ModeTablesInverse | src/accessories/baseTv.ts:30-42 | the two mode tables are inverse bijections between {video, music, game, passthrough} and {1..4}; powersave has no rank |
| Translate.EffectiveMode | src/accessories/base.ts:149-160 | the running mode when it is a sync mode, else `lastSyncMode`, else video; never powersave or passthrough when `lastSyncMode` is a sync mode or unset |
| Translate.ResolveOnMode | src/accessories/base.ts:104-109 | a fixed `defaultOnMode` is used as is; the sentinel `lastSyncMode` resolves to the device's last sync mode or video, so it is a sync mode whenever `lastSyncMode` is unset or a sync mode |
| Translate.UpdateMode | src/accessories/base.ts:92-117 | no write exactly when the requested value strictly equals the current one (never for `NaN`); otherwise one `{mode}` write, the on-mode for a truthy value and `defaultOffMode` for a falsy one |
| Translate.NaNToggleWrites | src/accessories/base.ts:98-112 | a toggle from `NaN` to `NaN` is not skipped; it writes `defaultOffMode`, since `NaN` is falsy |
| Translate.ToggleThenPoll | src/accessories/base.ts:98-116 | with an on-mode that syncs and an off-mode that does not, a toggle that writes is shown by the next poll as the requested truthiness |
| Translate.BrightnessToPercent | src/accessories/baseTv.ts:243-246 | the shown percentage is the brightness halved and rounded half up, except at brightness 29, 57, 113 and 115, where double-precision arithmetic rounds down; always between `b / 2` and `(b + 1) / 2`, and within 0..100 for a valid brightness |
| Translate.PercentToBrightness | src/accessories/base.ts:127-132 | a percentage writes twice its value, within 0..200 for 0..100, with no clamping |
| Translate.PercentRoundTrip | src/device.ts:334-339 | a percentage written and read back is the same percentage |
| Translate.BrightnessRoundTrip | src/device.ts:1064-1067 | a brightness shown and written back moves by at most one step either way, down exactly at 29, 57, 113 and 115, and stays valid |
| Translate.PercentMonotonic | src/device.ts:1115-1118 | the shown percentage never decreases as the brightness grows |
| Translate.GroupIdAt | src/accessories/entertainmentTv.ts:25-36 | identifier v picks the id of the v-th group (1-based), and nothing outside 1..n |
| Translate.GroupIndexOf | src/accessories/entertainmentTv.ts:57-72 | the index is the 1-based position of the first group with the active id, and n+1 exactly when no group has it |
| Translate.GroupIndexRoundTrip | src/device.ts:1218-1231 | for an id that is present, the shown index resolves back to that id |
| Translate.GroupIdRoundTrip | src/device.ts:874-883 | with distinct ids, the group at every valid index has that index |
| Translate.Settle | src/accessories/base.ts:119-125 | at most one write is sent; a log line appears exactly when a write was sent and failed; nothing propagates |
| Remote.NextSource | src/device.ts:609-618 | `inputN` is followed by `input((N % 4) + 1)`; an unparsable source gives `inputNaN` |
| Remote.NextMode | src/device.ts:570-578 | from a ranked mode, SELECT writes the mode of rank `(r % 4) + 1`; from powersave it writes `{}` |
| Remote.StepIntensity | src/device.ts:530-568 | an arrow throws exactly when the effective mode has no level, writes nothing exactly past rank 1 or 4, and otherwise writes the neighbouring level under the effective mode |
| Remote.HandleRemoteKey | src/device.ts:511-620 | an arrow throws exactly when the effective mode is not a sync mode, and no other key throws; no write exactly for an unknown key, ARROW_LEFT at subtle or ARROW_RIGHT at intense |
| Remote.BrightnessKeysClamp | src/accessories/baseTv.ts:107-119 | ARROW_UP writes `min(200, b+50)` and ARROW_DOWN writes `max(0, b-50)`; both stay in 0..200 and move in the key's direction |
| Remote.IntensityKeysSaturate | src/accessories/baseTv.ts:121-159 | ARROW_LEFT at subtle and ARROW_RIGHT at intense write nothing; otherwise exactly the level one rank down or up, nested under the effective mode |
| Remote.IntensityUpThenDown | src/device.ts:530-568 | right then left, each confirmed by a poll, restores the level below the top and lands on high from intense; right at intense changes nothing |
| Remote.SelectCyclesModes | src/accessories/baseTv.ts:161-169 | SELECT steps video, music, game, passthrough, video; from powersave it writes `{}` |
| Remote.SelectFourTimes | src/device.ts:570-578 | four SELECT presses, each confirmed by a poll, return to the starting mode |
| Remote.PlayPauseToggles | src/accessories/baseTv.ts:171-198 | PLAY_PAUSE writes `defaultOffMode` while a sync mode runs, and otherwise the resolved on-mode, falling back to video |
| Remote.PlayPauseThenPoll | src/accessories/baseTv.ts:171-198 | with an on-mode that syncs and an off-mode that does not, PLAY_PAUSE confirmed by a poll flips whether a sync mode runs |
| Remote.InformationCycles | src/accessories/baseTv.ts:200-209 | INFORMATION from `inputN` writes `input((N % 4) + 1)` |
| Remote.InformationWraps | src/device.ts:609-618 | INFORMATION from `input4` writes `input1` |
| Inputs.Numbered | src/accessories/entertainmentTv.ts:109-124 | the k-th input carries the k-th name, the label `prefix first+k` and the identifier first+k, in order |
| Inputs.ModeInputs | src/accessories/modeTv.ts:31-42 | exactly four mode inputs, the k-th labelled `MODE k+1`, identified k+1 and named by the mode of rank k+1 |
| Inputs.ModeInputsMatchRanks | src/device.ts:432-443 | every ranked mode has an input whose identifier is its rank and whose name is the mode's name, and only such inputs |
| Inputs.IntensityInputsUpTo | src/device.ts:672-685 | the inputs `INTENSITY 1..last`, the k-th labelled `INTENSITY k+1`, identified k+1 and named by the intensity of rank k+1 |
| Inputs.IntensityInputs | src/device.ts:674-685 | one input per entry of `numberToIntensity`: each intensity's input sits at its rank and carries its name |
| Inputs.EntertainmentInputs | src/device.ts:841-857 | one input per group in group order, labelled `AREA k+1`, identified k+1 and named by the group |
| Inputs.HdmiName | src/device.ts:261-262 | the device's name for the input, or `HDMI n` when it has none |
| Inputs.HdmiInputs | src/device.ts:259-272 | four HDMI inputs identified 1..4, input i named by the device's name for it or `HDMI i`, the name doubling as the position label |
| Readout.HdmiIdentifier | src/device.ts:1094-1097 | for a source `inputN` the plain TV shows N |
| Readout.ModeIdentifier | src/device.ts:1133-1136 | the mode TV shows the running mode's rank in 1..4, and `undefined` at powersave |
| Readout.IntensityIdentifier | src/device.ts:1170-1184 | the read throws exactly when the effective mode is not a sync mode; otherwise the intensity TV shows that mode's level rank in 1..4 |
| Intents.BrightnessWrite | src/device.ts:334-339 | a percentage writes a brightness whose shown percentage is the same, valid for 0..100 |
| Intents.BrightnessThenPoll | src/device.ts:1060-1067 | a brightness percentage, once written and polled, is shown unchanged |
| Intents.SelectHdmi | src/device.ts:280-286 | picking input v writes a source whose position parses back to v |
| Intents.HdmiThenPoll | src/device.ts:1090-1097 | a picked HDMI input, once written and polled, is the plain TV's identifier |
| Intents.SelectMode | src/device.ts:451-459 | identifier v in 1..4 writes the mode of rank v; any other value writes `{}` |
| Intents.ModeRoundTrip | src/accessories/modeTv.ts:21-28 | picking a mode's rank writes exactly that mode, for every ranked mode |
| Intents.ModeThenPoll | src/device.ts:1131-1136 | a picked mode identifier, once written and polled, is the mode TV's identifier |
| Intents.SelectIntensity | src/device.ts:699-710 | identifier v in 1..4 writes the level of rank v under the effective mode; any other value writes the blank level |
| Intents.IntensityThenPoll | src/device.ts:1177-1184 | with a sync effective mode, a picked intensity identifier, once written and polled, is the intensity TV's identifier |
| Intents.SelectArea | src/device.ts:871-883 | a `hue` write happens exactly when v is a group position with a non-empty id, and it carries that id |
| Intents.SwitchArea | src/accessories/entertainmentTv.ts:37-54 | exactly the resolved `hue` write is sent, none for an unresolved index; a line is logged exactly when that write fails, naming the group, and the failure is swallowed |
| Intents.AreaIndexRoundTrip | src/accessories/entertainmentTv.ts:59-65 | the index shown for a listed, non-empty active group selects that group again |
| Intents.AreaThenPoll | src/device.ts:1218-1231 | with distinct ids, a picked area, once written and polled, is the entertainment TV's identifier |
| Device.SetServiceActive | src/device.ts:341-366 | the baseline is `Active \|\| On`; no write exactly when it strictly equals the request; otherwise the on-mode or `defaultOffMode` |
| Device.ServicesFor | src/device.ts:297 | the plain, mode, intensity and entertainment TVs each get a companion light exactly when the TV exists and its own light flag is set (lines 297, 465, 723, 915) |
| Device.BulbSegment | src/device.ts:1050-1068 | the light bulb, when present, gets an On and a Brightness push; every push goes to it and shows the derived On and percentage |
| Device.SwitchSegment | src/device.ts:1070-1079 | the switch, when present, gets its On pushed with the derived value |
| Device.TvSegment | src/device.ts:1081-1120 | the plain TV, when present, gets Active and its HDMI identifier pushed, and its companion light On and Brightness; every push shows the derived value |
| Device.ModeTvSegment | src/device.ts:1122-1159 | the mode TV, when present, gets Active and its mode rank pushed, and its companion light On and Brightness; every push shows the derived value |
| Device.IntensityTvSegment | src/device.ts:1161-1207 | with a sync effective mode, the intensity TV, when present, gets Active and its level rank pushed, and its companion light On and Brightness; every push shows the derived value |
| Device.EntertainmentTvSegment | src/device.ts:1209-1254 | the entertainment TV, when present, gets Active and its area index pushed, and its companion light On and Brightness; every push shows the derived value |
| Device.FrontSegments | src/device.ts:1050-1159 | every present light bulb, switch, plain TV and mode TV service gets its power characteristic and each characteristic it shows pushed, with the derived values |
| Device.BackSegments | src/device.ts:1161-1254 | when the intensity TV does not throw, every present intensity and entertainment TV service gets its power characteristic and each characteristic it shows pushed, with the derived values |
| Device.Update | src/device.ts:1045-1255 | a refresh throws exactly when the intensity TV is present and the effective mode has no level; every push goes to a present service and shows the derived value; the services before the intensity TV are always fully refreshed, and without a throw every present service gets its power, identifier and Brightness characteristics pushed |
| BaseDevice.Update | src/accessories/base.ts:134-143 | the snapshot is replaced wholesale, On shows whether a sync mode runs, and nothing else changes |
| BaseDevice.HandlePowerCharacteristicSet | src/accessories/base.ts:215-221 | the baseline is the service's Active: no write exactly when it strictly equals the request, otherwise the toggle's mode |
| BaseTvDevice.SetOnLightBulb | src/accessories/baseTv.ts:87-96 | nothing without a companion light; otherwise the light's On is the baseline of the toggle |
| BaseTvDevice.UpdatePushes | src/accessories/baseTv.ts:222-226 | the refresh pushes the base On first, then the identifier, then the companion light's On and percentage |
| BaseTvDevice.Update | src/accessories/baseTv.ts:230-247 | after a refresh, On and the identifier are the derived ones; the companion light shows the derived On and a percentage in 0..100; Active is untouched |
| ModeDevice.Update | src/accessories/modeTv.ts:60-67 | the mode TV shows an identifier whose mode is the running one, and `undefined` at powersave |
| ModeDevice.ShownModeSelectsItself | src/accessories/modeTv.ts:21-28 | the identifier the mode TV shows, picked again, writes the running mode |
| ModeDevice.SelectedModeIsShown | src/accessories/modeTv.ts:21-67 | a mode picked by identifier, once written and polled, is what the mode TV shows |
| ModeDevice.LightBulbAgreesWithDevice | src/accessories/modeTv.ts:56-58 | the mode TV accessory has a companion light under the same flag as the device class's mode TV |
| EntertainmentTvDevice.Update | src/accessories/entertainmentTv.ts:57-72 | the entertainment TV shows the active group's 1-based position, or n+1 exactly when the group is not listed |
| EntertainmentTvDevice.ShownAreaSelectsItself | src/accessories/entertainmentTv.ts:25-41 | the identifier shown for a listed, non-empty active group selects that group |
| EntertainmentTvDevice.SelectedAreaIsShown | src/accessories/entertainmentTv.ts:44-72 | with distinct ids, a picked area, once written and polled, is what the entertainment TV shows |
| EntertainmentTvDevice.InputSelectsItsGroup | src/accessories/entertainmentTv.ts:109-124 | each area input's identifier is distinct from the others and, picked, selects that input's group |
| EntertainmentTvDevice.LightBulbAgreesWithDevice | src/device.ts:915 | the entertainment TV accessory has a companion light under the same flag as the device class's entertainment TV |
| SwitchDevice.SetOn | src/accessories/switch.ts:98-104 | the baseline is the switch's On: no write exactly when it strictly equals the request, otherwise the toggle's mode |
| SwitchDevice.SwitchFollowsPoll | src/accessories/switch.ts:83-104 | right after a refresh, switching to the shown state writes nothing, and switching to the other state writes a mode the next refresh shows as requested |
| AsWritten.StepIntensity | src/accessories/baseTv.ts:121-159 | as written, an arrow either throws or writes `{[mode]: {}}`; it never skips |
| AsWritten.HandleRemoteKey | src/accessories/baseTv.ts:102-211 | as written, SELECT writes `{}` and the arrows write empty levels; the other keys match `Remote.HandleRemoteKey` |
| AsWritten.RemoteKeysAsWritten | src/device.ts:530-578 | as written, SELECT and the arrows never change a syncing device, ARROW_RIGHT at intense still writes, and the corrected SELECT changes the mode |
| AsWritten.ModeIdentifier | src/accessories/modeTv.ts:60-67 | as written, the mode TV always shows `undefined` |
| AsWritten.SelectMode | src/accessories/modeTv.ts:21-28 | as written, every mode pick writes `{}` |
| AsWritten.ModeTvAsWritten | src/device.ts:451-459 | as written, a mode pick leaves the device unchanged; the corrected pick is shown after a poll |
| AsWritten.IntensityPushes | src/device.ts:1177-1184 | as written, the refresh throws for a non-sync effective mode and otherwise pushes no intensity identifier |
| AsWritten.SelectIntensity | src/device.ts:699-710 | as written, every intensity pick writes the blank level |
| AsWritten.IntensityTvAsWritten | src/device.ts:703-709 | as written, an intensity pick leaves the device unchanged and nothing is shown; the corrected pick is shown after a poll |
| AsWritten.IntensityInputs | src/device.ts:672-685 | as written, three intensity inputs are registered, one fewer than the table has |
| AsWritten.IntenseHasNoInput | src/device.ts:674 | as written, no input carries intense's rank; the corrected list has it at rank 4 |
| AsWritten.EntertainmentLightBulbEnabled | src/accessories/entertainmentTv.ts:105-107 | as written, the entertainment TV's companion light follows the intensity TV's flag |
| AsWritten.LightBulbFlagCrossed | src/accessories/entertainmentTv.ts:106 | as written, enabling the entertainment light with the intensity light off gives no light, while the device class and the corrected flag give one |
| AsWritten.InputIdentifier | src/accessories/base.ts:189-193 | as written, an input's identifier is the digit its label ends in, and none when the label ends in another character |
| AsWritten.IdentifierCollision | src/device.ts:786-790 | as written, `AREA 11` gets the same identifier as `AREA 1`, `AREA 10` gets 0 and `Apple TV` gets none, while the corrected identifiers are 1, 10 and 11 |

## Left out

- HTTP clients (`src/client.ts`, `src/lib/client.ts`, `src/lib/philips-hue-sync-box-client.ts`): network I/O. A write is a `Payload` value, and its outcome is a `Translate.Reply` parameter.
- API server (`src/api-server.ts`), `src/index.ts`, `src/settings.ts`: I/O and registration plumbing.
- Accessory registration and service wiring: `init`, the `get*Accessory` and `handle*` methods, the constructors of the accessory classes, `getTvService` and the ConfiguredName callbacks. This is host-framework boilerplate. In that wiring, `src/device.ts:463` registers the mode TV's remote-key handler without binding `this`; it is not modelled.
- `getInputService` beyond its Identifier, and `setVisibility` and `updateSources`: they only copy cosmetic characteristics.
- The rate limiter and poll scheduling (`src/platform.ts:52-55`, `src/platform.ts:74-77`): concurrency and timing in a library whose code is not shown.
- The configuration interface (`src/lib/config.ts`): type declarations only. `defaultOnMode`, `defaultOffMode` and the light flags are fields of `SyncState.Config`.
- Device identity, firmware and serial characteristics, and the accessory categories: constant metadata.
- Translate.BrightnessToPercent: lists the four brightnesses in 0..200 at which the double-precision quotient rounds down (29, 57, 113 and 115). Outside 0..200 there are further such values (for example -7, 201, 203 and 205); they are not listed, and there the model rounds half up. `Translate.PercentToBrightness` has no such case, because `p / 100 * 200` rounds to `2 * p`.
- Debug logging: the handlers' debug lines (for example `src/device.ts:353`, `src/device.ts:359`, `src/accessories/baseTv.ts:240`) are not modelled. `Translate.Completion` keeps only the note logged for a failed write.
- `parseInt` is modelled for text that starts with decimal digits, and `NaN` otherwise. Leading whitespace, signs and `0x` prefixes are not modelled, because `hdmiSource` is always `inputN`.
- The host's coercion of a written value to the characteristic's format is not modelled. Values are stored as written.
- Device bookkeeping of `lastSyncMode`: `SyncState.Apply` does not update it, since the device's own rules are not part of this model.
- `EntertainmentTvDevice` re-declares `setOn` and `setOnLightBulb` (`src/accessories/entertainmentTv.ts:74-91`) with the same code as the base handlers; they are modelled by `BaseDevice.HandlePowerCharacteristicSet` and `BaseTvDevice.SetOnLightBulb`. `SwitchDevice.update` (`src/accessories/switch.ts:83-92`) has the same code as `BaseDevice.Update`, which models it.
- Device.Update: does not state the order of the pushes, only which characteristics are pushed and what they show.
- Inputs.ModeInputs: names the inputs by the mode at each rank. As written, `numberToMode[i]` (`src/device.ts:434`, `src/accessories/modeTv.ts:35`) reads `undefined` and the inputs get no name; this is the same bracket-read cause as the first finding.
- Inputs.IntensityInputs: names the inputs by the intensity at each rank. As written, `numberToIntensity[i]` (`src/device.ts:678`) reads `undefined` as well.
- Inputs.HdmiInputs: identifies the k-th HDMI input k. As written, the identifier is the last character of the input's name (see `AsWritten.InputIdentifier`).

## Findings

| source | as written | input that shows it | evidently intended | confidence | as-written member | corrected member |
|---|---|---|---|---|---|---|
| src/accessories/baseTv.ts:126-166 | the remote-key handler reads the rank `Map`s with brackets, which gives `undefined` | mode video, level intense, ARROW_RIGHT writes `{video: {}}` instead of nothing; SELECT in video writes `{}` instead of `{mode: 'music'}` | `intensityToNumber.get(...)` and the other `Map.get` lookups | not executed | AsWritten.RemoteKeysAsWritten | Remote.HandleRemoteKey |
| src/accessories/modeTv.ts:23-65 | the mode TV reads `numberToMode[value]` and `modeToNumber[mode]` with brackets | picking identifier 2 writes `{}`; in mode music the mode TV shows `undefined` | `numberToMode.get(value)` and `modeToNumber.get(mode)` | not executed | AsWritten.ModeTvAsWritten | ModeDevice.SelectedModeIsShown |
| src/device.ts:703 | the intensity TV reads `numberToIntensity[value]`, and its refresh (`src/device.ts:1177-1184`) reads `intensityToNumber[intensity]`, with brackets | picking identifier 3 writes the blank level, and a poll never refreshes the identifier | `numberToIntensity.get(value)` and `intensityToNumber.get(intensity)` | not executed | AsWritten.IntensityTvAsWritten | Intents.IntensityThenPoll |
| src/device.ts:674 | the intensity input loop runs `i < size`, which registers three inputs | the table has four entries and no input carries rank 4 (intense) | `i <= size`: one input per level | not executed | AsWritten.IntenseHasNoInput | Inputs.IntensityInputs |
| src/accessories/entertainmentTv.ts:105-107 | `isLightBulbEnabled` returns the intensity TV's flag | `entertainmentTvAccessoryLightbulb: true`, `intensityTvAccessoryLightbulb: false` gives no companion light | return `entertainmentTvAccessoryLightbulb` | not executed | AsWritten.LightBulbFlagCrossed | EntertainmentTvDevice.LightBulbAgreesWithDevice |
| src/accessories/base.ts:189-193 | an input's Identifier is the last character of its position label | with 11 areas, `AREA 11` and `AREA 1` share identifier 1 and `AREA 10` gets 0; an HDMI input named `Apple TV` gets `V` | the 1-based position that ActiveIdentifier uses | not executed | AsWritten.IdentifierCollision | EntertainmentTvDevice.InputSelectsItsGroup |
