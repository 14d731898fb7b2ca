/** The four rank tables of the TV accessories: intensity <-> 1..4 and
    sync mode or passthrough <-> 1..4.

    Note on the source: every read of these tables is written `table[key]`,
    but the tables are JavaScript `Map` objects, whose entries are not
    properties, so such a read yields `undefined`. The model performs the
    evidently intended `table.get(key)` (`Get` below); the as-written reads
    are modelled separately in module `AsWritten`. */
module Tables {
  import opened Optional
  import opened SyncState

  const IntensityToNumber: map<Intensity, int> :=
    map[Subtle := 1, Moderate := 2, High := 3, Intense := 4]

  const NumberToIntensity: map<int, Intensity> :=
    map[1 := Subtle, 2 := Moderate, 3 := High, 4 := Intense]

  const ModeToNumber: map<Mode, int> :=
    map[Video := 1, Music := 2, Game := 3, Passthrough := 4]

  const NumberToMode: map<int, Mode> :=
    map[1 := Video, 2 := Music, 3 := Game, 4 := Passthrough]

  /** `Map.prototype.get`: `None` is `undefined`. */
  function Get<K, V>(m: map<K, V>, k: K): Option<V> {
    if k in m then Some(m[k]) else None
  }

  /** The rank of an intensity; every intensity has one. */
  function IntensityRank(i: Intensity): (r: int)
    ensures 1 <= r <= 4
    ensures Get(NumberToIntensity, r) == Some(i)
  {
    assert IntensityToNumber.Keys == {Subtle, Moderate, High, Intense};
    assert i == Subtle || i == Moderate || i == High || i == Intense;
    IntensityToNumber[i]
  }

  /** The intensity of a rank; only 1..4 have one. */
  function IntensityAt(n: int): (r: Option<Intensity>)
    ensures r.Some? <==> 1 <= n <= 4
    ensures r.Some? ==> IntensityRank(r.value) == n
  {
    Get(NumberToIntensity, n)
  }

  /** The rank of a mode; powersave has none. */
  function ModeRank(m: Mode): (r: Option<int>)
    ensures r.Some? <==> m != Powersave
    ensures r.Some? ==> 1 <= r.value <= 4 && Get(NumberToMode, r.value) == Some(m)
  {
    assert ModeToNumber.Keys == {Video, Music, Game, Passthrough};
    assert m == Video || m == Music || m == Game || m == Passthrough || m == Powersave;
    Get(ModeToNumber, m)
  }

  /** The mode of a rank; only 1..4 have one, and it is never powersave. */
  function ModeAt(n: int): (r: Option<Mode>)
    ensures r.Some? <==> 1 <= n <= 4
    ensures r.Some? ==> r.value != Powersave && ModeRank(r.value) == Some(n)
  {
    Get(NumberToMode, n)
  }

  /** `numberToIntensity` and `intensityToNumber` are mutually inverse
      bijections between the four intensities and 1..4. */
  lemma IntensityTablesInverse()
    ensures IntensityToNumber.Keys == {Subtle, Moderate, High, Intense}
    ensures NumberToIntensity.Keys == {1, 2, 3, 4}
    ensures forall i :: i in IntensityToNumber ==>
      IntensityToNumber[i] in NumberToIntensity && NumberToIntensity[IntensityToNumber[i]] == i
    ensures forall n :: n in NumberToIntensity ==>
      NumberToIntensity[n] in IntensityToNumber && IntensityToNumber[NumberToIntensity[n]] == n
  {
  }

  /** `numberToMode` and `modeToNumber` are mutually inverse bijections between
      video, music, game, passthrough and 1..4; powersave has no rank. */
  lemma ModeTablesInverse()
    ensures ModeToNumber.Keys == {Video, Music, Game, Passthrough}
    ensures Powersave !in ModeToNumber
    ensures NumberToMode.Keys == {1, 2, 3, 4}
    ensures forall m :: m in ModeToNumber ==>
      ModeToNumber[m] in NumberToMode && NumberToMode[ModeToNumber[m]] == m
    ensures forall n :: n in NumberToMode ==>
      NumberToMode[n] in ModeToNumber && ModeToNumber[NumberToMode[n]] == n
  {
  }
}
