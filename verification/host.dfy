/** The accessory host's side of a service: the characteristics the core reads
    its "current value" from and pushes derived values to. */
module Host {
  import opened Js

  datatype CharKind = On | Active | Brightness | ActiveIdentifier

  /** One `updateCharacteristic(characteristic, value)` call on `target`. */
  datatype Push<T> = Push(target: T, characteristic: CharKind, value: CharValue)

  /** The last value of each characteristic a service may carry. */
  datatype Chars = Chars(on: CharValue, active: CharValue, brightness: CharValue, activeIdentifier: CharValue)

  function Read(c: Chars, k: CharKind): CharValue {
    match k
    case On => c.on
    case Active => c.active
    case Brightness => c.brightness
    case ActiveIdentifier => c.activeIdentifier
  }

  /** Storing a value changes that characteristic and no other. */
  function Write(c: Chars, k: CharKind, v: CharValue): (d: Chars)
    ensures Read(d, k) == v
    ensures forall j :: j != k ==> Read(d, j) == Read(c, j)
  {
    match k
    case On => c.(on := v)
    case Active => c.(active := v)
    case Brightness => c.(brightness := v)
    case ActiveIdentifier => c.(activeIdentifier := v)
  }

  /** The store after a sequence of pushes, applied in order. */
  function WriteAll(c: Chars, pushes: seq<(CharKind, CharValue)>): Chars
    decreases |pushes|
  {
    if |pushes| == 0 then c else WriteAll(Write(c, pushes[0].0, pushes[0].1), pushes[1..])
  }
}
