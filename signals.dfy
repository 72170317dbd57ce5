/** Signals and orders are plain Python dictionaries with string keys. Dictionary
    equality compares values, and ints compare equal to the floats of the same value,
    so a dictionary is modelled as a map and every numeric value as a real. */
module Signals {
  import opened Wrappers
  import opened DataLoader

  datatype Value = Text(text: string) | Number(number: real) | Time(at: Timestamp)

  type Signal = map<string, Value>

  /** `d.get(key, default)`. */
  function Get(d: Signal, key: string, default: Value): Value {
    if key in d then d[key] else default
  }

  /** Absolute value of a real, as Python's `abs`. */
  function Abs(x: real): (r: real)
    ensures r >= 0.0 && (r == x || r == -x)
  {
    if x < 0.0 then -x else x
  }

  /** `abs(signal.get("size", 1)) * signal.get("price", 0.0)`. The Python expression raises
      a TypeError unless both values are numbers; that case is `None`. */
  function Notional(signal: Signal): Option<real> {
    var size := Get(signal, "size", Number(1.0));
    var price := Get(signal, "price", Number(0.0));
    if size.Number? && price.Number? then Some(Abs(size.number) * price.number) else None
  }
}
