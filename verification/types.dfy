// The scalar types of groundhog/types.py, and the option type the sources write as `| None`.
module Types {
  /** A node, or the client, which is 0. */
  type NodeId = nat

  type Term = nat

  /** Virtual time. */
  type Tick = nat

  /** Position in a log, counted from 1; 0 stands for the empty prefix. */
  type Index = nat

  type byte = b: int | 0 <= b < 256

  /** Text is held as its UTF-8 bytes. */
  type Text = seq<byte>

  datatype Option<+T> = None | Some(value: T)

  datatype Error = DiskError | ValueError | IndexError | RuntimeError

  /** How a call that may raise ends. */
  datatype Status = Ok | Raised(error: Error) {
    predicate IsFailure() {
      Raised?
    }

    function PropagateFailure(): Status
      requires Raised?
    {
      this
    }
  }

  /** `dict.get(key, default)`. */
  function Get<K, V>(m: map<K, V>, key: K, default: V): V {
    if key in m then m[key] else default
  }

  /** `dict.fromkeys(keys, value)`. */
  function FromKeys<K(!new), V>(keys: seq<K>, value: V): (m: map<K, V>)
    ensures forall k :: k in m <==> k in keys
    ensures forall k :: k in m ==> m[k] == value
  {
    if keys == [] then map[] else FromKeys(keys[1..], value)[keys[0] := value]
  }

  function SetOf<T>(items: seq<T>): set<T> {
    set item | item in items
  }

  function Min(a: int, b: int): int { if a <= b then a else b }

  function Max(a: int, b: int): int { if a <= b then b else a }
}
