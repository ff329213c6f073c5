/**
 * Shared vocabulary: optional values, results that carry a Python exception,
 * and the concatenation of a sequence of sequences.
 */
module Common {

  datatype Option<+T> = None | Some(value: T)

  datatype Result<+T, +E> = Ok(value: T) | Err(error: E)

  /** The Python exceptions that the modelled code raises or lets escape. */
  datatype Exception =
    | ValueError(message: string)
    | KeyError(key: string)
    | AttributeError
    | InvalidToken
    | JSONDecodeError
    | UnboundLocalError

  /** The concatenation of `ss`, in order (defined from the right, as loops extend it). */
  function Flatten<T>(ss: seq<seq<T>>): seq<T>
  {
    if ss == [] then [] else Flatten(ss[..|ss| - 1]) + ss[|ss| - 1]
  }

  lemma {:induction false} FlattenAppend<T>(a: seq<seq<T>>, b: seq<seq<T>>)
    ensures Flatten(a + b) == Flatten(a) + Flatten(b)
    decreases |b|
  {
    if b == [] {
      assert a + b == a;
    } else {
      var init := b[..|b| - 1];
      var ab := a + b;
      assert ab[..|ab| - 1] == a + init;
      assert ab[|ab| - 1] == b[|b| - 1];
      FlattenAppend(a, init);
    }
  }

  /** Splitting a sequence of sequences at `b`, then at `a`, and concatenating. */
  lemma FlattenSplit<T>(ss: seq<seq<T>>, a: nat, b: nat)
    requires a <= b <= |ss|
    ensures Flatten(ss[..b]) == Flatten(ss[..a]) + Flatten(ss[a..b])
  {
    assert ss[..b] == ss[..a] + ss[a..b];
    FlattenAppend(ss[..a], ss[a..b]);
  }

  function Min(a: int, b: int): int
  {
    if a <= b then a else b
  }
}
