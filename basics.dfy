/** Option and Result: the model's stand-ins for Go's nil pointers and (value, error) pairs. */
module Basics {

  /** A Go pointer or optional value: None is nil. */
  datatype Option<+T> = None | Some(value: T)

  /** A Go (value, error) pair where exactly one side matters: Err carries err.Error(). */
  datatype Result<+T> = Ok(value: T) | Err(msg: string)

  /** Concatenation regroups freely; the accumulator proofs use this to move text between parts. */
  lemma AppendAssociative<T>(a: seq<T>, b: seq<T>, c: seq<T>)
    ensures (a + b) + c == a + (b + c)
  {
  }
}
