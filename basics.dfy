/** Small building blocks shared by the save store and the inspector helpers:
    optional values (a C# reference that may be null), the exceptions the
    modelled code lets escape, and a first-index search over a sequence. */
module Basics {

  /** A value that may be absent; `None` stands for a C# `null`. */
  datatype Option<+T> = None | Some(value: T)

  /** The runtime exceptions the modelled C# code raises and does not catch. */
  datatype Failure =
    | NullReference       // a member access through a null reference
    | ArgumentOutOfRange  // a List<T> indexer with an index at or beyond Count (ArgumentOutOfRangeException)
    | InvalidJson         // JsonUtility.FromJson rejecting its input text

  /** Either the value a call returns or the exception it throws. */
  datatype Outcome<+T> = Ok(value: T) | Crash(failure: Failure)

  /** The index of the first occurrence of `x` in `s`, or -1 when there is
      none, as `List<T>.IndexOf` and `System.Array.IndexOf` compute it. */
  function IndexOf<T(==)>(s: seq<T>, x: T): (i: int)
    ensures -1 <= i < |s|
    ensures i < 0 <==> x !in s
    ensures 0 <= i ==> s[i] == x && x !in s[..i]
  {
    if |s| == 0 then -1
    else if s[0] == x then 0
    else
      var k := IndexOf(s[1..], x);
      if k < 0 then -1 else k + 1
  }
}
