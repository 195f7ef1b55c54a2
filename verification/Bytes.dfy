/** Bytes, options and the few sequence facts the models share. */
module Bytes {

  type Byte = b: nat | b < 256

  const NEWLINE: Byte := 10

  datatype Option<+T> = None | Some(value: T)

  /** The position of the first newline of `bytes`, or `|bytes|` when it has none. */
  function FirstNewline(bytes: seq<Byte>): (n: nat)
    ensures n <= |bytes|
    ensures forall i :: 0 <= i < n ==> bytes[i] != NEWLINE
    ensures n < |bytes| ==> bytes[n] == NEWLINE
  {
    if bytes == [] || bytes[0] == NEWLINE then 0
    else
      var n := FirstNewline(bytes[1..]);
      assert forall i :: 1 <= i < n + 1 ==> bytes[i] == bytes[1..][i - 1];
      n + 1
  }

  /** All parts, one after the other. */
  function Flatten<T>(parts: seq<seq<T>>): seq<T> {
    if parts == [] then [] else parts[0] + Flatten(parts[1..])
  }

  lemma Associate<T>(a: seq<T>, b: seq<T>, c: seq<T>)
    ensures a + b + c == a + (b + c)
  {
  }

  lemma {:induction false} FlattenAppend<T>(a: seq<seq<T>>, b: seq<seq<T>>)
    ensures Flatten(a + b) == Flatten(a) + Flatten(b)
  {
    if a == [] {
      assert a + b == b;
    } else {
      FlattenAppend(a[1..], b);
      assert (a + b)[1..] == a[1..] + b;
      Associate(a[0], Flatten(a[1..]), Flatten(b));
    }
  }

  lemma FlattenLast<T>(parts: seq<seq<T>>, part: seq<T>)
    ensures Flatten(parts + [part]) == Flatten(parts) + part
  {
    FlattenAppend(parts, [part]);
    assert Flatten([part]) == part + Flatten([]);
  }
}
