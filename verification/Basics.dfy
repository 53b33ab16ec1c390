/** Bytes, optional values, results and the big-endian integers every wire format here uses. */
module Basics {
  newtype byte = x: int | 0 <= x < 256

  type Bytes = seq<byte>

  datatype Option<+T> = None | Some(value: T)

  datatype Result<+T, +E> = Ok(value: T) | Err(error: E)

  /** `u16::to_be_bytes`. */
  function U16Bytes(n: nat): (b: Bytes)
    requires n < 0x1_0000
    ensures |b| == 2 && U16(b) == n
  {
    [(n / 256) as byte, (n % 256) as byte]
  }

  /** `u16::from_be_bytes` of the first two bytes. */
  function U16(b: Bytes): (n: nat)
    requires |b| >= 2
    ensures n < 0x1_0000
  {
    b[0] as nat * 256 + b[1] as nat
  }

  /** Big-endian decoding loses nothing: the two bytes can be recovered. */
  lemma U16Inverse(b: Bytes)
    requires |b| == 2
    ensures U16Bytes(U16(b)) == b
  {
    var n := U16(b);
    assert n / 256 == b[0] as nat && n % 256 == b[1] as nat;
  }

  /** The bytes of an ASCII string. */
  function Ascii(s: string): (b: Bytes)
    ensures |b| == |s|
  {
    seq(|s|, i requires 0 <= i < |s| => (s[i] as int % 256) as byte)
  }

  /** One result per element, in order. */
  function Each<T, U>(f: T -> U, items: seq<T>): (r: seq<U>)
    ensures |r| == |items| && forall i :: 0 <= i < |items| ==> r[i] == f(items[i])
  {
    if items == [] then [] else [f(items[0])] + Each(f, items[1..])
  }

  /** Concatenation of a list of byte strings. */
  function Flatten(parts: seq<Bytes>): Bytes {
    if parts == [] then [] else parts[0] + Flatten(parts[1..])
  }

  lemma {:induction false} FlattenAppend(a: seq<Bytes>, b: seq<Bytes>)
    ensures Flatten(a + b) == Flatten(a) + Flatten(b)
  {
    if a == [] {
      assert a + b == b;
    } else {
      FlattenAppend(a[1..], b);
      assert (a + b)[1..] == a[1..] + b;
      assert Flatten(a + b) == a[0] + (Flatten(a[1..]) + Flatten(b));
    }
  }

  lemma {:induction false} SubsetSize<T>(a: set<T>, b: set<T>)
    requires a <= b
    ensures |a| <= |b|
  {
    if a != {} {
      var x :| x in a;
      SubsetSize(a - {x}, b - {x});
    }
  }
}
