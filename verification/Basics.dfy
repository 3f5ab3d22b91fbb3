/** Bytes, machine integers, errors and the small sequence facts the other modules share. */
module Basics {

  type byte = b: int | 0 <= b < 0x100
  type u16 = n: int | 0 <= n < 0x1_0000
  type u32 = n: int | 0 <= n < 0x1_0000_0000

  datatype Option<+T> = None | Some(value: T)

  /** Error kinds of the stack. `ShortWrite` is the `InvalidData` error of a
      truncated link write; it is kept apart because the controller treats it as
      a link error and the session layer does not. */
  datatype Error = Io | ShortWrite | InvalidProperty | InvalidData

  datatype Result<+T> = Ok(value: T) | Err(error: Error) {
    predicate IsFailure() {
      Err?
    }

    function PropagateFailure<U>(): Result<U>
      requires Err?
    {
      Err(error)
    }

    function Extract(): T
      requires Ok?
    {
      value
    }
  }

  /** The errors that make the controller recover the link. */
  predicate IsLinkError(e: Error) {
    e == Io || e == ShortWrite
  }

  /** No link error. */
  predicate Uncut<T>(r: Result<T>) {
    r.Err? ==> !IsLinkError(r.error)
  }

  /** Big-endian coding of a 16-bit value. */
  function BigEndian(n: u16): (s: seq<byte>)
    ensures |s| == 2
  {
    [n / 0x100, n % 0x100]
  }

  function ReadU16(data: seq<byte>): u16
    requires |data| == 2
  {
    0x100 * (data[0] as int) + data[1]
  }

  function BigEndian32(n: u32): (s: seq<byte>)
    ensures |s| == 4
  {
    BigEndian(n / 0x1_0000) + BigEndian(n % 0x1_0000)
  }

  function ReadU32(data: seq<byte>): u32
    requires |data| == 4
  {
    0x1_0000 * (ReadU16(data[..2]) as int) + ReadU16(data[2..])
  }

  lemma ReadU16Inverse(n: u16, data: seq<byte>)
    requires |data| == 2
    ensures ReadU16(BigEndian(n)) == n
    ensures BigEndian(ReadU16(data)) == data
  {
    var m := ReadU16(data);
    assert m / 0x100 == data[0] && m % 0x100 == data[1];
    assert BigEndian(m) == [data[0], data[1]] == data;
  }

  lemma ReadU32Inverse(n: u32, data: seq<byte>)
    requires |data| == 4
    ensures ReadU32(BigEndian32(n)) == n
    ensures BigEndian32(ReadU32(data)) == data
  {
    ReadU16Inverse(n / 0x1_0000, data[..2]);
    ReadU16Inverse(n % 0x1_0000, data[2..]);
    assert BigEndian32(n)[..2] == BigEndian(n / 0x1_0000);
    assert BigEndian32(n)[2..] == BigEndian(n % 0x1_0000);
    assert data[..2] + data[2..] == data;
  }

  /** Concatenation of a list of byte strings. */
  function Flatten<T>(parts: seq<seq<T>>): seq<T> {
    if parts == [] then [] else parts[0] + Flatten(parts[1..])
  }

  lemma {:induction false} FlattenAppend<T>(a: seq<seq<T>>, b: seq<seq<T>>)
    ensures Flatten(a + b) == Flatten(a) + Flatten(b)
  {
    if a == [] {
      assert a + b == b;
    } else {
      assert (a + b)[0] == a[0] && (a + b)[1..] == a[1..] + b;
      FlattenAppend(a[1..], b);
    }
  }

  lemma FlattenOne<T>(a: seq<seq<T>>, x: seq<T>)
    ensures Flatten(a + [x]) == Flatten(a) + x
  {
    FlattenAppend(a, [x]);
    assert Flatten([x]) == x + Flatten<T>([]) == x;
  }
}
