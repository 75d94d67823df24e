/**
  The output blob the adapters write into (`ScopedOutputBuffer<Bytef>`),
  reduced to what the adapters use of it: its storage, its logical length,
  the free room after that length, and committing produced bytes.
*/
module OutputBuffer {
  import opened Zlib

  class Blob {
    var data: array<byte>
    var length: nat

    /** The logical length never exceeds the capacity. */
    ghost predicate Valid()
      reads this
    {
      length <= data.Length
    }

    /** The bytes produced so far. */
    ghost function Contents(): seq<byte>
      reads this, data
      requires Valid()
    {
      data[..length]
    }

    /** Free room after the logical length (`avail()`). */
    function Avail(): (n: nat)
      reads this
      requires Valid()
      ensures length + n == data.Length
    {
      data.Length - length
    }

    constructor (capacity: nat)
      ensures Valid() && fresh(data)
      ensures data.Length == capacity && Contents() == []
    {
      data := new byte[capacity];
      length := 0;
    }

    /** Commits `n` bytes written into the free room. */
    method IncreaseLengthBy(n: nat)
      requires Valid() && n <= Avail()
      modifies this`length
      ensures Valid()
      ensures length == old(length) + n
    {
      length := length + n;
    }
  }
}
