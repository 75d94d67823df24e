/**
  The slice of zlib's interface that the gzip adapters rely on: the status
  and parameter constants of zlib.h, the C integer conversions that happen
  when sizes pass through `unsigned int` and `int`, and a `z_stream` whose
  codec step is abstract.

  zlib itself is not modelled. One call to `deflate` or `inflate` is a
  `StepDecision`: how many input bytes the codec takes, which bytes it
  produces and which status it returns. `ZStream.Step` clamps that decision
  to zlib's documented contract: the codec reads at most avail_in bytes from
  next_in and writes output starting at next_out, updating next_out and
  avail_out accordingly. So exactly the bytes avail_out drops by are
  written, at next_out, and no other byte of the output array changes.
*/
module Zlib {

  newtype byte = x: int | 0 <= x < 0x100

  const UINT_MODULUS: int := 0x1_0000_0000

  /** C `unsigned int` (zlib's uInt, the type of avail_in and avail_out). */
  type uInt = n: int | 0 <= n < 0x1_0000_0000

  /** C `int` on the 32-bit-int targets the adapters are built for. */
  type int32 = n: int | -0x8000_0000 <= n < 0x8000_0000

  // Return codes of zlib.h.
  const Z_OK: int := 0
  const Z_STREAM_END: int := 1
  const Z_NEED_DICT: int := 2
  const Z_ERRNO: int := -1
  const Z_STREAM_ERROR: int := -2
  const Z_DATA_ERROR: int := -3
  const Z_MEM_ERROR: int := -4
  const Z_BUF_ERROR: int := -5
  const Z_VERSION_ERROR: int := -6

  // Parameters of zlib.h.
  const Z_DEFAULT_COMPRESSION: int := -1
  const MAX_WBITS: int := 15

  /** Conversion of an integer to `unsigned int`: reduction modulo 2^32. */
  function ToUInt(n: int): (u: uInt)
    ensures 0 <= n < UINT_MODULUS ==> u == n
    ensures 0 <= n ==> u <= n
    ensures (n - u) % UINT_MODULUS == 0
  {
    n % UINT_MODULUS
  }

  /** Conversion of an `unsigned int` to `int` on a two's-complement target. */
  function ToInt32(u: uInt): (i: int32)
    ensures ToUInt(i) == u
    ensures u < 0x8000_0000 ==> i == u
  {
    if u < 0x8000_0000 then u else u - UINT_MODULUS
  }

  /**
    An unsigned count kept in an `int` and then reduced by a smaller unsigned
    count in unsigned arithmetic (`initAvail - stream_.avail_out` with
    `int initAvail`) is still the exact difference.
  */
  lemma SignedDifferenceExact(initAvail: uInt, availOut: uInt)
    requires availOut <= initAvail
    ensures ToUInt(ToInt32(initAvail) - availOut) == initAvail - availOut
  {
  }

  /** zlib's accepted compression levels: Z_DEFAULT_COMPRESSION or 0 to 9. */
  predicate ValidLevel(level: int)
  {
    level == Z_DEFAULT_COMPRESSION || 0 <= level <= 9
  }

  /** windowBits 8..15: the stream carries the zlib wrapper of RFC 1950. */
  predicate ZlibWrapped(windowBits: int)
  {
    8 <= windowBits <= 15
  }

  /** windowBits 16 + (8..15): the stream carries the gzip wrapper of RFC 1952. */
  predicate GzipWrapped(windowBits: int)
  {
    16 + 8 <= windowBits <= 16 + 15
  }

  /**
    Status of deflateInit2 for the adapter's fixed method, memLevel and
    strategy. A library of the wrong version answers Z_VERSION_ERROR before
    looking at any parameter; otherwise an invalid level is refused with
    Z_STREAM_ERROR before any allocation, and a valid one gets the
    library's own answer (Z_OK or Z_MEM_ERROR in zlib).
  */
  function DeflateInitStatus(level: int, libraryStatus: int): (s: int)
    ensures libraryStatus == Z_VERSION_ERROR ==> s == Z_VERSION_ERROR
    ensures !ValidLevel(level) && libraryStatus != Z_VERSION_ERROR ==> s == Z_STREAM_ERROR
    ensures ValidLevel(level) ==> s == libraryStatus
  {
    if !ValidLevel(level) && libraryStatus != Z_VERSION_ERROR then Z_STREAM_ERROR else libraryStatus
  }

  /** What a `z_stream` has been initialised for. */
  datatype CodecMode = Unset | Deflating(level: int, windowBits: int) | Inflating(windowBits: int)

  /** One codec step as the library decides it. */
  datatype StepDecision = StepDecision(consumed: nat, produced: seq<byte>, status: int)

  /** Input bytes a step takes: never more than avail_in. */
  function Taken(d: StepDecision, availIn: nat): (n: nat)
    ensures n <= availIn
    ensures d.consumed <= availIn ==> n == d.consumed
    ensures n < d.consumed ==> n == availIn
  {
    if d.consumed <= availIn then d.consumed else availIn
  }

  /** Output bytes a step writes: a prefix of what it produced, never more than avail_out. */
  function Emitted(d: StepDecision, availOut: nat): (e: seq<byte>)
    ensures |e| <= availOut
    ensures e <= d.produced
    ensures |d.produced| <= availOut ==> e == d.produced
    ensures |e| < |d.produced| ==> |e| == availOut
  {
    if |d.produced| <= availOut then d.produced else d.produced[..availOut]
  }

  /** `buf` after `bytes` are stored one by one from offset `at` on. */
  function Overwrite(buf: seq<byte>, at: nat, bytes: seq<byte>): (r: seq<byte>)
    requires at + |bytes| <= |buf|
    ensures |r| == |buf|
    ensures forall i :: 0 <= i < |r| ==> r[i] == if at <= i < at + |bytes| then bytes[i - at] else buf[i]
    decreases |bytes|
  {
    if bytes == [] then buf else Overwrite(buf[at := bytes[0]], at + 1, bytes[1..])
  }

  /** Storing bytes at `at` keeps everything before `at` and leaves `bytes` right after it. */
  lemma OverwritePrefix(buf: seq<byte>, at: nat, bytes: seq<byte>)
    requires at + |bytes| <= |buf|
    ensures Overwrite(buf, at, bytes)[..at] == buf[..at]
    ensures Overwrite(buf, at, bytes)[..at + |bytes|] == buf[..at] + bytes
  {
  }

  /**
    zlib's `z_stream`: the input cursor (next_in into `input`, avail_in), the
    output cursor (next_out into `output`, avail_out), the allocator fields
    and what the stream was initialised for. A NULL next_in is modelled as
    an empty `input`.
  */
  class ZStream {
    var input: seq<byte>
    var nextIn: nat
    var availIn: uInt
    var output: array<byte>
    var nextOut: nat
    var availOut: uInt
    var defaultAllocators: bool
    var mode: CodecMode

    /** A `z_stream` before any initialisation. */
    constructor ()
      ensures input == [] && nextIn == 0 && availIn == 0
      ensures nextOut == 0 && availOut == 0
      ensures !defaultAllocators && mode == Unset
    {
      input, nextIn, availIn := [], 0, 0;
      output := new byte[0];
      nextOut, availOut := 0, 0;
      defaultAllocators := false;
      mode := Unset;
    }

    /** next_in and next_out point at avail_in and avail_out valid bytes. */
    ghost predicate Cursors()
      reads this
    {
      nextIn + availIn <= |input| && nextOut + availOut <= output.Length
    }

    /**
      One call to deflate or inflate. The decision `d` is the library's; the
      step consumes `Taken` input bytes, stores `Emitted` output bytes at
      next_out, advances both cursors by those counts and returns `d.status`.
    */
    method Step(d: StepDecision) returns (status: int)
      requires Cursors()
      modifies this`nextIn, this`availIn, this`nextOut, this`availOut, output
      ensures Cursors()
      ensures status == d.status
      ensures availIn == old(availIn) - Taken(d, old(availIn))
      ensures nextIn == old(nextIn) + Taken(d, old(availIn))
      ensures availOut == old(availOut) - |Emitted(d, old(availOut))|
      ensures nextOut == old(nextOut) + |Emitted(d, old(availOut))|
      ensures output[..] == Overwrite(old(output[..]), old(nextOut), Emitted(d, old(availOut)))
    {
      var taken := Taken(d, availIn);
      var emitted := Emitted(d, availOut);
      ghost var before := output[..];
      forall i | 0 <= i < |emitted| {
        output[nextOut + i] := emitted[i];
      }
      assert output[..] == Overwrite(before, nextOut, emitted);
      nextIn, availIn := nextIn + taken, availIn - taken;
      nextOut, availOut := nextOut + |emitted|, availOut - |emitted|;
      status := d.status;
    }

    /**
      deflateInit2 with method Z_DEFLATED, memLevel 8 and the default
      strategy; `libraryStatus` is what the library reports for a valid level.
    */
    method DeflateInit2(level: int, windowBits: int, libraryStatus: int) returns (status: int)
      modifies this`mode
      ensures status == DeflateInitStatus(level, libraryStatus)
      ensures mode == if status == Z_OK then Deflating(level, windowBits) else old(mode)
    {
      status := DeflateInitStatus(level, libraryStatus);
      if status == Z_OK {
        mode := Deflating(level, windowBits);
      }
    }

    /** inflateInit2; `libraryStatus` is what the library reports. */
    method InflateInit2(windowBits: int, libraryStatus: int) returns (status: int)
      modifies this`mode
      ensures status == libraryStatus
      ensures mode == if status == Z_OK then Inflating(windowBits) else old(mode)
    {
      status := libraryStatus;
      if status == Z_OK {
        mode := Inflating(windowBits);
      }
    }
  }
}
