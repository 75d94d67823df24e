/**
  The two codec adapters: GzipImpl drives deflate with the gzip wrapper,
  GunzipImpl drives inflate. Both Writes and GzipImpl's Finish point the
  stream at the free tail of an output blob, run one codec step and commit
  the produced bytes unless the step failed; the Writes also report the
  input left over. GunzipImpl's Finish does nothing and reports Z_OK.
*/
module GzipCodec {
  import opened Zlib
  import opened GzipUtils
  import opened OutputBuffer

  /** How the host sees the first constructor argument of a Gzip object. */
  datatype Argument = UndefinedArg | Int32Arg(value: int32) | OtherArg

  /** The level deflate is initialised with, or the exception that refuses the argument. */
  datatype LevelChoice = Level(level: int32) | Rejected(exception: Value)

  /** What Init hands back: `undefined`, or a thrown exception. */
  datatype InitResult = Done | Thrown(exception: Value)

  const LEVEL_NOT_INTEGER: string := "level must be an integer"

  /** windowBits of GzipImpl: the gzip wrapper. */
  const GZIP_WINDOW_BITS: int := 16 + MAX_WBITS

  /** windowBits of GunzipImpl: plain MAX_WBITS, which is the zlib wrapper. */
  const GUNZIP_WINDOW_BITS: int := MAX_WBITS

  /**
    Level selection of GzipImpl::Init: a missing or undefined first argument
    gives Z_DEFAULT_COMPRESSION, an Int32 is taken as it is, anything else is
    a TypeError.
  */
  function SelectLevel(args: seq<Argument>): (r: LevelChoice)
    ensures r.Rejected? <==> |args| > 0 && args[0].OtherArg?
    ensures r.Rejected? ==> r.exception == TypeError(LEVEL_NOT_INTEGER)
    ensures (|args| == 0 || args[0].UndefinedArg?) ==> r == Level(Z_DEFAULT_COMPRESSION as int32)
    ensures |args| > 0 && args[0].Int32Arg? ==> r == Level(args[0].value)
  {
    if |args| > 0 && !args[0].UndefinedArg? then
      if !args[0].Int32Arg? then Rejected(TypeError(LEVEL_NOT_INTEGER))
      else Level(args[0].value)
    else Level(Z_DEFAULT_COMPRESSION as int32)
  }

  /** What a status reported by an initialiser turns into. */
  function InitOutcome(status: int): (r: InitResult)
    ensures r == Done <==> !IsError(status)
    ensures r.Thrown? ==> r.exception.Error? && r.exception == GetException(status)
  {
    if IsError(status) then Thrown(GetException(status)) else Done
  }

  /** What GzipImpl::Init returns for `args` when the library reports `libraryStatus`. */
  function GzipInitResult(args: seq<Argument>, libraryStatus: int): (r: InitResult)
    ensures r == Done <==> SelectLevel(args).Level? && !IsError(DeflateInitStatus(SelectLevel(args).level, libraryStatus))
    ensures r.Thrown? ==> r.exception == TypeError(LEVEL_NOT_INTEGER) || r.exception.Error?
  {
    match SelectLevel(args)
    case Rejected(e) => Thrown(e)
    case Level(level) => InitOutcome(DeflateInitStatus(level, libraryStatus))
  }

  /** A level argument that is not an Int32 is a TypeError, whatever the library would say. */
  lemma NonIntegerLevelRejected(args: seq<Argument>, libraryStatus: int)
    requires |args| > 0 && args[0].OtherArg?
    ensures GzipInitResult(args, libraryStatus) == Thrown(TypeError(LEVEL_NOT_INTEGER))
  {
  }

  /**
    An Int32 level outside -1..9 is refused by deflateInit2 and surfaces as
    Z_STREAM_ERROR, unless the library already failed its version check.
  */
  lemma OutOfRangeLevelRejected(args: seq<Argument>, libraryStatus: int)
    requires |args| > 0 && args[0].Int32Arg? && !ValidLevel(args[0].value)
    requires libraryStatus != Z_VERSION_ERROR
    ensures GzipInitResult(args, libraryStatus) == Thrown(Error(STREAM_ERROR))
  {
  }

  /** Without a level argument, Init succeeds exactly when the library does. */
  lemma DefaultLevelAccepted(args: seq<Argument>, libraryStatus: int)
    requires |args| == 0 || args[0].UndefinedArg?
    ensures GzipInitResult(args, libraryStatus) == Done <==> !IsError(libraryStatus)
  {
  }

  /** The adapters configure different wrappers: gzip for deflate, zlib for inflate. */
  lemma AdapterWrappers()
    ensures GzipWrapped(GZIP_WINDOW_BITS) && !ZlibWrapped(GZIP_WINDOW_BITS)
    ensures ZlibWrapped(GUNZIP_WINDOW_BITS) && !GzipWrapped(GUNZIP_WINDOW_BITS)
  {
  }

  class GzipImpl {
    const stream: ZStream

    constructor ()
      ensures fresh(stream) && stream.mode == Unset
    {
      stream := new ZStream();
    }

    /**
      Picks the level, then resets the allocator fields and initialises
      deflate with the gzip wrapper. A refused argument leaves the stream
      untouched and deflateInit2 uncalled.
    */
    method Init(args: seq<Argument>, libraryStatus: int) returns (r: InitResult)
      modifies stream`defaultAllocators, stream`mode
      ensures r == GzipInitResult(args, libraryStatus)
      ensures SelectLevel(args).Rejected? ==> unchanged(stream)
      ensures SelectLevel(args).Level? ==> stream.defaultAllocators
      ensures SelectLevel(args).Level? && DeflateInitStatus(SelectLevel(args).level, libraryStatus) == Z_OK ==>
                stream.mode == Deflating(SelectLevel(args).level, GZIP_WINDOW_BITS)
      ensures SelectLevel(args).Level? && DeflateInitStatus(SelectLevel(args).level, libraryStatus) != Z_OK ==>
                stream.mode == old(stream.mode)
    {
      var choice := SelectLevel(args);
      if choice.Rejected? {
        return Thrown(choice.exception);
      }
      stream.defaultAllocators := true;
      var status := stream.DeflateInit2(choice.level, GZIP_WINDOW_BITS, libraryStatus);
      r := InitOutcome(status);
    }

    /**
      Feeds `data[..dataLength]` to one deflate step writing into the free
      tail of `out`. Returns the step's status and the input left unconsumed;
      commits the produced bytes to `out` unless the status is an error.
    */
    method Write(data: seq<byte>, dataLength: int32, out: Blob, d: StepDecision) returns (status: int, remaining: int32)
      requires 0 <= dataLength <= |data|
      requires out.Valid()
      modifies stream, out`length, out.data
      ensures status == d.status
      ensures 0 <= remaining <= dataLength
      ensures remaining == dataLength - Taken(d, dataLength)
      ensures out.Valid() && out.data == old(out.data)
      ensures out.data[..old(out.length)] == old(out.Contents())
      ensures !IsError(status) ==> out.Contents() == old(out.Contents()) + Emitted(d, ToUInt(old(out.Avail())))
      ensures IsError(status) ==> out.length == old(out.length) && out.Contents() == old(out.Contents())
      ensures stream.input == data && stream.availIn == remaining
      ensures stream.nextIn == dataLength - remaining
      ensures stream.output == out.data
      ensures stream.nextOut == old(out.length) + |Emitted(d, ToUInt(old(out.Avail())))|
      ensures stream.availOut == ToUInt(old(out.Avail())) - |Emitted(d, ToUInt(old(out.Avail())))|
      ensures stream.mode == old(stream.mode) && stream.defaultAllocators == old(stream.defaultAllocators)
    {
      stream.input, stream.nextIn := data, 0;
      stream.availIn := ToUInt(dataLength);
      stream.output, stream.nextOut := out.data, out.length;
      stream.availOut := ToUInt(out.Avail());
      var initAvail: nat := stream.availOut;
      ghost var before := out.data[..];

      status := stream.Step(d);
      remaining := stream.availIn;
      OverwritePrefix(before, out.length, Emitted(d, initAvail));
      if !IsError(status) {
        out.IncreaseLengthBy(initAvail - stream.availOut);
      }
    }

    /**
      Runs one deflate step with Z_FINISH and no input (avail_in 0, next_in
      NULL) and commits the produced bytes unless the status is an error.
      initAvail is kept in an `int`, as the adapter does.
    */
    method Finish(out: Blob, d: StepDecision) returns (status: int)
      requires out.Valid()
      modifies stream, out`length, out.data
      ensures status == d.status
      ensures out.Valid() && out.data == old(out.data)
      ensures out.data[..old(out.length)] == old(out.Contents())
      ensures !IsError(status) ==> out.Contents() == old(out.Contents()) + Emitted(d, ToUInt(old(out.Avail())))
      ensures IsError(status) ==> out.length == old(out.length) && out.Contents() == old(out.Contents())
      ensures stream.input == [] && stream.nextIn == 0 && stream.availIn == 0
      ensures stream.output == out.data
      ensures stream.nextOut == old(out.length) + |Emitted(d, ToUInt(old(out.Avail())))|
      ensures stream.availOut == ToUInt(old(out.Avail())) - |Emitted(d, ToUInt(old(out.Avail())))|
      ensures stream.mode == old(stream.mode) && stream.defaultAllocators == old(stream.defaultAllocators)
    {
      stream.availIn := 0;
      stream.input, stream.nextIn := [], 0;
      stream.output, stream.nextOut := out.data, out.length;
      stream.availOut := ToUInt(out.Avail());
      var initAvail: int32 := ToInt32(stream.availOut);
      ghost var before := out.data[..];
      ghost var room := stream.availOut;

      status := stream.Step(d);
      OverwritePrefix(before, out.length, Emitted(d, room));
      if !IsError(status) {
        SignedDifferenceExact(room, stream.availOut);
        out.IncreaseLengthBy(ToUInt(initAvail - stream.availOut));
      }
    }
  }

  class GunzipImpl {
    const stream: ZStream

    constructor ()
      ensures fresh(stream) && stream.mode == Unset
    {
      stream := new ZStream();
    }

    /**
      Resets the allocator fields, presents no input (avail_in 0, next_in
      NULL) and initialises inflate with windowBits MAX_WBITS.
    */
    method Init(libraryStatus: int) returns (r: InitResult)
      modifies stream`defaultAllocators, stream`input, stream`nextIn, stream`availIn, stream`mode
      ensures r == InitOutcome(libraryStatus)
      ensures stream.defaultAllocators
      ensures stream.input == [] && stream.nextIn == 0 && stream.availIn == 0
      ensures stream.mode == if libraryStatus == Z_OK then Inflating(GUNZIP_WINDOW_BITS) else old(stream.mode)
    {
      stream.defaultAllocators := true;
      stream.availIn := 0;
      stream.input, stream.nextIn := [], 0;
      var status := stream.InflateInit2(GUNZIP_WINDOW_BITS, libraryStatus);
      r := InitOutcome(status);
    }

    /**
      Feeds `data[..dataLength]` to one inflate step writing into the free
      tail of `out`. Returns the step's status and the input left unconsumed;
      commits the produced bytes to `out` unless the status is an error.
    */
    method Write(data: seq<byte>, dataLength: int32, out: Blob, d: StepDecision) returns (status: int, remaining: int32)
      requires 0 <= dataLength <= |data|
      requires out.Valid()
      modifies stream, out`length, out.data
      ensures status == d.status
      ensures 0 <= remaining <= dataLength
      ensures remaining == dataLength - Taken(d, dataLength)
      ensures out.Valid() && out.data == old(out.data)
      ensures out.data[..old(out.length)] == old(out.Contents())
      ensures !IsError(status) ==> out.Contents() == old(out.Contents()) + Emitted(d, ToUInt(old(out.Avail())))
      ensures IsError(status) ==> out.length == old(out.length) && out.Contents() == old(out.Contents())
      ensures stream.input == data && stream.availIn == remaining
      ensures stream.nextIn == dataLength - remaining
      ensures stream.output == out.data
      ensures stream.nextOut == old(out.length) + |Emitted(d, ToUInt(old(out.Avail())))|
      ensures stream.availOut == ToUInt(old(out.Avail())) - |Emitted(d, ToUInt(old(out.Avail())))|
      ensures stream.mode == old(stream.mode) && stream.defaultAllocators == old(stream.defaultAllocators)
    {
      stream.input, stream.nextIn := data, 0;
      stream.availIn := ToUInt(dataLength);
      stream.output, stream.nextOut := out.data, out.length;
      stream.availOut := ToUInt(out.Avail());
      var initAvail: nat := stream.availOut;
      ghost var before := out.data[..];

      status := stream.Step(d);
      remaining := stream.availIn;
      OverwritePrefix(before, out.length, Emitted(d, initAvail));
      if !IsError(status) {
        out.IncreaseLengthBy(initAvail - stream.availOut);
      }
    }

    /** Inflate has nothing to flush: Finish reports Z_OK and touches neither blob nor stream. */
    method Finish(out: Blob) returns (status: int)
      ensures status == Z_OK
    {
      status := Z_OK;
    }
  }
}
