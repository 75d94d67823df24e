# node-compress gzip adapters, modelled in Dafny

node-compress exposes zlib to node as two stream objects, `Gzip` and
`Gunzip`. A generic driver (`ZipLib`) repeatedly asks a codec adapter to
write into an output blob; the adapters live in `src/gzip.cc`:

- `GzipUtils` classifies zlib return codes (only `Z_OK` and `Z_STREAM_END`
  are success) and turns an error code into an `Error` with a fixed
  diagnostic, falling back to "Unknown error".
- `GzipImpl` initialises deflate with the gzip wrapper (`16 + MAX_WBITS`)
  at the level given as the first constructor argument; `Write` runs one
  `deflate(Z_NO_FLUSH)` step over the caller's input, `Finish` one
  `deflate(Z_FINISH)` step with no input.
- `GunzipImpl` initialises inflate with `MAX_WBITS`; `Write` runs one
  `inflate(Z_NO_FLUSH)` step; `Finish` does nothing and reports `Z_OK`.

Both `Write`s and `GzipImpl`'s `Finish` point `next_out` at the free tail
of the blob (`data + length`, `avail` bytes), run one step and commit
`initAvail - avail_out` bytes to the blob unless the status is an error.
The two `Write`s also report the unconsumed input through `dataLength`.

The project has four modules:

- `Zlib` (zlib.dfy): zlib.h's constants, the C conversions to `unsigned int`
  and `int`, and a `ZStream` class whose codec step is abstract. One call to
  `deflate` or `inflate` is a `StepDecision` (input bytes taken, bytes
  produced, status) that `ZStream.Step` clamps to zlib's documented
  contract: the codec reads at most `avail_in` bytes and generates output
  starting at `next_out`, updating `next_out` and `avail_out` accordingly.
  Exactly the bytes `avail_out` drops by are written, at `next_out`, and no
  other byte changes; what is proved of the adapters holds for every codec
  that behaves so. `deflateInit2`/`inflateInit2` take the
  library's status as a parameter. `deflateInit2` answers a version
  mismatch with `Z_VERSION_ERROR` before it looks at any parameter, and
  otherwise refuses a level outside -1..9 with `Z_STREAM_ERROR`.
- `GzipUtils` (gzip_utils.dfy): `IsError`, the message table and
  `GetException`.
- `OutputBuffer` (blob.dfy): the blob, reduced to storage, logical length,
  `Avail` and `IncreaseLengthBy`.
- `GzipCodec` (gzip.dfy): level selection and the two adapter classes.

Integer widths are written out: `avail_out = out.avail()` truncates the
blob's free room to `unsigned int` (`ToUInt`), and `GzipImpl::Finish`
holds `initAvail` in an `int` before subtracting `avail_out` in unsigned
arithmetic; `SignedDifferenceExact` shows the committed count is still
exact.

Behaviour worth noting:

- The adapter checks only that the level is an Int32. An Int32 level
  outside zlib's range reaches `deflateInit2`, which answers
  `Z_STREAM_ERROR`, so `Init` throws an `Error` with the Z_STREAM_ERROR
  message (`OutOfRangeLevelRejected`). Only a non-Int32 argument is a
  `TypeError`.
- `IsError` treats `Z_BUF_ERROR` and `Z_NEED_DICT` as errors, like every
  code other than `Z_OK` and `Z_STREAM_END`.
- Compression uses the gzip wrapper (`16 + MAX_WBITS`); decompression uses
  `MAX_WBITS`, which in zlib selects the zlib wrapper (`AdapterWrappers`).
  No round trip between the two adapters is claimed.

## Model

| member | source | states |
|---|---|---|
| `GzipUtils.IsError` | src/gzip.cc:63-65 | every one of the seven known error codes is an error, and so is every code below Z_OK or above Z_STREAM_END |
| `GzipUtils.StatusPartition` | src/gzip.cc:63-65 | a status is a success exactly when it is Z_OK or Z_STREAM_END; every known error code, the positive Z_NEED_DICT included, and Z_BUF_ERROR are errors |
| `GzipUtils.GetException` | src/gzip.cc:68-92 | the result is `undefined` exactly when the status is not an error; every error status yields an `Error` object |
| `GzipUtils.KnownMessagesDistinct` | src/gzip.cc:72-112 | two different known error codes are reported with different diagnostics |
| `GzipUtils.KnownErrorNotUnknown` | src/gzip.cc:72-87 | none of the seven known error codes is reported as "Unknown error" |
| `GzipUtils.UnknownErrorFallback` | src/gzip.cc:88-89 | every error code outside the seven known ones is reported as `Error("Unknown error")`, so the mapping is total |
| `GzipCodec.SelectLevel` | src/gzip.cc:128-136 | rejection happens exactly for a first argument that is neither undefined nor Int32, with `TypeError("level must be an integer")`; no argument or undefined gives Z_DEFAULT_COMPRESSION; an Int32 is used as given |
| `GzipCodec.InitOutcome` | src/gzip.cc:144-147 | Init returns `undefined` exactly when the initialiser's status is not an error, and otherwise throws that status's `Error` |
| `GzipCodec.GzipInitResult` | src/gzip.cc:128-147 | Init returns `undefined` exactly when the level is accepted and deflateInit2's status is not an error; anything it throws is the level TypeError or an `Error` |
| `GzipCodec.NonIntegerLevelRejected` | src/gzip.cc:129-134 | a non-Int32 level is a TypeError whatever the library would have answered |
| `GzipCodec.OutOfRangeLevelRejected` | src/gzip.cc:142-146 | an Int32 level outside -1..9 ends in a thrown Z_STREAM_ERROR `Error`, unless the library reports a version mismatch |
| `GzipCodec.DefaultLevelAccepted` | src/gzip.cc:128-147 | with no level argument Init succeeds exactly when the library does |
| `GzipCodec.AdapterWrappers` | src/gzip.cc:142-143 | deflate is set up with the gzip wrapper; inflate (line 208) with MAX_WBITS, the zlib wrapper, not the gzip one |
| `GzipCodec.GzipImpl.Init` | src/gzip.cc:125-148 | returns the result of level selection and deflateInit2; a refused argument leaves the stream unchanged; otherwise the allocators are reset and, on Z_OK, the stream deflates at the chosen level with the gzip wrapper |
| `GzipCodec.GzipImpl.Write` | src/gzip.cc:151-163 | returns the step's status unchanged; avail_out is left at the truncated free room minus the emitted bytes; `remaining` is the step's leftover avail_in, never above the given `dataLength`; the committed prefix is kept; on a non-error status the blob grows by exactly the emitted bytes and stays within capacity; on an error nothing is committed |
| `GzipCodec.GzipImpl.Finish` | src/gzip.cc:166-177 | the step sees no input (avail_in 0, next_in NULL); avail_out is left at the truncated free room minus the emitted bytes; the status is returned unchanged; committed prefix kept; emitted bytes committed exactly on a non-error status, none on an error |
| `GzipCodec.GunzipImpl.Init` | src/gzip.cc:201-213 | allocators reset, no input presented, inflate initialised with MAX_WBITS; the result is `undefined` exactly when the status is not an error |
| `GzipCodec.GunzipImpl.Write` | src/gzip.cc:216-228 | same promises as GzipImpl.Write for one inflate step |
| `GzipCodec.GunzipImpl.Finish` | src/gzip.cc:231-233 | returns Z_OK and changes neither the blob nor the stream |
| `Zlib.ZStream.Step` | src/gzip.cc:157 | one codec step: avail_in and avail_out only shrink, the cursors advance by what was taken and emitted, the output array changes only by storing the emitted bytes at next_out |
| `Zlib.Taken` | src/gzip.cc:157-158 | the codec takes no more input than avail_in, and exactly what it asked for when that fits |
| `Zlib.Emitted` | src/gzip.cc:154-157 | the codec writes a prefix of what it produced, never more than avail_out bytes, and all of it when it fits |
| `Zlib.Overwrite` | src/gzip.cc:154-157 | storing bytes at next_out changes exactly the window [next_out, next_out + n) and leaves every other byte as it was |
| `Zlib.OverwritePrefix` | src/gzip.cc:154-160 | after the step the blob's first `length` bytes are unchanged and the emitted bytes follow them |
| `Zlib.ToUInt` | src/gzip.cc:155 | conversion to `unsigned int` is congruent modulo 2^32, is the identity on 0..2^32-1 and never enlarges a non-negative count |
| `Zlib.ToInt32` | src/gzip.cc:170 | storing an `unsigned int` in an `int` loses nothing: converting back yields the same value |
| `Zlib.SignedDifferenceExact` | src/gzip.cc:170-174 | `initAvail - avail_out` with `int initAvail` still equals the true number of bytes produced |
| `Zlib.DeflateInitStatus` | src/gzip.cc:142-143 | deflateInit2 reports a version mismatch first; otherwise it answers Z_STREAM_ERROR for a level outside -1..9, and for a valid level the library's own status |
| `Zlib.ZStream.DeflateInit2` | src/gzip.cc:142-143 | the status is deflateInit2's for the given level (version mismatch first, then Z_STREAM_ERROR for a level outside -1..9, else the library's); on Z_OK the stream deflates at that level with the given windowBits, otherwise its mode is unchanged |
| `Zlib.ZStream.InflateInit2` | src/gzip.cc:208 | the status is the library's; on Z_OK the stream inflates with the given windowBits, otherwise its mode is unchanged |
| `OutputBuffer.Blob.Avail` | src/gzip.cc:155 | the free room `out.avail()` is exactly the capacity left after the logical length |
| `OutputBuffer.Blob.IncreaseLengthBy` | src/gzip.cc:160 | commits `n` bytes, allowed only within the free room, so length never exceeds capacity |

## Left out

- zlib itself (`deflate`, `inflate`, `deflateInit2`, `inflateInit2`, `deflateEnd`, `inflateEnd`): external code; each step's behaviour is a parameter bounded by zlib's documented contract, and the initialisers' status is a parameter.
- The flush argument (`Z_NO_FLUSH` for Write, `Z_FINISH` for Finish) only steers zlib, so it is part of the step decision rather than a separate input.
- Parameter validation inside `deflateInit2` other than the level: the method, windowBits, memLevel and strategy the adapter passes are constants zlib accepts.
- The `z_stream` fields the adapters never touch (`total_in`, `total_out`, `msg`, internal state) and the allocator function pointers, which become one `defaultAllocators` flag.
- `Destroy` of both adapters: it only forwards to `deflateEnd`/`inflateEnd` and has nothing to state.
- The streaming driver `ZipLib`, the blob's growth policy and the grow-and-retry loop: they live in `zlib.h` and `utils.h`, which are not part of this model.
- The v8/node embedding (`HandleScope`, `Arguments`, `ThrowException`, exception objects, event emitters): exceptions are `Value`s carrying their message and the first constructor argument is an `Argument` (undefined, Int32, or other).
- Round-trip, chunking-invariance and compression-ratio properties: they depend on zlib's entropy coding, which is not modelled.
- GzipCodec.GzipImpl.Write: requires a non-negative `dataLength`; a negative length is outside the adapter's domain, since it would wrap to a huge `avail_in`.
- GzipCodec.GunzipImpl.Write: requires a non-negative `dataLength`; a negative length is outside the adapter's domain, since it would wrap to a huge `avail_in`.
- GzipCodec.OutOfRangeLevelRejected: assumes a zlib that checks the library version before the level and that is not built with FASTEST, which maps every non-zero level to 1 and so accepts any Int32 level.
- The blob's `data` array is never replaced by the model, since growth is not modelled.
