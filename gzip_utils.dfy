/**
  GzipUtils: the split of zlib return codes into success and error, and the
  diagnostic that each error code is reported with.
*/
module GzipUtils {
  import opened Zlib

  /** The host values the adapters hand back: `undefined` or a thrown error object. */
  datatype Value = Undefined | Error(message: string) | TypeError(message: string)

  const NEED_DICTIONARY: string := "Dictionary must be specified. Currently this is unsupported by library."
  const ERRNO: string := "Z_ERRNO: Input/output error."
  const STREAM_ERROR: string := "Z_STREAM_ERROR: Invalid arguments or stream state is inconsistent."
  const DATA_ERROR: string := "Z_DATA_ERROR: Input data corrupted."
  const MEM_ERROR: string := "Z_MEM_ERROR: Out of memory."
  const BUF_ERROR: string := "Z_BUF_ERROR: Buffer error."
  const VERSION_ERROR: string := "Z_VERSION_ERROR: Invalid library version."
  const UNKNOWN_ERROR: string := "Unknown error"

  /** A status counts as success only when it is Z_OK or Z_STREAM_END. */
  predicate IsError(gzipStatus: int): (r: bool)
    ensures IsKnownError(gzipStatus) ==> r
    ensures (gzipStatus < Z_OK || Z_STREAM_END < gzipStatus) ==> r
  {
    !(gzipStatus == Z_OK || gzipStatus == Z_STREAM_END)
  }

  /** The seven error codes of zlib.h that have a message of their own. */
  predicate IsKnownError(gzipStatus: int)
  {
    gzipStatus in {Z_NEED_DICT, Z_ERRNO, Z_STREAM_ERROR, Z_DATA_ERROR, Z_MEM_ERROR, Z_BUF_ERROR, Z_VERSION_ERROR}
  }

  /** `undefined` for a success status, otherwise an Error carrying the status's diagnostic. */
  function GetException(gzipStatus: int): (e: Value)
    ensures e == Undefined <==> !IsError(gzipStatus)
    ensures IsError(gzipStatus) ==> e.Error?
  {
    if !IsError(gzipStatus) then Undefined
    else if gzipStatus == Z_NEED_DICT then Error(NEED_DICTIONARY)
    else if gzipStatus == Z_ERRNO then Error(ERRNO)
    else if gzipStatus == Z_STREAM_ERROR then Error(STREAM_ERROR)
    else if gzipStatus == Z_DATA_ERROR then Error(DATA_ERROR)
    else if gzipStatus == Z_MEM_ERROR then Error(MEM_ERROR)
    else if gzipStatus == Z_BUF_ERROR then Error(BUF_ERROR)
    else if gzipStatus == Z_VERSION_ERROR then Error(VERSION_ERROR)
    else Error(UNKNOWN_ERROR)
  }

  /**
    Every status is exactly one of: a success code, a known error, an
    unknown error. Z_NEED_DICT and Z_BUF_ERROR, though not failures in every
    zlib call, are errors here.
  */
  lemma StatusPartition(gzipStatus: int)
    ensures !IsError(gzipStatus) <==> gzipStatus in {Z_OK, Z_STREAM_END}
    ensures IsKnownError(gzipStatus) ==> IsError(gzipStatus)
    ensures IsError(Z_NEED_DICT) && IsError(Z_BUF_ERROR)
  {
  }

  /** Two different known error codes never share a diagnostic. */
  lemma KnownMessagesDistinct(a: int, b: int)
    requires IsKnownError(a) && IsKnownError(b) && a != b
    ensures GetException(a) != GetException(b)
  {
  }

  /** A known error never falls back to "Unknown error". */
  lemma KnownErrorNotUnknown(gzipStatus: int)
    requires IsKnownError(gzipStatus)
    ensures GetException(gzipStatus) != Error(UNKNOWN_ERROR)
  {
  }

  /** Every other error code, positive or negative, is reported as "Unknown error". */
  lemma UnknownErrorFallback(gzipStatus: int)
    requires IsError(gzipStatus) && !IsKnownError(gzipStatus)
    ensures GetException(gzipStatus) == Error(UNKNOWN_ERROR)
  {
  }
}
