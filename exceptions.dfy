/**
 * The two typed exceptions of the library. Each is built once and never
 * changed afterwards, so each is a value.
 */
module Exceptions {
  import opened JsCommon

  /** HTTP "Bad Request", the code the uploader uses for rejected inputs. */
  const BadRequest: int := 400

  /** `FileUploadException`: an `Error` whose code falls back to 500 when falsy. */
  datatype FileUploadException = FileUploadException(name: string, message: string, errorCode: int)

  /** `TimeoutException`: an `Error` whose code falls back to 408 only when omitted. */
  datatype TimeoutException = TimeoutException(name: string, message: string, errorCode: int)

  /**
   * `new FileUploadException(message, errorCode)`. The code goes through
   * `errorCode || 500`, so both an absent code and 0 become 500.
   */
  function NewFileUploadException(message: string, errorCode: Option<int>): (e: FileUploadException)
    ensures e.name == "FileUploadException"
    ensures e.message == message
    ensures errorCode.Some? && errorCode.value != 0 ==> e.errorCode == errorCode.value
    ensures errorCode.None? || errorCode == Some(0) ==> e.errorCode == 500
    ensures e.errorCode != 0
  {
    FileUploadException("FileUploadException", message, NumberOr(errorCode, 500))
  }

  /**
   * `new TimeoutException(message, errorCode = 408)`. The default applies
   * only when the code is omitted; an explicit 0 is kept.
   */
  function NewTimeoutException(message: string, errorCode: Option<int>): (e: TimeoutException)
    ensures e.name == "TimeoutException"
    ensures e.message == message
    ensures errorCode.Some? ==> e.errorCode == errorCode.value
    ensures errorCode.None? ==> e.errorCode == 408
  {
    TimeoutException("TimeoutException", message, errorCode.GetOr(408))
  }

  /** The two constructors disagree on an explicit code of 0. */
  lemma ZeroCodeDefaults(message: string)
    ensures NewFileUploadException(message, Some(0)).errorCode == 500
    ensures NewTimeoutException(message, Some(0)).errorCode == 0
  {
  }
}
