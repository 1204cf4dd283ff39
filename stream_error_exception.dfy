/**
 * StreamErrorException: a throwable wrapper around one StreamError, fixed at
 * construction. `detail` is the Throwable message passed to `super`.
 */
module StreamErrorExceptions {
  import opened Wrappers
  import opened StreamErrors

  datatype StreamErrorException = StreamErrorException(streamError: StreamError, detail: Option<string>)
  {
    /** `getStreamError()`: the error the constructor wrapped */
    function GetStreamError(): (e: StreamError)
      ensures StreamErrorException(e, detail) == this
    {
      streamError
    }
  }

  /** `new StreamErrorException(code)` */
  function FromCode(code: int): (x: StreamErrorException)
    ensures x.GetStreamError().code == code
    ensures !x.GetStreamError().HasMessage() && !x.GetStreamError().HasLanguage()
    ensures !x.GetStreamError().HasAppContent()
    ensures x.detail.None?
  {
    StreamErrorException(WithCode(code), None)
  }

  /** `new StreamErrorException(code, message, language)` */
  function FromText(code: int, message: Option<string>, language: Option<string>): (x: StreamErrorException)
    ensures x.GetStreamError() == StreamError(code, message, language, None)
    ensures !x.GetStreamError().HasAppContent()
    ensures x.detail == message
  {
    StreamErrorException(WithText(code, message, language), message)
  }
}
