/**
 * StreamError: an immutable XMPP stream error. A Java field left null is None here;
 * the getters are the datatype's destructors and the `has*` predicates test for null.
 */
module StreamErrors {
  import opened Wrappers

  datatype StreamError = StreamError(
    code: int,
    message: Option<string>,
    language: Option<string>,
    appContent: Option<string>)
  {
    /** `hasMessage()` */
    predicate HasMessage(): (b: bool)
      ensures b <==> message != None
    {
      message.Some?
    }

    /** `hasLanguage()` */
    predicate HasLanguage(): (b: bool)
      ensures b <==> language != None
    {
      language.Some?
    }

    /** `hasAppContent()` */
    predicate HasAppContent(): (b: bool)
      ensures b <==> appContent != None
    {
      appContent.Some?
    }
  }

  /** `new StreamError(code)` */
  function WithCode(code: int): (e: StreamError)
    ensures e.code == code
    ensures !e.HasMessage() && !e.HasLanguage() && !e.HasAppContent()
  {
    StreamError(code, None, None, None)
  }

  /** `new StreamError(code, message, language)` */
  function WithText(code: int, message: Option<string>, language: Option<string>): (e: StreamError)
    ensures e.code == code && e.message == message && e.language == language
    ensures e.HasMessage() <==> message.Some?
    ensures e.HasLanguage() <==> language.Some?
    ensures !e.HasAppContent()
  {
    StreamError(code, message, language, None)
  }

  /** `new StreamError(code, message, language, appContent)`: the three-argument error plus app content */
  function WithAppContent(code: int, message: Option<string>, language: Option<string>, appContent: Option<string>): (e: StreamError)
    ensures e.(appContent := None) == WithText(code, message, language)
    ensures e.appContent == appContent
    ensures e.HasAppContent() <==> appContent.Some?
  {
    StreamError(code, message, language, appContent)
  }
}
