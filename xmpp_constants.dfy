/**
 * XMPPConstants: the integer codes of the stream-error, stanza-error, stanza-error-type
 * and SASL-failure conditions, the namespaces, and the four tables that turn a code into
 * the literal the gateway writes. Each table is a `switch` that throws
 * IllegalArgumentException on a code outside its enumeration; here that is None.
 * The literals are the code's own, misspellings included.
 */
module XmppConstants {
  import opened Wrappers

  const ERROR_NS_URN: string := "urn:ietf:params:xml:ns:xmpp-streams"
  const STANZA_ERROR_NS_URN: string := "urn:ietf:params:xml:ns:xmpp-stanzas"
  const URN_SASL: string := "urn:ietf:params:xml:ns:xmpp-sasl"
  const URN_TLS: string := "urn:ietf:params:xml:ns:xmpp-tls"
  const URN_BIND: string := "urn:ietf:params:xml:ns:xmpp-bind"
  const URN_SESSION: string := "urn:ietf:params:xml:ns:xmpp-session"

  const DEFAULT_SERVER_PORT: int := 5269
  const DEFAULT_CLIENT_PORT: int := 5222

  // The stream-error codes the gateway raises itself
  const ERROR_COND_CONNECTION_TIMEOUT: int := 4
  const ERROR_COND_HOST_UNKOWN: int := 6
  const ERROR_COND_INVALID_XML: int := 11
  const ERROR_COND_REMOTE_CONNECTION_FAILED: int := 14
  const ERROR_COND_UNDEFINIED_CONDITION: int := 19
  const ERROR_COND_XML_NOT_WELL_FORMED: int := 23
  const ERROR_COND_INTERNAL_SERVER_ERROR: int := 100

  /** The stream-error codes: 1 to 23 and 100 (section 4.9.3 of RFC 6120) */
  predicate IsStreamErrorCondition(code: int) {
    1 <= code <= 23 || code == 100
  }

  /** The stanza-error condition codes: 101 to 122 (section 8.3.3 of RFC 6120) */
  predicate IsStanzaErrorCondition(code: int) {
    101 <= code <= 122
  }

  /** The stanza-error type codes: 201 to 205 (section 8.3.2 of RFC 6120) */
  predicate IsStanzaErrorType(code: int) {
    201 <= code <= 205
  }

  /** The SASL failure codes: 301 to 307 (section 6.5 of RFC 6120) */
  predicate IsSaslErrorCondition(code: int) {
    301 <= code <= 307
  }

  /** `errorCond2tagName`: the element name of a stream-error condition */
  function ErrorCondTagName(condition: int): (r: Option<string>)
    ensures r.Some? <==> IsStreamErrorCondition(condition)
    ensures r.Some? ==> r.value != ""
  {
    match condition
    case 1 => Some("bad-format")
    case 2 => Some("bad-namespace-prefix")
    case 3 => Some("conflict")
    case 4 => Some("connection-timeout")
    case 5 => Some("host-gone")
    case 6 => Some("host-unknown")
    case 7 => Some("improper-addressing")
    case 100 => Some("internal-server-error")
    case 8 => Some("invalid-from")
    case 9 => Some("invalid-id")
    case 10 => Some("invalid-namespace")
    case 11 => Some("invalid-xml")
    case 12 => Some("not-authorized")
    case 13 => Some("policy-violation")
    case 14 => Some("remote-connection-failed")
    case 15 => Some("resource-constraint")
    case 16 => Some("restricted-xml")
    case 17 => Some("see-other-host")
    case 18 => Some("system-shutdown")
    case 19 => Some("undefined-condition")
    case 20 => Some("unsupported-encoding")
    case 21 => Some("unsupported-stanza-type")
    case 22 => Some("unsupported-version")
    case 23 => Some("xml-not-well-formed")
    case _ => None
  }

  /** The code of a stream-error element name: the inverse of `ErrorCondTagName` */
  function ErrorConditionOf(tagName: string): Option<int> {
    match tagName
    case "bad-format" => Some(1)
    case "bad-namespace-prefix" => Some(2)
    case "conflict" => Some(3)
    case "connection-timeout" => Some(4)
    case "host-gone" => Some(5)
    case "host-unknown" => Some(6)
    case "improper-addressing" => Some(7)
    case "internal-server-error" => Some(100)
    case "invalid-from" => Some(8)
    case "invalid-id" => Some(9)
    case "invalid-namespace" => Some(10)
    case "invalid-xml" => Some(11)
    case "not-authorized" => Some(12)
    case "policy-violation" => Some(13)
    case "remote-connection-failed" => Some(14)
    case "resource-constraint" => Some(15)
    case "restricted-xml" => Some(16)
    case "see-other-host" => Some(17)
    case "system-shutdown" => Some(18)
    case "undefined-condition" => Some(19)
    case "unsupported-encoding" => Some(20)
    case "unsupported-stanza-type" => Some(21)
    case "unsupported-version" => Some(22)
    case "xml-not-well-formed" => Some(23)
    case _ => None
  }

  /** Reading a stream-error element name back gives its code. */
  lemma ErrorCondTagNameRoundTrip(condition: int)
    requires IsStreamErrorCondition(condition)
    ensures ErrorConditionOf(ErrorCondTagName(condition).value) == Some(condition)
  {
    if condition <= 6 {
      RoundTripFrom1(condition);
    } else if condition <= 12 {
      RoundTripFrom7(condition);
    } else if condition <= 18 {
      RoundTripFrom13(condition);
    } else if condition <= 23 {
      RoundTripFrom19(condition);
    } else {
      assert ErrorConditionOf(ErrorCondTagName(100).value) == Some(100);
    }
  }

  /** Stream-error element names are single XML names: none contains a space. */
  lemma ErrorCondTagNameHasNoSpace(condition: int)
    requires IsStreamErrorCondition(condition)
    ensures ' ' !in ErrorCondTagName(condition).value
  {
    if condition <= 6 {
      NoSpaceFrom1(condition);
    } else if condition <= 12 {
      NoSpaceFrom7(condition);
    } else if condition <= 18 {
      NoSpaceFrom13(condition);
    } else if condition <= 23 {
      NoSpaceFrom19(condition);
    } else {
      assert ' ' !in ErrorCondTagName(100).value;
    }
  }

  lemma RoundTripFrom1(condition: int)
    requires 1 <= condition <= 6
    ensures ErrorConditionOf(ErrorCondTagName(condition).value) == Some(condition)
  {
  }

  lemma NoSpaceFrom1(condition: int)
    requires 1 <= condition <= 6
    ensures ' ' !in ErrorCondTagName(condition).value
  {
  }

  lemma RoundTripFrom7(condition: int)
    requires 7 <= condition <= 12
    ensures ErrorConditionOf(ErrorCondTagName(condition).value) == Some(condition)
  {
  }

  lemma NoSpaceFrom7(condition: int)
    requires 7 <= condition <= 12
    ensures ' ' !in ErrorCondTagName(condition).value
  {
  }

  lemma RoundTripFrom13(condition: int)
    requires 13 <= condition <= 18
    ensures ErrorConditionOf(ErrorCondTagName(condition).value) == Some(condition)
  {
  }

  lemma NoSpaceFrom13(condition: int)
    requires 13 <= condition <= 18
    ensures ' ' !in ErrorCondTagName(condition).value
  {
  }

  lemma RoundTripFrom19(condition: int)
    requires 19 <= condition <= 23
    ensures ErrorConditionOf(ErrorCondTagName(condition).value) == Some(condition)
  {
  }

  lemma NoSpaceFrom19(condition: int)
    requires 19 <= condition <= 23
    ensures ' ' !in ErrorCondTagName(condition).value
  {
  }

  /** The 24 stream-error literals are pairwise distinct. */
  lemma ErrorCondTagNameInjective(a: int, b: int)
    requires IsStreamErrorCondition(a) && IsStreamErrorCondition(b)
    requires ErrorCondTagName(a) == ErrorCondTagName(b)
    ensures a == b
  {
    ErrorCondTagNameRoundTrip(a);
    ErrorCondTagNameRoundTrip(b);
  }

  /** `stanzaCond2tagName`: the element name of a stanza-error condition */
  function StanzaCondTagName(condition: int): (r: Option<string>)
    ensures r.Some? <==> IsStanzaErrorCondition(condition)
    ensures r.Some? ==> r.value != ""
  {
    match condition
    case 101 => Some("bad-request")
    case 102 => Some("conflict")
    case 103 => Some("not-implemented")
    case 104 => Some("forbiden")
    case 105 => Some("gone")
    case 106 => Some("internal-server-error")
    case 107 => Some("item-not-found")
    case 108 => Some("jid-malformed")
    case 109 => Some("not-acceptable")
    case 110 => Some("not-allowed")
    case 111 => Some("not-authorized")
    case 112 => Some("payment-required")
    case 113 => Some("recipient-unavailable")
    case 114 => Some("redirect")
    case 115 => Some("registration-required")
    case 116 => Some("remote-server-not-found")
    case 117 => Some("remote-server-timeout")
    case 118 => Some("resource-constraint")
    case 119 => Some("service-unavailable")
    case 120 => Some("subscription-required")
    case 121 => Some("undefinied-condition")
    case 122 => Some("unexpected-request")
    case _ => None
  }

  /**
   * Three stanza literals are the code's own spellings, not those of section 8.3.3 of
   * RFC 6120 (feature-not-implemented, forbidden, undefined-condition).
   */
  lemma StanzaCondTagNameSpellings()
    ensures StanzaCondTagName(103) == Some("not-implemented")
    ensures StanzaCondTagName(104) == Some("forbiden")
    ensures StanzaCondTagName(121) == Some("undefinied-condition")
  {
  }

  /** Reads a stanza-error element name back to its code, in the code's own spellings */
  function StanzaConditionOf(tagName: string): Option<int> {
    match tagName
    case "bad-request" => Some(101)
    case "conflict" => Some(102)
    case "not-implemented" => Some(103)
    case "forbiden" => Some(104)
    case "gone" => Some(105)
    case "internal-server-error" => Some(106)
    case "item-not-found" => Some(107)
    case "jid-malformed" => Some(108)
    case "not-acceptable" => Some(109)
    case "not-allowed" => Some(110)
    case "not-authorized" => Some(111)
    case "payment-required" => Some(112)
    case "recipient-unavailable" => Some(113)
    case "redirect" => Some(114)
    case "registration-required" => Some(115)
    case "remote-server-not-found" => Some(116)
    case "remote-server-timeout" => Some(117)
    case "resource-constraint" => Some(118)
    case "service-unavailable" => Some(119)
    case "subscription-required" => Some(120)
    case "undefinied-condition" => Some(121)
    case "unexpected-request" => Some(122)
    case _ => None
  }

  /** Each stanza-error element name reads back to its code, so the 22 names are distinct. */
  lemma StanzaCondTagNameRoundTrip(condition: int)
    requires IsStanzaErrorCondition(condition)
    ensures StanzaConditionOf(StanzaCondTagName(condition).value) == Some(condition)
  {
    if condition <= 106 {
      StanzaRoundTripFrom101(condition);
    } else if condition <= 112 {
      StanzaRoundTripFrom107(condition);
    } else if condition <= 118 {
      StanzaRoundTripFrom113(condition);
    } else {
      StanzaRoundTripFrom119(condition);
    }
  }

  lemma StanzaRoundTripFrom101(condition: int)
    requires 101 <= condition <= 106
    ensures StanzaConditionOf(StanzaCondTagName(condition).value) == Some(condition)
  {
  }

  lemma StanzaRoundTripFrom107(condition: int)
    requires 107 <= condition <= 112
    ensures StanzaConditionOf(StanzaCondTagName(condition).value) == Some(condition)
  {
  }

  lemma StanzaRoundTripFrom113(condition: int)
    requires 113 <= condition <= 118
    ensures StanzaConditionOf(StanzaCondTagName(condition).value) == Some(condition)
  {
  }

  lemma StanzaRoundTripFrom119(condition: int)
    requires 119 <= condition <= 122
    ensures StanzaConditionOf(StanzaCondTagName(condition).value) == Some(condition)
  {
  }

  /** `stanzaCondType2Attribute`: the `type` attribute value of a stanza-error type */
  function StanzaErrorTypeAttribute(errorType: int): (r: Option<string>)
    ensures r.Some? <==> IsStanzaErrorType(errorType)
    ensures r.Some? ==> r.value in {"cancel", "continue", "modify", "auth", "wait"}
  {
    match errorType
    case 201 => Some("cancel")
    case 202 => Some("continue")
    case 203 => Some("modify")
    case 204 => Some("auth")
    case 205 => Some("wait")
    case _ => None
  }

  /** `saslCond2Tag`: the element name of a SASL failure condition */
  function SaslCondTag(error: int): (r: Option<string>)
    ensures r.Some? <==> IsSaslErrorCondition(error)
    ensures r.Some? ==> r.value != ""
  {
    match error
    case 301 => Some("aborted")
    case 302 => Some("incorrect-encoding")
    case 303 => Some("invalid-authzid")
    case 304 => Some("invalid-mechanism")
    case 305 => Some("mechanism-too-weak")
    case 306 => Some("not-authorized")
    case 307 => Some("temporary-auth-failure")
    case _ => None
  }

  /** Reads a stanza-error type attribute back to its code */
  function StanzaErrorTypeOf(attribute: string): Option<int> {
    match attribute
    case "cancel" => Some(201)
    case "continue" => Some(202)
    case "modify" => Some(203)
    case "auth" => Some(204)
    case "wait" => Some(205)
    case _ => None
  }

  /** Each stanza-error type attribute reads back to its code, so the five values are distinct. */
  lemma StanzaErrorTypeRoundTrip(errorType: int)
    requires IsStanzaErrorType(errorType)
    ensures StanzaErrorTypeOf(StanzaErrorTypeAttribute(errorType).value) == Some(errorType)
  {
  }

  /** Reads a SASL condition element name back to its code */
  function SaslConditionOf(tag: string): Option<int> {
    match tag
    case "aborted" => Some(301)
    case "incorrect-encoding" => Some(302)
    case "invalid-authzid" => Some(303)
    case "invalid-mechanism" => Some(304)
    case "mechanism-too-weak" => Some(305)
    case "not-authorized" => Some(306)
    case "temporary-auth-failure" => Some(307)
    case _ => None
  }

  /** Each SASL condition element name reads back to its code, so the seven names are distinct. */
  lemma SaslCondTagRoundTrip(error: int)
    requires IsSaslErrorCondition(error)
    ensures SaslConditionOf(SaslCondTag(error).value) == Some(error)
  {
  }

  /** The four code ranges are disjoint: a code accepted by one table makes the other three throw. */
  lemma CodeRangesDisjoint(code: int)
    ensures ErrorCondTagName(code).Some? ==>
              StanzaCondTagName(code).None? && StanzaErrorTypeAttribute(code).None? && SaslCondTag(code).None?
    ensures StanzaCondTagName(code).Some? ==> StanzaErrorTypeAttribute(code).None? && SaslCondTag(code).None?
    ensures StanzaErrorTypeAttribute(code).Some? ==> SaslCondTag(code).None?
  {
  }

  /** TLS and SASL have different namespaces, so an element's xmlns matches at most one. */
  lemma TlsAndSaslNamespacesDiffer()
    ensures URN_TLS != URN_SASL
  {
  }
}
