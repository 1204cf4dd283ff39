/**
 * The decisions WsXMPPConnectionHandler takes on values alone: how it splits the
 * client's first message, which XMPP server it connects to, which stream error each
 * caught exception becomes, what `handleStreamError` does in a given state, and how
 * the proxy names its server in log lines.
 */
module HandlerRules {
  import opened Wrappers
  import opened JavaText
  import opened ConnectionState
  import opened XmppConstants
  import opened StreamErrors
  import opened StreamErrorExceptions
  import opened Xml
  import opened Wire

  /** The unchecked exceptions that escape a handler call or the proxy thread */
  datatype Thrown = IllegalState | IllegalArgument | NullPointer | IndexOutOfBounds

  // The client's XML header

  /** `data.startsWith("<?xml") && data.indexOf("?>") + 1 > 0`: a header opens and is closed somewhere */
  predicate HasXmlHeader(data: string): (b: bool)
    ensures b <==> StartsWith(data, "<?xml") && exists k :: OccursAt(data, "?>", k)
  {
    IndexOfIsFirst(data, "?>");
    StartsWith(data, "<?xml") && IndexOf(data, "?>") >= 0
  }

  /** `headerEnd`: the index of the `>` that closes the header */
  function HeaderEnd(data: string): (n: nat)
    requires HasXmlHeader(data)
    ensures 1 <= n < |data| && data[n - 1] == '?' && data[n] == '>'
    ensures OccursAt(data, "?>", n - 1) && forall j :: 0 <= j < n - 1 ==> !OccursAt(data, "?>", j)
  {
    IndexOfIsFirst(data, "?>");
    IndexOf(data, "?>") + 1
  }

  /** The header handed to `readXmlHeader`: everything before the closing `>`, which is left out */
  function ExtractedHeader(data: string): (h: string)
    requires HasXmlHeader(data)
    ensures StartsWith(data, h + ">")
    ensures |h| > 0 && h[|h| - 1] == '?'
  {
    var h := data[..HeaderEnd(data)];
    assert (h + ">") == data[..HeaderEnd(data) + 1];
    h
  }

  /** What `onMessage` goes on with after the HANDSHAKE_COMPLETE case */
  function ClientPayload(data: string): (p: string)
    ensures !HasXmlHeader(data) ==> p == data
    ensures HasXmlHeader(data) ==>
              exists k :: && OccursAt(data, "?>", k) && (forall j :: 0 <= j < k ==> !OccursAt(data, "?>", j))
                          && p == Trim(data[k + 2..])
  {
    if HasXmlHeader(data) then
      var k := HeaderEnd(data) - 1;
      assert OccursAt(data, "?>", k) && Trim(data[k + 2..]) == Trim(data[HeaderEnd(data) + 1..]);
      Trim(data[HeaderEnd(data) + 1..])
    else data
  }

  /**
   * A message that starts with the header the gateway itself writes continues with
   * its trimmed remainder, and `readXmlHeader` sees that header without its `>`.
   */
  lemma XmlHeaderStripped(body: string)
    ensures HasXmlHeader(XML_HEADER + body)
    ensures ExtractedHeader(XML_HEADER + body) == XML_HEADER[..|XML_HEADER| - 1]
    ensures ClientPayload(XML_HEADER + body) == Trim(body)
  {
    var s := XML_HEADER + body;
    var k := |XML_HEADER| - 2;
    assert OccursAt(s, "?>", k) by {
      assert s[k..k + 2] == XML_HEADER[k..];
    }
    forall j | 0 <= j < k
      ensures !OccursAt(s, "?>", j)
    {
      assert s[j + 1] == XML_HEADER[j + 1];
    }
    IndexOfIsFirst(s, "?>");
    assert IndexOf(s, "?>") == k;
    assert StartsWith(s, "<?xml") by {
      assert s[..5] == XML_HEADER[..5];
    }
    assert s[..k + 1] == XML_HEADER[..|XML_HEADER| - 1];
    assert s[k + 2..] == body;
  }

  // The opening stream tag from the client

  /**
   * `data.substring(1, data.indexOf(" "))`: the tag name between the first character and
   * the first space; None for the StringIndexOutOfBoundsException when the first space is
   * missing or at index 0.
   */
  function TagNameOf(data: string): (r: Option<string>)
    ensures r.None? <==> IndexOf(data, " ") < 1
    ensures r.Some? ==> ' ' !in r.value && StartsWith(data[1..], r.value + " ")
  {
    var space := IndexOf(data, " ");
    if space < 1 then None
    else
      IndexOfIsFirst(data, " ");
      var name := data[1..space];
      assert forall i :: 0 <= i < |name| ==> !OccursAt(data, " ", i + 1) && name[i] == data[i + 1];
      assert data[1..][..|name| + 1] == name + " ";
      Some(name)
  }

  /** The tag name of an opening tag `<name attributes…` is `name`. */
  lemma TagNameOfOpeningTag(name: string, rest: string)
    requires ' ' !in name
    ensures TagNameOf("<" + name + " " + rest) == Some(name)
  {
    var data := "<" + name + " " + rest;
    assert data == ("<" + name) + [' '] + rest;
    IndexOfFirstChar("<" + name, ' ', rest);
    assert data[1..1 + |name|] == name;
  }

  /** The opening stream tag the gateway writes is recognised as `stream:stream`. */
  lemma TagNameOfStreamOpening(rest: string)
    ensures TagNameOf(STREAM_OPEN_PREFIX + rest) == Some("stream:stream")
  {
    assert STREAM_OPEN_PREFIX + rest == "<" + "stream:stream" + " " + rest;
    TagNameOfOpeningTag("stream:stream", rest);
  }

  // The XMPP server to connect to

  /** The host name and port the proxy connects to */
  datatype Endpoint = Endpoint(hostname: string, port: int)

  /**
   * The target of a new proxy: the `xmpphost` request parameter if one was given, with the
   * `xmppport` parameter only then and only if it is above -1; otherwise the alias of the
   * lower-cased `to` attribute if the alias table has one, otherwise `to` itself. The port
   * defaults to 5222. None stands for the NullPointerException on a missing `to`.
   */
  function ResolveTarget(hostParam: Option<string>, portParam: int, to: Option<string>, aliases: map<string, string>): (r: Option<Endpoint>)
    ensures r.None? <==> hostParam.None? && to.None?
    ensures r.Some? ==> r.value.port == if hostParam.Some? && portParam > -1 then portParam else DEFAULT_CLIENT_PORT
    ensures r.Some? && hostParam.Some? ==> r.value.hostname == hostParam.value
    ensures r.Some? && hostParam.None? && ToLowerCase(to.value) in aliases ==> r.value.hostname == aliases[ToLowerCase(to.value)]
    ensures r.Some? && hostParam.None? && ToLowerCase(to.value) !in aliases ==> r.value.hostname == to.value
  {
    if hostParam.Some? then
      Some(Endpoint(hostParam.value, if portParam > -1 then portParam else DEFAULT_CLIENT_PORT))
    else if to.None? then None
    else
      var key := ToLowerCase(to.value);
      Some(Endpoint(if key in aliases then aliases[key] else to.value, DEFAULT_CLIENT_PORT))
  }

  /** Aliases are looked up case-insensitively: `to` values that differ only in ASCII case resolve alike. */
  lemma {:induction false} AliasLookupIgnoresCase(to1: string, to2: string, aliases: map<string, string>)
    requires ToLowerCase(to1) == ToLowerCase(to2)
    requires ToLowerCase(to1) in aliases
    ensures ResolveTarget(None, -1, Some(to1), aliases) == ResolveTarget(None, -1, Some(to2), aliases)
  {
    var r1 := ResolveTarget(None, -1, Some(to1), aliases);
    var r2 := ResolveTarget(None, -1, Some(to2), aliases);
    assert r1.value.hostname == aliases[ToLowerCase(to1)] == r2.value.hostname;
  }

  /** A port Java's Socket accepts; any other makes it throw IllegalArgumentException */
  predicate IsSocketPort(port: int) {
    0 <= port <= 0xFFFF
  }

  /** How the HEADER_READ case ends: the stream opened (with the proxy it created, if any), or an exception */
  datatype Opening =
    | Opened(root: Element, created: Option<Endpoint>)
    | OpenFault(fault: HandlerFault)
    | OpenThrew(thrown: Thrown)

  /**
   * Creating the proxy for the stream root `root`: the target is resolved from the request
   * parameters and the root's `to`, its port must be a valid socket port, and the socket
   * must connect.
   */
  function ProxyOpening(root: Element, connect: (string, int) -> ConnectOutcome,
                        hostParam: Option<string>, portParam: int, aliases: map<string, string>): (o: Opening)
    ensures o == OpenThrew(NullPointer) <==> ResolveTarget(hostParam, portParam, GetAttribute(root, "to"), aliases).None?
    ensures o == OpenThrew(IllegalArgument)
            <==> ResolveTarget(hostParam, portParam, GetAttribute(root, "to"), aliases).Some?
                 && !IsSocketPort(ResolveTarget(hostParam, portParam, GetAttribute(root, "to"), aliases).value.port)
    ensures o.Opened? ==> o.root == root && o.created == ResolveTarget(hostParam, portParam, GetAttribute(root, "to"), aliases)
                          && o.created.Some? && IsSocketPort(o.created.value.port)
                          && connect(o.created.value.hostname, o.created.value.port) == SocketOpened
    ensures o.OpenFault? ==> o.fault.UnknownHostFault? || o.fault.IOFault?
    ensures o.OpenThrew? ==> o.thrown == NullPointer || o.thrown == IllegalArgument
    ensures var t := ResolveTarget(hostParam, portParam, GetAttribute(root, "to"), aliases);
            t.Some? && IsSocketPort(t.value.port) ==>
              && (connect(t.value.hostname, t.value.port) == SocketOpened ==> o == Opened(root, t))
              && (connect(t.value.hostname, t.value.port).HostUnknown? ==>
                    o == OpenFault(UnknownHostFault(connect(t.value.hostname, t.value.port).message)))
              && (connect(t.value.hostname, t.value.port).ConnectFailed? ==>
                    o == OpenFault(IOFault(connect(t.value.hostname, t.value.port).message)))
  {
    match ResolveTarget(hostParam, portParam, GetAttribute(root, "to"), aliases)
    case None => OpenThrew(NullPointer)
    case Some(target) =>
      if !IsSocketPort(target.port) then OpenThrew(IllegalArgument)
      else
        match connect(target.hostname, target.port)
        case HostUnknown(message) => OpenFault(UnknownHostFault(message))
        case ConnectFailed(message) => OpenFault(IOFault(message))
        case SocketOpened => Opened(root, Some(target))
  }

  /**
   * The HEADER_READ case for `payload`: the tag name is cut out, the payload is closed with
   * it and parsed as the stream root; a proxy is created only if there is none yet.
   */
  function OpenStreamOutcome(payload: string, parseRoot: string -> Parsed, connect: (string, int) -> ConnectOutcome,
                             proxy: Option<Endpoint>, hostParam: Option<string>, portParam: int,
                             aliases: map<string, string>): (o: Opening)
    ensures TagNameOf(payload).None? <==> o == OpenThrew(IndexOutOfBounds)
    ensures o.Opened? ==> parseRoot(payload + "</" + TagNameOf(payload).value + ">") == Parsed(o.root)
    ensures o.Opened? && proxy.Some? ==> o.created.None?
    ensures o.Opened? && proxy.None? ==> o.created == ResolveTarget(hostParam, portParam, GetAttribute(o.root, "to"), aliases)
                                         && o.created.Some? && IsSocketPort(o.created.value.port)
                                         && connect(o.created.value.hostname, o.created.value.port) == SocketOpened
    ensures o.OpenFault? ==> o.fault.SyntaxFault? || (proxy.None? && (o.fault.UnknownHostFault? || o.fault.IOFault?))
    ensures o.OpenThrew? && o.thrown != IndexOutOfBounds ==> proxy.None?
    ensures TagNameOf(payload).Some? ==>
              var root := parseRoot(payload + "</" + TagNameOf(payload).value + ">");
              && (root.SyntaxError? ==> o == OpenFault(SyntaxFault(root.message)))
              && (root.Parsed? && proxy.Some? ==> o == Opened(root.element, None))
              && (root.Parsed? && proxy.None? ==> o == ProxyOpening(root.element, connect, hostParam, portParam, aliases))
  {
    match TagNameOf(payload)
    case None => OpenThrew(IndexOutOfBounds)
    case Some(tagName) =>
      match parseRoot(payload + "</" + tagName + ">")
      case SyntaxError(message) => OpenFault(SyntaxFault(message))
      case Parsed(root) =>
        if proxy.Some? then Opened(root, None)
        else ProxyOpening(root, connect, hostParam, portParam, aliases)
  }

  // Caught exceptions and the stream errors they become

  /** The checked exceptions `onMessage` catches, with the message each carried */
  datatype HandlerFault =
    | SyntaxFault(message: Option<string>)
    | UnknownHostFault(message: Option<string>)
    | IOFault(message: Option<string>)
    | StreamFault(exception: StreamErrorException)

  /**
   * The error an `onMessage` catch block hands to `handleStreamError`: a syntax error is
   * not-well-formed, an unknown host is host-unknown (caught before any other IOException),
   * any other IOException is remote-connection-failed, and a StreamErrorException carries its own.
   */
  function CaughtError(f: HandlerFault): (e: StreamError)
    ensures f.StreamFault? ==> e == f.exception.GetStreamError()
    ensures !f.StreamFault? ==> IsStreamErrorCondition(e.code) && e.message == f.message
                                && e.language == Some("en") && !e.HasAppContent()
    ensures f.SyntaxFault? <==> e.code == ERROR_COND_XML_NOT_WELL_FORMED && !f.StreamFault?
    ensures f.UnknownHostFault? <==> e.code == ERROR_COND_HOST_UNKOWN && !f.StreamFault?
    ensures f.IOFault? <==> e.code == ERROR_COND_REMOTE_CONNECTION_FAILED && !f.StreamFault?
  {
    match f
    case SyntaxFault(m) => WithText(ERROR_COND_XML_NOT_WELL_FORMED, m, Some("en"))
    case UnknownHostFault(m) => WithText(ERROR_COND_HOST_UNKOWN, m, Some("en"))
    case IOFault(m) => WithText(ERROR_COND_REMOTE_CONNECTION_FAILED, m, Some("en"))
    case StreamFault(x) => x.GetStreamError()
  }

  /** What `onMessage` throws when no message is expected in the current state */
  function NoMessageExpected(): (x: StreamErrorException)
    ensures x.GetStreamError().code == ERROR_COND_UNDEFINIED_CONDITION
    ensures IsStreamErrorCondition(x.GetStreamError().code)
    ensures x.GetStreamError().HasMessage() && x.GetStreamError().language == Some("en")
  {
    FromText(ERROR_COND_UNDEFINIED_CONDITION,
             Some("No WebSockets message expected. The stream has already been closed!"), Some("en"))
  }

  /** The exceptions the proxy's `run` catches */
  datatype ProxyFault = ReadFailed(fault: ReadFault) | IllegalStateFault

  /**
   * The error a `run` catch block hands to `handleStreamError`: end of buffer and other I/O
   * errors are remote-connection-failed, a syntax error is invalid-xml with a fixed English
   * text, a timeout is connection-timeout and an illegal state is internal-server-error.
   */
  function ProxyError(f: ProxyFault): (e: StreamError)
    ensures IsStreamErrorCondition(e.code) && !e.HasAppContent()
    ensures e.HasMessage() <==> f == ReadFailed(XmlSyntax)
    ensures e.HasMessage() ==> e.language == Some("en")
    ensures e.code == ERROR_COND_REMOTE_CONNECTION_FAILED
            <==> f == ReadFailed(EndOfBuffer) || f == ReadFailed(IOFailure)
    ensures e.code == ERROR_COND_CONNECTION_TIMEOUT <==> f == ReadFailed(Timeout)
    ensures e.code == ERROR_COND_INTERNAL_SERVER_ERROR <==> f == IllegalStateFault
    ensures e.code == ERROR_COND_INVALID_XML <==> f == ReadFailed(XmlSyntax)
    ensures f == ReadFailed(XmlSyntax) ==> e.message == Some("Syntax error in xml stream!")
  {
    match f
    case ReadFailed(EndOfBuffer) => WithCode(ERROR_COND_REMOTE_CONNECTION_FAILED)
    case ReadFailed(XmlSyntax) => WithText(ERROR_COND_INVALID_XML, Some("Syntax error in xml stream!"), Some("en"))
    case ReadFailed(Timeout) => WithCode(ERROR_COND_CONNECTION_TIMEOUT)
    case ReadFailed(IOFailure) => WithCode(ERROR_COND_REMOTE_CONNECTION_FAILED)
    case IllegalStateFault => WithCode(ERROR_COND_INTERNAL_SERVER_ERROR)
  }

  /** What the proxy does with an element the server sent inside the stream */
  datatype Route =
    | Withheld               // TLS namespace: not forwarded to the client
    | ForwardedAfterReset    // SASL `success`: both stream states are reset, then it is forwarded
    | Forwarded              // anything else

  /**
   * The branches of the STREAM_OPENED case of `run`, tried in order: the TLS test first,
   * then the SASL one. As the two namespaces differ, neither test shadows the other.
   */
  function RouteOf(stanza: Element): (r: Route)
    ensures r == Withheld <==> AttributeIs(stanza, "xmlns", URN_TLS)
    ensures r == ForwardedAfterReset <==> AttributeIs(stanza, "xmlns", URN_SASL) && stanza.name == "success"
  {
    TlsAndSaslNamespacesDiffer();
    if AttributeIs(stanza, "xmlns", URN_TLS) then Withheld
    else if AttributeIs(stanza, "xmlns", URN_SASL) && stanza.name == "success" then ForwardedAfterReset
    else Forwarded
  }

  // handleStreamError

  /** What `handleStreamError` does: send one message, or throw */
  datatype Report = Sent(xml: string) | Threw(thrown: Thrown)

  /**
   * `handleStreamError(e)` in a handler whose flags and status are as given: IllegalState on a
   * closed stream, IllegalArgument for a code with no stream-error tag, NullPointer before the
   * handshake stored the connection, and otherwise the stream-error fragment.
   */
  function ErrorReport(closingTagSent: bool, status: int, openingTagSent: bool, connected: bool, e: StreamError): (r: Report)
    ensures r == Threw(IllegalState) <==> closingTagSent || status >= Rank(Disconnected)
    ensures r.Sent? <==> !closingTagSent && status < Rank(Disconnected) && IsStreamErrorCondition(e.code) && connected
    ensures r.Sent? ==> ErrorCodeOf(r.xml) == Some(e.code)
    ensures r.Sent? ==> EndsWith(r.xml, STREAM_CLOSE)
    ensures r.Sent? ==> (StartsWith(r.xml, STREAM_OPEN_BARE) <==> !openingTagSent)
  {
    if closingTagSent || status >= Rank(Disconnected) then Threw(IllegalState)
    else
      match ErrorCondTagName(e.code)
      case None => Threw(IllegalArgument)
      case Some(tag) =>
        if !connected then Threw(NullPointer)
        else
          StreamErrorXmlNamesCondition(openingTagSent, e.code, e);
          Sent(StreamErrorXml(openingTagSent, tag, e))
  }

  /**
   * What the client is sent after the read loop of `run`: the error report if one was
   * made, then the closing tag the gateway sends in the server's name unless the server
   * closed its stream itself
   */
  function CleanupMessages(report: Option<Report>, serverClosed: bool): (m: seq<ClientMessage>)
    ensures |m| <= 2
    ensures !serverClosed ==> |m| > 0 && m[|m| - 1] == TextMessage(STREAM_CLOSE)
    ensures serverClosed && (report.None? || report.value.Threw?) ==> m == []
  {
    (if report.Some? && report.value.Sent? then [TextMessage(report.value.xml)] else [])
    + (if serverClosed then [] else [TextMessage(STREAM_CLOSE)])
  }

  /**
   * After a stream error reported by `run`, while the server had not closed its stream,
   * the client is sent the stream's closing tag twice: once at the end of the error
   * fragment and once more on its own, as `forwardClosingTagToClient` does not look at
   * `closingTagSent`.
   */
  lemma ErrorCleanupClosesStreamTwice(closingTagSent: bool, status: int, openingTagSent: bool, connected: bool, f: ProxyFault)
    requires ErrorReport(closingTagSent, status, openingTagSent, connected, ProxyError(f)).Sent?
    ensures var r := ErrorReport(closingTagSent, status, openingTagSent, connected, ProxyError(f));
            var m := CleanupMessages(Some(r), false);
            |m| == 2 && m[0] == TextMessage(r.xml) && EndsWith(m[0].text, STREAM_CLOSE) && m[1] == TextMessage(STREAM_CLOSE)
  {
  }

  /** Once a stream error has been sent, any second one fails with IllegalState. */
  lemma {:induction false} SecondReportFails(status: int, openingTagSent: bool, connected: bool, e1: StreamError, e2: StreamError)
    requires ErrorReport(false, status, openingTagSent, connected, e1).Sent?
    ensures ErrorReport(true, status, openingTagSent, connected, e2) == Threw(IllegalState)
    ensures forall s :: ErrorReport(true, s, openingTagSent, connected, e2) == Threw(IllegalState)
  {
  }

  // getServername

  /** `getServername(printDedicatedClient)`: `host:port`, then ` (client host)` if asked for */
  function Servername(hostname: string, port: int, printDedicatedClient: bool, remoteHost: string): (r: string)
    ensures StartsWith(r, hostname + ":" + IntToString(port))
    ensures printDedicatedClient <==> |r| > |hostname| + 1 + |IntToString(port)|
  {
    var s := hostname + ":" + IntToString(port);
    assert (s + " (" + remoteHost + ")")[..|s|] == s;
    if printDedicatedClient then s + " (" + remoteHost + ")" else s
  }

  /** Reads host and port back from a server name: up to the first `:`, then up to the first space */
  function ServernameParts(name: string): Option<(string, int)> {
    var colon := IndexOf(name, ":");
    if colon < 0 then None
    else
      var rest := name[colon + 1..];
      var space := IndexOf(rest, " ");
      match ParseInt(Some(if space < 0 then rest else rest[..space]))
      case None => None
      case Some(port) => Some((name[..colon], port))
  }

  /** The decimal rendering of an `int` holds no space. */
  lemma NoSpaceInInt(n: int)
    ensures ' ' !in IntToString(n)
  {
    var s := IntToString(n);
    if n < 0 {
      assert s == "-" + NatToString(-n);
      assert forall i :: 1 <= i < |s| ==> s[i] == NatToString(-n)[i - 1];
    }
  }

  /** The port field of a server name, up to the first space or the end, parses back to the port. */
  lemma PortFieldReadBack(port: int, tail: string)
    requires IsInt32(port)
    requires tail == [] || tail[0] == ' '
    ensures var rest := IntToString(port) + tail;
            var space := IndexOf(rest, " ");
            ParseInt(Some(if space < 0 then rest else rest[..space])) == Some(port)
  {
    var digits := IntToString(port);
    var rest := digits + tail;
    NoSpaceInInt(port);
    if tail == [] {
      assert rest == digits;
      forall j
        ensures !OccursAt(rest, " ", j)
      {
        if 0 <= j < |rest| {
          assert rest[j] in digits;
        }
      }
      IndexOfIsFirst(rest, " ");
    } else {
      assert rest == digits + [' '] + tail[1..];
      IndexOfFirstChar(digits, ' ', tail[1..]);
      assert rest[..|digits|] == digits;
    }
    ParseIntRoundTrip(port);
  }

  /** A host name without `:` and its port can be read back from the server name, in both forms. */
  lemma {:induction false} ServernameReadBack(hostname: string, port: int, printDedicatedClient: bool, remoteHost: string)
    requires ':' !in hostname && IsInt32(port)
    ensures ServernameParts(Servername(hostname, port, printDedicatedClient, remoteHost)) == Some((hostname, port))
  {
    var digits := IntToString(port);
    var tail := if printDedicatedClient then " (" + remoteHost + ")" else "";
    var name := Servername(hostname, port, printDedicatedClient, remoteHost);
    assert name == hostname + [':'] + (digits + tail);
    IndexOfFirstChar(hostname, ':', digits + tail);
    assert name[|hostname| + 1..] == digits + tail;
    assert name[..|hostname|] == hostname;
    PortFieldReadBack(port, tail);
  }
}
