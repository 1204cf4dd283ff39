/**
 * WsXMPPConnectionHandler together with its inner WsXMPPProxy: one WebSocket client
 * bridged to one XMPP server. The proxy's fields live on the handler (its `wsProxy` is
 * `proxy`, the endpoint it connected to). Each WebSocket callback and each iteration of
 * the proxy's read loop is one atomic method call. What the handler sends is appended to
 * `toClient` (WebSocket messages) and `toServer` (XMLWriter calls).
 */
module Connection {
  import opened Wrappers
  import opened JavaText
  import opened ConnectionState
  import opened XmppConstants
  import opened StreamErrors
  import opened StreamErrorExceptions
  import opened Xml
  import opened Wire
  import opened HandlerRules

  /** What the gateway shares among handlers: the connected-sockets registry and the alias table */
  class Gateway {
    var connectedSockets: set<ConnectionHandler>
    /** Alias table, keyed by lower-cased host name */
    const aliases: map<string, string>

    constructor(aliases: map<string, string>)
      ensures connectedSockets == {} && this.aliases == aliases
    {
      connectedSockets := {};
      this.aliases := aliases;
    }
  }

  /** How one iteration of the proxy's read loop ended */
  datatype StepOutcome =
    | Continue                      // the loop tests its condition again
    | Caught(fault: ProxyFault)     // an exception `run` catches
    | Escaped(thrown: Thrown)       // an exception that ends the proxy thread without cleanup

  /** How the proxy thread's `run` ended, given the parser results it was fed */
  datatype RunExit =
    | Finished                      // the loop ended and the cleanup ran
    | Blocked                       // still reading: the supplied results ran out
    | Died(thrown: Thrown)          // an exception escaped `run`

  class ConnectionHandler {
    const gateway: Gateway
    /** `request.getRemoteHost()` */
    const remoteHost: string
    /** The `xmpphost` request parameter, None if absent */
    const xmppHostname: Option<string>
    /** The `xmppport` request parameter, -1 if absent or not a number */
    const xmppPort: int

    var iStatus: int
    /** `onHandshake` stored the WebSocket connection */
    var connection: bool
    /** `connection.disconnect()` was called */
    var disconnected: bool

    var openingTagSent: bool
    var closingTagSent: bool
    var clientSentHeader: bool
    var clientSentClosingTag: bool
    var serverSentClosingTag: bool
    var receivedElement: Option<Element>

    /** `wsProxy`: the endpoint of the proxy, None while it is null */
    var proxy: Option<Endpoint>
    /** The proxy's `iProxyStatus` */
    var proxyStatus: int
    /** The proxy's `serverSentHeader` */
    var serverSentHeader: bool
    /** The proxy's socket was closed */
    var socketClosed: bool

    var toClient: seq<ClientMessage>
    var toServer: seq<ServerWrite>

    ghost var proxiesCreated: nat
    ghost var teardowns: nat

    /**
     * The handler's invariant: the status is a defined state; the proxy needs a stored
     * connection and is created at most once; the states that read from the client
     * need the connection, those after the opening tag need the proxy; and the teardown
     * happens at most once, as the last step after both sides closed the stream.
     */
    ghost predicate Valid()
      reads this
    {
      && StateOf(iStatus).Some?
      && (proxy.Some? ==> connection)
      && (iStatus == Rank(HandshakeComplete) || iStatus == Rank(HeaderRead) ==> connection)
      && (iStatus >= Rank(StreamOpened) ==> proxy.Some?)
      && (!connection ==> iStatus == Rank(Connected))
      && (disconnected <==> iStatus == Rank(Disconnected))
      && (disconnected ==> proxyStatus == Rank(Disconnected) && socketClosed
                           && clientSentClosingTag && serverSentClosingTag)
      && (serverSentClosingTag ==> closingTagSent)
      && proxiesCreated == (if proxy.Some? then 1 else 0)
      && teardowns == (if disconnected then 1 else 0)
    }

    /**
     * `handleStreamError(e)` was called in status `status` with `closingTagSent` and the
     * client log as given, and did what `ErrorReport` says: sent the fragment and marked
     * the stream closed, or threw and changed nothing.
     */
    ghost predicate Reported(e: StreamError, status: int, closingBefore: bool, clientBefore: seq<ClientMessage>, thrown: Option<Thrown>)
      reads this
    {
      match ErrorReport(closingBefore, status, openingTagSent, connection, e)
      case Threw(t) => thrown == Some(t) && toClient == clientBefore && closingTagSent == closingBefore
      case Sent(xml) => thrown.None? && toClient == clientBefore + [TextMessage(xml)] && closingTagSent
    }

    /** `new WsXMPPConnectionHandler(request)` with the request's remote host and its two parameters */
    constructor(gateway: Gateway, remoteHost: string, hostParam: Option<string>, portParam: Option<string>)
      ensures Valid()
      ensures this.gateway == gateway && this.remoteHost == remoteHost
      ensures xmppHostname == hostParam
      ensures xmppPort == (if ParseInt(portParam).Some? then ParseInt(portParam).value else -1)
      ensures iStatus == Rank(Connected) && !connection && !disconnected
      ensures !openingTagSent && !closingTagSent && !clientSentHeader
      ensures !clientSentClosingTag && !serverSentClosingTag
      ensures proxy.None? && toClient == [] && toServer == []
      ensures receivedElement.None? && proxyStatus == UNSET && !serverSentHeader && !socketClosed
    {
      this.gateway := gateway;
      this.remoteHost := remoteHost;
      xmppHostname := hostParam;
      var port := ParseInt(portParam);
      xmppPort := if port.Some? then port.value else -1;
      iStatus := Rank(Connected);
      connection := false;
      disconnected := false;
      openingTagSent := false;
      closingTagSent := false;
      clientSentHeader := false;
      clientSentClosingTag := false;
      serverSentClosingTag := false;
      receivedElement := None;
      proxy := None;
      proxyStatus := UNSET;
      serverSentHeader := false;
      socketClosed := false;
      toClient := [];
      toServer := [];
      proxiesCreated := 0;
      teardowns := 0;
    }

    /** `sendMessage(message)`: one WebSocket text message to the client */
    method SendMessage(message: string)
      requires connection
      modifies this`toClient
      ensures toClient == old(toClient) + [TextMessage(message)]
    {
      toClient := toClient + [TextMessage(message)];
    }

    /** `sendStanza(stanza)`: the stanza's serialisation as one message to the client */
    method SendStanza(stanza: Element)
      requires connection
      modifies this`toClient
      ensures toClient == old(toClient) + [StanzaMessage(stanza)]
    {
      toClient := toClient + [StanzaMessage(stanza)];
    }

    /**
     * `handleStreamError(streamError)`: refuses a closed stream, then sends the error
     * fragment as one message and marks the stream closed by the gateway. The fragment
     * and the exceptions are those of `ErrorReport`.
     */
    method HandleStreamError(e: StreamError) returns (thrown: Option<Thrown>)
      modifies this`toClient, this`closingTagSent
      ensures Reported(e, iStatus, old(closingTagSent), old(toClient), thrown)
    {
      if closingTagSent || iStatus >= Rank(Disconnected) {
        return Some(IllegalState);
      }
      var tagName := ErrorCondTagName(e.code);
      if tagName.None? {
        return Some(IllegalArgument);
      }
      var xml := BuildStreamErrorXml(openingTagSent, tagName.value, e);
      if !connection {
        return Some(NullPointer);
      }
      SendMessage(xml);
      closingTagSent := true;
      thrown := None;
    }

    /** The `xml +=` accumulation of `handleStreamError`, for a condition written `tagName` */
    static method BuildStreamErrorXml(openingTagSent: bool, tagName: string, e: StreamError) returns (xml: string)
      ensures xml == StreamErrorXml(openingTagSent, tagName, e)
    {
      xml := "";
      if !openingTagSent {
        xml := xml + STREAM_OPEN_BARE;
      }
      xml := xml + ERROR_OPEN;
      var prefix := xml;
      assert prefix == (if openingTagSent then "" else STREAM_OPEN_BARE) + ERROR_OPEN;
      xml := xml + ("<" + tagName + " xmlns=\"" + ERROR_NS_URN + "\" />");
      xml := AppendTextElement(xml, e);
      if e.HasAppContent() {
        xml := xml + e.appContent.value;
      } else {
        assert xml == xml + AppContentText(e);
      }
      AppendAssoc(prefix, ConditionElement(tagName), TextElement(e), AppContentText(e));
      xml := xml + ERROR_CLOSE;
    }

    /** The `<text>` part of `handleStreamError`'s accumulation */
    static method AppendTextElement(xml: string, e: StreamError) returns (r: string)
      ensures r == xml + TextElement(e)
    {
      r := xml;
      if e.HasMessage() {
        r := r + ("<text xmlns=\"" + ERROR_NS_URN + "\"");
        if e.HasLanguage() {
          r := r + (" xml:lang=\"" + e.language.value + "\"");
        }
        r := r + (" >" + e.message.value + "</text>");
        ConcatAssoc(xml, TextOpen(), LangAttribute(e));
        ConcatAssoc(xml, TextOpen() + LangAttribute(e), TextClose(e.message.value));
      }
    }

    /** `onHandshake(connection)`: the framework stores the connection once, before anything else */
    method OnHandshake()
      requires Valid() && !connection
      modifies this`connection, this`iStatus
      ensures Valid()
      ensures connection && iStatus == Rank(HandshakeComplete)
    {
      connection := true;
      iStatus := Rank(HandshakeComplete);
    }

    /** `onOpen(connection)`: registers the handler with the gateway */
    method OnOpen()
      modifies gateway`connectedSockets
      ensures gateway.connectedSockets == old(gateway.connectedSockets) + {this}
    {
      gateway.connectedSockets := gateway.connectedSockets + {this};
    }

    /** `closeConnection()`: disconnects the client and leaves the registry */
    method CloseConnection()
      requires connection
      modifies this`disconnected, this`teardowns, this`iStatus, gateway`connectedSockets
      ensures disconnected && teardowns == old(teardowns) + 1
      ensures iStatus == Rank(Disconnected)
      ensures gateway.connectedSockets == old(gateway.connectedSockets) - {this}
    {
      disconnected := true;
      teardowns := teardowns + 1;
      iStatus := Rank(Disconnected);
      gateway.connectedSockets := gateway.connectedSockets - {this};
    }

    /** The handler's `resetStream()`: back to reading a header after TLS or SASL */
    method ResetStream()
      modifies this`iStatus
      ensures iStatus == Rank(HandshakeComplete)
    {
      iStatus := Rank(HandshakeComplete);
    }

    /** The proxy's `resetStream()`: resets the handler, then the proxy starts over at reading a header */
    method ProxyResetStream()
      modifies this`iStatus, this`proxyStatus
      ensures iStatus == Rank(HandshakeComplete)
      ensures proxyStatus == Rank(Connected)
    {
      ResetStream();
      proxyStatus := Rank(Connected);
    }

    /** The proxy's `forwardOpeningTagToServer(sendXmlHeader, root)`: the writer calls for the opening tag */
    method ForwardOpeningTagToServer(sendXmlHeader: bool, root: Element)
      modifies this`toServer
      ensures toServer == old(toServer) + OpeningTagWrites(sendXmlHeader, root.attributes)
    {
      var start := toServer;
      var head: seq<ServerWrite> := if sendXmlHeader then [Print(XML_HEADER)] else [];
      if sendXmlHeader {
        toServer := toServer + [Print(XML_HEADER)];
      }
      toServer := toServer + [Print(STREAM_OPEN_PREFIX)];
      var attrs := root.attributes;
      var i := 0;
      while i < |attrs|
        invariant 0 <= i <= |attrs|
        invariant toServer == start + head + [Print(STREAM_OPEN_PREFIX)] + AttributeWrites(attrs)[..i]
      {
        assert AttributeWrites(attrs)[..i + 1] == AttributeWrites(attrs)[..i] + [AttributeWrites(attrs)[i]];
        var value := ValueOf(attrs, attrs[i].0);
        toServer := toServer + [PrintAttribute(attrs[i].0, value)];
        i := i + 1;
      }
      assert AttributeWrites(attrs)[..i] == AttributeWrites(attrs);
      toServer := toServer + [Print(">")];
    }

    /** The proxy's `forwardOpeningTagToClient(sendXmlHeader, root)`: the opening tag as one message */
    method ForwardOpeningTagToClient(sendXmlHeader: bool, root: Element)
      requires connection
      modifies this`toClient, this`openingTagSent
      ensures toClient == old(toClient) + [TextMessage(OpeningTagXml(sendXmlHeader, root.attributes))]
      ensures openingTagSent
    {
      var xml := "";
      if sendXmlHeader {
        xml := xml + XML_HEADER;
      }
      xml := xml + STREAM_OPEN_PREFIX;
      assert xml == (if sendXmlHeader then XML_HEADER else "") + STREAM_OPEN_PREFIX;
      xml := AppendAttributes(xml, root.attributes);
      xml := xml + ">";
      assert xml == OpeningTagXml(sendXmlHeader, root.attributes);
      SendMessage(xml);
      openingTagSent := true;
    }

    /** The attribute loop of `forwardOpeningTagToClient`: each `name="value"`, nothing between them */
    static method AppendAttributes(xml: string, attrs: seq<(string, string)>) returns (r: string)
      ensures r == xml + AttributesText(Resolved(attrs))
    {
      r := xml;
      var pairs := Resolved(attrs);
      var i := 0;
      while i < |attrs|
        invariant 0 <= i <= |attrs|
        invariant r == xml + AttributesText(pairs[..i])
      {
        AttributesTextAppend(pairs[..i], [pairs[i]]);
        assert pairs[..i] + [pairs[i]] == pairs[..i + 1];
        assert AttributesText([pairs[i]]) == AttributeText(pairs[i]);
        ConcatAssoc(xml, AttributesText(pairs[..i]), AttributeText(pairs[i]));
        var value := ValueOf(attrs, attrs[i].0);
        r := r + (attrs[i].0 + "=\"" + value + "\"");
        i := i + 1;
      }
      assert pairs[..i] == pairs;
    }

    /** The proxy's `forwardStanzaToServer(stanza)` */
    method ForwardStanzaToServer(stanza: Element)
      modifies this`toServer
      ensures toServer == old(toServer) + [PrintElement(stanza)]
    {
      toServer := toServer + [PrintElement(stanza)];
    }

    /**
     * The proxy's `forwardClosingTagToServer()`: always writes the closing tag; tears the
     * connection down if and only if the server had already closed its stream.
     */
    method ForwardClosingTagToServer()
      requires connection
      modifies this`toServer, this`proxyStatus, this`socketClosed
      modifies this`disconnected, this`teardowns, this`iStatus, gateway`connectedSockets
      ensures toServer == old(toServer) + [Print(STREAM_CLOSE)]
      ensures old(serverSentClosingTag) ==> proxyStatus == Rank(Disconnected) && socketClosed
                                            && disconnected && teardowns == old(teardowns) + 1
                                            && iStatus == Rank(Disconnected)
                                            && gateway.connectedSockets == old(gateway.connectedSockets) - {this}
      ensures !old(serverSentClosingTag) ==> unchanged(this`proxyStatus, this`socketClosed, this`disconnected)
                                             && unchanged(this`teardowns, this`iStatus, gateway`connectedSockets)
    {
      toServer := toServer + [Print(STREAM_CLOSE)];
      if serverSentClosingTag {
        proxyStatus := Rank(StreamClosed);
        socketClosed := true;
        proxyStatus := Rank(Disconnected);
        CloseConnection();
      }
    }

    /**
     * The proxy's `forwardClosingTagToClient()`: always sends the closing tag and marks the
     * stream closed by the gateway, without looking at `closingTagSent`; tears the connection
     * down if and only if the client had already closed its stream.
     */
    method ForwardClosingTagToClient()
      requires connection
      modifies this`toClient, this`closingTagSent, this`proxyStatus, this`socketClosed
      modifies this`disconnected, this`teardowns, this`iStatus, gateway`connectedSockets
      ensures toClient == old(toClient) + [TextMessage(STREAM_CLOSE)] && closingTagSent
      ensures old(clientSentClosingTag) ==> proxyStatus == Rank(Disconnected) && socketClosed
                                            && disconnected && teardowns == old(teardowns) + 1
                                            && iStatus == Rank(Disconnected)
                                            && gateway.connectedSockets == old(gateway.connectedSockets) - {this}
      ensures !old(clientSentClosingTag) ==> unchanged(this`proxyStatus, this`socketClosed, this`disconnected)
                                             && unchanged(this`teardowns, this`iStatus, gateway`connectedSockets)
    {
      SendMessage(STREAM_CLOSE);
      closingTagSent := true;
      if clientSentClosingTag {
        proxyStatus := Rank(StreamClosed);
        socketClosed := true;
        proxyStatus := Rank(Disconnected);
        CloseConnection();
      }
    }

    /**
     * `onClose(code, message)`: the client went away. Unless it had closed its stream
     * already, the handler does so in its name and forwards that to a proxy if there is one.
     */
    method OnClose()
      requires Valid()
      modifies this`clientSentClosingTag, this`toServer, this`proxyStatus, this`socketClosed
      modifies this`disconnected, this`teardowns, this`iStatus, gateway`connectedSockets
      ensures Valid()
      ensures clientSentClosingTag
      ensures toServer == if !old(clientSentClosingTag) && old(proxy).Some? then old(toServer) + [Print(STREAM_CLOSE)] else old(toServer)
      ensures if !old(clientSentClosingTag) && old(proxy).Some? && old(serverSentClosingTag)
              then && iStatus == Rank(Disconnected) && disconnected && proxyStatus == Rank(Disconnected) && socketClosed
                   && gateway.connectedSockets == old(gateway.connectedSockets) - {this}
              else unchanged(this`iStatus, this`disconnected, this`proxyStatus, this`socketClosed, gateway`connectedSockets)
    {
      if !clientSentClosingTag {
        clientSentClosingTag := true;
        if proxy.Some? {
          ForwardClosingTagToServer();
        }
      }
    }

    /**
     * How the HEADER_READ case of `onMessage` left the proxy side, the logs and the status
     * for the opening `o`: opened and forwarded, threw and changed nothing, or reported the
     * caught fault and changed nothing else.
     */
    twostate predicate HeaderReadHandled(o: Opening, new thrown: Option<Thrown>)
      reads this
    {
      match o
      case Opened(root, created) =>
        && thrown.None? && iStatus == Rank(StreamOpened) && unchanged(this`toClient, this`closingTagSent)
        && toServer == old(toServer) + OpeningTagWrites(clientSentHeader, root.attributes)
        && if created.Some? then proxy == created && proxyStatus == Rank(Connected) && !serverSentHeader && !socketClosed
           else unchanged(this`proxy, this`proxyStatus, this`serverSentHeader, this`socketClosed)
      case OpenThrew(t) =>
        && thrown == Some(t) && iStatus == Rank(HeaderRead) && unchanged(this`toClient, this`closingTagSent, this`toServer)
        && unchanged(this`proxy, this`proxyStatus, this`serverSentHeader, this`socketClosed)
      case OpenFault(f) =>
        && iStatus == Rank(HeaderRead) && unchanged(this`toServer)
        && unchanged(this`proxy, this`proxyStatus, this`serverSentHeader, this`socketClosed)
        && Reported(CaughtError(f), Rank(HeaderRead), old(closingTagSent), old(toClient), thrown)
    }

    /**
     * How the STREAM_OPENED case of `onMessage` left the handler for `payload`, parsed as
     * `parsed` if it is not the closing tag: the closing tag closes the client's side and
     * is forwarded, tearing down if the server had closed; a stanza is recorded and
     * forwarded; a syntax error is reported and changes nothing else.
     */
    twostate predicate StreamOpenedHandled(payload: string, parsed: Parsed, new thrown: Option<Thrown>)
      reads this
    {
      if payload == STREAM_CLOSE then
        && thrown.None? && clientSentClosingTag && unchanged(this`receivedElement, this`toClient, this`closingTagSent)
        && toServer == old(toServer) + [Print(STREAM_CLOSE)]
        && if old(serverSentClosingTag) then iStatus == Rank(Disconnected) && disconnected && proxyStatus == Rank(Disconnected) && socketClosed
           else iStatus == Rank(StreamClosed) && unchanged(this`disconnected, this`proxyStatus, this`socketClosed)
      else
        && unchanged(this`clientSentClosingTag, this`iStatus, this`disconnected, this`proxyStatus, this`socketClosed)
        && match parsed
           case Parsed(stanza) =>
             && thrown.None? && receivedElement == Some(stanza) && toServer == old(toServer) + [PrintElement(stanza)]
             && unchanged(this`toClient, this`closingTagSent)
           case SyntaxError(message) =>
             && unchanged(this`receivedElement, this`toServer)
             && Reported(CaughtError(SyntaxFault(message)), Rank(StreamOpened), old(closingTagSent), old(toClient), thrown)
    }

    /**
     * `onMessage(data)`: dispatches on the status, falling through from HANDSHAKE_COMPLETE
     * to HEADER_READ unless the header was all there was; any other status is an
     * undefined-condition error.
     * Caught exceptions become a stream error; uncaught ones are returned in `thrown`.
     */
    method OnMessage(data: string, parseRoot: string -> Parsed, parseStanza: string -> Parsed,
                     connect: (string, int) -> ConnectOutcome) returns (thrown: Option<Thrown>)
      requires Valid()
      modifies this`iStatus, this`clientSentHeader, this`proxy, this`proxyStatus, this`serverSentHeader
      modifies this`socketClosed, this`proxiesCreated, this`toServer, this`toClient, this`closingTagSent
      modifies this`clientSentClosingTag, this`receivedElement, this`disconnected, this`teardowns
      modifies gateway`connectedSockets
      ensures Valid()
      ensures gateway.connectedSockets == if disconnected && !old(disconnected) then old(gateway.connectedSockets) - {this}
                                          else old(gateway.connectedSockets)
      ensures old(iStatus) == Rank(HandshakeComplete)
              ==> && clientSentHeader == (old(clientSentHeader) || HasXmlHeader(data))
                  && if ClientPayload(data) == "" then
                       && thrown.None? && iStatus == Rank(HeaderRead) && unchanged(this`toClient, this`closingTagSent, this`toServer)
                       && unchanged(this`proxy, this`proxyStatus, this`serverSentHeader, this`socketClosed)
                     else HeaderReadHandled(OpenStreamOutcome(ClientPayload(data), parseRoot, connect, old(proxy),
                                                              xmppHostname, xmppPort, gateway.aliases), thrown)
      ensures old(iStatus) == Rank(HeaderRead)
              ==> && unchanged(this`clientSentHeader)
                  && HeaderReadHandled(OpenStreamOutcome(data, parseRoot, connect, old(proxy), xmppHostname, xmppPort, gateway.aliases),
                                       thrown)
      ensures old(iStatus) == Rank(HandshakeComplete) || old(iStatus) == Rank(HeaderRead)
              ==> unchanged(this`clientSentClosingTag, this`receivedElement, this`disconnected, gateway`connectedSockets)
      ensures old(iStatus) == Rank(StreamOpened)
              ==> && StreamOpenedHandled(data, parseStanza(data), thrown)
                  && unchanged(this`clientSentHeader, this`proxy, this`serverSentHeader)
      ensures old(iStatus) == Rank(StreamClosed) ==> thrown.None? && unchanged(this, gateway`connectedSockets)
      ensures old(iStatus) == Rank(Connected) || old(iStatus) == Rank(Disconnected)
              ==> && Reported(NoMessageExpected().GetStreamError(), old(iStatus), old(closingTagSent), old(toClient), thrown)
                  && unchanged(this`iStatus, this`clientSentHeader, this`proxy, this`proxyStatus, this`serverSentHeader)
                  && unchanged(this`socketClosed, this`toServer, this`clientSentClosingTag, this`receivedElement)
                  && unchanged(this`disconnected, gateway`connectedSockets)
    {
      if iStatus == Rank(HandshakeComplete) {
        thrown := HandshakeCompleteCase(data, parseRoot, connect);
      } else if iStatus == Rank(HeaderRead) {
        thrown := HeaderReadCase(data, parseRoot, connect);
      } else if iStatus == Rank(StreamOpened) {
        thrown := StreamOpenedCase(data, parseStanza);
      } else if iStatus == Rank(StreamClosed) {
        // no message is expected once the client closed the stream
        thrown := None;
      } else {
        thrown := RejectMessage();
      }
    }

    /** The `default` case of `onMessage` with its catch block: no message is expected in this status */
    method RejectMessage() returns (thrown: Option<Thrown>)
      requires Valid()
      modifies this`toClient, this`closingTagSent
      ensures Valid()
      ensures unchanged(this`iStatus, this`clientSentHeader, this`proxy, this`proxyStatus, this`serverSentHeader)
      ensures unchanged(this`socketClosed, this`toServer, this`clientSentClosingTag, this`receivedElement)
      ensures unchanged(this`disconnected, gateway`connectedSockets)
      ensures Reported(NoMessageExpected().GetStreamError(), iStatus, old(closingTagSent), old(toClient), thrown)
    {
      thrown := HandleStreamError(CaughtError(StreamFault(NoMessageExpected())));
    }

    /**
     * The HANDSHAKE_COMPLETE case: strips an XML header, moves to HEADER_READ and, unless
     * nothing is left of the message, falls through to the HEADER_READ case.
     */
    method HandshakeCompleteCase(data: string, parseRoot: string -> Parsed, connect: (string, int) -> ConnectOutcome)
      returns (thrown: Option<Thrown>)
      requires Valid() && iStatus == Rank(HandshakeComplete)
      modifies this`proxy, this`proxyStatus, this`serverSentHeader, this`socketClosed, this`proxiesCreated
      modifies this`toServer, this`iStatus, this`toClient, this`closingTagSent, this`clientSentHeader
      ensures Valid()
      ensures unchanged(this`clientSentClosingTag, this`receivedElement, this`disconnected, gateway`connectedSockets)
      ensures clientSentHeader == (old(clientSentHeader) || HasXmlHeader(data))
      ensures if ClientPayload(data) == "" then
                && thrown.None? && iStatus == Rank(HeaderRead) && unchanged(this`toClient, this`closingTagSent, this`toServer)
                && unchanged(this`proxy, this`proxyStatus, this`serverSentHeader, this`socketClosed)
              else HeaderReadHandled(OpenStreamOutcome(ClientPayload(data), parseRoot, connect, old(proxy),
                                                       xmppHostname, xmppPort, gateway.aliases), thrown)
    {
      var payload := ReadClientHeader(data);
      thrown := None;
      if payload != "" {
        thrown := HeaderReadCase(payload, parseRoot, connect);
      }
    }

    /** The HEADER_READ case together with the catch blocks for what it raises */
    method HeaderReadCase(payload: string, parseRoot: string -> Parsed, connect: (string, int) -> ConnectOutcome)
      returns (thrown: Option<Thrown>)
      requires Valid() && iStatus == Rank(HeaderRead)
      modifies this`proxy, this`proxyStatus, this`serverSentHeader, this`socketClosed, this`proxiesCreated
      modifies this`toServer, this`iStatus, this`toClient, this`closingTagSent
      ensures Valid()
      ensures unchanged(this`clientSentClosingTag, this`receivedElement, this`disconnected, gateway`connectedSockets)
      ensures unchanged(this`clientSentHeader)
      ensures HeaderReadHandled(OpenStreamOutcome(payload, parseRoot, connect, old(proxy), xmppHostname, xmppPort, gateway.aliases),
                                thrown)
    {
      var fault;
      fault, thrown := OpenStream(payload, parseRoot, connect);
      if fault.Some? {
        thrown := HandleStreamError(CaughtError(fault.value));
      }
    }

    /** The STREAM_OPENED case together with the catch blocks for what it raises */
    method StreamOpenedCase(payload: string, parseStanza: string -> Parsed) returns (thrown: Option<Thrown>)
      requires Valid() && iStatus == Rank(StreamOpened)
      modifies this`clientSentClosingTag, this`receivedElement, this`toServer, this`proxyStatus, this`socketClosed
      modifies this`disconnected, this`teardowns, this`iStatus, gateway`connectedSockets
      modifies this`toClient, this`closingTagSent
      ensures Valid()
      ensures unchanged(this`clientSentHeader, this`proxy, this`serverSentHeader)
      ensures gateway.connectedSockets == if disconnected && !old(disconnected) then old(gateway.connectedSockets) - {this}
                                          else old(gateway.connectedSockets)
      ensures StreamOpenedHandled(payload, parseStanza(payload), thrown)
    {
      var fault := ReceiveInStream(payload, parseStanza);
      thrown := None;
      if fault.Some? {
        thrown := HandleStreamError(CaughtError(fault.value));
      }
    }

    /** The HANDSHAKE_COMPLETE case: strips an XML header if the message starts with one */
    method ReadClientHeader(data: string) returns (payload: string)
      modifies this`clientSentHeader, this`iStatus
      ensures payload == ClientPayload(data)
      ensures clientSentHeader == (old(clientSentHeader) || HasXmlHeader(data))
      ensures iStatus == Rank(HeaderRead)
    {
      payload := data;
      var headerEnd := IndexOf(data, "?>") + 1;
      if StartsWith(data, "<?xml") && headerEnd > 0 {
        clientSentHeader := true;
        // readXmlHeader reads the header up to its `?>` and checks nothing in it
        ghost var header := data[..headerEnd];
        assert headerEnd == HeaderEnd(data) && header == ExtractedHeader(data);
        payload := Trim(data[headerEnd + 1..]);
      }
      iStatus := Rank(HeaderRead);
    }

    /**
     * The HEADER_READ case: parses the opening tag, creates the proxy if there is none,
     * forwards the opening tag to the server and moves to STREAM_OPENED.
     */
    method OpenStream(payload: string, parseRoot: string -> Parsed, connect: (string, int) -> ConnectOutcome)
      returns (fault: Option<HandlerFault>, thrown: Option<Thrown>)
      requires Valid() && iStatus == Rank(HeaderRead)
      modifies this`proxy, this`proxyStatus, this`serverSentHeader, this`socketClosed, this`proxiesCreated
      modifies this`toServer, this`iStatus
      ensures Valid()
      ensures var o := OpenStreamOutcome(payload, parseRoot, connect, old(proxy), xmppHostname, xmppPort, gateway.aliases);
              && (o.Opened? ==> && fault.None? && thrown.None? && iStatus == Rank(StreamOpened)
                                && toServer == old(toServer) + OpeningTagWrites(clientSentHeader, o.root.attributes))
              && (o.Opened? && o.created.Some? ==> && proxy == o.created && proxyStatus == Rank(Connected)
                                                   && !serverSentHeader && !socketClosed)
              && (o.OpenFault? ==> fault == Some(o.fault) && thrown.None?)
              && (o.OpenThrew? ==> fault.None? && thrown == Some(o.thrown))
              && (!o.Opened? ==> iStatus == Rank(HeaderRead) && unchanged(this`toServer))
              && (!o.Opened? || o.created.None? ==> unchanged(this`proxy, this`proxyStatus, this`serverSentHeader, this`socketClosed))
    {
      // the result of `data.trim()` is discarded
      var tagName := TagNameOf(payload);
      if tagName.None? {
        return None, Some(IndexOutOfBounds);
      }
      var parsed := parseRoot(payload + "</" + tagName.value + ">");
      if parsed.SyntaxError? {
        return Some(SyntaxFault(parsed.message)), None;
      }
      var root := parsed.element;
      if proxy.None? {
        fault, thrown := CreateProxy(root, connect);
        if fault.Some? || thrown.Some? {
          return;
        }
      }
      ForwardOpeningTagToServer(clientSentHeader, root);
      iStatus := Rank(StreamOpened);
      fault, thrown := None, None;
    }

    /**
     * `new WsXMPPProxy(hostname, port, root)` for the resolved target: the proxy exists
     * afterwards if and only if the socket connected, and it starts out CONNECTED.
     */
    method CreateProxy(root: Element, connect: (string, int) -> ConnectOutcome)
      returns (fault: Option<HandlerFault>, thrown: Option<Thrown>)
      requires Valid() && iStatus == Rank(HeaderRead) && proxy.None?
      modifies this`proxy, this`proxyStatus, this`serverSentHeader, this`socketClosed, this`proxiesCreated
      ensures Valid()
      ensures var o := ProxyOpening(root, connect, xmppHostname, xmppPort, gateway.aliases);
              && (o.Opened? ==> && fault.None? && thrown.None? && proxiesCreated == old(proxiesCreated) + 1
                                && proxy == o.created && proxyStatus == Rank(Connected) && !serverSentHeader && !socketClosed)
              && (o.OpenFault? ==> fault == Some(o.fault) && thrown.None?)
              && (o.OpenThrew? ==> fault.None? && thrown == Some(o.thrown))
              && (!o.Opened? ==> unchanged(this`proxy, this`proxyStatus, this`serverSentHeader, this`socketClosed, this`proxiesCreated))
    {
      fault, thrown := None, None;
      var target := ResolveTarget(xmppHostname, xmppPort, GetAttribute(root, "to"), gateway.aliases);
      if target.None? {
        return None, Some(NullPointer);
      }
      if !IsSocketPort(target.value.port) {
        return None, Some(IllegalArgument);
      }
      var outcome := connect(target.value.hostname, target.value.port);
      if outcome.HostUnknown? {
        return Some(UnknownHostFault(outcome.message)), None;
      } else if outcome.ConnectFailed? {
        return Some(IOFault(outcome.message)), None;
      }
      proxy := target;
      proxiesCreated := proxiesCreated + 1;
      proxyStatus := Rank(Connected);
      serverSentHeader := false;
      socketClosed := false;
    }

    /**
     * The STREAM_OPENED case: the client's closing tag closes its side of the stream,
     * anything else is parsed as a stanza and forwarded to the server.
     */
    method ReceiveInStream(payload: string, parseStanza: string -> Parsed) returns (fault: Option<HandlerFault>)
      requires Valid() && iStatus == Rank(StreamOpened)
      modifies this`clientSentClosingTag, this`receivedElement, this`toServer, this`proxyStatus, this`socketClosed
      modifies this`disconnected, this`teardowns, this`iStatus, gateway`connectedSockets
      ensures Valid()
      ensures gateway.connectedSockets == if disconnected && !old(disconnected) then old(gateway.connectedSockets) - {this}
                                          else old(gateway.connectedSockets)
      ensures payload == STREAM_CLOSE
              ==> && fault.None? && clientSentClosingTag && unchanged(this`receivedElement)
                  && toServer == old(toServer) + [Print(STREAM_CLOSE)]
                  && if old(serverSentClosingTag) then iStatus == Rank(Disconnected) && disconnected && proxyStatus == Rank(Disconnected) && socketClosed
                     else iStatus == Rank(StreamClosed) && unchanged(this`disconnected, this`proxyStatus, this`socketClosed)
      ensures payload != STREAM_CLOSE
              ==> unchanged(this`clientSentClosingTag, this`iStatus, this`disconnected, this`proxyStatus, this`socketClosed)
      ensures payload != STREAM_CLOSE && parseStanza(payload).Parsed?
              ==> fault.None? && receivedElement == Some(parseStanza(payload).element)
                  && toServer == old(toServer) + [PrintElement(parseStanza(payload).element)]
      ensures payload != STREAM_CLOSE && parseStanza(payload).SyntaxError?
              ==> fault == Some(SyntaxFault(parseStanza(payload).message)) && unchanged(this`receivedElement, this`toServer)
    {
      fault := None;
      if payload == STREAM_CLOSE {
        clientSentClosingTag := true;
        iStatus := Rank(StreamClosed);
        ForwardClosingTagToServer();
      } else {
        var parsed := parseStanza(payload);
        if parsed.SyntaxError? {
          return Some(SyntaxFault(parsed.message));
        }
        receivedElement := Some(parsed.element);
        ForwardStanzaToServer(parsed.element);
      }
    }

    /**
     * The fields of the handler a step of the proxy's read loop may change all hold what
     * they held before the step, except as the arguments say: the client log is
     * `client`, the two opening-tag flags are `opening` and `serverHeader`, and the two
     * statuses are `status` and `proxyStatusNow`.
     */
    twostate predicate StepLeaves(client: seq<ClientMessage>, opening: bool, serverHeader: bool, status: int, proxyStatusNow: int)
      reads this
    {
      && toClient == client && openingTagSent == opening && serverSentHeader == serverHeader
      && iStatus == status && proxyStatus == proxyStatusNow
      && unchanged(this`closingTagSent, this`serverSentClosingTag, this`socketClosed, this`disconnected)
    }

    /**
     * How the STREAM_OPENED case of `run` left the handler for the read `next`, when the
     * earlier cases of the step had left the client log `client` and the flags `opening`
     * and `serverHeader`: a failed read is caught and a missing element that is not the
     * end of the stream is a NullPointerException, both changing nothing more; the server's
     * closing tag is passed on, tearing down if the client had closed; a TLS element is
     * withheld, a SASL `success` resets both stream states and is still forwarded, and
     * anything else is forwarded.
     */
    twostate predicate NextHandled(next: NextRead, client: seq<ClientMessage>, opening: bool, serverHeader: bool,
                                   outcome: StepOutcome)
      reads this
    {
      match next
      case NextFailed(f) =>
        outcome == Caught(ReadFailed(f)) && StepLeaves(client, opening, serverHeader, old(iStatus), Rank(StreamOpened))
      case NoElement =>
        outcome == Escaped(NullPointer) && StepLeaves(client, opening, serverHeader, old(iStatus), Rank(StreamOpened))
      case RootClosed =>
        && outcome == Continue && toClient == client + [TextMessage(STREAM_CLOSE)]
        && openingTagSent == opening && serverSentHeader == serverHeader && closingTagSent && serverSentClosingTag
        && if clientSentClosingTag then iStatus == Rank(Disconnected) && disconnected && proxyStatus == Rank(Disconnected) && socketClosed
           else && iStatus == old(iStatus) && proxyStatus == Rank(StreamOpened)
                && unchanged(this`disconnected, this`socketClosed)
      case NextElement(stanza) =>
        && outcome == Continue
        && match RouteOf(stanza)
           case Withheld => StepLeaves(client, opening, serverHeader, old(iStatus), Rank(StreamOpened))
           case ForwardedAfterReset =>
             StepLeaves(client + [StanzaMessage(stanza)], opening, serverHeader, Rank(HandshakeComplete), Rank(Connected))
           case Forwarded =>
             StepLeaves(client + [StanzaMessage(stanza)], opening, serverHeader, old(iStatus), Rank(StreamOpened))
    }

    /**
     * How the HEADER_READ case of `run` and what falls through from it left the handler,
     * with the header flag `serverHeader` set by the CONNECTED case: a failed root read is
     * caught; otherwise the server's opening tag went to the client, with the header hint,
     * before the next element was read.
     */
    twostate predicate RootHandled(it: Iteration, serverHeader: bool, outcome: StepOutcome)
      reads this
    {
      match it.root
      case RootFailed(f) =>
        && outcome == Caught(ReadFailed(f))
        && StepLeaves(old(toClient), old(openingTagSent), serverHeader, old(iStatus), Rank(HeaderRead))
      case RootOpened(root) =>
        NextHandled(it.next, old(toClient) + [TextMessage(OpeningTagXml(serverHeader, root.attributes))], true, serverHeader, outcome)
    }

    /**
     * How the CONNECTED case of `run` and what falls through from it left the handler: a
     * failed header read is caught; a header sets `serverSentHeader`, its absence leaves it.
     */
    twostate predicate HeaderHandled(it: Iteration, outcome: StepOutcome)
      reads this
    {
      match it.header
      case HeaderFailed(f) =>
        && outcome == Caught(ReadFailed(f))
        && StepLeaves(old(toClient), old(openingTagSent), old(serverSentHeader), old(iStatus), Rank(Connected))
      case HeaderPresent => RootHandled(it, true, outcome)
      case NoHeader => RootHandled(it, old(serverSentHeader), outcome)
    }

    /**
     * One iteration of the proxy's read loop over the parser results `it`: the `switch` on
     * the proxy status, falling through from CONNECTED to HEADER_READ to STREAM_OPENED. The
     * proxy is never replaced and nothing is written to the server.
     */
    method Step(it: Iteration) returns (outcome: StepOutcome)
      requires Valid() && proxy.Some? && proxyStatus < Rank(Disconnected)
      modifies this`proxyStatus, this`serverSentHeader, this`openingTagSent, this`toClient, this`iStatus
      modifies this`closingTagSent, this`serverSentClosingTag, this`socketClosed, this`disconnected, this`teardowns
      modifies gateway`connectedSockets
      ensures Valid()
      ensures gateway.connectedSockets == if disconnected then old(gateway.connectedSockets) - {this} else old(gateway.connectedSockets)
      ensures old(proxyStatus) == Rank(Connected) ==> HeaderHandled(it, outcome)
      ensures old(proxyStatus) == Rank(HeaderRead) ==> RootHandled(it, old(serverSentHeader), outcome)
      ensures old(proxyStatus) == Rank(StreamOpened)
              ==> NextHandled(it.next, old(toClient), old(openingTagSent), old(serverSentHeader), outcome)
      ensures old(proxyStatus) == Rank(StreamClosed)
              ==> && outcome == Continue && proxyStatus == Rank(Disconnected) && socketClosed
                  && unchanged(this`toClient, this`openingTagSent, this`serverSentHeader, this`iStatus)
                  && unchanged(this`closingTagSent, this`serverSentClosingTag, this`disconnected)
      ensures StateOf(old(proxyStatus)) !in {Some(Connected), Some(HeaderRead), Some(StreamOpened), Some(StreamClosed)}
              ==> && outcome == Caught(IllegalStateFault)
                  && StepLeaves(old(toClient), old(openingTagSent), old(serverSentHeader), old(iStatus), old(proxyStatus))
    {
      if proxyStatus == Rank(Connected) {
        outcome := ServerConnectedCase(it);
      } else if proxyStatus == Rank(HeaderRead) {
        outcome := ServerHeaderReadCase(it);
      } else if proxyStatus == Rank(StreamOpened) {
        outcome := ServerStreamOpenedCase(it.next);
      } else if proxyStatus == Rank(StreamClosed) {
        socketClosed := true;
        proxyStatus := Rank(Disconnected);
        outcome := Continue;
      } else {
        // the `default` branch: IllegalStateException, caught by `run`
        outcome := Caught(IllegalStateFault);
      }
    }

    /** The CONNECTED case of `run`: reads the server's XML header, if any, then falls through */
    method ServerConnectedCase(it: Iteration) returns (outcome: StepOutcome)
      requires Valid() && proxy.Some? && proxyStatus == Rank(Connected)
      modifies this`serverSentHeader, this`proxyStatus, this`openingTagSent, this`toClient, this`iStatus
      modifies this`closingTagSent, this`serverSentClosingTag, this`socketClosed, this`disconnected, this`teardowns
      modifies gateway`connectedSockets
      ensures Valid()
      ensures gateway.connectedSockets == if disconnected then old(gateway.connectedSockets) - {this} else old(gateway.connectedSockets)
      ensures HeaderHandled(it, outcome)
    {
      match it.header {
        case HeaderFailed(f) =>
          return Caught(ReadFailed(f));
        case HeaderPresent =>
          serverSentHeader := true;
        case NoHeader =>
          // XMLNoHeaderException: the parser goes on without a header
      }
      proxyStatus := Rank(HeaderRead);
      outcome := ServerHeaderReadCase(it);
    }

    /** The HEADER_READ case of `run`: opens the server's stream, passes its opening tag on, then falls through */
    method ServerHeaderReadCase(it: Iteration) returns (outcome: StepOutcome)
      requires Valid() && proxy.Some? && proxyStatus == Rank(HeaderRead)
      modifies this`proxyStatus, this`openingTagSent, this`toClient, this`iStatus
      modifies this`closingTagSent, this`serverSentClosingTag, this`socketClosed, this`disconnected, this`teardowns
      modifies gateway`connectedSockets
      ensures Valid()
      ensures gateway.connectedSockets == if disconnected then old(gateway.connectedSockets) - {this} else old(gateway.connectedSockets)
      ensures RootHandled(it, old(serverSentHeader), outcome)
    {
      if it.root.RootFailed? {
        return Caught(ReadFailed(it.root.fault));
      }
      var root := it.root.root;
      proxyStatus := Rank(StreamOpened);
      ForwardOpeningTagToClient(serverSentHeader, root);
      outcome := ServerStreamOpenedCase(it.next);
    }

    /** The STREAM_OPENED case of `run`: one element from the server */
    method ServerStreamOpenedCase(next: NextRead) returns (outcome: StepOutcome)
      requires Valid() && proxy.Some? && proxyStatus == Rank(StreamOpened)
      modifies this`proxyStatus, this`toClient, this`iStatus
      modifies this`closingTagSent, this`serverSentClosingTag, this`socketClosed, this`disconnected, this`teardowns
      modifies gateway`connectedSockets
      ensures Valid()
      ensures gateway.connectedSockets == if disconnected then old(gateway.connectedSockets) - {this} else old(gateway.connectedSockets)
      ensures NextHandled(next, old(toClient), old(openingTagSent), old(serverSentHeader), outcome)
    {
      match next {
        case NextFailed(f) =>
          outcome := Caught(ReadFailed(f));
        case NoElement =>
          // `stanza.hasAttribute` on a null stanza
          outcome := Escaped(NullPointer);
        case RootClosed =>
          serverSentClosingTag := true;
          ForwardClosingTagToClient();
          outcome := Continue;
        case NextElement(stanza) =>
          outcome := Continue;
          if AttributeIs(stanza, "xmlns", URN_TLS) {
            // not forwarded to the client
            return;
          }
          if AttributeIs(stanza, "xmlns", URN_SASL) && stanza.name == "success" {
            ProxyResetStream();
          }
          SendStanza(stanza);
      }
    }

    /**
     * What follows the read loop of `run`: a caught exception is first reported as a stream
     * error; then the socket is closed, the proxy is DISCONNECTED and, unless the server
     * closed its stream, the gateway closes it towards the client, without looking at
     * `closingTagSent`. An exception `handleStreamError` throws escapes and skips all of that.
     */
    method FinishRun(caught: Option<ProxyFault>) returns (thrown: Option<Thrown>)
      requires Valid() && proxy.Some?
      modifies this`toClient, this`closingTagSent, this`socketClosed, this`proxyStatus, this`serverSentClosingTag
      modifies this`disconnected, this`teardowns, this`iStatus, gateway`connectedSockets
      ensures Valid()
      ensures var report := if caught.Some? then Some(ErrorReport(old(closingTagSent), old(iStatus), old(openingTagSent), connection,
                                                                  ProxyError(caught.value)))
                            else None;
              && (thrown.Some? <==> report.Some? && report.value.Threw?)
              && (thrown.Some? ==> thrown.value == report.value.thrown)
              && (thrown.None? ==> toClient == old(toClient) + CleanupMessages(report, old(serverSentClosingTag)))
      ensures thrown.Some? ==> unchanged(this`toClient, this`closingTagSent, this`socketClosed, this`proxyStatus)
                               && unchanged(this`serverSentClosingTag, this`disconnected, this`iStatus)
      ensures thrown.None? ==> socketClosed && proxyStatus == Rank(Disconnected) && serverSentClosingTag && closingTagSent
      ensures thrown.None? && !old(serverSentClosingTag) && clientSentClosingTag
              ==> iStatus == Rank(Disconnected) && disconnected
      ensures !(thrown.None? && !old(serverSentClosingTag) && clientSentClosingTag)
              ==> unchanged(this`iStatus, this`disconnected)
      ensures gateway.connectedSockets == if disconnected && !old(disconnected) then old(gateway.connectedSockets) - {this}
                                          else old(gateway.connectedSockets)
    {
      thrown := None;
      if caught.Some? {
        thrown := HandleStreamError(ProxyError(caught.value));
        if thrown.Some? {
          return;
        }
      }
      CloseServerSide();
    }

    /**
     * The unconditional part of the cleanup after the read loop: the socket is closed, the
     * proxy is DISCONNECTED and, unless the server closed its stream, the gateway closes
     * it towards the client in the server's name.
     */
    method CloseServerSide()
      requires Valid() && proxy.Some?
      modifies this`socketClosed, this`proxyStatus, this`serverSentClosingTag, this`toClient, this`closingTagSent
      modifies this`disconnected, this`teardowns, this`iStatus, gateway`connectedSockets
      ensures Valid()
      ensures socketClosed && proxyStatus == Rank(Disconnected) && serverSentClosingTag && closingTagSent
      ensures toClient == old(toClient) + (if old(serverSentClosingTag) then [] else [TextMessage(STREAM_CLOSE)])
      ensures if !old(serverSentClosingTag) && clientSentClosingTag then iStatus == Rank(Disconnected) && disconnected
              else unchanged(this`iStatus, this`disconnected)
      ensures gateway.connectedSockets == if disconnected && !old(disconnected) then old(gateway.connectedSockets) - {this}
                                          else old(gateway.connectedSockets)
    {
      socketClosed := true;
      proxyStatus := Rank(Disconnected);
      if !serverSentClosingTag {
        serverSentClosingTag := true;
        ForwardClosingTagToClient();
      }
    }

    /**
     * The proxy thread's `run` over the parser results `iterations`, one per loop iteration:
     * the loop goes on while the proxy is below DISCONNECTED; a caught exception ends it, an
     * uncaught one ends the thread. Blocked means the results ran out while the loop still ran.
     */
    method Run(iterations: seq<Iteration>) returns (exit: RunExit, consumed: nat)
      requires Valid() && proxy.Some?
      modifies this, gateway`connectedSockets
      ensures Valid() && proxy == old(proxy) && toServer == old(toServer)
      ensures consumed <= |iterations|
      ensures exit.Blocked? ==> consumed == |iterations| && proxyStatus < Rank(Disconnected)
      ensures exit.Finished? ==> proxyStatus == Rank(Disconnected) && socketClosed && serverSentClosingTag && closingTagSent
    {
      consumed := 0;
      var caught: Option<ProxyFault> := None;
      while consumed < |iterations| && proxyStatus < Rank(Disconnected)
        invariant Valid() && proxy == old(proxy) && toServer == old(toServer)
        invariant consumed <= |iterations|
        decreases |iterations| - consumed
      {
        var outcome := Step(iterations[consumed]);
        consumed := consumed + 1;
        if outcome.Escaped? {
          return Died(outcome.thrown), consumed;
        }
        if outcome.Caught? {
          caught := Some(outcome.fault);
          break;
        }
      }
      if caught.None? && proxyStatus < Rank(Disconnected) {
        return Blocked, consumed;
      }
      var thrown := FinishRun(caught);
      exit := if thrown.Some? then Died(thrown.value) else Finished;
    }
  }
}
