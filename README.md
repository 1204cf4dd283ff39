# WebSocket-to-XMPP gateway: connection handler model

This project models the core of wxg, a gateway that bridges one WebSocket client to one XMPP server. Each WebSocket connection gets a `WsXMPPConnectionHandler`. The handler reads the client's optional XML header and its opening `<stream:stream …>` tag. It then creates, once, an inner `WsXMPPProxy` that connects a socket to the XMPP server, and relays stanzas in both directions. It also handles the closing handshake, the stream reset after TLS or SASL success, and stream errors in the format of section 4.9 of RFC 6120.

The modules:

- `ConnectionState` holds the six ordered connection states (`WsConnectionState`) as a datatype, with their integer ranks and the sentinel -1.
- `XmppConstants` holds the four condition tables of `XMPPConstants`. Each is a total function returning `None` where the Java code throws IllegalArgumentException. Each table has a reader that maps a name back to its code. The literals are the code's own, misspellings included.
- `StreamErrors` and `StreamErrorExceptions` hold the immutable `StreamError` value and its exception wrapper.
- `Xml` is what the core sees of the external XML library: an `Element` value, the results of parsing and socket calls as inputs, and the messages and writer calls it hands out as log entries.
- `Wire` holds the strings the gateway assembles itself: the opening tag it forwards to the client, the writer calls for the server, and the stream-error fragment. Each comes with a reader that recovers what was rendered.
- `HandlerRules` holds the pure decisions the handler makes: header stripping, tag-name extraction, target resolution, exception-to-condition mapping, stanza routing, the error report, and `getServername`.
- `Connection` holds the `ConnectionHandler` class. Its fields are those of the handler and of the inner proxy: `iStatus`, the five flags, the proxy (its endpoint), `iProxyStatus`, `serverSentHeader` and a `socketClosed` flag. Its methods are the WebSocket callbacks, the proxy's forwarding methods and the proxy's read loop. `Step` is one loop iteration and `Run` is the loop with its cleanup. What the handler sends is appended to `toClient` (WebSocket messages) and `toServer` (XMLWriter calls). The class invariant `Valid()` says:
  - the status is a defined state;
  - `proxiesCreated` counts the proxies created (each creation adds one) and is 1 exactly when there is a proxy, so at most one proxy is ever created;
  - the states after the opening tag have a proxy;
  - the teardown happens at most once, and only after both sides sent their closing tag.

The model follows the code as written. In particular:

- A SASL `success` element from the server resets both states and is still forwarded to the client (`RouteOf`, `NextHandled`).
- `break` inside the proxy's `switch` leaves only the `switch`, so the loop tests `iProxyStatus < DISCONNECTED` again (`Step` returns `Continue`).
- The result of `data.trim()` in the HEADER_READ case is discarded.
- Tag-name extraction fails when the first space is missing or at index 0; then StringIndexOutOfBoundsException escapes (`TagNameOf`, `OpenStreamOutcome`).
- The opening tag to the client concatenates attributes with no separator (`AttributesNotSeparated`). Each value comes from `getAttribute(name)`, so a repeated name is written twice with its first value (`Resolved`, `RepeatedNameTakesFirstValue`).
- The header handed to `readXmlHeader` excludes the final `>` (`ExtractedHeader`).
- After a stream error in `run`, the cleanup sends a second `</stream:stream>`, because `forwardClosingTagToClient` never checks `closingTagSent` (`ErrorCleanupClosesStreamTwice`, `FinishRun`).

## Model

| member | source | states |
|---|---|---|
| ConnectionState.Rank | java/de/rwth_aachen/dbis/wsxmppgateway/connection/WsConnectionState.java:25-30 | each state's rank is one of 0, 100, …, 500 |
| ConnectionState.StateOf | java/de/rwth_aachen/dbis/wsxmppgateway/connection/WsConnectionState.java:25-30 | a rank maps to the state with that rank; None exactly when no state has it |
| ConnectionState.StateOfRank | java/de/rwth_aachen/dbis/wsxmppgateway/connection/WsConnectionState.java:25-30 | every state is recovered from its rank |
| ConnectionState.RankInjective | java/de/rwth_aachen/dbis/wsxmppgateway/connection/WsConnectionState.java:25-30 | the six ranks are pairwise distinct, so switch dispatch is unambiguous |
| ConnectionState.RanksIncrease | java/de/rwth_aachen/dbis/wsxmppgateway/connection/WsConnectionState.java:25-30 | CONNECTED < HANDSHAKE_COMPLETE < HEADER_READ < STREAM_OPENED < STREAM_CLOSED < DISCONNECTED |
| ConnectionState.DisconnectedIsMaximum | java/de/rwth_aachen/dbis/wsxmppgateway/connection/WsConnectionState.java:30 | DISCONNECTED is the maximum; `>= DISCONNECTED` holds of it alone among the states |
| ConnectionState.UnsetIsNoState | java/de/rwth_aachen/dbis/wsxmppgateway/connection/WsXMPPConnectionHandler.java:66 | the initial -1 is below every rank and is no state, so it reaches `default` |
| StreamErrors.StreamError.HasMessage | java/de/rwth_aachen/dbis/wsxmppgateway/error/StreamError.java:101-103 | true iff a message is set |
| StreamErrors.StreamError.HasLanguage | java/de/rwth_aachen/dbis/wsxmppgateway/error/StreamError.java:109-111 | true iff a language is set |
| StreamErrors.StreamError.HasAppContent | java/de/rwth_aachen/dbis/wsxmppgateway/error/StreamError.java:117-119 | true iff application content is set |
| StreamErrors.WithCode | java/de/rwth_aachen/dbis/wsxmppgateway/error/StreamError.java:37-39 | the code is stored; no message, language or app content |
| StreamErrors.WithText | java/de/rwth_aachen/dbis/wsxmppgateway/error/StreamError.java:47-51 | code, message and language stored as given; each `hasX` iff given; no app content |
| StreamErrors.WithAppContent | java/de/rwth_aachen/dbis/wsxmppgateway/error/StreamError.java:60-63 | the three-argument error plus the app content; `hasAppContent` iff given |
| StreamErrorExceptions.StreamErrorException.GetStreamError | java/de/rwth_aachen/dbis/wsxmppgateway/exception/StreamErrorException.java:60-62 | returns the wrapped error; with the detail message it rebuilds the exception |
| StreamErrorExceptions.FromCode | java/de/rwth_aachen/dbis/wsxmppgateway/exception/StreamErrorException.java:40-42 | wraps an error with that code and no message, language or app content |
| StreamErrorExceptions.FromText | java/de/rwth_aachen/dbis/wsxmppgateway/exception/StreamErrorException.java:50-54 | wraps an error with exactly those three values and no app content; the throwable message is the message |
| XmppConstants.ErrorCondTagName | java/de/rwth_aachen/dbis/wsxmppgateway/XMPPConstants.java:119-146 | defined exactly on 1–23 and 100 (None for IllegalArgumentException); never empty |
| XmppConstants.ErrorCondTagNameRoundTrip | java/de/rwth_aachen/dbis/wsxmppgateway/XMPPConstants.java:121-144 | every stream-error element name reads back to its code |
| XmppConstants.ErrorCondTagNameHasNoSpace | java/de/rwth_aachen/dbis/wsxmppgateway/XMPPConstants.java:121-144 | no stream-error element name contains a space |
| XmppConstants.ErrorCondTagNameInjective | java/de/rwth_aachen/dbis/wsxmppgateway/XMPPConstants.java:121-144 | the 24 literals are pairwise distinct |
| XmppConstants.StanzaCondTagName | java/de/rwth_aachen/dbis/wsxmppgateway/XMPPConstants.java:159-185 | defined exactly on 101–122; never empty |
| XmppConstants.StanzaCondTagNameRoundTrip | java/de/rwth_aachen/dbis/wsxmppgateway/XMPPConstants.java:161-182 | every stanza-error element name reads back to its code, so the 22 are distinct |
| XmppConstants.StanzaCondTagNameSpellings | java/de/rwth_aachen/dbis/wsxmppgateway/XMPPConstants.java:163-181 | 103, 104 and 121 give `not-implemented`, `forbiden` and `undefinied-condition` |
| XmppConstants.StanzaErrorTypeAttribute | java/de/rwth_aachen/dbis/wsxmppgateway/XMPPConstants.java:197-205 | defined exactly on 201–205, with a value among cancel/continue/modify/auth/wait |
| XmppConstants.StanzaErrorTypeRoundTrip | java/de/rwth_aachen/dbis/wsxmppgateway/XMPPConstants.java:199-203 | each type attribute reads back to its code |
| XmppConstants.SaslCondTag | java/de/rwth_aachen/dbis/wsxmppgateway/XMPPConstants.java:218-229 | defined exactly on 301–307; never empty |
| XmppConstants.SaslCondTagRoundTrip | java/de/rwth_aachen/dbis/wsxmppgateway/XMPPConstants.java:220-226 | each SASL element name reads back to its code |
| XmppConstants.CodeRangesDisjoint | java/de/rwth_aachen/dbis/wsxmppgateway/XMPPConstants.java:38-99 | a code accepted by one table makes each other table throw |
| XmppConstants.TlsAndSaslNamespacesDiffer | java/de/rwth_aachen/dbis/wsxmppgateway/XMPPConstants.java:101-102 | the TLS and SASL namespaces differ |
| JavaText.IndexOf | java/de/rwth_aachen/dbis/wsxmppgateway/connection/WsXMPPConnectionHandler.java:184 | `indexOf` is -1 or the start of a position where the whole pattern fits |
| JavaText.Trim | java/de/rwth_aachen/dbis/wsxmppgateway/connection/WsXMPPConnectionHandler.java:189 | `trim` is never longer than its argument and, unless empty, neither starts nor ends with a character up to U+0020 |
| JavaText.ToLowerCase | java/de/rwth_aachen/dbis/wsxmppgateway/connection/WsXMPPConnectionHandler.java:210 | `toLowerCase` keeps the length |
| JavaText.IndexOfIsFirst | java/de/rwth_aachen/dbis/wsxmppgateway/connection/WsXMPPConnectionHandler.java:184 | `indexOf` is -1 iff the pattern does not occur, and otherwise its first occurrence |
| JavaText.TrimIsMaximal | java/de/rwth_aachen/dbis/wsxmppgateway/connection/WsXMPPConnectionHandler.java:189 | `trim` gives "" iff all characters are at most U+0020, otherwise the part between maximal runs of them |
| JavaText.ToLowerCaseMapsEachChar | java/de/rwth_aachen/dbis/wsxmppgateway/connection/WsXMPPConnectionHandler.java:210 | `toLowerCase` maps each character on its own and leaves no upper-case ASCII letter |
| JavaText.ToLowerCaseIdempotent | java/de/rwth_aachen/dbis/wsxmppgateway/connection/WsXMPPConnectionHandler.java:210-211 | lower-casing twice is lower-casing once |
| JavaText.ParseInt | java/de/rwth_aachen/dbis/wsxmppgateway/connection/WsXMPPConnectionHandler.java:91-94 | `Integer.parseInt` succeeds iff the string is an optional sign and at least one digit whose value fits in 32 bits, and then gives that value |
| JavaText.ParseIntRoundTrip | java/de/rwth_aachen/dbis/wsxmppgateway/connection/WsXMPPConnectionHandler.java:91 | every 32-bit int parses back from its decimal rendering |
| JavaText.NatToStringValue | java/de/rwth_aachen/dbis/wsxmppgateway/connection/WsXMPPConnectionHandler.java:537 | the decimal digits of a number denote that number |
| Xml.Lookup | java/de/rwth_aachen/dbis/wsxmppgateway/connection/WsXMPPConnectionHandler.java:201 | None iff no attribute has the name, otherwise the value of the first attribute that has it |
| Xml.GetAttribute | java/de/rwth_aachen/dbis/wsxmppgateway/connection/WsXMPPConnectionHandler.java:201 | `getAttribute` is null iff no attribute has the name, else the value of the first that has it |
| Xml.AttributeIs | java/de/rwth_aachen/dbis/wsxmppgateway/connection/WsXMPPConnectionHandler.java:366 | `hasAttribute(n) && getAttribute(n).equals(v)` holds iff the first attribute named `n` has the value `v` |
| Wire.AttributesTextAppend | java/de/rwth_aachen/dbis/wsxmppgateway/connection/WsXMPPConnectionHandler.java:465-468 | the attribute loop renders a concatenation part by part |
| Wire.OpeningTagXml | java/de/rwth_aachen/dbis/wsxmppgateway/connection/WsXMPPConnectionHandler.java:461-469 | the opening tag starts with the XML header iff asked for, and ends with `>` |
| Wire.Resolved | java/de/rwth_aachen/dbis/wsxmppgateway/connection/WsXMPPConnectionHandler.java:465-467 | one pair per enumerated name, valued by `getAttribute` of that name |
| Wire.ResolvedUniqueNames | java/de/rwth_aachen/dbis/wsxmppgateway/connection/WsXMPPConnectionHandler.java:465-467 | with pairwise distinct names, `getAttribute` gives back each attribute's own value |
| Wire.RepeatedNameTakesFirstValue | java/de/rwth_aachen/dbis/wsxmppgateway/connection/WsXMPPConnectionHandler.java:445-447 | a repeated name is rendered twice, both times with the first value |
| Wire.ReadTagParts | java/de/rwth_aachen/dbis/wsxmppgateway/connection/WsXMPPConnectionHandler.java:461-469 | for any header and tag prefix differing at their second character, the header flag and the attribute text between the prefix and `>` read back from a tag built that way |
| Wire.OpeningTagXmlReadBack | java/de/rwth_aachen/dbis/wsxmppgateway/connection/WsXMPPConnectionHandler.java:460-470 | the tag sent to the client reads back to the header flag and the resolved pairs, which are the root's attributes when names are distinct |
| Wire.ParseAttributesRoundTrip | java/de/rwth_aachen/dbis/wsxmppgateway/connection/WsXMPPConnectionHandler.java:465-468 | attributes without `=` in names and `"` in values read back from the rendering |
| Wire.AttributesNotSeparated | java/de/rwth_aachen/dbis/wsxmppgateway/connection/WsXMPPConnectionHandler.java:467 | two attributes are rendered with nothing between them |
| Wire.OpeningTagWrites | java/de/rwth_aachen/dbis/wsxmppgateway/connection/WsXMPPConnectionHandler.java:440-452 | the header call first iff asked for, `>` last, and the attribute calls print exactly the resolved attributes (`WrittenAttributes`) |
| Wire.AttributeWrites | java/de/rwth_aachen/dbis/wsxmppgateway/connection/WsXMPPConnectionHandler.java:445-448 | one `printXMLAttributes` call per attribute, with the value `getAttribute` gives for its name |
| Wire.StreamErrorXml | java/de/rwth_aachen/dbis/wsxmppgateway/connection/WsXMPPConnectionHandler.java:127-140 | the fragment starts with `<stream:stream>` iff no opening tag was sent, and ends with `</stream:stream>` |
| Wire.ErrorCodeOfStreamErrorXml | java/de/rwth_aachen/dbis/wsxmppgateway/connection/WsXMPPConnectionHandler.java:127-140 | the condition element's name reads back from the fragment whatever text and app content follow |
| Wire.StreamErrorXmlNamesCondition | java/de/rwth_aachen/dbis/wsxmppgateway/connection/WsXMPPConnectionHandler.java:131 | the error code reads back from the fragment |
| HandlerRules.HasXmlHeader | java/de/rwth_aachen/dbis/wsxmppgateway/connection/WsXMPPConnectionHandler.java:184-185 | the message starts with `<?xml` and contains `?>` somewhere |
| HandlerRules.HeaderEnd | java/de/rwth_aachen/dbis/wsxmppgateway/connection/WsXMPPConnectionHandler.java:184-185 | `headerEnd` points at the `>` of the first `?>`: no `?>` starts earlier |
| HandlerRules.ExtractedHeader | java/de/rwth_aachen/dbis/wsxmppgateway/connection/WsXMPPConnectionHandler.java:187 | the header passed on ends with `?`: the final `>` is excluded |
| HandlerRules.ClientPayload | java/de/rwth_aachen/dbis/wsxmppgateway/connection/WsXMPPConnectionHandler.java:184-190 | without a header the message is kept whole; with one, the trimmed rest after the first `?>` |
| HandlerRules.XmlHeaderStripped | java/de/rwth_aachen/dbis/wsxmppgateway/connection/WsXMPPConnectionHandler.java:184-190 | a message starting with `<?xml version="1.0"?>` is recognised and continues with its trimmed rest |
| HandlerRules.TagNameOf | java/de/rwth_aachen/dbis/wsxmppgateway/connection/WsXMPPConnectionHandler.java:197 | fails iff the first space is missing or at index 0; else the space-free name between the first character and the first space |
| HandlerRules.TagNameOfOpeningTag | java/de/rwth_aachen/dbis/wsxmppgateway/connection/WsXMPPConnectionHandler.java:197 | `<name rest` gives `name` |
| HandlerRules.TagNameOfStreamOpening | java/de/rwth_aachen/dbis/wsxmppgateway/connection/WsXMPPConnectionHandler.java:197-198 | an opening stream tag gives `stream:stream` |
| HandlerRules.ResolveTarget | java/de/rwth_aachen/dbis/wsxmppgateway/connection/WsXMPPConnectionHandler.java:201-212 | host parameter first (port only then, only if > -1); else alias of lower-cased `to`; else `to`; port 5222; null `to` throws |
| HandlerRules.AliasLookupIgnoresCase | java/de/rwth_aachen/dbis/wsxmppgateway/connection/WsXMPPConnectionHandler.java:210-211 | `to` values equal up to ASCII case resolve to the same alias |
| HandlerRules.ProxyOpening | java/de/rwth_aachen/dbis/wsxmppgateway/connection/WsXMPPConnectionHandler.java:200-213 | with no target `NullPointerException`, with a bad port `IllegalArgumentException`; otherwise a connected socket gives the proxy for that target, an unknown host gives host-unknown and another connect failure an I/O fault, each with its message |
| HandlerRules.OpenStreamOutcome | java/de/rwth_aachen/dbis/wsxmppgateway/connection/WsXMPPConnectionHandler.java:194-218 | the HEADER_READ case: no tag name throws; a syntax error in the closed payload gives a syntax fault with its message; a parsed root opens the stream with the existing proxy, or else exactly as `ProxyOpening` says |
| HandlerRules.CaughtError | java/de/rwth_aachen/dbis/wsxmppgateway/connection/WsXMPPConnectionHandler.java:240-252 | syntax → xml-not-well-formed, unknown host → host-unknown, other I/O → remote-connection-failed, with message and "en"; a StreamErrorException carries its own |
| HandlerRules.NoMessageExpected | java/de/rwth_aachen/dbis/wsxmppgateway/connection/WsXMPPConnectionHandler.java:238 | the undefined-condition error with an English message |
| HandlerRules.ProxyError | java/de/rwth_aachen/dbis/wsxmppgateway/connection/WsXMPPConnectionHandler.java:388-403 | end of buffer and I/O → remote-connection-failed, syntax → invalid-xml with "Syntax error in xml stream!" in English, timeout → connection-timeout, illegal state → internal-server-error; each condition iff its cause |
| HandlerRules.RouteOf | java/de/rwth_aachen/dbis/wsxmppgateway/connection/WsXMPPConnectionHandler.java:366-376 | withheld iff xmlns is TLS; reset and forwarded iff xmlns is SASL and the name is `success`; otherwise forwarded |
| HandlerRules.ErrorReport | java/de/rwth_aachen/dbis/wsxmppgateway/connection/WsXMPPConnectionHandler.java:124-143 | IllegalState iff the stream is closed; sent iff open, the code has a tag and the connection exists; the sent fragment names the code and ends the stream |
| HandlerRules.SecondReportFails | java/de/rwth_aachen/dbis/wsxmppgateway/connection/WsXMPPConnectionHandler.java:124-143 | after one error was sent, any second fails with IllegalState |
| HandlerRules.CleanupMessages | java/de/rwth_aachen/dbis/wsxmppgateway/connection/WsXMPPConnectionHandler.java:405-417 | the cleanup ends with a closing tag unless the server closed; nothing is sent when there is neither report nor synthesized tag |
| HandlerRules.ErrorCleanupClosesStreamTwice | java/de/rwth_aachen/dbis/wsxmppgateway/connection/WsXMPPConnectionHandler.java:414-416 | after an error report while the server had not closed, the client gets `</stream:stream>` twice |
| HandlerRules.Servername | java/de/rwth_aachen/dbis/wsxmppgateway/connection/WsXMPPConnectionHandler.java:536-541 | `host:port`, longer iff the client host is appended |
| HandlerRules.NoSpaceInInt | java/de/rwth_aachen/dbis/wsxmppgateway/connection/WsXMPPConnectionHandler.java:537 | the decimal rendering of an int holds no space |
| HandlerRules.PortFieldReadBack | java/de/rwth_aachen/dbis/wsxmppgateway/connection/WsXMPPConnectionHandler.java:537-539 | the port field reads back up to the first space |
| HandlerRules.ServernameReadBack | java/de/rwth_aachen/dbis/wsxmppgateway/connection/WsXMPPConnectionHandler.java:536-541 | host and port read back from the server name in both forms |
| Connection.Gateway.constructor | java/de/rwth_aachen/dbis/wsxmppgateway/WebSocketXmppGateway.java:91 | the registry starts empty, with the given alias table |
| Connection.ConnectionHandler.constructor | java/de/rwth_aachen/dbis/wsxmppgateway/connection/WsXMPPConnectionHandler.java:87-97 | CONNECTED, all flags false, no proxy, no received element, proxy status unset, no server header seen, socket open; the port parameter parsed or -1 |
| Connection.ConnectionHandler.SendMessage | java/de/rwth_aachen/dbis/wsxmppgateway/connection/WsXMPPConnectionHandler.java:111-118 | one text message appended to the client log |
| Connection.ConnectionHandler.SendStanza | java/de/rwth_aachen/dbis/wsxmppgateway/connection/WsXMPPConnectionHandler.java:103-105 | one stanza message appended to the client log |
| Connection.ConnectionHandler.HandleStreamError | java/de/rwth_aachen/dbis/wsxmppgateway/connection/WsXMPPConnectionHandler.java:124-143 | does what `ErrorReport` says: one message and `closingTagSent`, or an exception and no change |
| Connection.ConnectionHandler.BuildStreamErrorXml | java/de/rwth_aachen/dbis/wsxmppgateway/connection/WsXMPPConnectionHandler.java:127-140 | the `xml +=` accumulation yields the stream-error fragment |
| Connection.ConnectionHandler.AppendTextElement | java/de/rwth_aachen/dbis/wsxmppgateway/connection/WsXMPPConnectionHandler.java:132-137 | appends the `<text>` element, with `xml:lang` only when a language exists |
| Connection.ConnectionHandler.OnHandshake | java/de/rwth_aachen/dbis/wsxmppgateway/connection/WsXMPPConnectionHandler.java:148-152 | stores the connection and moves to HANDSHAKE_COMPLETE |
| Connection.ConnectionHandler.OnOpen | java/de/rwth_aachen/dbis/wsxmppgateway/connection/WsXMPPConnectionHandler.java:155-157 | adds the handler to the registry |
| Connection.ConnectionHandler.CloseConnection | java/de/rwth_aachen/dbis/wsxmppgateway/connection/WsXMPPConnectionHandler.java:288-292 | disconnects, DISCONNECTED, leaves the registry |
| Connection.ConnectionHandler.ResetStream | java/de/rwth_aachen/dbis/wsxmppgateway/connection/WsXMPPConnectionHandler.java:272-275 | back to HANDSHAKE_COMPLETE, nothing else changes |
| Connection.ConnectionHandler.ProxyResetStream | java/de/rwth_aachen/dbis/wsxmppgateway/connection/WsXMPPConnectionHandler.java:424-432 | handler to HANDSHAKE_COMPLETE, proxy to CONNECTED; flags and proxy kept |
| Connection.ConnectionHandler.ForwardOpeningTagToServer | java/de/rwth_aachen/dbis/wsxmppgateway/connection/WsXMPPConnectionHandler.java:440-452 | optional header, `<stream:stream `, one attribute call each with the `getAttribute` value, `>`; nothing else changes |
| Connection.ConnectionHandler.ForwardOpeningTagToClient | java/de/rwth_aachen/dbis/wsxmppgateway/connection/WsXMPPConnectionHandler.java:460-472 | the opening tag as one message; `openingTagSent` |
| Connection.ConnectionHandler.AppendAttributes | java/de/rwth_aachen/dbis/wsxmppgateway/connection/WsXMPPConnectionHandler.java:465-468 | the loop appends every resolved attribute in order, unseparated |
| Connection.ConnectionHandler.ForwardStanzaToServer | java/de/rwth_aachen/dbis/wsxmppgateway/connection/WsXMPPConnectionHandler.java:524-529 | the stanza is written to the server |
| Connection.ConnectionHandler.ForwardClosingTagToServer | java/de/rwth_aachen/dbis/wsxmppgateway/connection/WsXMPPConnectionHandler.java:479-496 | always writes `</stream:stream>`; tears down iff the server had closed |
| Connection.ConnectionHandler.ForwardClosingTagToClient | java/de/rwth_aachen/dbis/wsxmppgateway/connection/WsXMPPConnectionHandler.java:503-518 | always sends `</stream:stream>` and sets `closingTagSent`; tears down iff the client had closed |
| Connection.ConnectionHandler.OnClose | java/de/rwth_aachen/dbis/wsxmppgateway/connection/WsXMPPConnectionHandler.java:160-168 | sets `clientSentClosingTag`; forwards `</stream:stream>` iff it was unset and a proxy exists; then tears down iff the server had closed, else status, proxy status, socket and registry are unchanged |
| Connection.ConnectionHandler.OnMessage | java/de/rwth_aachen/dbis/wsxmppgateway/connection/WsXMPPConnectionHandler.java:177-253 | per status, each field it may change: header strip and fall-through (`HeaderReadHandled`), stream opening, stanza or closing tag (`StreamOpenedHandled`), nothing at all in STREAM_CLOSED, or undefined-condition with the rest unchanged; the registry loses the handler iff it disconnected |
| Connection.ConnectionHandler.RejectMessage | java/de/rwth_aachen/dbis/wsxmppgateway/connection/WsXMPPConnectionHandler.java:237-238 | the `default` case reports undefined-condition and changes nothing but the client log and `closingTagSent` |
| Connection.ConnectionHandler.HandshakeCompleteCase | java/de/rwth_aachen/dbis/wsxmppgateway/connection/WsXMPPConnectionHandler.java:181-193 | `clientSentHeader` iff a header; HEADER_READ with every other field unchanged iff nothing is left, else the HEADER_READ case |
| Connection.ConnectionHandler.ReadClientHeader | java/de/rwth_aachen/dbis/wsxmppgateway/connection/WsXMPPConnectionHandler.java:184-191 | the payload is `ClientPayload(data)`; HEADER_READ |
| Connection.ConnectionHandler.HeaderReadCase | java/de/rwth_aachen/dbis/wsxmppgateway/connection/WsXMPPConnectionHandler.java:194-218 | the HEADER_READ case with its catch blocks, as `OpenStreamOutcome` says: opened, forwarded and the proxy created if none; or the exception thrown or reported with logs and proxy unchanged |
| Connection.ConnectionHandler.OpenStream | java/de/rwth_aachen/dbis/wsxmppgateway/connection/WsXMPPConnectionHandler.java:194-218 | opened: STREAM_OPENED, opening tag written, proxy created only if none; else HEADER_READ, the fault or exception, server log and proxy unchanged |
| Connection.ConnectionHandler.CreateProxy | java/de/rwth_aachen/dbis/wsxmppgateway/connection/WsXMPPConnectionHandler.java:200-215 | a proxy exists afterwards iff the socket connected; it starts CONNECTED and adds one to `proxiesCreated`; otherwise the exact exception and nothing changes |
| Connection.ConnectionHandler.StreamOpenedCase | java/de/rwth_aachen/dbis/wsxmppgateway/connection/WsXMPPConnectionHandler.java:219-232 | the STREAM_OPENED case with its catch blocks, as `StreamOpenedHandled` says; the registry loses the handler iff it disconnected |
| Connection.ConnectionHandler.ReceiveInStream | java/de/rwth_aachen/dbis/wsxmppgateway/connection/WsXMPPConnectionHandler.java:219-232 | closing tag: STREAM_CLOSED (torn down if the server had closed) and forwarded; else the parsed stanza recorded and forwarded, or the syntax fault with nothing changed |
| Connection.ConnectionHandler.Step | java/de/rwth_aachen/dbis/wsxmppgateway/connection/WsXMPPConnectionHandler.java:339-386 | one loop iteration over the fall-through `switch`, per proxy status (`HeaderHandled`, `RootHandled`, `NextHandled`, socket closing, IllegalState) with every other field it may change pinned |
| Connection.ConnectionHandler.ServerConnectedCase | java/de/rwth_aachen/dbis/wsxmppgateway/connection/WsXMPPConnectionHandler.java:341-350 | `serverSentHeader` iff a header was read, then falls through; a failed read changes nothing but the proxy status (`HeaderHandled`) |
| Connection.ConnectionHandler.ServerHeaderReadCase | java/de/rwth_aachen/dbis/wsxmppgateway/connection/WsXMPPConnectionHandler.java:351-358 | the server's opening tag goes to the client with the header hint, then falls through; a failed read changes nothing (`RootHandled`) |
| Connection.ConnectionHandler.ServerStreamOpenedCase | java/de/rwth_aachen/dbis/wsxmppgateway/connection/WsXMPPConnectionHandler.java:359-377 | server close forwarded and teardown iff the client had closed; TLS withheld; SASL success resets and is forwarded; others forwarded; a failed read changes nothing (`NextHandled`) |
| Connection.ConnectionHandler.FinishRun | java/de/rwth_aachen/dbis/wsxmppgateway/connection/WsXMPPConnectionHandler.java:388-417 | report caught fault; if that throws nothing changes, else socket closed, DISCONNECTED, closing tag to the client unless the server closed, teardown iff the client had closed |
| Connection.ConnectionHandler.CloseServerSide | java/de/rwth_aachen/dbis/wsxmppgateway/connection/WsXMPPConnectionHandler.java:405-417 | socket closed, DISCONNECTED, a closing tag to the client iff the server had not sent one; teardown iff the client had closed |
| Connection.ConnectionHandler.Run | java/de/rwth_aachen/dbis/wsxmppgateway/connection/WsXMPPConnectionHandler.java:337-418 | the loop runs while below DISCONNECTED; finished means socket closed, DISCONNECTED and both closing flags |

## Left out

- Threads are not modelled: the thread start, `isInterrupted`, `volatile` and the `synchronized (xmlWriter)` blocks. Each WebSocket callback and each iteration of the proxy loop is one atomic method call. `Run` takes the parser results as a finite list and stops with `Blocked` when they run out.
- Sockets, streams and timeouts are not modelled. `connect` is a function parameter giving the outcome of `new Socket`, and closing is the `socketClosed` flag. Closing cannot fail here: the IOException swallowed around `socket.close()` after the loop (WsXMPPConnectionHandler.java:407-409) changes nothing anyway, but one from the `socket.close()` in the STREAM_CLOSED case (line 380), which the catch at lines 397-399 reports as remote-connection-failed, is not modelled.
- The `i5.simpleXML` parser and writer are foreign code. Parse results are inputs: `parseRoot` and `parseStanza` are functions of the exact string parsed, and `Iteration` holds the proxy reads. `Element.toString` and `printXMLAttributes` are recorded as log entries, not rendered.
- Attributes are a sequence in enumeration order. `getAttribute` returns the first with the name, and distinct names are not enforced; whether the XML library enumerates a repeated name twice is its own business.
- Connection.ConnectionHandler.ForwardOpeningTagToServer: the XMLSyntaxException that `printXMLAttributes` may throw (WsXMPPConnectionHandler.java:447) is not modelled, because the writer's rule for a malformed attribute is foreign code. The model always writes every attribute, so `OpenStreamOutcome` has no outcome for the path where the exception is caught at lines 240-242 (xml-not-well-formed, status left at HEADER_READ, a proxy created just before kept).
- `sendMessage` catches and logs an IOException. The model always appends the message, since a failed send changes no state.
- Connection.ConnectionHandler.OnHandshake: requires that no connection is stored yet; the source does not check this (lines 148-152) and relies on the WebSocket framework calling `onHandshake` once, before the other callbacks.
- Logging, `onControl` and `onFrame` (both return false), the unused `streamXmlLang`, and `readXmlHeader` (an empty body) are not modelled. The extracted header is computed but checks nothing.
- WebSocketXmppGateway.java is not part of this model beyond the alias table (a `map` keyed by lower-cased host) and the registry of connected sockets (a `set`). `closeConnection(int)` ignores its argument, so `CloseConnection` takes none.
- An uncaught runtime exception (IllegalState, IllegalArgument, NullPointer, StringIndexOutOfBounds) is returned as a `Thrown` value. What the WebSocket framework or the thread does afterwards is not modelled.
- Java `String` operations are modelled on ASCII: `toLowerCase` folds only A–Z and `trim` drops characters up to U+0020.
- JavaText.ParseInt: accepts only the ASCII digits 0–9, while `Integer.parseInt` also accepts other Unicode decimal digits.
- Wire.ParseAttributesRoundTrip: holds only for attributes without `=` in the name and `"` in the value, because the source writes values unescaped and unseparated.
- HandlerRules.ServernameReadBack: holds only for host names without `:`, because the source does not escape it.
- Connection.ConnectionHandler.Run: states how the loop ended and the final state, not the messages sent over several iterations. `Step` and `FinishRun` state each part.
