/**
 * What the core sees of the external XML library (i5.simpleXML) and of its two
 * transports. Parsing, serialising and socket I/O are foreign: their results are
 * inputs, and what the core hands to them is recorded as log entries.
 */
module Xml {
  import opened Wrappers

  /** A parsed element: its name and its attributes in enumeration order */
  datatype Element = Element(name: string, attributes: seq<(string, string)>)

  /**
   * The value of the first attribute called `name` in `attrs`: None exactly when no
   * attribute has that name.
   */
  function Lookup(attrs: seq<(string, string)>, name: string): (r: Option<string>)
    ensures r.None? <==> forall i :: 0 <= i < |attrs| ==> attrs[i].0 != name
    ensures r.Some? ==> exists k :: && 0 <= k < |attrs| && attrs[k] == (name, r.value)
                                    && forall i :: 0 <= i < k ==> attrs[i].0 != name
  {
    if attrs == [] then None
    else if attrs[0].0 == name then
      assert attrs[0] == (name, attrs[0].1);
      Some(attrs[0].1)
    else
      var r := Lookup(attrs[1..], name);
      assert r.Some? ==> exists k :: && 0 <= k < |attrs| && attrs[k] == (name, r.value)
                                     && forall i :: 0 <= i < k ==> attrs[i].0 != name by {
        if r.Some? {
          var k :| 0 <= k < |attrs[1..]| && attrs[1..][k] == (name, r.value)
                   && forall i :: 0 <= i < k ==> attrs[1..][i].0 != name;
          assert attrs[k + 1] == (name, r.value);
        }
      }
      r
  }

  /** `element.getAttribute(name)`, None for null */
  function GetAttribute(e: Element, name: string): (r: Option<string>)
    ensures r.None? <==> forall i :: 0 <= i < |e.attributes| ==> e.attributes[i].0 != name
    ensures r.Some? ==> exists k :: && 0 <= k < |e.attributes| && e.attributes[k] == (name, r.value)
                                    && forall i :: 0 <= i < k ==> e.attributes[i].0 != name
  {
    Lookup(e.attributes, name)
  }

  /** `element.hasAttribute(name) && element.getAttribute(name).equals(value)` */
  predicate AttributeIs(e: Element, name: string, value: string): (b: bool)
    ensures b <==> exists k :: && 0 <= k < |e.attributes| && e.attributes[k] == (name, value)
                               && forall i :: 0 <= i < k ==> e.attributes[i].0 != name
  {
    FirstWithNameIsUnique(e.attributes, name);
    GetAttribute(e, name) == Some(value)
  }

  /** Two attributes that both come first with a name are the same one. */
  lemma FirstWithNameIsUnique(attrs: seq<(string, string)>, name: string)
    ensures forall k1, k2 ::
              && 0 <= k1 < |attrs| && attrs[k1].0 == name && (forall i :: 0 <= i < k1 ==> attrs[i].0 != name)
              && 0 <= k2 < |attrs| && attrs[k2].0 == name && (forall i :: 0 <= i < k2 ==> attrs[i].0 != name)
              ==> k1 == k2
  {
  }

  /** What `new Element(text)` produced: an element, or the XMLSyntaxException it threw with its message */
  datatype Parsed = Parsed(element: Element) | SyntaxError(message: Option<string>)

  /** What `new Socket(hostname, port)` did: connected, or threw UnknownHostException or another IOException */
  datatype ConnectOutcome = SocketOpened | HostUnknown(message: Option<string>) | ConnectFailed(message: Option<string>)

  /** The exceptions a blocking read of the proxy's XMLStreamParser throws */
  datatype ReadFault = EndOfBuffer | XmlSyntax | Timeout | IOFailure

  /** `xmlParser.readHeader(true)`: a header, XMLNoHeaderException, or another failure */
  datatype HeaderRead = HeaderPresent | NoHeader | HeaderFailed(fault: ReadFault)

  /** `xmlParser.openRoot(true); xmlParser.getRoot()` */
  datatype RootRead = RootOpened(root: Element) | RootFailed(fault: ReadFault)

  /**
   * `xmlParser.getNextElement(true, true)`: an element; null with the root closed;
   * null with the root still open; or a failure.
   */
  datatype NextRead = NextElement(stanza: Element) | RootClosed | NoElement | NextFailed(fault: ReadFault)

  /** The parser results one iteration of the proxy loop can consume, in the order it asks for them */
  datatype Iteration = Iteration(header: HeaderRead, root: RootRead, next: NextRead)

  /** One WebSocket text message sent to the client: a string, or `stanza.toString(false)` */
  datatype ClientMessage = TextMessage(text: string) | StanzaMessage(stanza: Element)

  /** One call on the XMLWriter to the server: `print`, `printXMLAttributes`, or `print(stanza.toString(false))` */
  datatype ServerWrite = Print(text: string) | PrintAttribute(name: string, value: string) | PrintElement(stanza: Element)
}
