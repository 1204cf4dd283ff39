/**
 * The text the gateway assembles itself: the opening stream tag it forwards in either
 * direction, and the stream-error fragment of section 4.9 of RFC 6120 it sends to the
 * client. Each rendering comes with a reader that recovers what was rendered.
 */
module Wire {
  import opened Wrappers
  import opened JavaText
  import opened XmppConstants
  import opened StreamErrors
  import opened Xml

  const XML_HEADER: string := "<?xml version=\"1.0\"?>"
  const STREAM_OPEN_PREFIX: string := "<stream:stream "
  const STREAM_CLOSE: string := "</stream:stream>"
  const STREAM_OPEN_BARE: string := "<stream:stream>"
  const ERROR_OPEN: string := "<stream:error>"
  const ERROR_CLOSE: string := "</stream:error></stream:stream>"

  // Opening tag to the client

  /** One attribute as the opening tag to the client writes it: `name="value"`, no separator */
  function AttributeText(a: (string, string)): string {
    a.0 + "=\"" + a.1 + "\""
  }

  /** The attributes in enumeration order, concatenated with nothing between them */
  function AttributesText(attrs: seq<(string, string)>): string {
    if attrs == [] then "" else AttributeText(attrs[0]) + AttributesText(attrs[1..])
  }

  /** Rendering a list of attributes renders each part in turn. */
  lemma {:induction false} AttributesTextAppend(a: seq<(string, string)>, b: seq<(string, string)>)
    ensures AttributesText(a + b) == AttributesText(a) + AttributesText(b)
  {
    if a == [] {
      assert a + b == b;
    } else {
      assert (a + b)[1..] == a[1..] + b;
      AttributesTextAppend(a[1..], b);
    }
  }

  /** `root.getAttribute(name)` for a name the root lists (the `None` case cannot arise for one) */
  function ValueOf(attrs: seq<(string, string)>, name: string): string {
    match Lookup(attrs, name)
    case Some(v) => v
    case None => ""
  }

  /**
   * The pairs both opening-tag loops write: each name `getAttributeNames()` enumerates,
   * with the value `getAttribute` returns for it
   */
  function Resolved(attrs: seq<(string, string)>): (r: seq<(string, string)>)
    ensures |r| == |attrs|
  {
    seq(|attrs|, i requires 0 <= i < |attrs| => (attrs[i].0, ValueOf(attrs, attrs[i].0)))
  }

  /** No two attributes share a name */
  predicate UniqueNames(attrs: seq<(string, string)>) {
    forall i, j :: 0 <= i < j < |attrs| ==> attrs[i].0 != attrs[j].0
  }

  /** With distinct names every attribute is written with its own value. */
  lemma ResolvedUniqueNames(attrs: seq<(string, string)>)
    requires UniqueNames(attrs)
    ensures Resolved(attrs) == attrs
  {
    forall i | 0 <= i < |attrs|
      ensures Resolved(attrs)[i] == attrs[i]
    {
      var name := attrs[i].0;
      var k :| 0 <= k < |attrs| && attrs[k] == (name, Lookup(attrs, name).value)
               && forall j :: 0 <= j < k ==> attrs[j].0 != name;
      assert !(k < i) && !(i < k);
    }
  }

  /** A repeated name is written with the value of its first occurrence both times. */
  lemma RepeatedNameTakesFirstValue(name: string, first: string, second: string)
    ensures Resolved([(name, first), (name, second)]) == [(name, first), (name, first)]
  {
  }

  /** Every written value is the value of some attribute of the root. */
  lemma ResolvedPlain(attrs: seq<(string, string)>)
    requires forall i :: 0 <= i < |attrs| ==> PlainAttribute(attrs[i])
    ensures forall i :: 0 <= i < |attrs| ==> PlainAttribute(Resolved(attrs)[i])
  {
    forall i | 0 <= i < |attrs|
      ensures PlainAttribute(Resolved(attrs)[i])
    {
      var k :| 0 <= k < |attrs| && attrs[k] == (attrs[i].0, Lookup(attrs, attrs[i].0).value)
               && forall j :: 0 <= j < k ==> attrs[j].0 != attrs[i].0;
      assert PlainAttribute(attrs[k]);
    }
  }

  /** The opening stream tag `forwardOpeningTagToClient` sends */
  function OpeningTagXml(sendXmlHeader: bool, attrs: seq<(string, string)>): (r: string)
    ensures StartsWith(r, XML_HEADER) <==> sendXmlHeader
    ensures EndsWith(r, ">")
  {
    var tag := STREAM_OPEN_PREFIX + AttributesText(Resolved(attrs)) + ">";
    assert tag[1] != XML_HEADER[1];
    (if sendXmlHeader then XML_HEADER else "") + tag
  }

  /** An attribute the reader below can split unambiguously: no `=` in its name, no `"` in its value */
  predicate PlainAttribute(a: (string, string)) {
    '=' !in a.0 && '"' !in a.1
  }

  /** Splits attribute text back into `name="value"` pairs */
  function ParseAttributes(s: string): Option<seq<(string, string)>>
    decreases |s|
  {
    if s == "" then Some([])
    else
      var eq := IndexOf(s, "=");
      if eq < 0 || eq + 1 >= |s| || s[eq + 1] != '"' then None
      else
        var body := s[eq + 2..];
        var q := IndexOf(body, "\"");
        if q < 0 then None
        else match ParseAttributes(body[q + 1..])
          case None => None
          case Some(more) => Some([(s[..eq], body[..q])] + more)
  }

  /** A plain `name="value"` in front of `rest` is split off, and the parse goes on with `rest`. */
  lemma ParseAttributesStep(a: (string, string), rest: string)
    requires PlainAttribute(a)
    ensures ParseAttributes(AttributeText(a) + rest)
         == match ParseAttributes(rest)
            case None => None
            case Some(more) => Some([a] + more)
  {
    var (name, value) := a;
    var s := AttributeText(a) + rest;
    assert s == name + ['='] + ("\"" + value + "\"" + rest);
    IndexOfFirstChar(name, '=', "\"" + value + "\"" + rest);
    assert s[|name| + 1] == '"';
    var body := s[|name| + 2..];
    assert body == value + ['"'] + rest;
    IndexOfFirstChar(value, '"', rest);
    assert body[|value| + 1..] == rest;
    assert s[..|name|] == name;
    assert body[..|value|] == value;
  }

  /** Attributes without `=` in a name or `"` in a value survive the separator-less rendering. */
  lemma {:induction false} ParseAttributesRoundTrip(attrs: seq<(string, string)>)
    requires forall i :: 0 <= i < |attrs| ==> PlainAttribute(attrs[i])
    ensures ParseAttributes(AttributesText(attrs)) == Some(attrs)
  {
    if attrs != [] {
      ParseAttributesStep(attrs[0], AttributesText(attrs[1..]));
      ParseAttributesRoundTrip(attrs[1..]);
      assert [attrs[0]] + attrs[1..] == attrs;
    }
  }

  /** The opening tag to the client puts no space between two attributes. */
  lemma AttributesNotSeparated(p: (string, string), q: (string, string))
    ensures AttributesText([p, q]) == p.0 + "=\"" + p.1 + "\"" + q.0 + "=\"" + q.1 + "\""
  {
    assert [p, q][1..] == [q];
    assert [q][1..] == [];
    assert AttributesText([q]) == AttributeText(q);
  }

  /** Reads the header flag and the attribute pairs back from an opening tag to the client */
  function ReadOpeningTag(xml: string): Option<(bool, seq<(string, string)>)> {
    ReadTag(XML_HEADER, STREAM_OPEN_PREFIX, xml)
  }

  /** The reader over any header and tag prefix; the constants stay folded in proofs about it. */
  function ReadTag(header: string, prefix: string, xml: string): Option<(bool, seq<(string, string)>)> {
    var sent := StartsWith(xml, header);
    var tag := if sent then xml[|header|..] else xml;
    if |tag| <= |prefix| || !StartsWith(tag, prefix) || !EndsWith(tag, ">") then None
    else match ParseAttributes(tag[|prefix|..|tag| - 1])
      case None => None
      case Some(pairs) => Some((sent, pairs))
  }

  /** The parts of `p + b + q` can be sliced back out of it. */
  lemma SliceParts(p: string, b: string, q: string)
    ensures StartsWith(p + b + q, p) && EndsWith(p + b + q, q)
    ensures (p + b + q)[|p|..|p + b + q| - |q|] == b
  {
    assert (p + b + q)[..|p|] == p;
    assert (p + b + q)[|p + b + q| - |q|..] == q;
  }

  /** A string that differs from `p` at some index of `p` does not start with `p`. */
  lemma DiffersAt(s: string, p: string, i: nat)
    requires i < |p| && i < |s| && s[i] != p[i]
    ensures !StartsWith(s, p)
  {
    if |p| <= |s| {
      assert s[..|p|][i] == s[i];
    }
  }

  /** The reader takes a tag without header apart into its attribute text. */
  lemma ReadTagBare(header: string, prefix: string, body: string)
    requires 1 < |header| && 1 < |prefix| && prefix[1] != header[1]
    requires ParseAttributes(body).Some?
    ensures ReadTag(header, prefix, prefix + body + ">") == Some((false, ParseAttributes(body).value))
  {
    var tag := prefix + body + ">";
    SliceParts(prefix, body, ">");
    DiffersAt(tag, header, 1);
  }

  /** The reader takes a tag after the header apart into its attribute text. */
  lemma ReadTagHeaded(header: string, prefix: string, body: string)
    requires 1 < |header| && 1 < |prefix| && prefix[1] != header[1]
    requires ParseAttributes(body).Some?
    ensures ReadTag(header, prefix, header + prefix + body + ">") == Some((true, ParseAttributes(body).value))
  {
    var tag := prefix + body + ">";
    SliceParts(prefix, body, ">");
    SliceParts(header, tag, "");
    assert header + tag + "" == header + tag;
    assert header + prefix + body + ">" == header + tag;
  }

  /** The reader takes a tag, with or without the header, apart into the flag and its attribute text. */
  lemma ReadTagParts(header: string, prefix: string, sent: bool, body: string)
    requires 1 < |header| && 1 < |prefix| && prefix[1] != header[1]
    requires ParseAttributes(body).Some?
    ensures ReadTag(header, prefix, (if sent then header else "") + prefix + body + ">")
         == Some((sent, ParseAttributes(body).value))
  {
    if sent {
      ReadTagHeaded(header, prefix, body);
    } else {
      ReadTagBare(header, prefix, body);
      assert "" + prefix == prefix;
    }
  }

  /** The XML header and the stream prefix part at their second character. */
  lemma HeaderAndPrefixDiffer()
    ensures 1 < |XML_HEADER| && 1 < |STREAM_OPEN_PREFIX| && STREAM_OPEN_PREFIX[1] != XML_HEADER[1]
  {
    assert STREAM_OPEN_PREFIX[1] == 's' && XML_HEADER[1] == '?';
  }

  /**
   * The opening tag to the client gives back whether the header was sent and the pairs
   * written; with distinct names those are the root's own attributes.
   */
  lemma OpeningTagXmlReadBack(sendXmlHeader: bool, attrs: seq<(string, string)>)
    requires forall i :: 0 <= i < |attrs| ==> PlainAttribute(attrs[i])
    ensures ReadOpeningTag(OpeningTagXml(sendXmlHeader, attrs)) == Some((sendXmlHeader, Resolved(attrs)))
    ensures UniqueNames(attrs) ==> ReadOpeningTag(OpeningTagXml(sendXmlHeader, attrs)) == Some((sendXmlHeader, attrs))
  {
    assert OpeningTagXml(sendXmlHeader, attrs)
        == (if sendXmlHeader then XML_HEADER else "") + STREAM_OPEN_PREFIX + AttributesText(Resolved(attrs)) + ">";
    ResolvedPlain(attrs);
    ParseAttributesRoundTrip(Resolved(attrs));
    HeaderAndPrefixDiffer();
    ReadTagParts(XML_HEADER, STREAM_OPEN_PREFIX, sendXmlHeader, AttributesText(Resolved(attrs)));
    if UniqueNames(attrs) {
      ResolvedUniqueNames(attrs);
    }
  }

  // Opening tag to the server

  /** The `printXMLAttributes` calls for the root's attributes, in enumeration order */
  function AttributeWrites(attrs: seq<(string, string)>): (w: seq<ServerWrite>)
    ensures |w| == |attrs|
  {
    seq(|attrs|, i requires 0 <= i < |attrs| => PrintAttribute(attrs[i].0, ValueOf(attrs, attrs[i].0)))
  }

  /**
   * The writer calls of `forwardOpeningTagToServer`, flushed as one write: the header
   * first iff asked for, `>` last, and in between exactly the resolved attributes.
   */
  function OpeningTagWrites(sendXmlHeader: bool, attrs: seq<(string, string)>): (r: seq<ServerWrite>)
    ensures 2 <= |r| && (r[0] == Print(XML_HEADER) <==> sendXmlHeader) && r[|r| - 1] == Print(">")
    ensures WrittenAttributes(r) == Resolved(attrs)
  {
    var head := (if sendXmlHeader then [Print(XML_HEADER)] else []) + [Print(STREAM_OPEN_PREFIX)];
    var r := head + AttributeWrites(attrs) + [Print(">")];
    assert |XML_HEADER| != |STREAM_OPEN_PREFIX|;
    WrittenAttributesAppend(head, AttributeWrites(attrs));
    WrittenAttributesAppend(head + AttributeWrites(attrs), [Print(">")]);
    WrittenAttributesOfPrints(head);
    WrittenAttributesOfPrints([Print(">")]);
    WrittenAttributeWrites(attrs);
    r
  }

  /** The attribute pairs a sequence of writer calls prints, in order */
  function WrittenAttributes(ws: seq<ServerWrite>): seq<(string, string)> {
    if ws == [] then []
    else (if ws[0].PrintAttribute? then [(ws[0].name, ws[0].value)] else []) + WrittenAttributes(ws[1..])
  }

  lemma {:induction false} WrittenAttributesAppend(a: seq<ServerWrite>, b: seq<ServerWrite>)
    ensures WrittenAttributes(a + b) == WrittenAttributes(a) + WrittenAttributes(b)
  {
    if a != [] {
      assert (a + b)[1..] == a[1..] + b;
      WrittenAttributesAppend(a[1..], b);
    } else {
      assert a + b == b;
    }
  }

  /** Plain prints carry no attribute. */
  lemma {:induction false} WrittenAttributesOfPrints(ws: seq<ServerWrite>)
    requires forall i :: 0 <= i < |ws| ==> ws[i].Print?
    ensures WrittenAttributes(ws) == []
  {
    if ws != [] {
      WrittenAttributesOfPrints(ws[1..]);
    }
  }

  /** Attribute writes alone print their own pairs. */
  lemma {:induction false} WrittenAttributesOfAttributeWrites(ws: seq<ServerWrite>)
    requires forall i :: 0 <= i < |ws| ==> ws[i].PrintAttribute?
    ensures WrittenAttributes(ws) == seq(|ws|, i requires 0 <= i < |ws| => (ws[i].name, ws[i].value))
  {
    if ws != [] {
      WrittenAttributesOfAttributeWrites(ws[1..]);
    }
  }

  /** The attribute calls of `forwardOpeningTagToServer` print the resolved attributes. */
  lemma WrittenAttributeWrites(attrs: seq<(string, string)>)
    ensures WrittenAttributes(AttributeWrites(attrs)) == Resolved(attrs)
  {
    WrittenAttributesOfAttributeWrites(AttributeWrites(attrs));
  }

  // Stream error fragment to the client

  /** The empty condition element: `<TAG xmlns="urn:ietf:params:xml:ns:xmpp-streams" />` */
  function ConditionElement(tagName: string): string {
    "<" + tagName + " xmlns=\"" + ERROR_NS_URN + "\" />"
  }

  /** The `<text>` element, present only with a message; `xml:lang` only with a language */
  function TextElement(e: StreamError): string {
    if e.HasMessage() then TextOpen() + LangAttribute(e) + TextClose(e.message.value) else ""
  }

  /** The start of the `<text>` element, up to its namespace */
  function TextOpen(): string {
    "<text xmlns=\"" + ERROR_NS_URN + "\""
  }

  /** The `xml:lang` attribute of the `<text>` element, if the error has a language */
  function LangAttribute(e: StreamError): string {
    if e.HasLanguage() then " xml:lang=\"" + e.language.value + "\"" else ""
  }

  /** The rest of the `<text>` element: the message and the closing tag */
  function TextClose(message: string): string {
    " >" + message + "</text>"
  }

  /** The application-specific content, verbatim, if any */
  function AppContentText(e: StreamError): string {
    if e.HasAppContent() then e.appContent.value else ""
  }

  /**
   * The one message `handleStreamError` sends for `e`, whose condition is written
   * `tagName`. It opens a stream exactly when none was opened yet, and it always ends the
   * stream: stream errors are terminal.
   */
  function StreamErrorXml(openingTagSent: bool, tagName: string, e: StreamError): (r: string)
    ensures StartsWith(r, STREAM_OPEN_BARE) <==> !openingTagSent
    ensures EndsWith(r, STREAM_CLOSE)
  {
    FramingAround(openingTagSent, ErrorDetails(tagName, e));
    (if openingTagSent then "" else STREAM_OPEN_BARE) + ERROR_OPEN + ErrorDetails(tagName, e) + ERROR_CLOSE
  }

  /** What stands between `<stream:error>` and `</stream:error>`: condition, text, app content */
  function ErrorDetails(tagName: string, e: StreamError): string {
    ConditionElement(tagName) + TextElement(e) + AppContentText(e)
  }

  /** The framing of the fragment holds whatever the details between the error tags */
  lemma FramingAround(openingTagSent: bool, details: string)
    ensures var xml := (if openingTagSent then "" else STREAM_OPEN_BARE) + ERROR_OPEN + details + ERROR_CLOSE;
            && (StartsWith(xml, STREAM_OPEN_BARE) <==> !openingTagSent)
            && EndsWith(xml, STREAM_CLOSE)
  {
    var head := (if openingTagSent then "" else STREAM_OPEN_BARE) + ERROR_OPEN + details;
    if openingTagSent {
      NotStreamOpening(head, details);
    } else {
      StartsWithConcat(STREAM_OPEN_BARE, ERROR_OPEN);
      StartsWithExtend(STREAM_OPEN_BARE + ERROR_OPEN, STREAM_OPEN_BARE, details);
      StartsWithExtend(head, STREAM_OPEN_BARE, ERROR_CLOSE);
    }
    EndsWithStreamClose(head);
  }

  /** Without the opening tag, the fragment starts with `<stream:error>`, which is no `<stream:stream>` */
  lemma NotStreamOpening(head: string, details: string)
    requires head == "" + ERROR_OPEN + details
    ensures !StartsWith(head + ERROR_CLOSE, STREAM_OPEN_BARE)
  {
    assert (head + ERROR_CLOSE)[8] == ERROR_OPEN[8];
  }

  /** `</stream:error></stream:stream>` ends with the stream's closing tag */
  lemma EndsWithStreamClose(head: string)
    ensures EndsWith(head + ERROR_CLOSE, STREAM_CLOSE)
  {
    assert ERROR_CLOSE == "</stream:error>" + STREAM_CLOSE;
    ConcatAssoc(head, "</stream:error>", STREAM_CLOSE);
    EndsWithConcat(head + "</stream:error>", STREAM_CLOSE);
  }

  /** Reads the stream-error code back from the part after the optional `<stream:stream>` */
  function ErrorCodeOfBody(body: string): Option<int> {
    if !StartsWith(body, ERROR_OPEN + "<") then None
    else
      var rest := body[|ERROR_OPEN| + 1..];
      var space := IndexOf(rest, " ");
      if space < 0 then None else ErrorConditionOf(rest[..space])
  }

  /** Reads the stream-error code back from a stream-error fragment */
  function ErrorCodeOf(xml: string): Option<int> {
    ErrorCodeOfBody(if StartsWith(xml, STREAM_OPEN_BARE) then xml[|STREAM_OPEN_BARE|..] else xml)
  }

  lemma ErrorCodeOfConditionElement(tag: string, tail: string)
    requires ' ' !in tag
    ensures ErrorCodeOfBody(ERROR_OPEN + "<" + tag + [' '] + tail) == ErrorConditionOf(tag)
  {
    var body := ERROR_OPEN + "<" + tag + [' '] + tail;
    assert StartsWith(body, ERROR_OPEN + "<");
    var rest := body[|ERROR_OPEN| + 1..];
    assert rest == tag + [' '] + tail;
    IndexOfFirstChar(tag, ' ', tail);
    assert rest[..|tag|] == tag;
  }

  /** A body that starts with `<stream:error>` does not start with `<stream:stream>` */
  lemma ErrorCodeOfPrefixed(openingTagSent: bool, body: string)
    requires StartsWith(body, ERROR_OPEN)
    ensures ErrorCodeOf((if openingTagSent then "" else STREAM_OPEN_BARE) + body) == ErrorCodeOfBody(body)
  {
    assert body[8] == ERROR_OPEN[8];
    if openingTagSent {
      assert "" + body == body;
      assert !StartsWith(body, STREAM_OPEN_BARE) by {
        assert STREAM_OPEN_BARE[8] != body[8];
      }
    } else {
      var xml := STREAM_OPEN_BARE + body;
      assert xml[..|STREAM_OPEN_BARE|] == STREAM_OPEN_BARE;
      assert xml[|STREAM_OPEN_BARE|..] == body;
    }
  }

  /** What follows the condition's tag name and its space */
  function AfterConditionTag(e: StreamError): string {
    ConditionTail() + TextElement(e) + AppContentText(e)
  }

  /** The rest of the condition element after its tag name and the space */
  function ConditionTail(): string {
    "xmlns=\"" + ERROR_NS_URN + "\" />"
  }

  /** The condition element is `<`, the tag name, a space and the namespace declaration */
  lemma ConditionElementShape(tagName: string)
    ensures ConditionElement(tagName) == "<" + tagName + [' '] + ConditionTail()
  {
  }

  /** The details open with the condition element, whose tag name is followed by a space */
  lemma ErrorDetailsShape(tagName: string, e: StreamError)
    ensures ErrorDetails(tagName, e) == "<" + tagName + [' '] + AfterConditionTag(e)
  {
    ConditionElementShape(tagName);
    AppendAssoc("<" + tagName + [' '], ConditionTail(), TextElement(e), AppContentText(e));
  }

  /** The read-back over an arbitrary tail after the tag name */
  lemma ErrorCodeOfFramed(openingTagSent: bool, tag: string, rest: string)
    requires ' ' !in tag
    ensures ErrorCodeOf((if openingTagSent then "" else STREAM_OPEN_BARE) + ERROR_OPEN
                        + ("<" + tag + [' '] + rest) + ERROR_CLOSE) == ErrorConditionOf(tag)
  {
    var body := ERROR_OPEN + ("<" + tag + [' '] + rest) + ERROR_CLOSE;
    assert body == ERROR_OPEN + "<" + tag + [' '] + (rest + ERROR_CLOSE);
    assert StartsWith(body, ERROR_OPEN) by {
      assert body[..|ERROR_OPEN|] == ERROR_OPEN;
    }
    assert (if openingTagSent then "" else STREAM_OPEN_BARE) + ERROR_OPEN + ("<" + tag + [' '] + rest) + ERROR_CLOSE
        == (if openingTagSent then "" else STREAM_OPEN_BARE) + body;
    ErrorCodeOfPrefixed(openingTagSent, body);
    ErrorCodeOfConditionElement(tag, rest + ERROR_CLOSE);
  }

  /** Any tag name without a space can be read back from the fragment that carries it */
  lemma ErrorCodeOfStreamErrorXml(openingTagSent: bool, tag: string, e: StreamError)
    requires ' ' !in tag
    ensures ErrorCodeOf(StreamErrorXml(openingTagSent, tag, e)) == ErrorConditionOf(tag)
  {
    ErrorDetailsShape(tag, e);
    ErrorCodeOfFramed(openingTagSent, tag, AfterConditionTag(e));
  }

  /** The fragment names its condition: the code can be read back from it. */
  lemma StreamErrorXmlNamesCondition(openingTagSent: bool, code: int, e: StreamError)
    requires IsStreamErrorCondition(code)
    ensures ErrorCodeOf(StreamErrorXml(openingTagSent, ErrorCondTagName(code).value, e)) == Some(code)
  {
    ErrorCondTagNameHasNoSpace(code);
    ErrorCodeOfStreamErrorXml(openingTagSent, ErrorCondTagName(code).value, e);
    ErrorCondTagNameRoundTrip(code);
  }
}
