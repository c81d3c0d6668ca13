/** The fields every SAML protocol message carries, and the element they
    become (message.go). */
module Msg {
  import opened Base
  import opened Ns
  import opened Dom
  import opened Saml
  import TimeFmt

  /** The name from which every message ID is derived. */
  const UUIDURL: string := "github.com/lestrrat/go-saml"

  /** The DNS namespace of RFC 4122 (appendix C), as uuid.NamespaceDNS. */
  const NamespaceDNS: string := "6ba7b810-9dad-11d1-80b4-00c04fd430c8"

  /** Name-based (version 5) UUID generation is foreign: a deterministic
      function from a namespace and a name to the UUID's text. */
  datatype Uuid = Uuid(newV5: (string, string) -> string)

  /** The message after Initialize: a name-based ID, version 2.0 and the
      current instant; the other fields as they were. */
  function Initialized(m: Message, u: Uuid, now: TimeFmt.Instant): (r: Message)
    ensures r.id == u.newV5(NamespaceDNS, UUIDURL)
    ensures r.version == "2.0" && r.issueInstant == now
    ensures r.issuer == m.issuer && r.destination == m.destination && r.consent == m.consent
  {
    m.(id := u.newV5(NamespaceDNS, UUIDURL), version := "2.0", issueInstant := now)
  }

  /** The ID does not depend on the message or on the time: every message
      initialised by the same generator gets the same ID. */
  lemma SameId(m1: Message, m2: Message, u: Uuid, t1: TimeFmt.Instant, t2: TimeFmt.Instant)
    ensures Initialized(m1, u, t1).id == Initialized(m2, u, t2).id
  {
  }

  /** Initialising again only moves the issue instant. */
  lemma InitializeAgain(m: Message, u: Uuid, t1: TimeFmt.Instant, t2: TimeFmt.Instant)
    ensures Initialized(Initialized(m, u, t1), u, t2) == Initialized(m, u, t2)
  {
  }

  /** A `*Message`: the message a pointer designates. */
  class MessageRef {
    var value: Message

    constructor (m: Message)
      ensures value == m
    {
      value := m;
    }

    /** Sets ID, Version and IssueInstant in place and returns the receiver. */
    method Initialize(u: Uuid, now: TimeFmt.Instant) returns (r: MessageRef)
      modifies this
      ensures r == this
      ensures value == Initialized(old(value), u, now)
    {
      value := value.(id := u.newV5(NamespaceDNS, UUIDURL));
      value := value.(version := "2.0");
      value := value.(issueInstant := now);
      return this;
    }
  }

  /** The Issuer element: `saml:Issuer` in the SAML assertion namespace,
      holding the issuer as text. */
  function IssuerNode(issuer: string): Node {
    Node.Element("saml:Issuer", Some(Namespace("saml", SAML.uri)), [Namespace("saml", SAML.uri)], [],
      [Text(issuer)])
  }

  /** The attributes of a message element in the order they are set. */
  function MessageAttrs(m: Message): seq<Attr> {
    AttrsAt(m, TimeFmt.Format(m.issueInstant))
  }

  /** The same, with the issue instant already rendered as `instant`. */
  function AttrsAt(m: Message, instant: string): seq<Attr> {
    [Attr("ID", m.id), Attr("Version", m.version), Attr("IssueInstant", instant)] +
    (if m.destination != "" then [Attr("Destination", m.destination)] else []) +
    (if m.consent != "" then [Attr("Consent", m.consent)] else [])
  }

  /** What MakeXMLNode builds, or the error of the element creation that
      failed first. */
  function MessageXML(d: Document, m: Message): Result<Node> {
    if "Message" in d.refused then Err(d.refused["Message"])
    else if "saml:Issuer" in d.refused then Err(d.refused["saml:Issuer"])
    else Ok(Node.Element("Message", None, [], MessageAttrs(m), [IssuerNode(m.issuer)]))
  }

  /** Builds the Message element step by step. */
  method MakeXMLNode(d: Document, m: Message) returns (r: Result<Element>)
    ensures r.Err? ==> MessageXML(d, m) == Err(r.error)
    ensures r.Ok? ==> fresh(r.value) && MessageXML(d, m) == Ok(r.value.Value())
  {
    var mr := CreateElement(d, "Message");
    if mr.Err? {
      return Err(mr.error);
    }
    var mxml := mr.value;
    SetMessageAttributes(mxml, m);
    ghost var attrs := MessageAttrs(m);
    assert mxml.Value() == Node.Element("Message", None, [], attrs, []);
    var ir := IssuerElement(d, m.issuer);
    if ir.Err? {
      return Err(ir.error);
    }
    var iss := ir.value;
    mxml.AddChild(iss.Value());
    assert [] + [IssuerNode(m.issuer)] == [IssuerNode(m.issuer)];
    assert mxml.Value() == Node.Element("Message", None, [], attrs, [IssuerNode(m.issuer)]);
    return Ok(mxml);
  }

  /** Lines 39 to 43 of message.go: the saml:Issuer element holding `issuer`. */
  method IssuerElement(d: Document, issuer: string) returns (r: Result<Element>)
    ensures r.Err? <==> "saml:Issuer" in d.refused
    ensures r.Err? ==> r.error == d.refused["saml:Issuer"]
    ensures r.Ok? ==> fresh(r.value) && r.value.Value() == IssuerNode(issuer)
  {
    var qname := XMLName(SAML, "Issuer").local;
    IssuerQName();
    var ir := CreateElementNS(d, SAML.uri, qname);
    if ir.Err? {
      return Err(ir.error);
    }
    var iss := ir.value;
    iss.AppendText(issuer);
    return Ok(iss);
  }

  /** The Issuer's qualified name, and the prefix it declares. */
  lemma IssuerQName()
    ensures XMLName(SAML, "Issuer").local == "saml:Issuer"
    ensures PrefixOf("saml:Issuer") == "saml"
  {
    PrefixOfQualified("saml", "Issuer");
    assert "saml" + ":" + "Issuer" == "saml:Issuer";
  }

  /** Lines 28 to 36 of message.go, on an element without attributes. */
  method SetMessageAttributes(mxml: Element, m: Message)
    requires mxml.attrs == []
    modifies mxml
    ensures mxml.Value() == Node.Element(old(mxml.name), old(mxml.ns), old(mxml.nsDecls), MessageAttrs(m), old(mxml.children))
  {
    var instant := TimeFmt.Format(m.issueInstant);
    mxml.SetAttribute("ID", m.id);
    SetAttrFresh(mxml.attrs, "Version", m.version);
    mxml.SetAttribute("Version", m.version);
    SetAttrFresh(mxml.attrs, "IssueInstant", instant);
    mxml.SetAttribute("IssueInstant", instant);
    ghost var base := mxml.attrs;
    assert base == [Attr("ID", m.id), Attr("Version", m.version), Attr("IssueInstant", instant)];
    if m.destination != "" {
      SetAttrFresh(mxml.attrs, "Destination", m.destination);
      mxml.SetAttribute("Destination", m.destination);
    }
    ghost var opt := mxml.attrs;
    assert opt == base + (if m.destination != "" then [Attr("Destination", m.destination)] else []);
    if m.consent != "" {
      SetAttrFresh(mxml.attrs, "Consent", m.consent);
      mxml.SetAttribute("Consent", m.consent);
    }
    assert mxml.attrs == opt + (if m.consent != "" then [Attr("Consent", m.consent)] else []);
    assert mxml.attrs == AttrsAt(m, instant);
  }

  /** ID, Version and IssueInstant are always set, in that order. */
  lemma FixedAttributes(m: Message, instant: string)
    ensures GetAttr(AttrsAt(m, instant), "ID") == Some(m.id)
    ensures GetAttr(AttrsAt(m, instant), "Version") == Some(m.version)
    ensures GetAttr(AttrsAt(m, instant), "IssueInstant") == Some(instant)
  {
    var a := AttrsAt(m, instant);
    GetAttrAt(a, 0, "ID");
    GetAttrAt(a, 1, "Version");
    GetAttrAt(a, 2, "IssueInstant");
  }

  /** Destination and Consent are set exactly when they are non-empty. */
  lemma OptionalAttributes(m: Message, instant: string)
    ensures GetAttr(AttrsAt(m, instant), "Destination") == if m.destination != "" then Some(m.destination) else None
    ensures GetAttr(AttrsAt(m, instant), "Consent") == if m.consent != "" then Some(m.consent) else None
  {
    var a := AttrsAt(m, instant);
    if m.destination != "" {
      GetAttrAt(a, 3, "Destination");
    } else {
      GetAttrAbsent(a, "Destination");
    }
    if m.consent != "" {
      GetAttrAt(a, |a| - 1, "Consent");
    } else {
      GetAttrAbsent(a, "Consent");
    }
  }

  /** On the message element: ID, Version and the formatted IssueInstant
      always; Destination and Consent exactly when they are non-empty. */
  lemma MessageAttributes(m: Message)
    ensures GetAttr(MessageAttrs(m), "ID") == Some(m.id)
    ensures GetAttr(MessageAttrs(m), "Version") == Some(m.version)
    ensures GetAttr(MessageAttrs(m), "IssueInstant") == Some(TimeFmt.Format(m.issueInstant))
    ensures GetAttr(MessageAttrs(m), "Destination") == if m.destination != "" then Some(m.destination) else None
    ensures GetAttr(MessageAttrs(m), "Consent") == if m.consent != "" then Some(m.consent) else None
  {
    FixedAttributes(m, TimeFmt.Format(m.issueInstant));
    OptionalAttributes(m, TimeFmt.Format(m.issueInstant));
  }

  /** The element is named "Message", and its only child is the saml:Issuer
      element holding the issuer. */
  lemma MessageShape(d: Document, m: Message)
    ensures MessageXML(d, m).Ok? <==> "Message" !in d.refused && "saml:Issuer" !in d.refused
    ensures MessageXML(d, m).Ok? ==>
      var n := MessageXML(d, m).value;
      n.Element? && n.name == "Message" && |n.children| == 1 &&
      n.children[0].Element? && n.children[0].name == "saml:Issuer" &&
      n.children[0].ns == Some(Namespace(SAML.prefix, SAML.uri)) &&
      TextOf(n.children[0].children) == m.issuer
  {
    assert TextOf([Text(m.issuer)]) == m.issuer + TextOf([]);
  }
}
