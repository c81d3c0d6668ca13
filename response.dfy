/** The Response message (response.go): creation, and the element it
    builds on top of the Message element. */
module Resp {
  import opened Base
  import opened Ns
  import opened Dom
  import opened Saml
  import opened Msg
  import TimeFmt
  import Xmlsec
  import Codec

  /** A status; only the string it renders to reaches the XML. */
  datatype Status = Status(code: string)

  datatype Response = Response(message: Message, inResponseTo: string, status: Status,
                               assertion: Option<Assertion>)

  const ZeroResponse: Response := Response(ZeroMessage, "", Status(""), None)

  /** The calls response.go makes into code that is not part of this model:
      Status.String, and the node-building MakeXMLNode of an Assertion. */
  datatype Foreign = Foreign(statusString: Status -> string,
                             assertionXML: (Document, Assertion) -> Result<Node>)

  /** A `*Response`. */
  class ResponseRef {
    var value: Response

    constructor (r: Response)
      ensures value == r
    {
      value := r;
    }
  }

  /** A zero response whose Message was initialised in place. */
  method NewResponse(u: Uuid, now: TimeFmt.Instant) returns (res: ResponseRef)
    ensures fresh(res)
    ensures res.value == ZeroResponse.(message := Initialized(ZeroMessage, u, now))
  {
    var mr := new MessageRef(ZeroMessage);
    var _ := mr.Initialize(u, now);
    res := new ResponseRef(ZeroResponse.(message := mr.value));
  }

  /** A new response is version 2.0, carries the generated ID and the given
      instant, and has no InResponseTo and no Assertion. */
  lemma NewResponseFields(u: Uuid, now: TimeFmt.Instant)
    ensures var r := ZeroResponse.(message := Initialized(ZeroMessage, u, now));
      r.message.version == "2.0" && r.message.id == u.newV5(NamespaceDNS, UUIDURL) &&
      r.message.issueInstant == now && r.inResponseTo == "" && r.assertion.None?
  {
  }

  /** samlp:Status holding one samlp:StatusCode whose Value is `code`. */
  function StatusNode(code: string): Node {
    Node.Element("samlp:Status", None, [], [], [Node.Element("samlp:StatusCode", None, [], [Attr("Value", code)], [])])
  }

  function ResponseAttrs(res: Response): seq<Attr> {
    MessageAttrs(res.message) + (if res.inResponseTo != "" then [Attr("InResponseTo", res.inResponseTo)] else [])
  }

  /** The Response element with the given children after Issuer and Status. */
  function ResponseNode(res: Response, f: Foreign, extra: seq<Node>): Node {
    Node.Element("Response", Some(Namespace(SAMLP.prefix, SAMLP.uri)),
      [Namespace(SAMLP.prefix, SAMLP.uri), Namespace(SAML.prefix, SAML.uri)],
      ResponseAttrs(res), [IssuerNode(res.message.issuer), StatusNode(f.statusString(res.status))] + extra)
  }

  /** What MakeXMLNode builds, or the first error met. */
  function ResponseXML(d: Document, res: Response, f: Foreign): Result<Node> {
    match MessageXML(d, res.message)
    case Err(e) => Err(e)
    case Ok(_) =>
      if "samlp:Status" in d.refused then Err(d.refused["samlp:Status"])
      else if "samlp:StatusCode" in d.refused then Err(d.refused["samlp:StatusCode"])
      else match res.assertion
        case None => Ok(ResponseNode(res, f, []))
        case Some(a) =>
          match f.assertionXML(d, a)
          case Err(e) => Err(e)
          case Ok(x) => Ok(ResponseNode(res, f, [x]))
  }

  /** Builds the Response element step by step. */
  method MakeXMLNode(d: Document, res: Response, f: Foreign) returns (r: Result<Element>)
    ensures r.Err? ==> ResponseXML(d, res, f) == Err(r.error)
    ensures r.Ok? ==> fresh(r.value) && ResponseXML(d, res, f) == Ok(r.value.Value())
  {
    var mr := Msg.MakeXMLNode(d, res.message);
    if mr.Err? {
      return Err(mr.error);
    }
    var resxml := mr.value;
    assert MessageXML(d, res.message).Ok?;
    resxml.SetNodeName("Response");
    resxml.SetNamespace(SAMLP.uri, SAMLP.prefix, true);
    resxml.SetNamespace(SAML.uri, SAML.prefix, false);
    SetInResponseTo(resxml, res);
    var sr := StatusElement(d, f.statusString(res.status));
    if sr.Err? {
      return Err(sr.error);
    }
    resxml.AddChild(sr.value.Value());
    ghost var base := [IssuerNode(res.message.issuer), StatusNode(f.statusString(res.status))];
    assert resxml.Value() == ResponseNode(res, f, []);
    if res.assertion.Some? {
      var ar := f.assertionXML(d, res.assertion.value);
      if ar.Err? {
        return Err(ar.error);
      }
      resxml.AddChild(ar.value);
      assert base + [ar.value] == [IssuerNode(res.message.issuer), StatusNode(f.statusString(res.status)), ar.value];
      assert resxml.Value() == ResponseNode(res, f, [ar.value]);
    }
    return Ok(resxml);
  }

  /** Lines 34 to 36 of response.go, after the message attributes. */
  method SetInResponseTo(resxml: Element, res: Response)
    requires resxml.attrs == MessageAttrs(res.message)
    modifies resxml
    ensures resxml.Value() == Node.Element(old(resxml.name), old(resxml.ns), old(resxml.nsDecls),
                                           ResponseAttrs(res), old(resxml.children))
  {
    if res.inResponseTo != "" {
      MessageAttrsKeys(res.message);
      SetAttrFresh(resxml.attrs, "InResponseTo", res.inResponseTo);
      resxml.SetAttribute("InResponseTo", res.inResponseTo);
    }
  }

  /** No message attribute is called InResponseTo. */
  lemma MessageAttrsKeys(m: Message)
    ensures forall j :: 0 <= j < |MessageAttrs(m)| ==> MessageAttrs(m)[j].key != "InResponseTo"
  {
  }

  /** A message error is returned as it is; otherwise the element is
      named Response in the samlp namespace, its children are Issuer, then
      Status holding one StatusCode whose Value is the status string, then
      the Assertion exactly when there is one. */
  lemma ResponseShape(d: Document, res: Response, f: Foreign)
    ensures MessageXML(d, res.message).Err? ==> ResponseXML(d, res, f) == Err(MessageXML(d, res.message).error)
    ensures ResponseXML(d, res, f).Ok? ==>
      var n := ResponseXML(d, res, f).value;
      n.Element? && n.name == "Response" && n.ns == Some(Namespace("samlp", SAMLP.uri)) &&
      |n.children| == (if res.assertion.Some? then 3 else 2) &&
      n.children[0] == IssuerNode(res.message.issuer) &&
      n.children[1].Element? && n.children[1].name == "samlp:Status" &&
      |n.children[1].children| == 1 && n.children[1].children[0].Element? &&
      n.children[1].children[0].name == "samlp:StatusCode" &&
      GetAttr(n.children[1].children[0].attrs, "Value") == Some(f.statusString(res.status))
    ensures (res.assertion.None? && MessageXML(d, res.message).Ok? &&
             "samlp:Status" !in d.refused && "samlp:StatusCode" !in d.refused) ==> ResponseXML(d, res, f).Ok?
  {
  }

  /** InResponseTo is set exactly when it is non-empty. */
  lemma InResponseToPresent(res: Response)
    ensures GetAttr(ResponseAttrs(res), "InResponseTo") ==
            if res.inResponseTo != "" then Some(res.inResponseTo) else None
  {
    var a := ResponseAttrs(res);
    MessageAttrsKeys(res.message);
    if res.inResponseTo != "" {
      GetAttrAt(a, |a| - 1, "InResponseTo");
    } else {
      GetAttrAbsent(a, "InResponseTo");
    }
  }

  /** Lines 37 to 46 of response.go. */
  method StatusElement(d: Document, code: string) returns (r: Result<Element>)
    ensures r.Err? <==> "samlp:Status" in d.refused || "samlp:StatusCode" in d.refused
    ensures r.Err? ==> r.error == if "samlp:Status" in d.refused then d.refused["samlp:Status"]
                                 else d.refused["samlp:StatusCode"]
    ensures r.Ok? ==> fresh(r.value) && r.value.Value() == StatusNode(code)
  {
    var st := CreateElement(d, "samlp:Status");
    if st.Err? {
      return Err(st.error);
    }
    var stc := CreateElement(d, "samlp:StatusCode");
    if stc.Err? {
      return Err(stc.error);
    }
    stc.value.SetAttribute("Value", code);
    st.value.AddChild(stc.value.Value());
    return Ok(st.value);
  }

  /** `Response.Encode`: the transport encoding without compression, given
      what Serialize returned (serialize is not part of this model). */
  method Encode(serialized: Result<Bytes>, key: Option<Xmlsec.Key>, lib: Xmlsec.Lib) returns (r: Result<Bytes>)
    ensures serialized.Err? ==> r == Err(serialized.error)
    ensures serialized.Ok? && key.None? ==> r == serialized
    ensures serialized.Ok? && key.Some? ==> r == Codec.Signed(serialized.value, key.value, lib)
  {
    r := Codec.Encode(serialized, key, false, lib);
  }
}
