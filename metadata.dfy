/** SAML 2.0 metadata as the root package writes it (metadata.go): an
    EntityDescriptor holding one IDPSSODescriptor whose children are the
    single logout endpoints, the name identifier format and the single
    sign-on endpoints. */
module Metadata {
  import opened Base
  import opened Ns
  import opened Dom
  import NameId
  import TimeFmt

  /** The metadata namespace `ns.Metadata`, which ns/ns.go does not define:
      prefix `md` and the SAML V2.0 metadata namespace URI. */
  const MetadataNS: Namespace := New("md", "urn:oasis:names:tc:SAML:2.0:metadata")

  /** The protocol URN metadata.go writes as protocolSupportEnumeration. */
  const ProtocolURN: string := "urn:oasis:names:tc:SAML:2.0:protocol"

  const EntityDescriptorName: string := "md:EntityDescriptor"
  const IDPSSODescriptorName: string := "md:IDPSSODescriptor"
  const SingleLogoutService: string := "SingleLogoutService"
  const SingleSignOnService: string := "SingleSignOnService"
  const SingleLogoutServiceName: string := "md:SingleLogoutService"
  const SingleSignOnServiceName: string := "md:SingleSignOnService"
  const Unimplemented: Error := Error("unimplemented")

  datatype Endpoint = Endpoint(name: string, protocolBinding: string, location: string, responseLocation: string)

  datatype AssertionConsumerService = AssertionConsumerService(protocolBinding: string, location: string, index: int)

  datatype CommonDescriptor = CommonDescriptor(cacheDuration: int, id: string, name: string, validUntil: TimeFmt.Instant)

  type NameIDFormat = string

  datatype SSODescriptor = SSODescriptor(singleLogoutService: seq<Endpoint>, nameIDFormat: NameIDFormat)

  datatype IDPDescriptor = IDPDescriptor(common: CommonDescriptor, sso: SSODescriptor, singleSignOnService: seq<Endpoint>)

  /** An entity descriptor: an IDP descriptor, or another implementation
      of MakeXMLNode, known only by what it builds. */
  datatype EntityDescriptor = IDP(desc: IDPDescriptor) | Other(makeXML: Document -> Result<Node>)

  datatype Metadata = Metadata(entityDescriptors: seq<EntityDescriptor>)

  // Accessors of the descriptor.

  function ID(desc: IDPDescriptor): string { desc.common.id }
  function Name(desc: IDPDescriptor): string { desc.common.name }
  function CacheDuration(desc: IDPDescriptor): int { desc.common.cacheDuration }
  function ValidUntil(desc: IDPDescriptor): TimeFmt.Instant { desc.common.validUntil }
  function SingleLogoutServices(desc: IDPDescriptor): seq<Endpoint> { desc.sso.singleLogoutService }

  /** The attribute `key="v"`, written only when `v` is not empty. */
  function OptAttr(key: string, v: string): seq<Attr> {
    if v == "" then [] else [Attr(key, v)]
  }

  function EndpointAttrs(e: Endpoint): seq<Attr> {
    OptAttr("Binding", e.protocolBinding) + OptAttr("Location", e.location)
      + OptAttr("ResponseLocation", e.responseLocation)
  }

  /** The node written for an endpoint: `md:` followed by its Name. */
  function EndpointNode(e: Endpoint): Node {
    Node.Element("md:" + e.name, None, [], EndpointAttrs(e), [])
  }

  /** Each of Binding, Location and ResponseLocation is present exactly
      when the endpoint's field is non-empty, and then holds that field. */
  lemma EndpointAttrsPresent(e: Endpoint)
    ensures GetAttr(EndpointAttrs(e), "Binding") == (if e.protocolBinding == "" then None else Some(e.protocolBinding))
    ensures GetAttr(EndpointAttrs(e), "Location") == (if e.location == "" then None else Some(e.location))
    ensures GetAttr(EndpointAttrs(e), "ResponseLocation") == (if e.responseLocation == "" then None else Some(e.responseLocation))
  {
    OptAttrsGet("Binding", e.protocolBinding, "Location", e.location, "ResponseLocation", e.responseLocation, "Binding");
    OptAttrsGet("Binding", e.protocolBinding, "Location", e.location, "ResponseLocation", e.responseLocation, "Location");
    OptAttrsGet("Binding", e.protocolBinding, "Location", e.location, "ResponseLocation", e.responseLocation, "ResponseLocation");
  }

  /** Reading a key from three optional attributes with distinct keys. */
  lemma OptAttrsGet(k1: string, v1: string, k2: string, v2: string, k3: string, v3: string, key: string)
    requires k1 != k2 && k2 != k3 && k1 != k3
    ensures GetAttr(OptAttr(k1, v1) + OptAttr(k2, v2) + OptAttr(k3, v3), key) ==
      if key == k1 && v1 != "" then Some(v1)
      else if key == k2 && v2 != "" then Some(v2)
      else if key == k3 && v3 != "" then Some(v3)
      else None
  {
    var a, b, c := OptAttr(k1, v1), OptAttr(k2, v2), OptAttr(k3, v3);
    assert a + b + c == a + (b + (c + []));
    GetAttrOpt(k1, v1, b + (c + []), key);
    GetAttrOpt(k2, v2, c + [], key);
    GetAttrOpt(k3, v3, [], key);
  }

  /** An optional attribute in front is read first. */
  lemma GetAttrOpt(k: string, v: string, rest: seq<Attr>, key: string)
    ensures GetAttr(OptAttr(k, v) + rest, key) == if key == k && v != "" then Some(v) else GetAttr(rest, key)
  {
    if v != "" {
      assert (OptAttr(k, v) + rest)[1..] == rest;
    } else {
      assert OptAttr(k, v) + rest == rest;
    }
  }

  /** `Endpoint.MakeXMLNode`. */
  method EndpointMakeXMLNode(d: Document, e: Endpoint) returns (r: Result<Element>)
    ensures r.Err? <==> ("md:" + e.name) in d.refused
    ensures r.Err? ==> r.error == d.refused["md:" + e.name]
    ensures r.Ok? ==> fresh(r.value) && r.value.Value() == EndpointNode(e)
  {
    var root := CreateElement(d, "md:" + e.name);
    if root.Err? {
      return Err(root.error);
    }
    var elem := root.value;
    if e.protocolBinding != "" {
      elem.SetAttribute("Binding", e.protocolBinding);
    }
    if e.location != "" {
      SetAttrFresh(elem.attrs, "Location", e.location);
      elem.SetAttribute("Location", e.location);
    }
    if e.responseLocation != "" {
      SetAttrFresh(elem.attrs, "ResponseLocation", e.responseLocation);
      elem.SetAttribute("ResponseLocation", e.responseLocation);
    }
    return Ok(elem);
  }

  /** The nodes a loop over `eps` appends, each endpoint renamed `name` on
      its own copy: node `i` is named `md:name` and carries the attributes
      of `eps[i]`, whatever Name `eps[i]` had. */
  function EndpointNodes(eps: seq<Endpoint>, name: string): (r: seq<Node>)
    ensures |r| == |eps|
    ensures forall i :: 0 <= i < |eps| ==> r[i] == Node.Element("md:" + name, None, [], EndpointAttrs(eps[i]), [])
  {
    if eps == [] then []
    else EndpointNodes(eps[..|eps| - 1], name) + [EndpointNode(eps[|eps| - 1].(name := name))]
  }

  /** The error of a loop over `eps` renamed `name`: every iteration creates
      the same element, so the first one fails or none does. */
  function ServicesError(d: Document, eps: seq<Endpoint>, name: string): (r: Option<Error>)
    ensures r.Some? <==> eps != [] && ("md:" + name) in d.refused
  {
    if eps != [] && ("md:" + name) in d.refused then Some(d.refused["md:" + name]) else None
  }

  /** The loops of lines 86 to 93 and 101 to 108: every endpoint of `eps`,
      renamed `name` on a copy, is appended to `parent` in order. */
  method AddServices(d: Document, parent: Element, eps: seq<Endpoint>, name: string) returns (err: Option<Error>)
    modifies parent
    ensures err == ServicesError(d, eps, name)
    ensures err.None? ==> (parent.Value() ==
      Node.Element(old(parent.name), old(parent.ns), old(parent.nsDecls), old(parent.attrs),
                   old(parent.children) + EndpointNodes(eps, name)))
  {
    var i := 0;
    while i < |eps|
      invariant 0 <= i <= |eps|
      invariant i > 0 ==> ("md:" + name) !in d.refused
      invariant parent.Value() == Node.Element(old(parent.name), old(parent.ns), old(parent.nsDecls),
                                               old(parent.attrs), old(parent.children) + EndpointNodes(eps[..i], name))
    {
      var r := EndpointMakeXMLNode(d, eps[i].(name := name));
      if r.Err? {
        return Some(r.error);
      }
      parent.AddChild(r.value.Value());
      assert eps[..i + 1][..i] == eps[..i];
      i := i + 1;
    }
    assert eps[..i] == eps;
    return None;
  }

  /** The node written for an AssertionConsumerService. */
  function AcsNode(s: AssertionConsumerService): Node {
    Node.Element("md:AssertionConsumerService", None, [],
      [Attr("Binding", s.protocolBinding), Attr("Location", s.location), Attr("index", IntToString(s.index))], [])
  }

  /** `AssertionConsumerService.MakeXMLNode`. */
  method AcsMakeXMLNode(d: Document, s: AssertionConsumerService) returns (r: Result<Element>)
    ensures r.Err? <==> "md:AssertionConsumerService" in d.refused
    ensures r.Err? ==> r.error == d.refused["md:AssertionConsumerService"]
    ensures r.Ok? ==> fresh(r.value) && r.value.Value() == AcsNode(s)
  {
    var root := CreateElement(d, "md:AssertionConsumerService");
    if root.Err? {
      return Err(root.error);
    }
    var elem := root.value;
    elem.SetAttribute("Binding", s.protocolBinding);
    SetAttrFresh(elem.attrs, "Location", s.location);
    elem.SetAttribute("Location", s.location);
    SetAttrFresh(elem.attrs, "index", IntToString(s.index));
    elem.SetAttribute("index", IntToString(s.index));
    return Ok(elem);
  }

  /** Unlike an endpoint, an AssertionConsumerService always carries
      Binding and Location, even empty, and its index reads back as the
      service's Index. */
  lemma AcsAttrs(s: AssertionConsumerService)
    ensures GetAttr(AcsNode(s).attrs, "Binding") == Some(s.protocolBinding)
    ensures GetAttr(AcsNode(s).attrs, "Location") == Some(s.location)
    ensures GetAttr(AcsNode(s).attrs, "index") == Some(IntToString(s.index))
  {
    var attrs := AcsNode(s).attrs;
    GetAttrAt(attrs, 1, "Location");
    GetAttrAt(attrs, 2, "index");
  }

  /** The index attribute reads back as the Index: its digits, after a
      '-' for a negative one, are the decimal digits of its magnitude. */
  lemma IndexRoundTrip(index: int)
    ensures index >= 0 ==> DigitsValue(IntToString(index)) == index
    ensures index < 0 ==> IntToString(index)[1..] == NatToString(-index) && DigitsValue(NatToString(-index)) == -index
  {
    if index >= 0 {
      assert IntToString(index) == NatToString(index);
      NatToStringRoundTrip(index);
    } else {
      var t := NatToString(-index);
      assert IntToString(index) == "-" + t;
      assert ("-" + t)[1..] == t;
      NatToStringRoundTrip(-index);
    }
  }

  /** `NameIDFormat.MakeXMLNode`: the same node as `nameid.Format`'s, the
      transient URN whatever the receiver. */
  method NameIDFormatMakeXMLNode(d: Document, nif: NameIDFormat) returns (r: Result<Element>)
    ensures r.Err? <==> NameId.ElementName in d.refused
    ensures r.Err? ==> r.error == d.refused[NameId.ElementName]
    ensures r.Ok? ==> fresh(r.value) && r.value.Value() == NameId.FormatNode()
  {
    var root := CreateElement(d, NameId.ElementName);
    if root.Err? {
      return Err(root.error);
    }
    root.value.AppendText(NameId.Transient);
    return Ok(root.value);
  }

  /** The EntityDescriptor root: in the metadata namespace, declaring the
      XML signature namespace, naming the entity, over `children`. */
  function EntityNode(id: string, children: seq<Node>): Node {
    Node.Element(EntityDescriptorName, Some(MetadataNS), [MetadataNS, XMLDSignature], [Attr("entityID", id)], children)
  }

  function IDPSSONode(desc: IDPDescriptor): Node {
    Node.Element(IDPSSODescriptorName, None, [], [Attr("protocolSupportEnumeration", ProtocolURN)],
      EndpointNodes(SingleLogoutServices(desc), SingleLogoutService) + [NameId.FormatNode()]
        + EndpointNodes(desc.singleSignOnService, SingleSignOnService))
  }

  /** What `IDPDescriptor.MakeXMLNode` builds, or the first error. */
  function IDPXML(d: Document, desc: IDPDescriptor): Result<Node> {
    if EntityDescriptorName in d.refused then Err(d.refused[EntityDescriptorName])
    else if IDPSSODescriptorName in d.refused then Err(d.refused[IDPSSODescriptorName])
    else if ServicesError(d, SingleLogoutServices(desc), SingleLogoutService).Some? then
      Err(ServicesError(d, SingleLogoutServices(desc), SingleLogoutService).value)
    else if NameId.ElementName in d.refused then Err(d.refused[NameId.ElementName])
    else if ServicesError(d, desc.singleSignOnService, SingleSignOnService).Some? then
      Err(ServicesError(d, desc.singleSignOnService, SingleSignOnService).value)
    else Ok(EntityNode(ID(desc), [IDPSSONode(desc)]))
  }

  /** The qualified name `ns.Metadata.AddPrefix("EntityDescriptor")` and its prefix. */
  lemma EntityQName()
    ensures XMLName(MetadataNS, "EntityDescriptor").local == EntityDescriptorName
    ensures PrefixOf(EntityDescriptorName) == "md"
  {
    PrefixOfQualified("md", "EntityDescriptor");
    assert "md" + ":" + "EntityDescriptor" == EntityDescriptorName;
  }

  /** `IDPDescriptor.MakeXMLNode`. The IDPSSODescriptor is attached to the
      root once it is complete, which gives the tree libxml2 holds when the
      child is linked first and filled afterwards. */
  method IDPMakeXMLNode(d: Document, desc: IDPDescriptor) returns (r: Result<Element>)
    ensures r.Err? <==> IDPXML(d, desc).Err?
    ensures r.Err? ==> r.error == IDPXML(d, desc).error
    ensures r.Ok? ==> fresh(r.value) && r.value.Value() == IDPXML(d, desc).value
  {
    var qname := XMLName(MetadataNS, "EntityDescriptor").local;
    EntityQName();
    var rr := CreateElementNS(d, MetadataNS.uri, qname);
    if rr.Err? {
      return Err(rr.error);
    }
    var root := rr.value;
    root.SetNamespace(XMLDSignature.uri, XMLDSignature.prefix, false);
    root.SetAttribute("entityID", ID(desc));
    var ir := CreateElement(d, IDPSSODescriptorName);
    if ir.Err? {
      return Err(ir.error);
    }
    var idpdesc := ir.value;
    var err := FillIDPSSODescriptor(d, idpdesc, desc);
    if err.Some? {
      return Err(err.value);
    }
    root.AddChild(idpdesc.Value());
    return Ok(root);
  }

  /** Lines 84 to 108: the IDPSSODescriptor's attribute and children. */
  method FillIDPSSODescriptor(d: Document, idpdesc: Element, desc: IDPDescriptor) returns (err: Option<Error>)
    requires EntityDescriptorName !in d.refused && IDPSSODescriptorName !in d.refused
    requires idpdesc.Value() == Node.Element(IDPSSODescriptorName, None, [], [], [])
    modifies idpdesc
    ensures err.None? <==> IDPXML(d, desc).Ok?
    ensures err.Some? ==> err.value == IDPXML(d, desc).error
    ensures err.None? ==> idpdesc.Value() == IDPSSONode(desc)
  {
    ghost var attrs := [Attr("protocolSupportEnumeration", ProtocolURN)];
    ghost var sls := EndpointNodes(SingleLogoutServices(desc), SingleLogoutService);
    ghost var sso := EndpointNodes(desc.singleSignOnService, SingleSignOnService);
    idpdesc.SetAttribute("protocolSupportEnumeration", ProtocolURN);
    assert idpdesc.Value() == Node.Element(IDPSSODescriptorName, None, [], attrs, []);
    err := AddServices(d, idpdesc, SingleLogoutServices(desc), SingleLogoutService);
    if err.Some? {
      return;
    }
    assert idpdesc.Value() == Node.Element(IDPSSODescriptorName, None, [], attrs, [] + sls);
    var nr := NameIDFormatMakeXMLNode(d, desc.sso.nameIDFormat);
    if nr.Err? {
      return Some(nr.error);
    }
    idpdesc.AddChild(nr.value.Value());
    assert [] + sls == sls;
    assert idpdesc.Value() == Node.Element(IDPSSODescriptorName, None, [], attrs, sls + [NameId.FormatNode()]);
    err := AddServices(d, idpdesc, desc.singleSignOnService, SingleSignOnService);
  }

  /** The element names the two endpoint loops create. */
  lemma ServiceNames()
    ensures "md:" + SingleLogoutService == SingleLogoutServiceName
    ensures "md:" + SingleSignOnService == SingleSignOnServiceName
  {
  }

  /** Building the IDP descriptor succeeds exactly when none of the
      element names it needs is refused. */
  lemma IDPSucceeds(d: Document, desc: IDPDescriptor)
    ensures IDPXML(d, desc).Ok? <==>
      EntityDescriptorName !in d.refused && IDPSSODescriptorName !in d.refused && NameId.ElementName !in d.refused
      && (SingleLogoutServices(desc) != [] ==> SingleLogoutServiceName !in d.refused)
      && (desc.singleSignOnService != [] ==> SingleSignOnServiceName !in d.refused)
  {
    ServiceNames();
  }

  /** The root names the entity by its ID and has one child, the
      IDPSSODescriptor, carrying the SAML 2.0 protocol URN. */
  lemma IDPShape(d: Document, desc: IDPDescriptor)
    requires IDPXML(d, desc).Ok?
    ensures var root := IDPXML(d, desc).value;
      root.Element? && root.name == EntityDescriptorName && root.ns == Some(MetadataNS)
      && GetAttr(root.attrs, "entityID") == Some(desc.common.id)
      && root.children == [IDPSSONode(desc)]
    ensures GetAttr(IDPSSONode(desc).attrs, "protocolSupportEnumeration") == Some(SAMLP.uri)
  {
  }

  /** The IDPSSODescriptor's children: every single logout endpoint, then
      the format, then every single sign-on endpoint, in slice order. */
  lemma IDPSSOChildren(desc: IDPDescriptor)
    ensures var kids := IDPSSONode(desc).children;
      var sls := SingleLogoutServices(desc);
      var sso := desc.singleSignOnService;
      |kids| == |sls| + 1 + |sso|
      && (forall i :: 0 <= i < |sls| ==> kids[i] == Node.Element(SingleLogoutServiceName, None, [], EndpointAttrs(sls[i]), []))
      && kids[|sls|] == NameId.FormatNode()
      && (forall j :: 0 <= j < |sso| ==>
            kids[|sls| + 1 + j] == Node.Element(SingleSignOnServiceName, None, [], EndpointAttrs(sso[j]), []))
  {
    var sls := SingleLogoutServices(desc);
    var sso := desc.singleSignOnService;
    var a := EndpointNodes(sls, SingleLogoutService);
    var b := EndpointNodes(sso, SingleSignOnService);
    var kids := a + [NameId.FormatNode()] + b;
    ServiceNames();
    forall j | 0 <= j < |sso|
      ensures kids[|sls| + 1 + j] == b[j]
    {
    }
  }

  /** The renaming in the loops happens on copies: the descriptor keeps
      its endpoints' own names, and the nodes do not depend on them. */
  lemma RenamingOnCopies(eps: seq<Endpoint>, renamed: seq<Endpoint>, name: string)
    requires |renamed| == |eps|
    requires forall i :: 0 <= i < |eps| ==> renamed[i] == eps[i].(name := renamed[i].name)
    ensures EndpointNodes(renamed, name) == EndpointNodes(eps, name)
  {
    var a := EndpointNodes(renamed, name);
    var b := EndpointNodes(eps, name);
    forall i | 0 <= i < |eps|
      ensures a[i] == b[i]
    {
      assert EndpointAttrs(renamed[i]) == EndpointAttrs(eps[i]);
    }
  }

  /** What an entity descriptor builds. */
  function EntityXML(d: Document, ed: EntityDescriptor): Result<Node> {
    match ed
    case IDP(desc) => IDPXML(d, desc)
    case Other(makeXML) => makeXML(d)
  }

  /** What `Metadata.MakeXMLNode` builds. */
  function MetadataXML(d: Document, m: Metadata): Result<Node> {
    if |m.entityDescriptors| == 1 then EntityXML(d, m.entityDescriptors[0]) else Err(Unimplemented)
  }

  /** Exactly one entity descriptor is delegated to; none or several give
      "unimplemented" whatever they hold. */
  lemma MetadataDelegates(d: Document, m: Metadata)
    ensures |m.entityDescriptors| == 1 ==> MetadataXML(d, m) == EntityXML(d, m.entityDescriptors[0])
    ensures |m.entityDescriptors| != 1 ==> MetadataXML(d, m) == Err(Unimplemented)
    ensures |m.entityDescriptors| == 1 && m.entityDescriptors[0].IDP? ==>
      MetadataXML(d, m) == IDPXML(d, m.entityDescriptors[0].desc)
  {
  }

  /** `Metadata.MakeXMLNode`. */
  method MakeXMLNode(d: Document, m: Metadata) returns (r: Result<Node>)
    ensures r == MetadataXML(d, m)
  {
    if |m.entityDescriptors| == 1 {
      match m.entityDescriptors[0]
      case IDP(desc) =>
        var e := IDPMakeXMLNode(d, desc);
        if e.Err? {
          return Err(e.error);
        }
        return Ok(e.value.Value());
      case Other(makeXML) =>
        return makeXML(d);
    }
    return Err(Unimplemented);
  }

  /** `Metadata.Serialize` on a fresh document `d`; `dump` is `doc.Dump(true)`
      once the node is the document element. On failure the text is empty. */
  method Serialize(d: Document, m: Metadata, dump: Node -> string) returns (s: string, err: Option<Error>)
    ensures MetadataXML(d, m).Err? ==> s == "" && err == Some(MetadataXML(d, m).error)
    ensures MetadataXML(d, m).Ok? ==> s == dump(MetadataXML(d, m).value) && err.None?
  {
    var root := MakeXMLNode(d, m);
    if root.Err? {
      return "", Some(root.error);
    }
    return dump(root.value), None;
  }
}
