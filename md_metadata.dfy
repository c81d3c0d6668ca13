/** SAML 2.0 metadata as the md package writes it (md/metadata.go): the
    IDPSSODescriptor of section 2.4.3 of SAML V2.0 Metadata with its
    protocol list, optional KeyDescriptor and errorURL, and an optional
    ContactPerson (section 2.3.2.2) after it. */
module Md {
  import opened Base
  import opened Ns
  import opened Dom
  import NameId
  import TimeFmt
  import Meta = Metadata

  type Endpoint = Meta.Endpoint

  datatype CommonDescriptor = CommonDescriptor(cacheDuration: int, id: string, name: string, validUntil: TimeFmt.Instant)

  datatype RoleDescriptor = RoleDescriptor(common: CommonDescriptor, errorURL: string, protocolSupportEnumerations: seq<string>)

  datatype SSODescriptor = SSODescriptor(singleLogoutService: seq<Endpoint>, nameIDFormat: NameId.Format)

  datatype ContactPerson = ContactPerson(contactType: string, company: string, givenName: string, surName: string,
                                         emailAddress: string, telephoneNumber: string)

  /** A key descriptor; its key is known only by the node it builds. */
  datatype KeyDescriptor = KeyDescriptor(use: string, key: Document -> Result<Node>)

  datatype IDPDescriptor = IDPDescriptor(role: RoleDescriptor, sso: SSODescriptor, contactPerson: Option<ContactPerson>,
                                         keyDescriptor: Option<KeyDescriptor>, singleSignOnService: seq<Endpoint>)

  datatype EntityDescriptor = IDP(desc: IDPDescriptor) | Other(makeXML: Document -> Result<Node>)

  datatype Metadata = Metadata(entityDescriptors: seq<EntityDescriptor>)

  const ContactPersonName: string := "md:ContactPerson"
  const KeyDescriptorName: string := "md:KeyDescriptor"

  // Accessors of the descriptor.

  function ID(desc: IDPDescriptor): string { desc.role.common.id }
  function Name(desc: IDPDescriptor): string { desc.role.common.name }
  function CacheDuration(desc: IDPDescriptor): int { desc.role.common.cacheDuration }
  function ValidUntil(desc: IDPDescriptor): TimeFmt.Instant { desc.role.common.validUntil }
  function ProtocolSupportEnumerations(desc: IDPDescriptor): seq<string> { desc.role.protocolSupportEnumerations }
  function SingleLogoutServices(desc: IDPDescriptor): seq<Endpoint> { desc.sso.singleLogoutService }

  // The protocol list (lines 55 to 66).

  /** The list written: an empty one stands for the SAML 2.0 protocol. */
  function DefaultProtocols(ps: seq<string>): (r: seq<string>)
    ensures r != []
    ensures ps == [] ==> r == [SAMLP.uri]
    ensures ps != [] ==> r == ps
  {
    if ps == [] then [SAMLP.uri] else ps
  }

  /** The entries separated by single spaces. */
  function Joined(ps: seq<string>): string {
    if |ps| == 0 then ""
    else if |ps| == 1 then ps[0]
    else Joined(ps[..|ps| - 1]) + " " + ps[|ps| - 1]
  }

  /** The loop of lines 59 to 65 writing into a buffer. */
  method JoinProtocols(ps: seq<string>) returns (s: string)
    ensures s == Joined(ps)
  {
    var buf := "";
    var i := 0;
    while i < |ps|
      invariant 0 <= i <= |ps|
      invariant buf == if i == 0 then "" else if i < |ps| then Joined(ps[..i]) + " " else Joined(ps)
    {
      assert ps[..i + 1][..i] == ps[..i];
      buf := buf + ps[i];
      if i != |ps| - 1 {
        buf := buf + " ";
      }
      if i + 1 == |ps| {
        assert ps[..i + 1] == ps;
      }
      i := i + 1;
    }
    return buf;
  }

  /** The index of the last space before `k`, or -1. */
  function SpaceBefore(s: string, k: nat): (i: int)
    requires k <= |s|
    ensures -1 <= i < k
    ensures i >= 0 ==> s[i] == ' '
    ensures forall j :: i < j < k ==> s[j] != ' '
  {
    if k == 0 then -1 else if s[k - 1] == ' ' then k - 1 else SpaceBefore(s, k - 1)
  }

  /** `strings.Split(s, " ")`: the pieces between single spaces. */
  function Fields(s: string): (r: seq<string>)
    ensures |r| >= 1
    decreases |s|
  {
    var i := SpaceBefore(s, |s|);
    if i < 0 then [s] else Fields(s[..i]) + [s[i + 1..]]
  }

  /** SpaceBefore finds the last space. */
  lemma {:induction false} SpaceBeforeAt(s: string, k: nat, i: nat)
    requires i < k <= |s| && s[i] == ' '
    requires forall j :: i < j < k ==> s[j] != ' '
    ensures SpaceBefore(s, k) == i
    decreases k
  {
    if k - 1 != i {
      SpaceBeforeAt(s, k - 1, i);
    }
  }

  /** Splitting the attribute at its spaces gives back the protocol list,
      when no entry holds a space: the entries are separated by exactly
      one space each. */
  lemma {:induction false} FieldsJoined(ps: seq<string>)
    requires |ps| >= 1
    requires forall k, j :: 0 <= k < |ps| && 0 <= j < |ps[k]| ==> ps[k][j] != ' '
    ensures Fields(Joined(ps)) == ps
    decreases |ps|
  {
    if |ps| == 1 {
      assert SpaceBefore(ps[0], |ps[0]|) == -1;
    } else {
      var init := ps[..|ps| - 1];
      var last := ps[|ps| - 1];
      var head := Joined(init);
      var s := head + " " + last;
      assert s[|head|] == ' ';
      forall j | |head| < j < |s|
        ensures s[j] != ' '
      {
        assert s[j] == last[j - |head| - 1];
      }
      SpaceBeforeAt(s, |s|, |head|);
      assert s[..|head|] == head;
      assert s[|head| + 1..] == last;
      FieldsJoined(init);
      assert init + [last] == ps;
    }
  }

  // KeyDescriptor (lines 196 to 213).

  function KeyDescriptorXML(d: Document, kd: KeyDescriptor): Result<Node> {
    if KeyDescriptorName in d.refused then Err(d.refused[KeyDescriptorName])
    else match kd.key(d)
      case Err(e) => Err(e)
      case Ok(k) => Ok(Node.Element(KeyDescriptorName, None, [], [], [k]))
  }

  /** A KeyDescriptor holds exactly one child, the key's node, and no
      attribute: `use` is never written. */
  lemma KeyDescriptorShape(d: Document, kd: KeyDescriptor)
    ensures KeyDescriptorXML(d, kd).Ok? <==> KeyDescriptorName !in d.refused && kd.key(d).Ok?
    ensures KeyDescriptorXML(d, kd).Ok? ==>
      KeyDescriptorXML(d, kd).value.Element? && KeyDescriptorXML(d, kd).value.attrs == []
      && KeyDescriptorXML(d, kd).value.children == [kd.key(d).value]
    ensures KeyDescriptorName !in d.refused && kd.key(d).Err? ==> KeyDescriptorXML(d, kd) == Err(kd.key(d).error)
  {
  }

  /** `KeyDescriptor.MakeXMLNode`. */
  method KeyDescriptorMakeXMLNode(d: Document, kd: KeyDescriptor) returns (r: Result<Element>)
    ensures r.Err? <==> KeyDescriptorXML(d, kd).Err?
    ensures r.Err? ==> r.error == KeyDescriptorXML(d, kd).error
    ensures r.Ok? ==> fresh(r.value) && r.value.Value() == KeyDescriptorXML(d, kd).value
  {
    var kdnode := CreateElement(d, KeyDescriptorName);
    if kdnode.Err? {
      return Err(kdnode.error);
    }
    var keynode := kd.key(d);
    if keynode.Err? {
      return Err(keynode.error);
    }
    kdnode.value.AddChild(keynode.value);
    return Ok(kdnode.value);
  }

  // ContactPerson (lines 136 to 194).

  /** The optional children of a contact, in the order they are written. */
  function ContactFields(cp: ContactPerson): seq<(string, string)> {
    [("md:Company", cp.company), ("md:GivenName", cp.givenName), ("md:SurName", cp.surName),
     ("md:EmailAddress", cp.emailAddress), ("md:TelephoneNumber", cp.telephoneNumber)]
  }

  function TextNode(name: string, v: string): Node {
    Node.Element(name, None, [], [], [Text(v)])
  }

  /** One text element per non-empty field, in field order. */
  function TextNodes(fs: seq<(string, string)>): seq<Node> {
    if fs == [] then []
    else TextNodes(fs[..|fs| - 1]) + (if fs[|fs| - 1].1 == "" then [] else [TextNode(fs[|fs| - 1].0, fs[|fs| - 1].1)])
  }

  /** The children written for `fs`, or the error of the first non-empty
      field whose element the document refuses. */
  function TextChildren(d: Document, fs: seq<(string, string)>): (r: Result<seq<Node>>)
    ensures r.Ok? <==> forall i :: 0 <= i < |fs| && fs[i].1 != "" ==> fs[i].0 !in d.refused
    ensures r.Ok? ==> r.value == TextNodes(fs)
  {
    if fs == [] then Ok([])
    else
      var prev := TextChildren(d, fs[..|fs| - 1]);
      var (name, v) := fs[|fs| - 1];
      if prev.Err? then prev
      else if v == "" then prev
      else if name in d.refused then Err(d.refused[name])
      else Ok(prev.value + [TextNode(name, v)])
  }

  /** Field `k` is handled after the fields before it. */
  lemma TextChildrenStep(d: Document, fs: seq<(string, string)>, k: nat)
    requires k < |fs|
    ensures TextChildren(d, fs[..k + 1]) ==
      if TextChildren(d, fs[..k]).Err? || fs[k].1 == "" then TextChildren(d, fs[..k])
      else if fs[k].0 in d.refused then Err(d.refused[fs[k].0])
      else Ok(TextChildren(d, fs[..k]).value + [TextNode(fs[k].0, fs[k].1)])
  {
    assert fs[..k + 1][..k] == fs[..k] && fs[..k + 1][k] == fs[k];
  }

  /** Once a prefix of the fields fails, the whole list fails the same way. */
  lemma {:induction false} ErrorPersists(d: Document, fs: seq<(string, string)>, k: nat)
    requires k <= |fs| && TextChildren(d, fs[..k]).Err?
    ensures TextChildren(d, fs) == TextChildren(d, fs[..k])
    decreases |fs| - k
  {
    if k < |fs| {
      TextChildrenStep(d, fs, k);
      ErrorPersists(d, fs, k + 1);
    } else {
      assert fs[..k] == fs;
    }
  }

  /** One `if v := cp.X; v != ""` block: field `k` of `fs`. */
  method AddTextChild(d: Document, root: Element, fs: seq<(string, string)>, k: nat) returns (err: Option<Error>)
    requires k < |fs| && TextChildren(d, fs[..k]).Ok?
    requires root.children == TextChildren(d, fs[..k]).value
    modifies root
    ensures err.None? <==> TextChildren(d, fs[..k + 1]).Ok?
    ensures err.Some? ==> TextChildren(d, fs) == Err(err.value)
    ensures err.None? ==> root.Value() == Node.Element(old(root.name), old(root.ns), old(root.nsDecls), old(root.attrs),
                                                      TextChildren(d, fs[..k + 1]).value)
  {
    TextChildrenStep(d, fs, k);
    var (name, v) := fs[k];
    if v != "" {
      var c := CreateElement(d, name);
      if c.Err? {
        ErrorPersists(d, fs, k + 1);
        return Some(c.error);
      }
      c.value.AppendText(v);
      assert c.value.Value() == TextNode(name, v);
      root.AddChild(c.value.Value());
      assert root.children == TextChildren(d, fs[..k + 1]).value;
    } else {
      assert root.children == TextChildren(d, fs[..k + 1]).value;
    }
    return None;
  }

  function ContactXML(d: Document, cp: ContactPerson): Result<Node> {
    if ContactPersonName in d.refused then Err(d.refused[ContactPersonName])
    else match TextChildren(d, ContactFields(cp))
      case Err(e) => Err(e)
      case Ok(kids) => Ok(Node.Element(ContactPersonName, None, [], [Attr("contactType", cp.contactType)], kids))
  }

  /** A contact always carries its contactType, then one text element for
      each of Company, GivenName, SurName, EmailAddress and TelephoneNumber
      that is non-empty, in that order. */
  lemma ContactShape(d: Document, cp: ContactPerson)
    ensures ContactXML(d, cp).Ok? ==>
      ContactXML(d, cp).value.Element? && ContactXML(d, cp).value.attrs == [Attr("contactType", cp.contactType)]
      && ContactXML(d, cp).value.children == TextNodes(ContactFields(cp))
    ensures cp.company != "" && cp.givenName != "" && cp.surName != "" && cp.emailAddress != "" && cp.telephoneNumber != "" ==>
      TextNodes(ContactFields(cp)) == [TextNode("md:Company", cp.company), TextNode("md:GivenName", cp.givenName),
        TextNode("md:SurName", cp.surName), TextNode("md:EmailAddress", cp.emailAddress),
        TextNode("md:TelephoneNumber", cp.telephoneNumber)]
    ensures cp.company == "" && cp.givenName == "" && cp.surName == "" && cp.emailAddress == "" && cp.telephoneNumber == "" ==>
      TextNodes(ContactFields(cp)) == []
  {
    var fs := ContactFields(cp);
    assert fs[..0] == [];
    TextNodesStep(fs, 0);
    TextNodesStep(fs, 1);
    TextNodesStep(fs, 2);
    TextNodesStep(fs, 3);
    TextNodesStep(fs, 4);
    assert fs[..5] == fs;
  }

  /** Field `k` contributes after the fields before it. */
  lemma TextNodesStep(fs: seq<(string, string)>, k: nat)
    requires k < |fs|
    ensures TextNodes(fs[..k + 1]) == TextNodes(fs[..k]) + if fs[k].1 == "" then [] else [TextNode(fs[k].0, fs[k].1)]
  {
    assert fs[..k + 1][..k] == fs[..k] && fs[..k + 1][k] == fs[k];
  }

  /** `ContactPerson.MakeXMLNode`. */
  method ContactPersonMakeXMLNode(d: Document, cp: ContactPerson) returns (r: Result<Element>)
    ensures r.Err? <==> ContactXML(d, cp).Err?
    ensures r.Err? ==> r.error == ContactXML(d, cp).error
    ensures r.Ok? ==> fresh(r.value) && r.value.Value() == ContactXML(d, cp).value
  {
    var root := CreateElement(d, ContactPersonName);
    if root.Err? {
      return Err(root.error);
    }
    var elem := root.value;
    elem.SetAttribute("contactType", cp.contactType);
    var err := AddContactChildren(d, elem, ContactFields(cp));
    if err.Some? {
      return Err(err.value);
    }
    return Ok(elem);
  }

  /** Lines 146 to 189: the five optional children, in order. */
  method AddContactChildren(d: Document, root: Element, fs: seq<(string, string)>) returns (err: Option<Error>)
    requires |fs| == 5 && root.children == []
    modifies root
    ensures err.None? <==> TextChildren(d, fs).Ok?
    ensures err.Some? ==> TextChildren(d, fs) == Err(err.value)
    ensures err.None? ==> root.Value() == Node.Element(old(root.name), old(root.ns), old(root.nsDecls), old(root.attrs),
                                                      TextChildren(d, fs).value)
  {
    assert fs[..0] == [];
    err := AddTextChild(d, root, fs, 0);
    if err.None? {
      err := AddTextChild(d, root, fs, 1);
      if err.None? {
        err := AddTextChild(d, root, fs, 2);
        if err.None? {
          err := AddLastTextChildren(d, root, fs);
        }
      }
    }
  }

  /** Lines 173 to 189: the last two optional children. */
  method AddLastTextChildren(d: Document, root: Element, fs: seq<(string, string)>) returns (err: Option<Error>)
    requires |fs| == 5 && TextChildren(d, fs[..3]).Ok?
    requires root.children == TextChildren(d, fs[..3]).value
    modifies root
    ensures err.None? <==> TextChildren(d, fs).Ok?
    ensures err.Some? ==> TextChildren(d, fs) == Err(err.value)
    ensures err.None? ==> root.Value() == Node.Element(old(root.name), old(root.ns), old(root.nsDecls), old(root.attrs),
                                                      TextChildren(d, fs).value)
  {
    assert fs[..5] == fs;
    err := AddTextChild(d, root, fs, 3);
    if err.None? {
      err := AddTextChild(d, root, fs, 4);
    }
  }

  // IDPDescriptor (lines 38 to 114).

  /** The KeyDescriptor child, when there is a key descriptor. */
  function KeyChildren(d: Document, k: Option<KeyDescriptor>): (r: Result<seq<Node>>)
    ensures r.Ok? ==> |r.value| == if k.Some? then 1 else 0
  {
    match k
    case None => Ok([])
    case Some(kd) => if KeyDescriptorXML(d, kd).Err? then Err(KeyDescriptorXML(d, kd).error) else Ok([KeyDescriptorXML(d, kd).value])
  }

  /** The ContactPerson child, when there is a contact. */
  function ContactChildren(d: Document, c: Option<ContactPerson>): (r: Result<seq<Node>>)
    ensures r.Ok? ==> |r.value| == if c.Some? then 1 else 0
  {
    match c
    case None => Ok([])
    case Some(cp) => if ContactXML(d, cp).Err? then Err(ContactXML(d, cp).error) else Ok([ContactXML(d, cp).value])
  }

  function IDPSSOAttrs(desc: IDPDescriptor): seq<Attr> {
    [Attr("protocolSupportEnumeration", Joined(DefaultProtocols(desc.role.protocolSupportEnumerations)))]
      + Meta.OptAttr("errorURL", desc.role.errorURL)
  }

  function IDPSSONode(desc: IDPDescriptor, keys: seq<Node>): Node {
    Node.Element(Meta.IDPSSODescriptorName, None, [], IDPSSOAttrs(desc),
      keys + Meta.EndpointNodes(SingleLogoutServices(desc), Meta.SingleLogoutService) + [NameId.FormatNode()]
        + Meta.EndpointNodes(desc.singleSignOnService, Meta.SingleSignOnService))
  }

  /** What lines 55 to 102 make of the IDPSSODescriptor, or the first error. */
  function IDPSSOXML(d: Document, desc: IDPDescriptor): Result<Node> {
    var keys := KeyChildren(d, desc.keyDescriptor);
    if keys.Err? then Err(keys.error)
    else if Meta.ServicesError(d, SingleLogoutServices(desc), Meta.SingleLogoutService).Some? then
      Err(Meta.ServicesError(d, SingleLogoutServices(desc), Meta.SingleLogoutService).value)
    else if NameId.ElementName in d.refused then Err(d.refused[NameId.ElementName])
    else if Meta.ServicesError(d, desc.singleSignOnService, Meta.SingleSignOnService).Some? then
      Err(Meta.ServicesError(d, desc.singleSignOnService, Meta.SingleSignOnService).value)
    else Ok(IDPSSONode(desc, keys.value))
  }

  /** What `IDPDescriptor.MakeXMLNode` builds, or the first error. */
  function IDPXML(d: Document, desc: IDPDescriptor): Result<Node> {
    if Meta.EntityDescriptorName in d.refused then Err(d.refused[Meta.EntityDescriptorName])
    else if Meta.IDPSSODescriptorName in d.refused then Err(d.refused[Meta.IDPSSODescriptorName])
    else if IDPSSOXML(d, desc).Err? then Err(IDPSSOXML(d, desc).error)
    else if ContactChildren(d, desc.contactPerson).Err? then Err(ContactChildren(d, desc.contactPerson).error)
    else Ok(Meta.EntityNode(ID(desc), [IDPSSOXML(d, desc).value] + ContactChildren(d, desc.contactPerson).value))
  }

  /** Lines 55 to 102: the IDPSSODescriptor's attributes and children. The
      default protocol list is taken on the descriptor's copy, so the
      descriptor itself keeps an empty list. */
  method FillIDPSSODescriptor(d: Document, idpdesc: Element, desc: IDPDescriptor) returns (err: Option<Error>)
    requires idpdesc.Value() == Node.Element(Meta.IDPSSODescriptorName, None, [], [], [])
    modifies idpdesc
    ensures err.None? <==> IDPSSOXML(d, desc).Ok?
    ensures err.Some? ==> err.value == IDPSSOXML(d, desc).error
    ensures err.None? ==> idpdesc.Value() == IDPSSOXML(d, desc).value
  {
    var protos := DefaultProtocols(desc.role.protocolSupportEnumerations);
    var joined := JoinProtocols(protos);
    idpdesc.SetAttribute("protocolSupportEnumeration", joined);
    var keys: seq<Node> := [];
    if desc.keyDescriptor.Some? {
      var kdesc := KeyDescriptorMakeXMLNode(d, desc.keyDescriptor.value);
      if kdesc.Err? {
        return Some(kdesc.error);
      }
      keys := [kdesc.value.Value()];
      idpdesc.AddChild(kdesc.value.Value());
    }
    if desc.role.errorURL != "" {
      SetAttrFresh(idpdesc.attrs, "errorURL", desc.role.errorURL);
      idpdesc.SetAttribute("errorURL", desc.role.errorURL);
    }
    assert idpdesc.attrs == IDPSSOAttrs(desc);
    assert keys == KeyChildren(d, desc.keyDescriptor).value;
    err := AddEndpointsAndFormat(d, idpdesc, desc);
  }

  /** Lines 80 to 102: the endpoints and the format after the key. */
  method AddEndpointsAndFormat(d: Document, idpdesc: Element, desc: IDPDescriptor) returns (err: Option<Error>)
    requires KeyChildren(d, desc.keyDescriptor).Ok?
    requires idpdesc.Value() == Node.Element(Meta.IDPSSODescriptorName, None, [], IDPSSOAttrs(desc),
                                             KeyChildren(d, desc.keyDescriptor).value)
    modifies idpdesc
    ensures err.None? <==> IDPSSOXML(d, desc).Ok?
    ensures err.Some? ==> err.value == IDPSSOXML(d, desc).error
    ensures err.None? ==> idpdesc.Value() == IDPSSOXML(d, desc).value
  {
    err := Meta.AddServices(d, idpdesc, SingleLogoutServices(desc), Meta.SingleLogoutService);
    if err.Some? {
      return;
    }
    var nif := NameId.MakeXMLNode(d, desc.sso.nameIDFormat);
    if nif.Err? {
      return Some(nif.error);
    }
    idpdesc.AddChild(nif.value.Value());
    err := Meta.AddServices(d, idpdesc, desc.singleSignOnService, Meta.SingleSignOnService);
  }

  /** `IDPDescriptor.MakeXMLNode`. The IDPSSODescriptor is attached to the
      root once it is complete, which gives the tree libxml2 holds when the
      child is linked first and filled afterwards. */
  method IDPMakeXMLNode(d: Document, desc: IDPDescriptor) returns (r: Result<Element>)
    ensures r.Err? <==> IDPXML(d, desc).Err?
    ensures r.Err? ==> r.error == IDPXML(d, desc).error
    ensures r.Ok? ==> fresh(r.value) && r.value.Value() == IDPXML(d, desc).value
  {
    var qname := XMLName(Meta.MetadataNS, "EntityDescriptor").local;
    Meta.EntityQName();
    var rr := CreateElementNS(d, Meta.MetadataNS.uri, qname);
    if rr.Err? {
      return Err(rr.error);
    }
    var root := rr.value;
    root.SetNamespace(XMLDSignature.uri, XMLDSignature.prefix, false);
    root.SetAttribute("entityID", ID(desc));
    assert root.Value() == Meta.EntityNode(ID(desc), []);
    var ir := CreateElement(d, Meta.IDPSSODescriptorName);
    if ir.Err? {
      return Err(ir.error);
    }
    var idpdesc := ir.value;
    var err := FillIDPSSODescriptor(d, idpdesc, desc);
    if err.Some? {
      return Err(err.value);
    }
    root.AddChild(idpdesc.Value());
    assert root.Value() == Meta.EntityNode(ID(desc), [IDPSSOXML(d, desc).value]);
    err := AddContact(d, root, desc.contactPerson);
    if err.Some? {
      return Err(err.value);
    }
    return Ok(root);
  }

  /** Lines 104 to 110: the contact, when there is one, after the
      IDPSSODescriptor. */
  method AddContact(d: Document, root: Element, c: Option<ContactPerson>) returns (err: Option<Error>)
    modifies root
    ensures err.None? <==> ContactChildren(d, c).Ok?
    ensures err.Some? ==> err.value == ContactChildren(d, c).error
    ensures err.None? ==> root.Value() == Node.Element(old(root.name), old(root.ns), old(root.nsDecls), old(root.attrs),
                                                      old(root.children) + ContactChildren(d, c).value)
  {
    if c.Some? {
      var cpnode := ContactPersonMakeXMLNode(d, c.value);
      if cpnode.Err? {
        return Some(cpnode.error);
      }
      root.AddChild(cpnode.value.Value());
    }
    return None;
  }

  /** The protocol attribute is the joined list, the SAML 2.0 protocol URN
      alone when the list is empty; errorURL is present exactly when the
      descriptor's is non-empty. */
  lemma IDPSSOAttributes(desc: IDPDescriptor)
    ensures GetAttr(IDPSSOAttrs(desc), "protocolSupportEnumeration")
            == Some(Joined(DefaultProtocols(desc.role.protocolSupportEnumerations)))
    ensures ProtocolSupportEnumerations(desc) == [] ==>
      GetAttr(IDPSSOAttrs(desc), "protocolSupportEnumeration") == Some(SAMLP.uri)
    ensures GetAttr(IDPSSOAttrs(desc), "errorURL") == if desc.role.errorURL == "" then None else Some(desc.role.errorURL)
  {
    if desc.role.errorURL != "" {
      GetAttrAt(IDPSSOAttrs(desc), 1, "errorURL");
    }
  }

  /** The IDPSSODescriptor built is the node over the key's children: the
      KeyDescriptor when there is one, nothing otherwise. */
  lemma IDPSSOKey(d: Document, desc: IDPDescriptor)
    requires IDPSSOXML(d, desc).Ok?
    ensures IDPSSOXML(d, desc).value == IDPSSONode(desc, KeyChildren(d, desc.keyDescriptor).value)
    ensures desc.keyDescriptor.Some? ==>
      KeyChildren(d, desc.keyDescriptor).value == [KeyDescriptorXML(d, desc.keyDescriptor.value).value]
    ensures desc.keyDescriptor.None? ==> KeyChildren(d, desc.keyDescriptor).value == []
  {
  }

  /** The IDPSSODescriptor's children: the key's first, then every single
      logout endpoint, the format, and every single sign-on endpoint, in
      slice order. */
  lemma IDPSSOChildren(desc: IDPDescriptor, keys: seq<Node>)
    ensures var kids := IDPSSONode(desc, keys).children;
      var n := |keys|;
      var sls := SingleLogoutServices(desc);
      var sso := desc.singleSignOnService;
      |kids| == n + |sls| + 1 + |sso| && kids[..n] == keys
      && (forall i :: 0 <= i < |sls| ==>
            kids[n + i] == Node.Element(Meta.SingleLogoutServiceName, None, [], Meta.EndpointAttrs(sls[i]), []))
      && kids[n + |sls|] == NameId.FormatNode()
      && (forall j :: 0 <= j < |sso| ==>
            kids[n + |sls| + 1 + j] == Node.Element(Meta.SingleSignOnServiceName, None, [], Meta.EndpointAttrs(sso[j]), []))
  {
    var sls := SingleLogoutServices(desc);
    var sso := desc.singleSignOnService;
    var a := Meta.EndpointNodes(sls, Meta.SingleLogoutService);
    var b := Meta.EndpointNodes(sso, Meta.SingleSignOnService);
    Layout(keys, a, NameId.FormatNode(), b);
    Meta.ServiceNames();
  }

  /** Where each part of `keys + a + [f] + b` sits. */
  lemma Layout<T>(keys: seq<T>, a: seq<T>, f: T, b: seq<T>)
    ensures var s := keys + a + [f] + b;
      |s| == |keys| + |a| + 1 + |b| && s[..|keys|] == keys
      && (forall i :: 0 <= i < |a| ==> s[|keys| + i] == a[i])
      && s[|keys| + |a|] == f
      && (forall j :: 0 <= j < |b| ==> s[|keys| + |a| + 1 + j] == b[j])
  {
    var s := keys + a + [f] + b;
    assert s[..|keys|] == keys;
  }


  /** The root names the entity by its ID; its first child is the
      IDPSSODescriptor, and the ContactPerson, when there is one, is the
      next and last. */
  lemma IDPShape(d: Document, desc: IDPDescriptor)
    requires IDPXML(d, desc).Ok?
    ensures var root := IDPXML(d, desc).value;
      root.Element? && root.name == Meta.EntityDescriptorName && root.ns == Some(Meta.MetadataNS)
      && GetAttr(root.attrs, "entityID") == Some(ID(desc))
      && |root.children| == (if desc.contactPerson.Some? then 2 else 1)
      && root.children[0] == IDPSSOXML(d, desc).value
      && (desc.contactPerson.Some? ==> root.children[1] == ContactXML(d, desc.contactPerson.value).value)
  {
  }

  /** Building the descriptor succeeds exactly when no element it needs is
      refused and the key, when there is one, builds its node. */
  lemma IDPSucceeds(d: Document, desc: IDPDescriptor)
    ensures IDPXML(d, desc).Ok? <==>
      Meta.EntityDescriptorName !in d.refused && Meta.IDPSSODescriptorName !in d.refused
      && NameId.ElementName !in d.refused
      && (desc.keyDescriptor.Some? ==> KeyDescriptorName !in d.refused && desc.keyDescriptor.value.key(d).Ok?)
      && (SingleLogoutServices(desc) != [] ==> Meta.SingleLogoutServiceName !in d.refused)
      && (desc.singleSignOnService != [] ==> Meta.SingleSignOnServiceName !in d.refused)
      && (desc.contactPerson.Some? ==> ContactXML(d, desc.contactPerson.value).Ok?)
  {
    Meta.ServiceNames();
  }

  // Metadata (lines 14 to 32).

  function EntityXML(d: Document, ed: EntityDescriptor): Result<Node> {
    match ed
    case IDP(desc) => IDPXML(d, desc)
    case Other(makeXML) => makeXML(d)
  }

  function MetadataXML(d: Document, m: Metadata): Result<Node> {
    if |m.entityDescriptors| == 1 then EntityXML(d, m.entityDescriptors[0]) else Err(Meta.Unimplemented)
  }

  /** Exactly one entity descriptor is delegated to; none or several give
      "unimplemented" whatever they hold. */
  lemma MetadataDelegates(d: Document, m: Metadata)
    ensures |m.entityDescriptors| == 1 ==> MetadataXML(d, m) == EntityXML(d, m.entityDescriptors[0])
    ensures |m.entityDescriptors| != 1 ==> MetadataXML(d, m) == Err(Meta.Unimplemented)
  {
  }

  /** `Metadata.MakeXMLNode`. */
  method MakeXMLNode(d: Document, m: Metadata) returns (r: Result<Node>)
    ensures r == MetadataXML(d, m)
  {
    if |m.entityDescriptors| == 1 {
      match m.entityDescriptors[0]
      case IDP(desc) =>
        var e := IDPMakeXMLNode(d, desc);
        if e.Err? {
          return Err(e.error);
        }
        return Ok(e.value.Value());
      case Other(makeXML) =>
        return makeXML(d);
    }
    return Err(Meta.Unimplemented);
  }

  /** `Metadata.Serialize` on a fresh document `d`; `dump` is `doc.Dump(true)`
      once the node is the document element. On failure the text is empty. */
  method Serialize(d: Document, m: Metadata, dump: Node -> string) returns (s: string, err: Option<Error>)
    ensures MetadataXML(d, m).Err? ==> s == "" && err == Some(MetadataXML(d, m).error)
    ensures MetadataXML(d, m).Ok? ==> s == dump(MetadataXML(d, m).value) && err.None?
  {
    var root := MakeXMLNode(d, m);
    if root.Err? {
      return "", Some(root.error);
    }
    return dump(root.value), None;
  }
}
