/** Name identifier formats (nameid/nameid.go, nameid/interface.go): a
    format is a URN string, and in metadata it is written as an
    `md:NameIDFormat` element. */
module NameId {
  import opened Base
  import opened Dom

  /** `nameid.Format`. */
  type Format = string

  const Transient: Format := "urn:oasis:names:tc:SAML:2.0:nameid-format:transient"
  const EmailAddress: Format := "urn:oasis:names:tc:SAML:1.1:nameid-format:emailAddress"
  const Unspecified: Format := "urn:oasis:names:tc:SAML:1.1:nameid-format:unspecified"
  const X509SubjectName: Format := "urn:oasis:names:tc:SAML:1.1:nameid-format:X509SubjectName"

  /** The element name every NameIDFormat node carries. */
  const ElementName: string := "md:NameIDFormat"

  /** `Format.String`: the URN itself, character for character. */
  function String(n: Format): (s: string)
    ensures |s| == |n| && forall i :: 0 <= i < |n| ==> s[i] == n[i]
  {
    n
  }

  /** The node written for a name identifier format: whatever the format,
      its one text child is the transient URN. */
  function FormatNode(): (n: Node)
    ensures n.Element? && n.name == ElementName && n.ns.None? && n.attrs == []
    ensures TextOf(n.children) == Transient
  {
    Node.Element(ElementName, None, [], [], [Text(Transient)])
  }

  /** `Format.MakeXMLNode`: fails exactly when the document refuses the
      element, with its error; otherwise the node does not depend on `nif`. */
  method MakeXMLNode(d: Document, nif: Format) returns (r: Result<Element>)
    ensures r.Err? <==> ElementName in d.refused
    ensures r.Err? ==> r.error == d.refused[ElementName]
    ensures r.Ok? ==> fresh(r.value) && r.value.Value() == FormatNode()
  {
    var root := CreateElement(d, ElementName);
    if root.Err? {
      return Err(root.error);
    }
    root.value.AppendText(Transient);
    return Ok(root.value);
  }
}
