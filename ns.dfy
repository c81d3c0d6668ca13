/** XML namespaces and prefixed names (ns/ns.go). */
module Ns {

  datatype Namespace = Namespace(prefix: string, uri: string)

  /** encoding/xml's `Name`: a namespace URI (`Space`) and a local part. */
  datatype XmlName = XmlName(space: string, local: string)

  /** encoding/xml's `Attr`. */
  datatype XmlAttr = XmlAttr(name: XmlName, value: string)

  const SAML: Namespace := New("saml", "urn:oasis:names:tc:SAML:2.0:assertion")
  const SAMLP: Namespace := New("samlp", "urn:oasis:names:tc:SAML:2.0:protocol")
  const XMLDSignature: Namespace := New("ds", "http://www.w3.org/2000/09/xmldsig#")
  const XMLSchema: Namespace := New("xs", "http://www.w3.org/2001/XMLSchema")
  const XMLSchemaInstance: Namespace := New("xsi", "http://www.w3.org/2001/XMLSchema-instance")
  const X500: Namespace := New("x500", "urn:oasis:names:tc:SAML:2.0:profiles:attribute:X500")

  /** The six predefined namespaces, in declaration order. */
  const Predefined: seq<Namespace> := [SAML, SAMLP, XMLDSignature, XMLSchema, XMLSchemaInstance, X500]

  function New(prefix: string, uri: string): (n: Namespace)
    ensures n.prefix == prefix && n.uri == uri
  {
    Namespace(prefix, uri)
  }

  /** The `xmlns:prefix="uri"` declaration of a namespace. */
  function XMLAttr(n: Namespace): (a: XmlAttr)
    ensures a.name.space == ""
    ensures StartsWithXmlns(a.name.local) && a.name.local[6..] == n.prefix
    ensures a.value == n.uri
  {
    XmlAttr(XmlName("", "xmlns:" + n.prefix), n.uri)
  }

  predicate StartsWithXmlns(s: string) {
    |s| >= 6 && s[..6] == "xmlns:"
  }

  /** Prefixes the local part of a name, on a copy; the namespace URI is kept. */
  function AddPrefix(n: Namespace, name: XmlName): (r: XmlName)
    ensures r.space == name.space
    ensures |r.local| == |n.prefix| + 1 + |name.local|
    ensures r.local[..|n.prefix|] == n.prefix && r.local[|n.prefix|] == ':'
    ensures r.local[|n.prefix| + 1..] == name.local
  {
    name.(local := n.prefix + ":" + name.local)
  }

  /** A prefixed name with no namespace URI. */
  function XMLName(n: Namespace, local: string): (r: XmlName)
    ensures r.space == ""
    ensures r.local == n.prefix + ":" + local
  {
    AddPrefix(n, XmlName("", local))
  }

  /** AddPrefix is not idempotent: every application lengthens the local part. */
  lemma AddPrefixNotIdempotent(n: Namespace, name: XmlName)
    ensures AddPrefix(n, AddPrefix(n, name)) != AddPrefix(n, name)
    ensures |AddPrefix(n, AddPrefix(n, name)).local| == |name.local| + 2 * (|n.prefix| + 1)
  {
    assert |AddPrefix(n, AddPrefix(n, name)).local| != |AddPrefix(n, name).local|;
  }

  /** Prefixing is injective: the prefixed name determines the original one. */
  lemma AddPrefixInjective(n: Namespace, a: XmlName, b: XmlName)
    requires AddPrefix(n, a) == AddPrefix(n, b)
    ensures a == b
  {
    assert a.local == AddPrefix(n, a).local[|n.prefix| + 1..];
  }

  /** The predefined namespaces have pairwise distinct prefixes and URIs. */
  lemma PredefinedDistinct()
    ensures forall i, j :: 0 <= i < j < |Predefined| ==>
      Predefined[i].prefix != Predefined[j].prefix && Predefined[i].uri != Predefined[j].uri
  {
  }
}
