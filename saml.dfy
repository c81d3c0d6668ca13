/** The SAML message model of interface.go: value types, the algorithm
    identifiers of XML Signature, and the package's error values. */
module Saml {
  import opened Base
  import opened Ns
  import opened TimeFmt
  import Binding

  /** The layout string of `Time.Format`; TimeFmt.Format implements it. */
  const TimeFormat: string := "2006-01-02T15:04:05"

  const NameIDFormatEmailAddress: string := "urn:oasis:names:tc:SAML:1.1:nameid-format:emailAddress"
  const NameIDFormatUnspecified: string := "urn:oasis:names:tc:SAML:1.1:nameid-format:unspecified"
  const NameIDFormatX509SubjectName: string := "urn:oasis:names:tc:SAML:1.1:nameid-format:X509SubjectName"

  const ErrUnsupportedDigestMethod: Error := Error("unsupported digest method")
  const ErrUnsupportedSignatureMethod: Error := Error("unsupported signature method")
  const ErrUnsupportedTransform: Error := Error("unsupported transform")
  const ErrUnsupportedC14NMethod: Error := Error("unsupported c14n method")
  const ErrUnsupportedKeyType: Error := Error("unsupported signature key type")

  /** Algorithm identifiers are open string types with named members. */
  type C14NMethod = string
  type SignatureMethod = string
  type Transform = string
  type DigestMethod = string

  /** The XML Signature namespace, which the four signature identifiers share. */
  const XmlDsig: string := "http://www.w3.org/2000/09/xmldsig#"

  const C14N1_0: C14NMethod := "http://www.w3.org/TR/2001/" + "REC-xml-c14n-20010315"
  const RSA_SHA1: SignatureMethod := XmlDsig + "rsa-sha1"
  const DSA_SHA1: SignatureMethod := XmlDsig + "dsa-sha1"
  const EnvelopedSignature: Transform := XmlDsig + "enveloped-signature"
  const SHA1: DigestMethod := XmlDsig + "sha1"

  datatype AttributeValue = AttributeValue(valueType: string, value: string)

  /** `attrs` are extra XML attributes written before Name. */
  datatype Attribute = Attribute(attrs: seq<XmlAttr>, friendlyName: string, name: string,
                                 values: seq<AttributeValue>)

  datatype AttributeStatement = AttributeStatement(attributes: seq<Attribute>)

  datatype AuthnContext = AuthnContext(authnContextClassRef: string)

  datatype AuthnStatement = AuthnStatement(authnInstant: Instant, sessionIndex: string,
                                           authnContext: AuthnContext)

  datatype AudienceRestriction = AudienceRestriction(audience: seq<string>)

  datatype NameIDPolicy = NameIDPolicy(allowCreate: bool, format: string, spNameQualifier: string)

  datatype RequestedAuthnContext = RequestedAuthnContext(comparison: string, authnContextClassRef: string)

  /** The fields every protocol message carries (the source's Message). */
  datatype Message = Message(id: string, version: string, issueInstant: Instant, issuer: string,
                             destination: string, consent: string)

  const ZeroMessage: Message := Message("", "", ZeroInstant, "", "", "")

  /** RequestAbstractType: the message fields plus a signature. */
  datatype Request = Request(message: Message, signature: Signature)

  const ZeroRequest: Request := Request(ZeroMessage, "")

  /** Only NameIDPolicy and RequestedAuthnContext may be absent. */
  datatype AuthnRequest = AuthnRequest(
    request: Request,
    nameIDPolicy: Option<NameIDPolicy>,
    forceAuthn: bool,
    isPassive: bool,
    protocolBinding: Binding.Protocol,
    assertionConsumerServiceURL: string,
    assertionConsumerServiceIndex: bv8,
    attributeConsumingServiceIndex: bv8,
    providerName: string,
    requestedAuthnContext: Option<RequestedAuthnContext>)

  const ZeroAuthnRequest: AuthnRequest :=
    AuthnRequest(ZeroRequest, None, false, false, "", "", 0, 0, "", None)

  datatype Conditions = Conditions(notBefore: Instant, notOnOrAfter: Instant,
                                   audienceRestriction: seq<AudienceRestriction>)

  type Signature = string
  type NameID = string

  datatype SubjectConfirmation = SubjectConfirmation(confirmMethod: string, inResponseTo: string,
                                                     recipient: string, notOnOrAfter: Instant)

  datatype Subject = Subject(nameID: NameID, subjectConfirmation: SubjectConfirmation)

  datatype Assertion = Assertion(
    authnStatement: AuthnStatement,
    attributeStatement: AttributeStatement,
    conditions: Conditions,
    id: string,
    issueInstant: Instant,
    issuer: string,
    signature: Signature,
    subject: Subject,
    version: string)

  /** A request and its response correspond when InResponseTo echoes the request ID. */
  predicate Correlates(req: Request, inResponseTo: string) {
    req.message.id == inResponseTo
  }

  /** The five algorithm identifiers are pairwise distinct, and so are the
      five unsupported-algorithm errors. */
  lemma EnumerationsDistinct()
    ensures |{C14N1_0, RSA_SHA1, DSA_SHA1, EnvelopedSignature, SHA1}| == 5
    ensures |{ErrUnsupportedDigestMethod, ErrUnsupportedSignatureMethod, ErrUnsupportedTransform,
              ErrUnsupportedC14NMethod, ErrUnsupportedKeyType}| == 5
  {
    assert RSA_SHA1[34] != DSA_SHA1[34];
    assert C14N1_0[18] != RSA_SHA1[18];
  }
}
