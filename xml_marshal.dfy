/** The MarshalXML methods of xml.go: each writes its element as tokens
    into an Encoder. The functions named ...Tokens give what each writes;
    the methods follow the source statement by statement and are proved to
    write exactly that; the lemmas state what the streams promise. */
module XmlMarshal {
  import opened Base
  import opened Ns
  import opened Tokens
  import opened Saml
  import TimeFmt

  const Bearer: string := "urn:oasis:names:tc:SAML:2.0:cm:bearer"
  const Transient: string := "urn:oasis:names:tc:SAML:2.0:nameid-format:transient"
  const ErrMissingName: Error := Error("missing .Name")

  /** An attribute with no namespace, as the source writes `xml.Name{Local: k}`. */
  function Plain(k: string, v: string): XmlAttr {
    XmlAttr(XmlName("", k), v)
  }

  /** `ns.SAML.XMLName(local)`, spelled out (see SamlNameAgrees). */
  function SamlName(local: string): XmlName {
    XmlName("", "saml:" + local)
  }

  lemma SamlNameAgrees(local: string)
    ensures SamlName(local) == XMLName(SAML, local)
  {
  }

  /** The start element the encoder passes for a value of the named Go type
      or struct field. */
  function DefaultStart(name: string): StartElement {
    StartElement(XmlName("", name), [])
  }

  function Named(name: XmlName): StartElement {
    StartElement(name, [])
  }

  // ----- What each marshaller writes -----

  /** The values with a MarshalXML method in xml.go (Go's xml.Marshaler). */
  datatype Marshaler =
    | OfAttributeValue(av: AttributeValue)
    | OfAttribute(attr: Attribute)
    | OfAuthnStatement(authn: AuthnStatement)
    | OfAudienceRestriction(restriction: AudienceRestriction)
    | OfConditions(conditions: Conditions)
    | OfSubjectConfirmation(confirmation: SubjectConfirmation)
    | OfNameID(nameID: NameID)
    | OfSubject(subject: Subject)
    | OfSignature(signature: Signature)
    | OfAssertion(assertion: Assertion)

  /** How deep a marshaller nests other marshallers. */
  function Level(m: Marshaler): nat {
    match m
    case OfAttribute(_) => 1
    case OfConditions(_) => 1
    case OfSubject(_) => 1
    case OfAssertion(_) => 3
    case _ => 0
  }

  /** The tokens `m.MarshalXML(e, start)` writes. */
  function Written(m: Marshaler, start: StartElement): seq<Token>
    decreases 2 * Level(m) + 1, 1
  {
    match m
    case OfAttributeValue(av) => AttributeValueTokens(av, start)
    case OfAttribute(a) => AttributeTokens(a, start)
    case OfAuthnStatement(st) => AuthnStatementTokens(st, start)
    case OfAudienceRestriction(ar) => AudienceRestrictionTokens(ar, start)
    case OfConditions(c) => ConditionsTokens(c, start)
    case OfSubjectConfirmation(sc) => SubjectConfirmationTokens(sc, start)
    case OfNameID(n) => NameIDTokens(n, start)
    case OfSubject(s) => SubjectTokens(s, start)
    case OfSignature(sig) => SignatureTokens(sig, start)
    case OfAssertion(a) => AssertionTokens(a, start)
  }

  function AttributeValueTokens(av: AttributeValue, start: StartElement): seq<Token> {
    [Start(SamlName("AttributeValue"), start.attrs + [Plain("xsi:type", av.valueType)]),
     CharData(av.value), End(SamlName("AttributeValue"))]
  }

  /** Nothing at all when the Name is missing. */
  function AttributeTokens(a: Attribute, start: StartElement): seq<Token>
    decreases 3, 0
  {
    if a.name == "" then []
    else [Start(SamlName("Attribute"), AttributeStartAttrs(a, start))] + ValuesWritten(a.values) +
         [End(SamlName("Attribute"))]
  }

  function AuthnStatementTokens(st: AuthnStatement, start: StartElement): seq<Token> {
    [Start(SamlName("AuthnStatement"), start.attrs +
       [Plain("AuthnInstant", TimeFmt.Format(st.authnInstant)), Plain("SessionIndex", st.sessionIndex)])] +
    AuthnContextTokens(st.authnContext) + [End(SamlName("AuthnStatement"))]
  }

  function AudienceRestrictionTokens(ar: AudienceRestriction, start: StartElement): seq<Token> {
    [Start(SamlName("AudienceRestriction"), start.attrs)] + AudienceTokens(ar.audience) +
    [End(SamlName("AudienceRestriction"))]
  }

  function ConditionsTokens(c: Conditions, start: StartElement): seq<Token>
    decreases 3, 0
  {
    [Start(SamlName("Conditions"), start.attrs +
       [Plain("NotBefore", TimeFmt.Format(c.notBefore)), Plain("NotOnOrAfter", TimeFmt.Format(c.notOnOrAfter))])] +
    RestrictionsWritten(c.audienceRestriction) + [End(SamlName("Conditions"))]
  }

  function SubjectConfirmationTokens(sc: SubjectConfirmation, start: StartElement): seq<Token> {
    [Start(SamlName("SubjectConfirmation"), start.attrs + [Plain("Method", MethodOf(sc))]),
     Start(SamlName("SubjectConfirmationData"),
       [Plain("InResponseTo", sc.inResponseTo), Plain("Recipient", sc.recipient),
        Plain("NotOnOrAfter", TimeFmt.Format(sc.notOnOrAfter))]),
     End(SamlName("SubjectConfirmationData")),
     End(SamlName("SubjectConfirmation"))]
  }

  /** NameID keeps the name it is given; the encoder refuses start and end
      tags with an empty name, so then only the text gets through. */
  function NameIDTokens(n: NameID, start: StartElement): seq<Token> {
    if start.name.local == "" then [CharData(n)]
    else [Start(start.name, start.attrs + [Plain("Format", Transient)]), CharData(n), End(start.name)]
  }

  function SubjectTokens(s: Subject, start: StartElement): seq<Token>
    decreases 3, 0
  {
    [Start(SamlName("Subject"), start.attrs)] +
    Written(OfNameID(s.nameID), Named(SamlName("NameID"))) +
    Written(OfSubjectConfirmation(s.subjectConfirmation), Named(SamlName("SubjectConfirmation"))) +
    [End(SamlName("Subject"))]
  }

  /** The signature value itself is never written, only an empty element. */
  function SignatureTokens(sig: Signature, start: StartElement): seq<Token> {
    [Start(DsSignature, start.attrs + [XMLAttr(XMLDSignature)]), End(DsSignature)]
  }

  /** When an attribute lacks its Name the closing tag is refused by the
      encoder, so the stream stops after the AttributeStatement part. */
  function AssertionTokens(a: Assertion, start: StartElement): seq<Token>
    decreases 7, 0
  {
    [Start(SamlName("Assertion"), AssertionStartAttrs(a, start))] + AssertionHead(a) + AssertionRest(a) +
    (if AttributesRun(a.attributeStatement.attributes).1 then [End(SamlName("Assertion"))] else [])
  }

  function AttributeStartAttrs(a: Attribute, start: StartElement): seq<XmlAttr> {
    start.attrs + a.attrs + [Plain("Name", a.name)] +
    (if a.friendlyName != "" then [Plain("FriendlyName", a.friendlyName)] else [])
  }

  /** What `e.Encode(v)` writes for each value in turn. */
  function ValuesWritten(vs: seq<AttributeValue>): seq<Token>
    decreases 2, |vs|
  {
    if vs == [] then []
    else ValuesWritten(vs[..|vs| - 1]) + Written(OfAttributeValue(vs[|vs| - 1]), DefaultStart("AttributeValue"))
  }

  function AudienceTokens(auds: seq<string>): seq<Token> {
    if auds == [] then []
    else AudienceTokens(auds[..|auds| - 1]) +
         [Start(SamlName("Audience"), []), CharData(auds[|auds| - 1]), End(SamlName("Audience"))]
  }

  function RestrictionsWritten(rs: seq<AudienceRestriction>): seq<Token>
    decreases 2, |rs|
  {
    if rs == [] then []
    else RestrictionsWritten(rs[..|rs| - 1]) +
         Written(OfAudienceRestriction(rs[|rs| - 1]), DefaultStart("AudienceRestriction"))
  }

  /** The confirmation method written: bearer when none is set. */
  function MethodOf(sc: SubjectConfirmation): string {
    if sc.confirmMethod == "" then Bearer else sc.confirmMethod
  }

  const DsSignature: XmlName := XmlName("", "ds:Signature")

  /** encoding/xml's default encoding of the AuthnContext struct. */
  function AuthnContextTokens(ac: AuthnContext): seq<Token> {
    [Start(XmlName("", "AuthnContext"), []), Start(XmlName("", "AuthnContextClassRef"), []),
     CharData(ac.authnContextClassRef), End(XmlName("", "AuthnContextClassRef")), End(XmlName("", "AuthnContext"))]
  }

  /** encoding/xml's default encoding of a string under a given start element. */
  function StringTokens(s: string, start: StartElement): seq<Token> {
    [Start(start.name, start.attrs), CharData(s), End(start.name)]
  }

  /** The attributes written before the first one without a Name, and
      whether there is none such. */
  function AttributesRun(attrs: seq<Attribute>): (seq<Token>, bool)
    decreases 4, |attrs|
  {
    if attrs == [] then ([], true)
    else
      var (ts, ok) := AttributesRun(attrs[..|attrs| - 1]);
      var a := attrs[|attrs| - 1];
      if !ok || a.name == "" then (ts, false)
      else (ts + Written(OfAttribute(a), DefaultStart("Attributes")), true)
  }

  /** encoding/xml's default encoding of the AttributeStatement struct: its
      Attributes one after another; the first failing one stops the
      encoding before the end tag. */
  function AttributeStatementTokens(st: AttributeStatement, start: StartElement): seq<Token>
    decreases 5, 0
  {
    var (ts, ok) := AttributesRun(st.attributes);
    [Start(start.name, start.attrs)] + ts + (if ok then [End(start.name)] else [])
  }

  function AssertionStartAttrs(a: Assertion, start: StartElement): seq<XmlAttr> {
    start.attrs + [XMLAttr(SAML), XMLAttr(XMLSchema), XMLAttr(XMLSchemaInstance),
      Plain("ID", a.id), Plain("Version", a.version), Plain("IssueInstant", TimeFmt.Format(a.issueInstant))]
  }

  /** The first children of an Assertion: Issuer, Signature and Subject. */
  function AssertionHead(a: Assertion): seq<Token>
    decreases 6, 0
  {
    StringTokens(a.issuer, Named(SamlName("Issuer"))) +
    Written(OfSignature(a.signature), Named(SamlName("Signature"))) +
    Written(OfSubject(a.subject), Named(SamlName("Subject")))
  }

  /** The statements of an Assertion that follow its Subject. */
  function AssertionRest(a: Assertion): seq<Token>
    decreases 6, 0
  {
    Written(OfConditions(a.conditions), Named(SamlName("Conditions"))) +
    Written(OfAuthnStatement(a.authnStatement), Named(SamlName("AuthnStatement"))) +
    AttributeStatementTokens(a.attributeStatement, Named(SamlName("AttributeStatement")))
  }

  predicate AllNamed(attrs: seq<Attribute>) {
    forall i :: 0 <= i < |attrs| ==> attrs[i].name != ""
  }

  // ----- The marshallers, writing into an Encoder -----
  // Each one ignores the errors of the calls it makes, as the source does.

  /** Whether `m.MarshalXML` and the encoder's check after it succeed. */
  predicate Clean(m: Marshaler) {
    match m
    case OfAttribute(a) => a.name != ""
    case OfAssertion(a) => AttributesRun(a.attributeStatement.attributes).1
    case _ => true
  }

  /** The tags `m.MarshalXML` leaves open above the marker. */
  function LeftOpen(m: Marshaler): seq<XmlName> {
    match m
    case OfAssertion(a) =>
      if AttributesRun(a.attributeStatement.attributes).1 then []
      else [SamlName("Assertion")] + [SamlName("AttributeStatement"), Mark]
    case _ => []
  }

  /** `e.EncodeElement(v, start)`, and `e.Encode(v)` with the start element
      the encoder derives, for a value with a MarshalXML method: a marker
      frames the call, and tags the call leaves open are an error. */
  method EncodeElement(e: Encoder, m: Marshaler, start: StartElement) returns (err: Option<Error>)
    modifies e
    decreases Level(m), 1
    ensures e.tokens == old(e.tokens) + Written(m, start)
    ensures Clean(m) ==> err.None? && e.open == old(e.open)
    ensures !Clean(m) ==> err.Some? && e.open == old(e.open) + [Mark] + LeftOpen(m)
  {
    var n := e.PushMark();
    match m {
      case OfAttributeValue(av) => err := MarshalAttributeValue(e, av, start);
      case OfAttribute(a) => err := MarshalAttribute(e, a, start);
      case OfAuthnStatement(st) => err := MarshalAuthnStatement(e, st, start);
      case OfAudienceRestriction(ar) => err := MarshalAudienceRestriction(e, ar, start);
      case OfConditions(c) => err := MarshalConditions(e, c, start);
      case OfSubjectConfirmation(sc) => err := MarshalSubjectConfirmation(e, sc, start);
      case OfNameID(id) => err := MarshalNameID(e, id, start);
      case OfSubject(s) => err := MarshalSubject(e, s, start);
      case OfSignature(sig) => err := MarshalSignature(e, sig, start);
      case OfAssertion(a) => err := MarshalAssertion(e, a, start);
    }
    if err.None? {
      err := e.CloseMark(n);
    }
  }

  method MarshalAttributeValue(e: Encoder, av: AttributeValue, start: StartElement) returns (err: Option<Error>)
    modifies e
    ensures err.None? && e.open == old(e.open)
    ensures e.tokens == old(e.tokens) + AttributeValueTokens(av, start)
  {
    var name := SamlName("AttributeValue");
    var attrs := start.attrs + [Plain("xsi:type", av.valueType)];
    var _ := e.EncodeToken(Start(name, attrs));
    var _ := e.EncodeToken(CharData(av.value));
    var _ := e.EncodeToken(End(name));
    return None;
  }

  method MarshalAttribute(e: Encoder, a: Attribute, start: StartElement) returns (err: Option<Error>)
    modifies e
    decreases 1, 0
    ensures err == (if a.name == "" then Some(ErrMissingName) else None)
    ensures e.open == old(e.open)
    ensures e.tokens == old(e.tokens) + AttributeTokens(a, start)
  {
    var name := SamlName("Attribute");
    if a.name == "" {
      return Some(ErrMissingName);
    }
    var attrs := start.attrs + a.attrs;
    attrs := attrs + [Plain("Name", a.name)];
    if a.friendlyName != "" {
      attrs := attrs + [Plain("FriendlyName", a.friendlyName)];
    }
    assert attrs == AttributeStartAttrs(a, start);
    var _ := e.EncodeToken(Start(name, attrs));
    var i := 0;
    while i < |a.values|
      invariant 0 <= i <= |a.values|
      invariant e.tokens == old(e.tokens) + [Start(name, attrs)] + ValuesWritten(a.values[..i])
      invariant e.open == old(e.open) + [name]
    {
      var _ := EncodeElement(e, OfAttributeValue(a.values[i]), DefaultStart("AttributeValue"));
      assert a.values[..i + 1][..i] == a.values[..i];
      Regroup(old(e.tokens) + [Start(name, attrs)], ValuesWritten(a.values[..i]),
        Written(OfAttributeValue(a.values[i]), DefaultStart("AttributeValue")));
      i := i + 1;
    }
    assert a.values[..i] == a.values;
    var _ := e.EncodeToken(End(name));
    return None;
  }

  method MarshalAuthnStatement(e: Encoder, st: AuthnStatement, start: StartElement) returns (err: Option<Error>)
    modifies e
    ensures err.None? && e.open == old(e.open)
    ensures e.tokens == old(e.tokens) + AuthnStatementTokens(st, start)
  {
    var name := SamlName("AuthnStatement");
    var attrs := start.attrs +
      [Plain("AuthnInstant", TimeFmt.Format(st.authnInstant)), Plain("SessionIndex", st.sessionIndex)];
    var _ := e.EncodeToken(Start(name, attrs));
    // encoding/xml's own encoding of the AuthnContext struct
    var ctx := XmlName("", "AuthnContext");
    var ref := XmlName("", "AuthnContextClassRef");
    var _ := e.EncodeToken(Start(ctx, []));
    var _ := e.EncodeToken(Start(ref, []));
    var _ := e.EncodeToken(CharData(st.authnContext.authnContextClassRef));
    var _ := e.EncodeToken(End(ref));
    var _ := e.EncodeToken(End(ctx));
    var _ := e.EncodeToken(End(name));
    return None;
  }

  method MarshalAudienceRestriction(e: Encoder, ar: AudienceRestriction, start: StartElement) returns (err: Option<Error>)
    modifies e
    ensures err.None? && e.open == old(e.open)
    ensures e.tokens == old(e.tokens) + AudienceRestrictionTokens(ar, start)
  {
    var name := SamlName("AudienceRestriction");
    var _ := e.EncodeToken(Start(name, start.attrs));
    var i := 0;
    while i < |ar.audience|
      invariant 0 <= i <= |ar.audience|
      invariant e.tokens == old(e.tokens) + [Start(name, start.attrs)] + AudienceTokens(ar.audience[..i])
      invariant e.open == old(e.open) + [name]
    {
      ghost var before := e.tokens;
      var _ := e.EncodeToken(Start(SamlName("Audience"), []));
      var _ := e.EncodeToken(CharData(ar.audience[i]));
      var _ := e.EncodeToken(End(SamlName("Audience")));
      ghost var one := [Start(SamlName("Audience"), []), CharData(ar.audience[i]), End(SamlName("Audience"))];
      assert e.tokens == before + one;
      assert ar.audience[..i + 1][..i] == ar.audience[..i];
      Regroup(old(e.tokens) + [Start(name, start.attrs)], AudienceTokens(ar.audience[..i]), one);
      i := i + 1;
    }
    assert ar.audience[..i] == ar.audience;
    var _ := e.EncodeToken(End(name));
    return None;
  }

  method MarshalConditions(e: Encoder, c: Conditions, start: StartElement) returns (err: Option<Error>)
    modifies e
    decreases 1, 0
    ensures err.None? && e.open == old(e.open)
    ensures e.tokens == old(e.tokens) + ConditionsTokens(c, start)
  {
    var name := SamlName("Conditions");
    var attrs := start.attrs +
      [Plain("NotBefore", TimeFmt.Format(c.notBefore)), Plain("NotOnOrAfter", TimeFmt.Format(c.notOnOrAfter))];
    var _ := e.EncodeToken(Start(name, attrs));
    var i := 0;
    while i < |c.audienceRestriction|
      invariant 0 <= i <= |c.audienceRestriction|
      invariant e.tokens == old(e.tokens) + [Start(name, attrs)] + RestrictionsWritten(c.audienceRestriction[..i])
      invariant e.open == old(e.open) + [name]
    {
      var _ := EncodeElement(e, OfAudienceRestriction(c.audienceRestriction[i]), DefaultStart("AudienceRestriction"));
      assert c.audienceRestriction[..i + 1][..i] == c.audienceRestriction[..i];
      Regroup(old(e.tokens) + [Start(name, attrs)], RestrictionsWritten(c.audienceRestriction[..i]),
        Written(OfAudienceRestriction(c.audienceRestriction[i]), DefaultStart("AudienceRestriction")));
      i := i + 1;
    }
    assert c.audienceRestriction[..i] == c.audienceRestriction;
    ghost var body := RestrictionsWritten(c.audienceRestriction);
    var _ := e.EncodeToken(End(name));
    assert ConditionsTokens(c, start) == [Start(name, attrs)] + body + [End(name)];
    Regroup(old(e.tokens) + [Start(name, attrs)], body, [End(name)]);
    Regroup(old(e.tokens), [Start(name, attrs)], body + [End(name)]);
    Regroup([Start(name, attrs)], body, [End(name)]);
    return None;
  }

  method MarshalSubjectConfirmation(e: Encoder, sc: SubjectConfirmation, start: StartElement) returns (err: Option<Error>)
    modifies e
    ensures err.None? && e.open == old(e.open)
    ensures e.tokens == old(e.tokens) + SubjectConfirmationTokens(sc, start)
  {
    var sc := sc;
    if sc.confirmMethod == "" {
      sc := sc.(confirmMethod := Bearer);
    }
    var name := SamlName("SubjectConfirmation");
    var data := SamlName("SubjectConfirmationData");
    var _ := e.EncodeToken(Start(name, start.attrs + [Plain("Method", sc.confirmMethod)]));
    var _ := e.EncodeToken(Start(data,
      [Plain("InResponseTo", sc.inResponseTo), Plain("Recipient", sc.recipient),
       Plain("NotOnOrAfter", TimeFmt.Format(sc.notOnOrAfter))]));
    var _ := e.EncodeToken(End(data));
    var _ := e.EncodeToken(End(name));
    return None;
  }

  method MarshalNameID(e: Encoder, n: NameID, start: StartElement) returns (err: Option<Error>)
    modifies e
    ensures err.None? && e.open == old(e.open)
    ensures e.tokens == old(e.tokens) + NameIDTokens(n, start)
  {
    var attrs := start.attrs + [Plain("Format", Transient)];
    var _ := e.EncodeToken(Start(start.name, attrs));
    var _ := e.EncodeToken(CharData(n));
    var _ := e.EncodeToken(End(start.name));
    return None;
  }

  method MarshalSubject(e: Encoder, s: Subject, start: StartElement) returns (err: Option<Error>)
    modifies e
    decreases 1, 0
    ensures err.None? && e.open == old(e.open)
    ensures e.tokens == old(e.tokens) + SubjectTokens(s, start)
  {
    var name := SamlName("Subject");
    var _ := e.EncodeToken(Start(name, start.attrs));
    var _ := EncodeElement(e, OfNameID(s.nameID), Named(SamlName("NameID")));
    var _ := EncodeElement(e, OfSubjectConfirmation(s.subjectConfirmation), Named(SamlName("SubjectConfirmation")));
    var _ := e.EncodeToken(End(name));
    return None;
  }

  method MarshalSignature(e: Encoder, sig: Signature, start: StartElement) returns (err: Option<Error>)
    modifies e
    ensures err.None? && e.open == old(e.open)
    ensures e.tokens == old(e.tokens) + SignatureTokens(sig, start)
  {
    var _ := e.EncodeToken(Start(DsSignature, start.attrs + [XMLAttr(XMLDSignature)]));
    var _ := e.EncodeToken(End(DsSignature));
    return None;
  }

  /** encoding/xml's own encoding of the AttributeStatement struct: each
      Attribute goes through EncodeElement; the first error is returned at
      once, leaving the start tag and the marker open. */
  method EncodeAttributeStatement(e: Encoder, st: AttributeStatement, start: StartElement) returns (err: Option<Error>)
    requires start.name.local != ""
    modifies e
    decreases 2, 0
    ensures e.tokens == old(e.tokens) + AttributeStatementTokens(st, start)
    ensures AttributesRun(st.attributes).1 ==> err.None? && e.open == old(e.open)
    ensures !AttributesRun(st.attributes).1 ==> err.Some? && e.open == old(e.open) + [start.name, Mark]
  {
    var _ := e.EncodeToken(Start(start.name, start.attrs));
    var i := 0;
    while i < |st.attributes|
      invariant 0 <= i <= |st.attributes|
      invariant AttributesRun(st.attributes[..i]).1
      invariant e.tokens == old(e.tokens) + [Start(start.name, start.attrs)] + AttributesRun(st.attributes[..i]).0
      invariant e.open == old(e.open) + [start.name]
    {
      assert st.attributes[..i + 1][..i] == st.attributes[..i];
      var r := EncodeElement(e, OfAttribute(st.attributes[i]), DefaultStart("Attributes"));
      if r.Some? {
        AttributesRunStuck(st.attributes, i + 1);
        return r;
      }
      Regroup(old(e.tokens) + [Start(start.name, start.attrs)], AttributesRun(st.attributes[..i]).0,
        Written(OfAttribute(st.attributes[i]), DefaultStart("Attributes")));
      i := i + 1;
    }
    assert st.attributes[..i] == st.attributes;
    var _ := e.EncodeToken(End(start.name));
    return None;
  }

  /** Once an attribute without a Name is met, the rest are not written. */
  lemma {:induction false} AttributesRunStuck(attrs: seq<Attribute>, k: nat)
    requires k <= |attrs| && !AttributesRun(attrs[..k]).1
    ensures AttributesRun(attrs) == AttributesRun(attrs[..k])
    decreases |attrs| - k
  {
    if k < |attrs| {
      var k1 := k + 1;
      assert attrs[..k1][..k] == attrs[..k];
      assert !AttributesRun(attrs[..k1]).1;
      AttributesRunStuck(attrs, k1);
    } else {
      assert attrs[..k] == attrs;
    }
  }

  /** Lines 181 to 183 of xml.go: the Issuer, by encoding/xml's own
      encoding of a string, then the Signature and the Subject. */
  method EncodeAssertionHead(e: Encoder, a: Assertion)
    modifies e
    decreases 2, 1
    ensures e.tokens == old(e.tokens) + AssertionHead(a)
    ensures e.open == old(e.open)
  {
    var issuer := SamlName("Issuer");
    var _ := e.EncodeToken(Start(issuer, []));
    var _ := e.EncodeToken(CharData(a.issuer));
    var _ := e.EncodeToken(End(issuer));
    ghost var head := StringTokens(a.issuer, Named(issuer));
    assert e.tokens == old(e.tokens) + head;
    ghost var w := Written(OfSignature(a.signature), Named(SamlName("Signature")));
    var _ := EncodeElement(e, OfSignature(a.signature), Named(SamlName("Signature")));
    Regroup(old(e.tokens), head, w);
    head := head + w;
    w := Written(OfSubject(a.subject), Named(SamlName("Subject")));
    var _ := EncodeElement(e, OfSubject(a.subject), Named(SamlName("Subject")));
    Regroup(old(e.tokens), head, w);
  }

  /** Lines 184 to 186 of xml.go: Conditions, AuthnStatement and
      AttributeStatement; the last one can leave tags open. */
  method EncodeAssertionRest(e: Encoder, a: Assertion)
    modifies e
    decreases 2, 1
    ensures e.tokens == old(e.tokens) + AssertionRest(a)
    ensures AttributesRun(a.attributeStatement.attributes).1 ==> e.open == old(e.open)
    ensures !AttributesRun(a.attributeStatement.attributes).1 ==>
      e.open == old(e.open) + [SamlName("AttributeStatement"), Mark]
  {
    ghost var rest := Written(OfConditions(a.conditions), Named(SamlName("Conditions")));
    var _ := EncodeElement(e, OfConditions(a.conditions), Named(SamlName("Conditions")));
    ghost var w := Written(OfAuthnStatement(a.authnStatement), Named(SamlName("AuthnStatement")));
    var _ := EncodeElement(e, OfAuthnStatement(a.authnStatement), Named(SamlName("AuthnStatement")));
    Regroup(old(e.tokens), rest, w);
    rest := rest + w;
    w := AttributeStatementTokens(a.attributeStatement, Named(SamlName("AttributeStatement")));
    var _ := EncodeAttributeStatement(e, a.attributeStatement, Named(SamlName("AttributeStatement")));
    Regroup(old(e.tokens), rest, w);
  }

  method MarshalAssertion(e: Encoder, a: Assertion, start: StartElement) returns (err: Option<Error>)
    modifies e
    decreases 3, 0
    ensures err.None?
    ensures e.tokens == old(e.tokens) + AssertionTokens(a, start)
    ensures e.open == old(e.open) + LeftOpen(OfAssertion(a))
  {
    var name := SamlName("Assertion");
    var attrs := start.attrs + [XMLAttr(SAML), XMLAttr(XMLSchema), XMLAttr(XMLSchemaInstance),
      Plain("ID", a.id), Plain("Version", a.version), Plain("IssueInstant", TimeFmt.Format(a.issueInstant))];
    assert attrs == AssertionStartAttrs(a, start);
    var _ := e.EncodeToken(Start(name, attrs));
    ghost var t0 := e.tokens;
    EncodeAssertionHead(e, a);
    EncodeAssertionRest(e, a);
    Regroup(t0, AssertionHead(a), AssertionRest(a));
    ghost var closed := AttributesRun(a.attributeStatement.attributes).1;
    ghost var tail := if closed then [End(name)] else [];
    ghost var t1 := e.tokens;
    if closed {
      assert (old(e.open) + [name])[..|old(e.open)|] == old(e.open);
      assert Step(End(name), e.open) == Some(old(e.open));
    } else {
      assert Step(End(name), e.open).None?;
    }
    var _ := e.EncodeToken(End(name));
    assert e.tokens == t1 + tail;
    Regroup(old(e.open), [name], [SamlName("AttributeStatement"), Mark]);
    Regroup(old(e.tokens), [Start(name, attrs)], AssertionHead(a) + AssertionRest(a));
    Regroup([Start(name, attrs)], AssertionHead(a), AssertionRest(a));
    Regroup(old(e.tokens), [Start(name, attrs)] + AssertionHead(a) + AssertionRest(a), tail);
    return None;
  }
}
