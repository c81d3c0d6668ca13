/** authnreq.go: creating an AuthnRequest, its transport encoding (always
    deflated and Base64-encoded, as the HTTP-Redirect binding needs), the
    decoding pipeline, population from a parsed document, and the element
    MakeXMLNode builds. */
module AuthnReq {
  import opened Base
  import opened Ns
  import opened Dom
  import opened Saml
  import Msg
  import TimeFmt
  import Binding
  import Base64
  import Xmlsec
  import Codec

  /** The calls authnreq.go makes into code that is not part of this model. */
  datatype Foreign = Foreign(
    /** `Request.PopulateFromXML`: the request it fills in, or its error. */
    populateRequest: Node -> Result<Request>,
    /** `xpath.NewContext(n)` fails with this error, if any. */
    xpathContext: Node -> Option<Error>,
    /** `RegisterNS` of the saml prefix fails with this error, if any. */
    registerNS: Option<Error>,
    /** `NameIDPolicy.PopulateFromXML`. */
    populateNameIDPolicy: Node -> Result<NameIDPolicy>,
    /** `Request.MakeXMLNode`; the result is asserted to be an element. */
    requestXML: (Document, Request) -> Result<Xmlsec.ElementNode>,
    nameIDPolicyXML: (Document, NameIDPolicy) -> Result<Node>,
    requestedAuthnContextXML: (Document, RequestedAuthnContext) -> Result<Node>)

  /** A `*AuthnRequest`. */
  class AuthnRequestRef {
    var value: AuthnRequest

    constructor (a: AuthnRequest)
      ensures value == a
    {
      value := a;
    }

    /** Fills the request from element `n`, field by field; on an error the
        fields set so far stay set. */
    method PopulateFromXML(n: Xmlsec.ElementNode, f: Foreign) returns (err: Option<Error>)
      modifies this
      ensures (value, err) == Populated(old(value), n, f)
    {
      var req := f.populateRequest(n);
      if req.Err? {
        return Some(req.error);
      }
      value := value.(request := req.value);
      var xerr := f.xpathContext(n);
      if xerr.Some? {
        return Some(Wrap("failed to create xpath context: ", xerr.value));
      }
      if f.registerNS.Some? {
        return Some(Wrap("failed to register namespace for xpath context: ", f.registerNS.value));
      }
      value := value.(providerName := AttrString(n, "ProviderName"));
      var proto: Binding.Protocol := AttrString(n, "ProtocolBinding");
      if proto == Binding.HTTPPost || proto == Binding.HTTPRedirect {
        value := value.(protocolBinding := proto);
      } else {
        return Some(InvalidProtocolBinding);
      }
      value := value.(assertionConsumerServiceURL := AttrString(n, "AssertionConsumerServiceURL"));
      var node := FirstChild(n.children, "NameIDPolicy");
      if node.Some? {
        var nip := f.populateNameIDPolicy(node.value);
        if nip.Err? {
          return Some(nip.error);
        }
        value := value.(nameIDPolicy := Some(nip.value));
      }
      return None;
    }
  }

  const InvalidProtocolBinding: Error := Error("invalid protocol binding")
  const EmptyRequest: Error := Error("empty request")

  /** A request with a freshly initialised Message (lines 24 to 28). */
  method NewAuthnRequest(u: Msg.Uuid, now: TimeFmt.Instant) returns (ar: AuthnRequestRef)
    ensures fresh(ar)
    ensures ar.value == ZeroAuthnRequest.(request := ZeroRequest.(message := Msg.Initialized(ZeroMessage, u, now)))
  {
    var mr := new Msg.MessageRef(ZeroMessage);
    var _ := mr.Initialize(u, now);
    ar := new AuthnRequestRef(ZeroAuthnRequest.(request := ZeroRequest.(message := mr.value)));
  }

  /** Unlike the zero request of assertion.go, this one is version 2.0 and
      carries the generated ID and the given instant. */
  lemma NewAuthnRequestFields(u: Msg.Uuid, now: TimeFmt.Instant)
    ensures var m := ZeroAuthnRequest.(request := ZeroRequest.(message := Msg.Initialized(ZeroMessage, u, now))).request.message;
      m.version == "2.0" && m.id == u.newV5(Msg.NamespaceDNS, Msg.UUIDURL) && m.issueInstant == now
  {
  }

  // ----- Population -----

  /** What PopulateFromXML leaves in the request, and the error it returns. */
  function Populated(ar: AuthnRequest, n: Xmlsec.ElementNode, f: Foreign): (AuthnRequest, Option<Error>) {
    match f.populateRequest(n)
    case Err(e) => (ar, Some(e))
    case Ok(req) =>
      var ar1 := ar.(request := req);
      if f.xpathContext(n).Some? then
        (ar1, Some(Wrap("failed to create xpath context: ", f.xpathContext(n).value)))
      else if f.registerNS.Some? then
        (ar1, Some(Wrap("failed to register namespace for xpath context: ", f.registerNS.value)))
      else
        var ar2 := ar1.(providerName := AttrString(n, "ProviderName"));
        var proto := AttrString(n, "ProtocolBinding");
        if !Binding.IsKnown(proto) then (ar2, Some(InvalidProtocolBinding))
        else
          var ar3 := ar2.(protocolBinding := proto,
                          assertionConsumerServiceURL := AttrString(n, "AssertionConsumerServiceURL"));
          match FirstChild(n.children, "NameIDPolicy")
          case None => (ar3, None)
          case Some(node) =>
            match f.populateNameIDPolicy(node)
            case Err(e) => (ar3, Some(e))
            case Ok(nip) => (ar3.(nameIDPolicy := Some(nip)), None)
  }

  /** A populated request always has one of the two known bindings, and its
      ProviderName and AssertionConsumerServiceURL are the attributes of `n`
      ("" when absent). Any other binding is refused with "invalid protocol
      binding", after ProviderName was already set. */
  lemma PopulatedBinding(ar: AuthnRequest, n: Xmlsec.ElementNode, f: Foreign)
    ensures Populated(ar, n, f).1.None? ==>
      var r := Populated(ar, n, f).0;
      Binding.IsKnown(r.protocolBinding) && r.protocolBinding == AttrString(n, "ProtocolBinding") &&
      r.providerName == AttrString(n, "ProviderName") &&
      r.assertionConsumerServiceURL == AttrString(n, "AssertionConsumerServiceURL")
    ensures (f.populateRequest(n).Ok? && f.xpathContext(n).None? && f.registerNS.None? &&
             !Binding.IsKnown(AttrString(n, "ProtocolBinding"))) ==>
      Populated(ar, n, f).1 == Some(InvalidProtocolBinding) &&
      Populated(ar, n, f).0 == ar.(request := f.populateRequest(n).value, providerName := AttrString(n, "ProviderName"))
  {
  }

  /** NameIDPolicy is only touched when `n` has a NameIDPolicy child; when
      it has one and population succeeds, it is that child's policy. */
  lemma PopulatedNameIDPolicy(ar: AuthnRequest, n: Xmlsec.ElementNode, f: Foreign)
    ensures FirstChild(n.children, "NameIDPolicy").None? ==>
      Populated(ar, n, f).0.nameIDPolicy == ar.nameIDPolicy
    ensures FirstChild(n.children, "NameIDPolicy").Some? && Populated(ar, n, f).1.None? ==>
      Populated(ar, n, f).0.nameIDPolicy ==
        Some(f.populateNameIDPolicy(FirstChild(n.children, "NameIDPolicy").value).value)
  {
  }

  /** A failure of the foreign request population is returned as it is and
      changes nothing. */
  lemma PopulateRequestFailure(ar: AuthnRequest, n: Xmlsec.ElementNode, f: Foreign)
    requires f.populateRequest(n).Err?
    ensures Populated(ar, n, f) == (ar, Some(f.populateRequest(n).error))
  {
  }

  /** `constructAuthnRequest`: a request exists only when population succeeds. */
  function Constructed(doc: Xmlsec.Doc, lib: Xmlsec.Lib, f: Foreign): Result<AuthnRequest> {
    match lib.documentElement(doc)
    case Err(e) => Err(Wrap("failed to fetch document element: ", e))
    case Ok(root) =>
      var (ar, err) := Populated(ZeroAuthnRequest, root, f);
      if err.Some? then Err(Wrap("failed to populate from xml: ", err.value)) else Ok(ar)
  }

  /** `ParseAuthnRequest` (and `ParseAuthnRequestString`). */
  function Parsed(src: Bytes, lib: Xmlsec.Lib, f: Foreign): Result<AuthnRequest> {
    match lib.parse(src)
    case Err(e) => Err(Wrap("failed to parse xml: ", e))
    case Ok(doc) => Constructed(doc, lib, f)
  }

  /** Lines 214 to 225. */
  method ConstructAuthnRequest(doc: Xmlsec.Doc, lib: Xmlsec.Lib, f: Foreign) returns (r: Result<AuthnRequestRef>)
    ensures r.Err? ==> Constructed(doc, lib, f) == Err(r.error)
    ensures r.Ok? ==> fresh(r.value) && Constructed(doc, lib, f) == Ok(r.value.value)
  {
    var root := lib.documentElement(doc);
    if root.Err? {
      return Err(Wrap("failed to fetch document element: ", root.error));
    }
    var ar := new AuthnRequestRef(ZeroAuthnRequest);
    var err := ar.PopulateFromXML(root.value, f);
    if err.Some? {
      return Err(Wrap("failed to populate from xml: ", err.value));
    }
    return Ok(ar);
  }

  /** Lines 194 to 202. */
  method ParseAuthnRequest(src: Bytes, lib: Xmlsec.Lib, f: Foreign) returns (r: Result<AuthnRequestRef>)
    ensures r.Err? ==> Parsed(src, lib, f) == Err(r.error)
    ensures r.Ok? ==> fresh(r.value) && Parsed(src, lib, f) == Ok(r.value.value)
  {
    var doc := lib.parse(src);
    if doc.Err? {
      return Err(Wrap("failed to parse xml: ", doc.error));
    }
    r := ConstructAuthnRequest(doc.value, lib, f);
  }

  /** A failed population never yields a request, although fields of the
      discarded one were set: the error carries the population error behind
      the prefix "failed to populate from xml: ". */
  lemma PopulateFailureNoRequest(doc: Xmlsec.Doc, lib: Xmlsec.Lib, f: Foreign)
    requires lib.documentElement(doc).Ok?
    ensures var p := Populated(ZeroAuthnRequest, lib.documentElement(doc).value, f);
      (Constructed(doc, lib, f).Ok? <==> p.1.None?) &&
      (p.1.Some? ==> Constructed(doc, lib, f) == Err(Wrap("failed to populate from xml: ", p.1.value))) &&
      (p.1.None? ==> Constructed(doc, lib, f) == Ok(p.0))
  {
  }

  // ----- Decoding -----

  /** `decodeAuthnRequest`: Base64, inflate, refuse an empty payload, verify
      the signature when asked, and only then parse. */
  function Decoded(b: Bytes, verify: bool, lib: Xmlsec.Lib, f: Foreign): Result<AuthnRequest> {
    match Codec.Inflated(b, lib)
    case Err(e) => Err(e)
    case Ok(xml) =>
      if |xml| == 0 then Err(EmptyRequest)
      else if verify && lib.newVerifier.Some? then Err(lib.newVerifier.value)
      else if verify && lib.verify(xml).Some? then Err(lib.verify(xml).value)
      else Parsed(xml, lib, f)
  }

  /** Lines 146 to 188 (also `DecodeAuthnRequest` and
      `DecodeAuthnRequestString`, which only wrap the input in a reader). */
  method DecodeAuthnRequest(b: Bytes, verify: bool, lib: Xmlsec.Lib, f: Foreign) returns (r: Result<AuthnRequestRef>)
    ensures r.Err? ==> Decoded(b, verify, lib, f) == Err(r.error)
    ensures r.Ok? ==> fresh(r.value) && Decoded(b, verify, lib, f) == Ok(r.value.value)
  {
    var buf := Codec.Inflated(b, lib);
    if buf.Err? {
      return Err(buf.error);
    }
    if |buf.value| <= 0 {
      return Err(EmptyRequest);
    }
    var xmlbytes := buf.value;
    if verify {
      if lib.newVerifier.Some? {
        return Err(lib.newVerifier.value);
      }
      var verr := lib.verify(xmlbytes);
      if verr.Some? {
        return Err(verr.value);
      }
    }
    r := ParseAuthnRequest(xmlbytes, lib, f);
  }

  /** An empty payload is refused before any verification or parsing: the
      outcome does not depend on the verifier or the parser. */
  lemma EmptyRequestRefused(b: Bytes, verify: bool, lib: Xmlsec.Lib, f: Foreign, other: Xmlsec.Lib, g: Foreign)
    requires Codec.Inflated(b, lib) == Ok([])
    requires other.inflate == lib.inflate
    ensures Decoded(b, verify, lib, f) == Err(EmptyRequest)
    ensures Decoded(b, verify, other, g) == Err(EmptyRequest)
  {
  }

  /** With verification asked for, a verifier that cannot be created or a
      signature that does not verify ends decoding with that error, whatever
      the parser and the population would have done. */
  lemma VerifyBeforeParse(b: Bytes, lib: Xmlsec.Lib, f: Foreign, parse: Bytes -> Result<Xmlsec.Doc>, g: Foreign)
    requires Codec.Inflated(b, lib).Ok? && |Codec.Inflated(b, lib).value| > 0
    requires lib.newVerifier.Some? || lib.verify(Codec.Inflated(b, lib).value).Some?
    ensures Decoded(b, true, lib, f).Err?
    ensures Decoded(b, true, lib, f) == Decoded(b, true, lib.(parse := parse), g)
    ensures Decoded(b, true, lib, f).error ==
      if lib.newVerifier.Some? then lib.newVerifier.value else lib.verify(Codec.Inflated(b, lib).value).value
  {
  }

  /** Without verification no verifier is consulted: the inflated bytes go
      straight to parsing. */
  lemma NoVerifyParsesDirectly(b: Bytes, lib: Xmlsec.Lib, f: Foreign,
                               newVerifier: Option<Error>, verify: Bytes -> Option<Error>)
    requires Codec.Inflated(b, lib).Ok? && |Codec.Inflated(b, lib).value| > 0
    ensures Decoded(b, false, lib, f) == Parsed(Codec.Inflated(b, lib).value, lib, f)
    ensures Decoded(b, false, lib, f) == Decoded(b, false, lib.(newVerifier := newVerifier, verify := verify), f)
  {
  }

  // ----- Encoding -----

  /** The signature calls Encode makes: no X.509 data, whatever the key. */
  const RequestSignSteps: seq<Xmlsec.Call> :=
    [Xmlsec.NewSignature, Xmlsec.AddReference, Xmlsec.AddTransform, Xmlsec.AddKeyValue, Xmlsec.SignWith]

  /** Lines 69 to 98 as written: the errors of AddReference, AddTransform and
      AddKeyValue are dropped, and the error of NewSignature is only looked
      at after Sign and Dump, so a failed creation lets the code go on to
      call methods on the signature that was not created. */
  function SignedAsWritten(xml: Bytes, key: Xmlsec.Key, lib: Xmlsec.Lib): Codec.AsWritten {
    match lib.parse(xml)
    case Err(e) => Codec.Returned(Err(e))
    case Ok(doc) =>
      match lib.documentElement(doc)
      case Err(e) => Codec.Returned(Err(e))
      case Ok(_) =>
        if Xmlsec.NewSignature in lib.fails then Codec.CallsOnUncreated
        else if Xmlsec.SignWith in lib.fails then Codec.Returned(Err(lib.fails[Xmlsec.SignWith]))
        else Codec.Returned(Ok(lib.dump(doc, key)))
  }

  /** Lines 69 to 98 with every error checked where it is made. */
  function Signed(xml: Bytes, key: Xmlsec.Key, lib: Xmlsec.Lib): Result<Bytes> {
    match lib.parse(xml)
    case Err(e) => Err(e)
    case Ok(doc) =>
      match lib.documentElement(doc)
      case Err(e) => Err(e)
      case Ok(_) =>
        match Xmlsec.FirstFault(lib, RequestSignSteps)
        case Some(e) => Err(e)
        case None => Ok(lib.dump(doc, key))
  }

  /** What `AuthnRequest.Encode` returns for the outcome of Serialize. */
  function EncodeSpec(serialized: Result<Bytes>, key: Option<Xmlsec.Key>, lib: Xmlsec.Lib): Result<Bytes> {
    match serialized
    case Err(e) => Err(e)
    case Ok(xml) =>
      if key.None? then Codec.Compressed(xml, true, lib)
      else
        match Signed(xml, key.value, lib)
        case Err(e) => Err(e)
        case Ok(s) => Codec.Compressed(s, true, lib)
  }

  /** Lines 55 to 124, given what `ar.Serialize()` returned (serialize is
      not part of this model). */
  method Encode(serialized: Result<Bytes>, key: Option<Xmlsec.Key>, lib: Xmlsec.Lib) returns (r: Result<Bytes>)
    ensures r == EncodeSpec(serialized, key, lib)
  {
    if serialized.Err? {
      return Err(serialized.error);
    }
    var xmlstr := serialized.value;
    if key.Some? {
      var s := Sign(xmlstr, key.value, lib);
      if s.Err? {
        return Err(s.error);
      }
      xmlstr := s.value;
    }
    var buf := lib.deflate(xmlstr);
    if buf.Err? {
      return Err(buf.error);
    }
    var ret := Base64.Encode(buf.value);
    return Ok(ret);
  }

  /** The signing half of Encode, checking each error where it is made. */
  method Sign(xml: Bytes, key: Xmlsec.Key, lib: Xmlsec.Lib) returns (r: Result<Bytes>)
    ensures r == Signed(xml, key, lib)
  {
    var doc := lib.parse(xml);
    if doc.Err? {
      return Err(doc.error);
    }
    var root := lib.documentElement(doc.value);
    if root.Err? {
      return Err(root.error);
    }
    SignFaultOrder(lib);
    var sig := new Xmlsec.Signature(lib);
    var err := Xmlsec.Fault(lib, Xmlsec.NewSignature);
    if err.Some? {
      return Err(err.value);
    }
    err := sig.Add(Xmlsec.AddReference);
    if err.Some? {
      return Err(err.value);
    }
    err := sig.Add(Xmlsec.AddTransform);
    if err.Some? {
      return Err(err.value);
    }
    err := sig.Add(Xmlsec.AddKeyValue);
    if err.Some? {
      return Err(err.value);
    }
    err := sig.Add(Xmlsec.SignWith);
    if err.Some? {
      return Err(err.value);
    }
    assert sig.parts == RequestSignSteps;
    return Ok(lib.dump(doc.value, key));
  }

  /** The calls are tried in order and the first failure decides the error. */
  lemma SignFaultOrder(lib: Xmlsec.Lib)
    ensures Xmlsec.FirstFault(lib, RequestSignSteps) ==
      if Xmlsec.NewSignature in lib.fails then Some(lib.fails[Xmlsec.NewSignature])
      else if Xmlsec.AddReference in lib.fails then Some(lib.fails[Xmlsec.AddReference])
      else if Xmlsec.AddTransform in lib.fails then Some(lib.fails[Xmlsec.AddTransform])
      else if Xmlsec.AddKeyValue in lib.fails then Some(lib.fails[Xmlsec.AddKeyValue])
      else if Xmlsec.SignWith in lib.fails then Some(lib.fails[Xmlsec.SignWith])
      else None
  {
    var s3: seq<Xmlsec.Call> := [Xmlsec.AddKeyValue, Xmlsec.SignWith];
    var s2 := [Xmlsec.AddTransform] + s3;
    var s1 := [Xmlsec.AddReference] + s2;
    assert RequestSignSteps == [Xmlsec.NewSignature] + s1;
    Xmlsec.FirstFaultCons(lib, Xmlsec.NewSignature, s1);
    if Xmlsec.NewSignature !in lib.fails {
      Xmlsec.FirstFaultCons(lib, Xmlsec.AddReference, s2);
      if Xmlsec.AddReference !in lib.fails {
        Xmlsec.FirstFaultCons(lib, Xmlsec.AddTransform, s3);
        if Xmlsec.AddTransform !in lib.fails {
          Xmlsec.FirstFaultCons(lib, Xmlsec.AddKeyValue, [Xmlsec.SignWith]);
          Xmlsec.FirstFaultCons(lib, Xmlsec.SignWith, []);
        }
      }
    }
  }

  /** Without a key nothing is parsed or signed; the output is always the
      padded Base64 of the deflated text, 4·⌈n/3⌉ long for n deflated bytes. */
  lemma EncodedLength(serialized: Result<Bytes>, key: Option<Xmlsec.Key>, lib: Xmlsec.Lib)
    ensures serialized.Err? ==> EncodeSpec(serialized, key, lib) == Err(serialized.error)
    ensures serialized.Ok? && key.None? ==> EncodeSpec(serialized, key, lib) == Codec.Compressed(serialized.value, true, lib)
    ensures serialized.Ok? && key.Some? ==>
      (EncodeSpec(serialized, key, lib).Ok? <==>
         Signed(serialized.value, key.value, lib).Ok? && lib.deflate(Signed(serialized.value, key.value, lib).value).Ok?)
    ensures EncodeSpec(serialized, key, lib).Ok? ==>
      var signed := if key.None? then serialized.value else Signed(serialized.value, key.value, lib).value;
      lib.deflate(signed).Ok? &&
      |EncodeSpec(serialized, key, lib).value| == Base64.EncodedLen(|lib.deflate(signed).value|)
  {
    if serialized.Ok? {
      if key.None? {
        Codec.CompressedShape(serialized.value, lib);
      } else if Signed(serialized.value, key.value, lib).Ok? {
        Codec.CompressedShape(Signed(serialized.value, key.value, lib).value, lib);
      }
    }
  }

  /** Without a key, decoding the output gives back the serialized text,
      provided inflating undoes deflating on it; with verification off a
      non-empty text then goes straight to parsing. */
  lemma RoundTrip(xml: Bytes, lib: Xmlsec.Lib, f: Foreign)
    requires lib.deflate(xml).Ok? ==> lib.inflate(lib.deflate(xml).value) == Xmlsec.Finished(xml)
    requires EncodeSpec(Ok(xml), None, lib).Ok?
    ensures Codec.Inflated(EncodeSpec(Ok(xml), None, lib).value, lib) == Ok(xml)
    ensures |xml| > 0 ==> Decoded(EncodeSpec(Ok(xml), None, lib).value, false, lib, f) == Parsed(xml, lib, f)
    ensures |xml| == 0 ==> Decoded(EncodeSpec(Ok(xml), None, lib).value, false, lib, f) == Err(EmptyRequest)
  {
    Codec.RoundTrip(xml, lib);
  }

  /** One to three characters appended to an encoded request (no line
      breaks) do not change the result: the request decodes as before. */
  lemma DanglingIgnored(xml: Bytes, d: Bytes, verify: bool, lib: Xmlsec.Lib, f: Foreign)
    requires lib.deflate(xml).Ok? ==> lib.inflate(lib.deflate(xml).value) == Xmlsec.Finished(xml)
    requires EncodeSpec(Ok(xml), None, lib).Ok?
    requires 1 <= |d| <= 3 && forall i :: 0 <= i < |d| ==> d[i] != 10 && d[i] != 13
    ensures Decoded(EncodeSpec(Ok(xml), None, lib).value + d, verify, lib, f) ==
            Decoded(EncodeSpec(Ok(xml), None, lib).value, verify, lib, f)
  {
    Codec.RoundTrip(xml, lib);
    Codec.DanglingIgnored(lib.deflate(xml).value, d, lib);
  }

  // ----- Finding: dropped signature errors -----

  /** A library in which only adding the reference fails. */
  function ReferenceFails(): Xmlsec.Lib {
    Xmlsec.Lib(x => Ok(Xmlsec.Doc(0)), d => Ok(Node.Element("", None, [], [], [])),
      map[Xmlsec.AddReference := Error("no reference")],
      (d, k) => [1], x => Ok(x), x => Xmlsec.Finished(x), None, x => None)
  }

  /** As written, a signature without its reference is signed and dumped as
      if nothing had gone wrong. */
  lemma DroppedErrorAsWritten(xml: Bytes, key: Xmlsec.Key)
    ensures SignedAsWritten(xml, key, ReferenceFails()) == Codec.Returned(Ok([1]))
    ensures Signed(xml, key, ReferenceFails()) == Err(Error("no reference"))
  {
    SignFaultOrder(ReferenceFails());
  }

  /** As written, a failed creation is not reported where it happens: the
      code goes on to call methods on the signature that was not created.
      Checked where it is made, the creation error is what signing returns. */
  lemma CreationErrorLostAsWritten(xml: Bytes, key: Xmlsec.Key, lib: Xmlsec.Lib)
    requires lib.parse(xml).Ok? && lib.documentElement(lib.parse(xml).value).Ok?
    requires Xmlsec.NewSignature in lib.fails
    ensures SignedAsWritten(xml, key, lib) == Codec.CallsOnUncreated
    ensures Signed(xml, key, lib) == Err(lib.fails[Xmlsec.NewSignature])
  {
    SignFaultOrder(lib);
  }

  /** With the check where the call is made, a failed creation is reported
      as such, whatever the later calls would do: a library that differs in
      them gives the same outcome. */
  lemma CreationErrorReported(xml: Bytes, key: Xmlsec.Key, lib: Xmlsec.Lib, other: Xmlsec.Lib)
    requires lib.parse(xml).Ok? && lib.documentElement(lib.parse(xml).value).Ok?
    requires Xmlsec.NewSignature in lib.fails
    requires other.parse == lib.parse && other.documentElement == lib.documentElement
    requires Xmlsec.NewSignature in other.fails && other.fails[Xmlsec.NewSignature] == lib.fails[Xmlsec.NewSignature]
    ensures Signed(xml, key, lib) == Err(lib.fails[Xmlsec.NewSignature])
    ensures Signed(xml, key, other) == Signed(xml, key, lib)
  {
    SignFaultOrder(lib);
    SignFaultOrder(other);
  }

  /** With each error checked, signing succeeds only when every call does,
      and otherwise reports the first failure; the two versions agree when
      all calls but possibly the dropped ones succeed. */
  lemma SignedChecksEveryCall(xml: Bytes, key: Xmlsec.Key, lib: Xmlsec.Lib)
    ensures Signed(xml, key, lib).Ok? <==>
      lib.parse(xml).Ok? && lib.documentElement(lib.parse(xml).value).Ok? &&
      forall j :: 0 <= j < |RequestSignSteps| ==> RequestSignSteps[j] !in lib.fails
    ensures (Xmlsec.AddReference !in lib.fails && Xmlsec.AddTransform !in lib.fails &&
             Xmlsec.AddKeyValue !in lib.fails && Xmlsec.NewSignature !in lib.fails) ==>
      SignedAsWritten(xml, key, lib) == Codec.Returned(Signed(xml, key, lib))
  {
    SignFaultOrder(lib);
    Xmlsec.FirstFaultNone(lib, RequestSignSteps);
  }

  // ----- The element -----

  /** The attributes after lines 276 to 278, on top of those of the request element. */
  function AuthnRequestAttrs(base: seq<Attr>, ar: AuthnRequest): seq<Attr> {
    SetAttr(SetAttr(SetAttr(base, "ProviderName", ar.providerName),
                    "ProtocolBinding", Binding.String(ar.protocolBinding)),
            "AssertionConsumerServiceURL", ar.assertionConsumerServiceURL)
  }

  /** The element of an optional part, or nothing when the part is absent. */
  function OptionalChild<T>(d: Document, part: Option<T>, make: (Document, T) -> Result<Node>): Result<seq<Node>> {
    match part
    case None => Ok([])
    case Some(p) =>
      match make(d, p)
      case Err(e) => Err(e)
      case Ok(x) => Ok([x])
  }

  /** The AuthnRequest element made from the request element `n`, with
      `extra` after its children. */
  function AuthnRequestNode(n: Xmlsec.ElementNode, ar: AuthnRequest, extra: seq<Node>): Node {
    Node.Element("AuthnRequest", Some(Namespace(SAMLP.prefix, SAMLP.uri)),
      n.nsDecls + [Namespace(SAML.prefix, SAML.uri)] + [Namespace(SAMLP.prefix, SAMLP.uri)],
      AuthnRequestAttrs(n.attrs, ar), n.children + extra)
  }

  /** What MakeXMLNode builds, or the first error met. */
  function AuthnRequestXML(d: Document, ar: AuthnRequest, f: Foreign): Result<Node> {
    match f.requestXML(d, ar.request)
    case Err(e) => Err(e)
    case Ok(n) =>
      match OptionalChild(d, ar.nameIDPolicy, f.nameIDPolicyXML)
      case Err(e) => Err(e)
      case Ok(nip) =>
        match OptionalChild(d, ar.requestedAuthnContext, f.requestedAuthnContextXML)
        case Err(e) => Err(e)
        case Ok(rac) => Ok(AuthnRequestNode(n, ar, nip + rac))
  }

  /** Lines 262 to 297. */
  method MakeXMLNode(d: Document, ar: AuthnRequest, f: Foreign) returns (r: Result<Element>)
    ensures r.Err? ==> AuthnRequestXML(d, ar, f) == Err(r.error)
    ensures r.Ok? ==> fresh(r.value) && AuthnRequestXML(d, ar, f) == Ok(r.value.Value())
  {
    var oarxml := f.requestXML(d, ar.request);
    if oarxml.Err? {
      return Err(oarxml.error);
    }
    var n := oarxml.value;
    var arxml := new Element.FromValue(n);
    SetRequestFields(arxml, ar);
    assert arxml.Value() == AuthnRequestNode(n, ar, []);
    ghost var nip: seq<Node> := [];
    if ar.nameIDPolicy.Some? {
      var nipxml := f.nameIDPolicyXML(d, ar.nameIDPolicy.value);
      if nipxml.Err? {
        return Err(nipxml.error);
      }
      arxml.AddChild(nipxml.value);
      nip := [nipxml.value];
    }
    assert arxml.Value() == AuthnRequestNode(n, ar, nip);
    ghost var rac: seq<Node> := [];
    if ar.requestedAuthnContext.Some? {
      var racxml := f.requestedAuthnContextXML(d, ar.requestedAuthnContext.value);
      if racxml.Err? {
        return Err(racxml.error);
      }
      arxml.AddChild(racxml.value);
      rac := [racxml.value];
    }
    assert arxml.Value() == AuthnRequestNode(n, ar, nip + rac);
    return Ok(arxml);
  }

  /** Lines 272 to 278: the name, the two namespaces and the three attributes. */
  method SetRequestFields(arxml: Element, ar: AuthnRequest)
    modifies arxml
    ensures arxml.Value() == Node.Element("AuthnRequest", Some(Namespace(SAMLP.prefix, SAMLP.uri)),
      old(arxml.nsDecls) + [Namespace(SAML.prefix, SAML.uri)] + [Namespace(SAMLP.prefix, SAMLP.uri)],
      AuthnRequestAttrs(old(arxml.attrs), ar), old(arxml.children))
  {
    arxml.SetNodeName("AuthnRequest");
    arxml.SetNamespace(SAML.uri, SAML.prefix, false);
    arxml.SetNamespace(SAMLP.uri, SAMLP.prefix, true);
    arxml.SetAttribute("ProviderName", ar.providerName);
    arxml.SetAttribute("ProtocolBinding", Binding.String(ar.protocolBinding));
    arxml.SetAttribute("AssertionConsumerServiceURL", ar.assertionConsumerServiceURL);
  }

  /** The element is AuthnRequest in the samlp namespace; ProviderName,
      ProtocolBinding and AssertionConsumerServiceURL are always set; after
      the request's own children come the NameIDPolicy element, then the
      RequestedAuthnContext element, each exactly when the part is present. */
  lemma AuthnRequestShape(d: Document, ar: AuthnRequest, f: Foreign)
    ensures AuthnRequestXML(d, ar, f).Ok? ==>
      var x := AuthnRequestXML(d, ar, f).value;
      var base := f.requestXML(d, ar.request).value;
      x.Element? && x.name == "AuthnRequest" && x.ns == Some(Namespace("samlp", SAMLP.uri)) &&
      GetAttr(x.attrs, "ProviderName") == Some(ar.providerName) &&
      GetAttr(x.attrs, "ProtocolBinding") == Some(ar.protocolBinding) &&
      GetAttr(x.attrs, "AssertionConsumerServiceURL") == Some(ar.assertionConsumerServiceURL) &&
      |x.children| == |base.children| + (if ar.nameIDPolicy.Some? then 1 else 0) +
                      (if ar.requestedAuthnContext.Some? then 1 else 0) &&
      x.children[..|base.children|] == base.children &&
      (ar.nameIDPolicy.Some? ==> x.children[|base.children|] == f.nameIDPolicyXML(d, ar.nameIDPolicy.value).value) &&
      (ar.requestedAuthnContext.Some? ==>
         x.children[|x.children| - 1] == f.requestedAuthnContextXML(d, ar.requestedAuthnContext.value).value)
  {
    if AuthnRequestXML(d, ar, f).Ok? {
      var base := f.requestXML(d, ar.request).value;
      var a1 := SetAttr(base.attrs, "ProviderName", ar.providerName);
      var a2 := SetAttr(a1, "ProtocolBinding", Binding.String(ar.protocolBinding));
      SetAttrGet(base.attrs, "ProviderName", ar.providerName, "ProtocolBinding");
      SetAttrGet(a1, "ProtocolBinding", Binding.String(ar.protocolBinding), "ProviderName");
      SetAttrGet(a2, "AssertionConsumerServiceURL", ar.assertionConsumerServiceURL, "ProviderName");
      SetAttrGet(a2, "AssertionConsumerServiceURL", ar.assertionConsumerServiceURL, "ProtocolBinding");
    }
  }
}
