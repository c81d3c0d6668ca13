# go-saml in Dafny

This project models the core of lestrrat/go-saml, a Go library for SAML 2.0:

- **Message types.** These are the value types of `interface.go` and their small constructors and appenders (`assertion.go`, `condition.go`). They include the name-identifier formats (`nameid`), the binding identifiers (`binding`) and the predefined XML namespaces (`ns`).
- **MarshalXML methods.** The methods of `xml.go` write an Assertion and its parts as a stream of `encoding/xml` tokens.
- **libxml2 builders.** The `MakeXMLNode` builders (`message.go`, `response.go`, `authnreq.go`, `metadata.go`, `md/metadata.go`, `nameid/nameid.go`) build libxml2 DOM elements for protocol messages and for IdP metadata.
- **Signing template.** `signature.go` holds the XML Signature template of `GenericSign`, the whitelist of its algorithms and the injection of the template into a node.
- **Transport encoding.** `encode.go` and `AuthnRequest.Encode` serialize, optionally sign with xmlsec, deflate and Base64-encode a message. `decodeAuthnRequest` undoes these steps, optionally verifies and parses.

How the model is organised:

- **Modules.** There is one Dafny module per Go file.
- **Imperative code stays imperative.** Code that builds a DOM element step by step stays imperative. `Dom.Element` is a class whose methods (`SetAttribute`, `SetNodeName`, `SetNamespace`, `AddChild`, `AppendText`) update its fields. Each builder is a method proved against a function that gives the element it builds, or the first error it meets. Pointer receivers that update a value in place (`*Conditions`, `*Assertion`, `*Message`, `*AuthnRequest`) are classes too.
- **Token streams.** Token streams go through an `Encoder` class. Like Go's encoder, it keeps the stack of open tags and refuses an end tag that does not match.
- **Values and lemmas.** Everything else is a datatype or a function. The properties are lemmas about those functions.

Foreign code is not modelled. It enters as parameters:

- `Xmlsec.Lib` stands for parsing, dumping, the dsig calls, DEFLATE and verification.
- `Dom.Document.refused` lists the element names whose creation fails, with the error each gives.
- Further records stand for the UUID generator, `time.Now`, the builders of types whose code is not part of this model, and `doc.Dump(true)`.

A law the source relies on is stated as a `requires` of the lemma that needs it, never assumed globally. One example is "inflating what deflate produced finishes with the original bytes".

The model keeps these behaviours of the code:

- `DecodeAuthnRequest` never verifies before it has refused an empty payload.
- In `DecodeAuthnRequest`, one to three characters after the encoded DEFLATE stream do not change the result.
- A `time.Time` field that was never set holds Go's zero time, which formats as 0001-01-01T00:00:00.
- `NameIDFormat.MakeXMLNode` always writes the transient format, whatever format it is given.
- `NewGenericSign` accepts DSA-SHA1, which `Sign` then refuses.

## Model

| member | source | states |
|---|---|---|
| Binding.String | binding/binding.go:10-12 | the binding URI is returned character for character |
| Binding.ConstantsShape | binding/binding.go:5-8 | a fact about the two binding constants, not about an operation: HTTP-POST and HTTP-Redirect are distinct, both in the SAML 2.0 bindings namespace, and both known |
| Binding.ProtocolIsOpen | binding/binding.go:3 | a fact about the `Protocol` type, not about an operation: it is an open string type, so some Protocol is neither named binding |
| Ns.New | ns/ns.go:19-21 | the namespace carries exactly the given prefix and URI |
| Ns.XMLAttr | ns/ns.go:23-28 | the declaration is the unqualified attribute `xmlns:` + prefix whose value is the URI |
| Ns.AddPrefix | ns/ns.go:34-37 | the local part becomes prefix, colon, old local part; the namespace URI is kept |
| Ns.XMLName | ns/ns.go:30-32 | a prefixed name with an empty namespace URI |
| Ns.AddPrefixNotIdempotent | ns/ns.go:34-37 | prefixing twice differs from prefixing once; each application adds the prefix and a colon |
| Ns.AddPrefixInjective | ns/ns.go:34-37 | equal prefixed names come from equal names |
| Ns.PredefinedDistinct | ns/ns.go:10-17 | a fact about the namespace constants, not about an operation: the six predefined namespaces have pairwise distinct prefixes and URIs |
| Saml.EnumerationsDistinct | interface.go:20-59 | a fact about the constants, not about an operation: the five algorithm identifiers are pairwise distinct, and so are the five unsupported-algorithm errors |
| TimeFmt.AddMinutes | condition.go:8 | adding m minutes moves the instant by exactly 60·m seconds |
| TimeFmt.FormatLayout | interface.go:11-12 | `Format` writes the layout 2006-01-02T15:04:05: zero-padded year, month, day, hour, minute, second with the fixed separators, each field reading back as the civil field |
| TimeFmt.EpochFormat | interface.go:12 | instant 0 formats as 1970-01-01T00:00:00 |
| TimeFmt.ZeroFormat | interface.go:12 | the zero time.Time formats as 0001-01-01T00:00:00 |
| TimeFmt.SplitYearAt | interface.go:12 | the calendar split used by `Format` finds the one year and day of the year lying a given number of days after a new year, counting leap days |
| TimeFmt.DaysBeforeStep | interface.go:12 | the closed-form day count of the proleptic Gregorian calendar grows by each year's length |
| Base.Wrap | authnreq.go:198 | a wrapped error's message is the prefix followed by the original message |
| Base.NatToStringRoundTrip | metadata.go:125 | the decimal digits of n read back as n |
| Base.IntToString | metadata.go:125 | the decimal text starts with '-' exactly for negative numbers |
| Base64.Encode | encode.go:120-121 | the encoded text is EncodedLen(n) long and holds no line break |
| Base64.RoundTrip | encode.go:120-121 | decoding the encoded bytes gives them back |
| Base64.EncodedLength | encode.go:120 | the encoded length is 4·⌈n/3⌉, a multiple of four |
| Base64.BreaksIgnored | authnreq.go:147 | line breaks (LF or CR) anywhere in the input do not change what the decoder yields |
| Base64.StreamAgrees | authnreq.go:147 | the stream decoder ends cleanly exactly when the whole text is valid Base64, and then hands out the same bytes as DecodeString |
| Base64.EncodedThenDangling | authnreq.go:147 | encoded bytes followed by one to three stray characters: the stream hands out all the bytes, then reports "unexpected EOF" |
| Dom.GetAttr | message.go:28-36 | an attribute is found exactly when its key is present |
| Dom.SetAttrGet | message.go:28-36 | after SetAttribute the key reads the new value, other keys read what they did, and the key set gains the key |
| Dom.SetAttrExisting | message.go:28-36 | setting an existing key overwrites it in place: neither the length nor the key set changes |
| Dom.PrefixOfQualified | message.go:39 | the prefix of `p:local` is `p` |
| Dom.FirstChild | authnreq.go:251 | a found child is an element child of that name |
| Dom.Element.Create | message.go:21 | a created element has the name and no namespace, attributes or children |
| Dom.Element.SetAttribute | message.go:28 | the attribute list becomes SetAttr of the old one; nothing else changes |
| Dom.Element.SetNodeName | response.go:30 | only the name changes |
| Dom.Element.SetNamespace | response.go:31-32 | the declaration is appended, and it becomes the element's namespace only when activated |
| Dom.Element.AddChild | message.go:44 | the child is appended after the existing children |
| Dom.Element.AppendText | message.go:43 | a text node is appended after the existing children |
| Dom.CreateElement | message.go:21-24 | fails exactly when the document refuses the name, with its error; otherwise a fresh empty element of that name |
| Dom.CreateElementNS | message.go:39-42 | as CreateElement, and the element is in the namespace of the name's prefix, which it also declares |
| Tokens.Encoder.EncodeToken | xml.go:19-21 | a token is written exactly when the open-tag stack admits it: a start tag is pushed, a matching end tag is popped, a mismatch writes nothing and fails, with Go's message for a mismatched local name or namespace |
| Tokens.Encoder.CloseMark | xml.go:51 | after a nested MarshalXML the call fails exactly when it left tags open |
| Xmlsec.Fault | encode.go:67-91 | a signature call fails exactly when the library lists it as failing |
| Xmlsec.Signature.Add | encode.go:67-89 | each call is recorded in order and returns the library's error for it |
| Condition.WithNotBefore | condition.go:5-9 | the window becomes [t, t + 660 s), non-empty; audiences are untouched |
| Condition.WithAudience | condition.go:11-13 | the audience is appended after the earlier ones; the window is untouched |
| Condition.NotBeforeLastWins | condition.go:5-9 | the last SetNotBefore wins, and repeating it changes nothing |
| Condition.UpdatesCommute | condition.go:5-13 | setting the window and adding an audience commute |
| Condition.AudiencesInOrder | condition.go:11-13 | audiences appear in the order they were added |
| Condition.Conditions.constructor | interface.go:142-147 | the zero Conditions: both instants are the zero time.Time, formatting as 0001-01-01T00:00:00, and there is no audience |
| Condition.Conditions.SetNotBefore | condition.go:5-9 | the new state is WithNotBefore of the old one |
| Condition.Conditions.AddAudience | condition.go:11-13 | the new state is WithAudience of the old one |
| Builders.AuthenticationMethodString | assertion.go:3-5 | the method is returned character for character |
| Builders.ConfirmationMethodString | assertion.go:7-9 | the method is returned character for character |
| Builders.NameIDFormatString | assertion.go:11-13 | the format is returned character for character |
| Builders.ConditionsRef.constructor | interface.go:142-147 | a reference to the given Conditions |
| Builders.ConditionsRef.AddAudienceRestriction | assertion.go:15-18 | the restriction is appended last, nothing else changes, and the result is nil |
| Builders.AssertionRef.constructor | interface.go:162-173 | a reference to the given Assertion |
| Builders.AssertionRef.AddAttribute | assertion.go:20-23 | the attribute is appended to the attribute statement, nothing else changes, and the result is nil |
| Builders.AppendedRestrictionWritten | assertion.go:15-18 | an appended restriction is written after the earlier ones inside Conditions, its audiences following theirs |
| Builders.AddedAttributeWritable | assertion.go:20-23 | after AddAttribute the Assertion marshals to a balanced stream exactly when it did before and the new attribute has a Name |
| Builders.NewNameIDPolicy | assertion.go:25-30 | the policy has the given Format and AllowCreate and no SPNameQualifier |
| Builders.NewRequestedAuthnContext | assertion.go:32-37 | the context has the given comparison and class reference |
| Builders.NewAuthnRequest | assertion.go:39-43 | the zero request, field by field: every string empty, ForceAuthn and IsPassive false, both indices 0, no policy or context, and the zero time.Time as instant (formatting as 0001-01-01T00:00:00) |
| NameId.String | nameid/nameid.go:7-9 | the URN is returned character for character |
| NameId.FormatNode | nameid/nameid.go:11-19 | an md:NameIDFormat element with no namespace or attributes whose text is the transient URN |
| NameId.MakeXMLNode | nameid/nameid.go:11-19 | fails exactly when the document refuses md:NameIDFormat, with its error; otherwise the element holds the transient URN whatever format it is given |
| XmlMarshal.EncodeElement | xml.go:181-186 | a nested element is written as its marshaller writes it; it succeeds and leaves the stack as it was exactly when that marshaller closes all it opens |
| XmlMarshal.MarshalAttributeValue | xml.go:10-23 | writes the saml:AttributeValue element with xsi:type and the value as text, and returns nil |
| XmlMarshal.MarshalAttribute | xml.go:25-55 | fails with "missing .Name" and writes nothing when Name is empty; otherwise writes the Attribute with its values |
| XmlMarshal.MarshalAuthnStatement | xml.go:57-74 | writes the statement with AuthnInstant and SessionIndex around its AuthnContext |
| XmlMarshal.MarshalAudienceRestriction | xml.go:76-86 | writes the restriction with one Audience element per audience |
| XmlMarshal.MarshalConditions | xml.go:88-107 | writes Conditions with its two instants and every restriction |
| XmlMarshal.MarshalSubjectConfirmation | xml.go:109-130 | writes the confirmation, defaulting Method to bearer, around an empty SubjectConfirmationData |
| XmlMarshal.MarshalNameID | xml.go:132-141 | writes the NameID with the transient Format and its text |
| XmlMarshal.MarshalSubject | xml.go:143-150 | writes Subject around NameID and SubjectConfirmation |
| XmlMarshal.MarshalSignature | xml.go:152-158 | writes an empty ds:Signature declaring the signature namespace |
| XmlMarshal.EncodeAttributeStatement | xml.go:186 | the default encoding of the statement: its attributes in order, failing at the first one without a Name and leaving the statement open |
| XmlMarshal.MarshalAssertion | xml.go:160-190 | writes the Assertion and its six children and always returns nil; tags an unnamed attribute left open stay open |
| XmlProps.AttributeValueElement | xml.go:10-23 | one saml:AttributeValue element whose only text is the value |
| XmlProps.ValuesStream | xml.go:50-52 | the values are written in slice order, each in its own element |
| XmlProps.AttributeElement | xml.go:25-55 | a named Attribute is one element whose children are its values, in order |
| XmlProps.MissingNameWritesNothing | xml.go:27-29 | nothing is written exactly when Name is empty |
| XmlProps.AttributeStartOrder | xml.go:30-48 | the start tag carries the caller's attributes, the extra Attrs, Name, then FriendlyName when non-empty |
| XmlProps.AuthnContextElement | xml.go:71 | the AuthnContext is one element |
| XmlProps.AuthnStatementElement | xml.go:57-74 | the statement is one saml:AuthnStatement element |
| XmlProps.AudienceStream | xml.go:79-83 | audiences are written in slice order, each in its own saml:Audience element |
| XmlProps.AudienceRestrictionElement | xml.go:76-86 | the restriction is one element whose children are its audiences, in order |
| XmlProps.RestrictionsBalanced | xml.go:102-104 | the restrictions together are balanced |
| XmlProps.ConditionsElement | xml.go:88-107 | Conditions is one saml:Conditions element |
| XmlProps.SubjectConfirmationElement | xml.go:109-130 | one element holding only SubjectConfirmationData, with Method defaulting to bearer |
| XmlProps.NameIDElement | xml.go:132-141 | under a named start tag, one element with the transient Format whose text is the NameID |
| XmlProps.SubjectElement | xml.go:143-150 | Subject holds NameID, then SubjectConfirmation |
| XmlProps.SignatureElement | xml.go:152-158 | ds:Signature is one empty element |
| XmlProps.AttributesRunBalanced | xml.go:186 | the attributes written so far are balanced, whether or not one failed |
| XmlProps.AttributesRunOk | xml.go:186 | the attribute statement completes exactly when every Attribute has a Name |
| XmlProps.AttributeStatementElement | xml.go:186 | with every Attribute named, the statement is one element |
| XmlProps.AssertionChildren | xml.go:160-190 | with every Attribute named, the Assertion is one element whose children are Issuer, Signature, Subject, Conditions, AuthnStatement, AttributeStatement in that order |
| XmlProps.UnnamedLeavesOpen | xml.go:160-190 | with an unnamed Attribute, the Assertion and its AttributeStatement are left open |
| XmlProps.AssertionBalanced | xml.go:160-190 | the Assertion's stream is balanced exactly when every Attribute has a Name |
| XmlProps.WrittenBalanced | xml.go:10-190 | every marshaller that cannot fail writes a balanced stream |
| XmlProps.AssertionStartOrder | xml.go:161-179 | the start tag adds the saml, xs and xsi declarations, then ID, Version and the formatted IssueInstant |
| Msg.Initialized | message.go:13-18 | a name-based ID from the DNS namespace and the package URL, version 2.0, the current instant; the other fields are kept |
| Msg.SameId | message.go:14 | the ID does not depend on the message or the time |
| Msg.InitializeAgain | message.go:13-18 | initialising twice is initialising once, at the later time |
| Msg.MessageRef.constructor | message.go:13 | a reference to the given Message |
| Msg.MessageRef.Initialize | message.go:13-18 | the message becomes Initialized of the old one, and the receiver is returned |
| Msg.MakeXMLNode | message.go:20-49 | the element built is MessageXML, or its error |
| Msg.IssuerElement | message.go:39-43 | fails exactly when saml:Issuer is refused; otherwise a saml:Issuer element in the SAML namespace holding the issuer |
| Msg.IssuerQName | message.go:39 | the Issuer name is saml:Issuer, with prefix saml |
| Msg.SetMessageAttributes | message.go:28-36 | the attributes become exactly the message attributes; nothing else changes |
| Msg.FixedAttributes | message.go:28-30 | ID, Version and IssueInstant are always set |
| Msg.OptionalAttributes | message.go:31-36 | Destination and Consent are set exactly when non-empty |
| Msg.MessageAttributes | message.go:28-36 | the message element carries ID, Version and the formatted IssueInstant always, Destination and Consent exactly when non-empty |
| Msg.MessageShape | message.go:20-49 | succeeds exactly when Message and saml:Issuer are accepted; the element's only child is saml:Issuer in the SAML namespace holding the issuer |
| Resp.ResponseRef.constructor | response.go:11 | a reference to the given Response |
| Resp.NewResponse | response.go:10-14 | a fresh zero Response whose Message was initialised |
| Resp.NewResponseFields | response.go:10-14 | a new response is version 2.0 with the generated ID and the given instant, and has no InResponseTo |
| Resp.MakeXMLNode | response.go:20-61 | the element built is ResponseXML, or its error |
| Resp.SetInResponseTo | response.go:34-36 | InResponseTo is added exactly when non-empty; nothing else changes |
| Resp.MessageAttrsKeys | response.go:34-36 | no message attribute is InResponseTo, so the attribute is new when set |
| Resp.ResponseShape | response.go:20-61 | a message error is returned unchanged; a built element is Response in the samlp namespace with children Issuer, then Status holding one StatusCode whose Value is the status string, then the Assertion when present; without an Assertion it is built whenever the message, Status and StatusCode elements are |
| Resp.InResponseToPresent | response.go:34-36 | InResponseTo is present exactly when non-empty, with that value |
| Resp.StatusElement | response.go:37-46 | fails exactly when samlp:Status or samlp:StatusCode is refused, the Status error first; otherwise Status holds one StatusCode whose Value is the code |
| Resp.Encode | response.go:63-70 | corrected (see Findings): the transport encoding without compression: a Serialize error as is, the text itself without a key, the signed text with one |
| Codec.SignSteps | encode.go:66-89 | the signature calls in order: create, reference, transform, key value, X.509 data exactly for an X.509 key, sign |
| Codec.Encode | encode.go:44-127 | corrected (see Findings): encode returns EncodeSpec: serialize, sign when a key is given, then deflate and Base64 when compressing |
| Codec.Sign | encode.go:53-97 | corrected (see Findings): signing returns Signed: parse, root, every signature call checked where it is made, dump |
| Codec.SignFaultOrder | encode.go:66-91 | the first failing signature call decides the error, in call order |
| Codec.SerializeErrorFirst | encode.go:45-48 | a Serialize error is returned as is |
| Codec.NoKeyNoSigning | encode.go:53-101 | without a key only the compressor matters, and without compression the text passes through |
| Codec.UncompressedVerbatim | encode.go:99-101 | without compression the signed text is returned verbatim |
| Codec.FirstFailingStepReported | encode.go:66-91 | the error of the first failing call is the error returned |
| Codec.SignedOk | encode.go:53-97 | signing succeeds exactly when parsing, the root and every call succeed, and then yields the dump |
| Codec.CompressedShape | encode.go:103-126 | compressed output exists exactly when deflating succeeds; it is 4·⌈n/3⌉ long and decodes back to the deflated bytes |
| Codec.RoundTrip | encode.go:44-127 | without a key, Base64-decoding and inflating the output gives back the serialized text when inflating the deflated bytes finishes with them |
| Codec.InflatedWhole | authnreq.go:147-162 | on text that is valid Base64 as a whole, the reader inflates the decoded bytes; an inflater that runs short reports "unexpected EOF" |
| Codec.DanglingIgnored | authnreq.go:147-162 | one to three characters after an encoded DEFLATE stream do not change the result when the inflater finishes; when it runs short, "unexpected EOF" is reported |
| Codec.CreationErrorLostAsWritten | encode.go:66-96 | as written, a failed NewSignature is not reported where it is made: the code goes on to call methods on the signature that was not created, while checked where it is made the creation error is returned |
| Codec.CreationErrorReported | encode.go:66-69 | checked where it is made, a failed NewSignature is reported as such |
| Codec.AgreeWhenCreated | encode.go:66-96 | when NewSignature succeeds, the written signing returns what the corrected signing returns |
| Signing.NewGenericSign | signature.go:36-84 | a signer keeps the four given algorithms and renders them into its template |
| Signing.Whitelist | signature.go:37-59 | construction succeeds exactly for RSA-SHA1 or DSA-SHA1, enveloped signature, SHA-1 and C14N 1.0 |
| Signing.EarliestUnsupportedReported | signature.go:37-59 | the first unsupported argument, in the order signature method, transform, digest, canonicalisation, decides the error |
| Signing.ExtractTemplate | signature.go:12-28 | reading the four Algorithm attributes back out of the rendered template gives the four algorithms |
| Signing.ReferenceCoversDocument | signature.go:15-16 | the Reference after SignatureMethod has the empty URI, covering the whole document |
| Signing.TemplateCarriesAlgorithms | signature.go:61-83 | a constructed signer's template names exactly its own algorithms |
| Signing.Sign | signature.go:87-121 | the children and how the call ends are SignOutcome: the parsed template is appended exactly when context, key and parsing succeed; a key that is not an RSA private key panics at the type assertion before it is loaded |
| Signing.InjectionOutcome | signature.go:87-121 | the node gains one child, the parsed template, exactly when the context is created, the method is RSA-SHA1, the key is an RSA private key that loads and the template parses; the call panics exactly when RSA-SHA1 meets a key that is not an RSA private key |
| Signing.DsaAcceptedButNotSigned | signature.go:98-106 | DSA-SHA1 passes construction yet Sign refuses it as an unsupported key type without touching the node, whatever the key holds |
| AuthnReq.AuthnRequestRef.constructor | interface.go:129-140 | a reference to the given AuthnRequest |
| AuthnReq.AuthnRequestRef.PopulateFromXML | authnreq.go:227-260 | the request and error become Populated of the old request |
| AuthnReq.NewAuthnRequest | authnreq.go:24-28 | a fresh zero request whose Message was initialised |
| AuthnReq.NewAuthnRequestFields | authnreq.go:24-28 | the new request is version 2.0 with the generated ID and the given instant |
| AuthnReq.PopulatedBinding | authnreq.go:241-250 | a populated request has one of the two known bindings, and any other binding is refused as invalid |
| AuthnReq.PopulatedNameIDPolicy | authnreq.go:251-257 | the policy is touched only when a NameIDPolicy child exists, and is then the populated policy |
| AuthnReq.PopulateRequestFailure | authnreq.go:228-230 | a failure of the embedded Request's population is returned as is, with the request unchanged |
| AuthnReq.ConstructAuthnRequest | authnreq.go:214-225 | the request built is Constructed, or its wrapped error |
| AuthnReq.ParseAuthnRequest | authnreq.go:194-202 | the request built is Parsed, or its wrapped error |
| AuthnReq.PopulateFailureNoRequest | authnreq.go:220-224 | a failed population never yields a request |
| AuthnReq.DecodeAuthnRequest | authnreq.go:146-188 | the request built is Decoded: a flate reader over a Base64 stream read to its end, refuse empty, verify when asked, parse |
| AuthnReq.EmptyRequestRefused | authnreq.go:164-169 | an empty payload is refused before verifying or parsing |
| AuthnReq.VerifyBeforeParse | authnreq.go:172-181 | with verification, a failed verifier or verification ends decoding before parsing |
| AuthnReq.NoVerifyParsesDirectly | authnreq.go:172-187 | without verification the inflated bytes are parsed and no verifier is consulted |
| AuthnReq.Encode | authnreq.go:55-124 | corrected (see Findings): Encode returns EncodeSpec: serialize, sign when a key is given, deflate, Base64 |
| AuthnReq.Sign | authnreq.go:69-98 | corrected (see Findings): signing returns Signed, each call's error checked where it is made |
| AuthnReq.SignFaultOrder | authnreq.go:82-92 | the first failing call among create, reference, transform, key value, sign decides the error |
| AuthnReq.EncodedLength | authnreq.go:100-123 | the output is always compressed; when it exists it is 4·⌈n/3⌉ long for n deflated bytes |
| AuthnReq.RoundTrip | authnreq.go:55-188 | without a key, decoding the output gives back the serialized text, parses it when non-empty, and refuses it when empty |
| AuthnReq.DanglingIgnored | authnreq.go:146-162 | one to three characters appended to an encoded request do not change the result: it decodes as before |
| AuthnReq.DroppedErrorAsWritten | authnreq.go:83-85 | as written, a signature whose reference failed is still signed and dumped |
| AuthnReq.CreationErrorLostAsWritten | authnreq.go:82-97 | as written, a failed NewSignature is not reported where it is made: the code goes on to call methods on the signature that was not created, while checked where it is made the creation error is returned |
| AuthnReq.CreationErrorReported | authnreq.go:82 | corrected, a failed NewSignature is what signing returns, whatever the later calls would do |
| AuthnReq.SignedChecksEveryCall | authnreq.go:82-92 | corrected, signing succeeds exactly when every call does |
| AuthnReq.MakeXMLNode | authnreq.go:262-297 | the element built is AuthnRequestXML, or the first error |
| AuthnReq.SetRequestFields | authnreq.go:272-278 | renamed AuthnRequest in samlp, declaring saml and samlp, with ProviderName, ProtocolBinding and AssertionConsumerServiceURL set |
| AuthnReq.AuthnRequestShape | authnreq.go:262-297 | the element is samlp AuthnRequest carrying the three attributes, then NameIDPolicy and RequestedAuthnContext when present, in that order |
| Metadata.EndpointAttrsPresent | metadata.go:51-59 | Binding, Location and ResponseLocation are each present exactly when non-empty, with their values |
| Metadata.EndpointMakeXMLNode | metadata.go:45-62 | fails exactly when md:Name is refused; otherwise the endpoint node |
| Metadata.EndpointNodes | metadata.go:86-108 | one node per endpoint, in order, each named by the loop's name |
| Metadata.ServicesError | metadata.go:86-108 | a loop fails exactly when it has an endpoint and its element is refused |
| Metadata.AddServices | metadata.go:86-93 | the loop appends every endpoint's node in order, or fails with ServicesError |
| Metadata.AcsMakeXMLNode | metadata.go:115-129 | fails exactly when refused; otherwise the AssertionConsumerService node |
| Metadata.AcsAttrs | metadata.go:123-125 | Binding, Location and index are always set |
| Metadata.IndexRoundTrip | metadata.go:125 | the index attribute reads back as the Index, sign included |
| Metadata.NameIDFormatMakeXMLNode | metadata.go:35-43 | the same node as nameid's format: the transient URN whatever the format |
| Metadata.EntityQName | metadata.go:69 | the root is md:EntityDescriptor with prefix md |
| Metadata.IDPMakeXMLNode | metadata.go:68-113 | the element built is IDPXML, or the first error |
| Metadata.FillIDPSSODescriptor | metadata.go:84-108 | the descriptor gets protocolSupportEnumeration, then the logout services, the format and the sign-on services |
| Metadata.ServiceNames | metadata.go:86-108 | the two loops create md:SingleLogoutService and md:SingleSignOnService |
| Metadata.IDPSucceeds | metadata.go:68-113 | building succeeds exactly when no element it needs is refused |
| Metadata.IDPShape | metadata.go:68-113 | the root is md:EntityDescriptor in the metadata namespace, names the entity by its ID, and has one child, the IDPSSODescriptor, whose protocolSupportEnumeration is the SAML 2.0 protocol URN |
| Metadata.IDPSSOChildren | metadata.go:84-108 | the descriptor's children are the logout endpoints, the format, then the sign-on endpoints, with the fixed protocol URN |
| Metadata.RenamingOnCopies | metadata.go:86-108 | the renaming in the loops happens on copies: the descriptor keeps its endpoints |
| Metadata.MetadataDelegates | metadata.go:28-33 | exactly one entity descriptor is delegated to; none or several give "unimplemented" |
| Metadata.MakeXMLNode | metadata.go:28-33 | the node built is MetadataXML, or its error |
| Metadata.Serialize | metadata.go:15-26 | the text is the dump of the built root, or "" and the error |
| Md.DefaultProtocols | md/metadata.go:55-57 | an empty protocol list stands for the SAML 2.0 protocol URN; a non-empty one is kept |
| Md.JoinProtocols | md/metadata.go:59-65 | the buffer holds the entries separated by single spaces |
| Md.FieldsJoined | md/metadata.go:59-66 | splitting the attribute at its spaces gives back the protocol list |
| Md.KeyDescriptorShape | md/metadata.go:196-213 | a KeyDescriptor holds exactly the key's node and no attributes |
| Md.KeyDescriptorMakeXMLNode | md/metadata.go:196-213 | the element built is KeyDescriptorXML, or the first error |
| Md.TextChildren | md/metadata.go:146-189 | the contact's children exist exactly when no non-empty field's element is refused, and are then one text element per non-empty field, in order |
| Md.AddTextChild | md/metadata.go:146-153 | one optional field: appended when non-empty, error when refused |
| Md.ContactShape | md/metadata.go:136-194 | a contact carries its contactType, then one text element per non-empty field, in field order |
| Md.ContactPersonMakeXMLNode | md/metadata.go:136-194 | the element built is ContactXML, or the first error |
| Md.AddContactChildren | md/metadata.go:146-189 | the five optional children, in order, or the first error |
| Md.KeyChildren | md/metadata.go:68-74 | the key child exactly when there is a key descriptor |
| Md.ContactChildren | md/metadata.go:104-110 | the contact child exactly when there is a contact |
| Md.FillIDPSSODescriptor | md/metadata.go:55-102 | the descriptor becomes IDPSSOXML, or the first error |
| Md.AddEndpointsAndFormat | md/metadata.go:80-102 | the endpoints and the format are appended after the key |
| Md.IDPMakeXMLNode | md/metadata.go:38-114 | the element built is IDPXML, or the first error |
| Md.AddContact | md/metadata.go:104-110 | the contact is appended after the descriptor when there is one |
| Md.IDPSSOAttributes | md/metadata.go:55-78 | protocolSupportEnumeration is the joined list, the SAML 2.0 URN when empty; errorURL is present exactly when non-empty |
| Md.IDPSSOKey | md/metadata.go:68-74 | the descriptor built is the node over the key's children |
| Md.IDPSSOChildren | md/metadata.go:68-102 | children: the key's, every logout endpoint, the format, every sign-on endpoint |
| Md.IDPShape | md/metadata.go:38-114 | the root names the entity by its ID; its first child is the descriptor, the contact second and last when present |
| Md.IDPSucceeds | md/metadata.go:38-114 | building succeeds exactly when no element it needs is refused and the key builds |
| Md.MetadataDelegates | md/metadata.go:27-32 | exactly one entity descriptor is delegated to; none or several give "unimplemented" |
| Md.MakeXMLNode | md/metadata.go:27-32 | the node built is MetadataXML, or its error |
| Md.Serialize | md/metadata.go:14-25 | the text is the dump of the built root, or "" and the error |

## Left out

- I/O and logging are not modelled: `pdebug` tracing, reading from `io.Reader`, and the `sync.Pool` of flate writers, which is shared state with no effect on results.
- Parsing, dumping, the xmlsec calls, DEFLATE and verification are foreign libraries. They enter as `Xmlsec.Lib` oracles. Their laws (inflate undoes deflate) are hypotheses of the lemmas that use them.
- The builders of types whose code is not part of this model enter as oracle fields. These are `Request`, `NameIDPolicy`, `RequestedAuthnContext`, `Assertion`, `Status` and `Key`. The partial changes a failing `Request.PopulateFromXML` makes are not modelled.
- XPath evaluation in PopulateFromXML is reduced to attribute lookup and the first child of a name. Namespace matching is not modelled.
- `Signing.Sign`: `ctx.SignNode` is an oracle for its error only. The digest and signature values it fills in are not modelled.
- The failure of `template.Execute` in `NewGenericSign` cannot happen for the fixed template, so it is not modelled.
- The metadata namespace `ns.Metadata` is used by both metadata files but is not defined in ns/ns.go. The model uses prefix `md` and the SAML V2.0 metadata namespace URI, `urn:oasis:names:tc:SAML:2.0:metadata`.
- `AddChild` copies the child's value at the time of the call, so aliasing is not modelled. Both metadata files attach the IDPSSODescriptor before filling it. The model attaches it after filling, which gives the same final tree.
- Time zones and sub-second precision are not modelled. An instant is whole seconds in UTC, and Go's zero `time.Time` is `TimeFmt.ZeroInstant`, 0001-01-01T00:00:00 UTC.
- The Response, Metadata, IDPDescriptor, Endpoint and ContactPerson types are not part of this model's source files. Their fields are inferred from their use.
- The `Serialize` methods of AuthnRequest and Response delegate to `serialize`, which is not part of this model. The model takes their outcome as a parameter.
- `DecodeAuthnRequestString` and `ParseAuthnRequestString` differ from `DecodeAuthnRequest` and `ParseAuthnRequest` only in their input type. They share those two members.
- These fields of the md IDPDescriptor are not written by the source, so they are not modelled: WantAuthnRequestsSigned, NameIDMappingService, AssertionIDRequestService, AttributeProfile, Attribute, ArtifactResolutionService and ManageNameIDService.
- The accessors `ID`, `Name`, `CacheDuration`, `ValidUntil`, `SingleLogoutServices` and `ProtocolSupportEnumerations` are plain field reads. They have no contract of their own.
- Three places pass a string to `AddPrefix`, which takes an `xml.Name`. message.go:39 passes `"Issuer"`, and the model reads it as `ns.SAML.XMLName("Issuer")`. metadata.go:69 and md/metadata.go:39 pass `"EntityDescriptor"`, and the model reads them as `ns.Metadata.XMLName("EntityDescriptor")` in `Metadata.EntityQName` and in the md root.
- Md.KeyDescriptorMakeXMLNode: a KeyDescriptor whose `Key` is nil makes md/metadata.go:204 panic after the md:KeyDescriptor element was created. The model's key always yields a node or an error, so the nil-Key panic is not modelled.
- AuthnReq.DecodeAuthnRequest: the Base64 stream decoder is modelled as reading its whole input as one chunk. Go's decoder reads in chunks sized by its caller's buffer, so on long input a padded group that ends an inner chunk is accepted there. The model refuses such a group as padding before the end.
- Codec.SignedAsWritten and AuthnReq.SignedAsWritten: after a failed NewSignature, what the calls on the signature that was not created do is go-xmlsec's behaviour, which is not part of this model. The as-written outcome says only that these calls are made.
- Tokens.Encoder.EncodeToken: the written tokens keep every attribute they are given. Go's printer leaves out an attribute whose local name is empty when it writes the text. The marshallers modelled here name every attribute they emit.
- Base64.BreaksIgnored: only LF and CR are modelled as skipped, which is what `StdEncoding` skips. The offset in the corrupt-input error message is not modelled.

## Findings

| source | as written | input that shows it | evidently intended | confidence | as-written member | corrected member |
|---|---|---|---|---|---|---|
| encode.go:66-96 | the error of `dsig.NewSignature` is checked only after `doc.Dump`, so the NewSignature error is not reported where it is made; the calls in between are made on the signature that was not created, and what follows depends on go-xmlsec's methods on a nil receiver | any library in which `dsig.NewSignature` fails | report the NewSignature error where it is made | not executed | Codec.CreationErrorLostAsWritten | Codec.CreationErrorReported |
| authnreq.go:83-85 | the errors of AddReference, AddTransform and AddKeyValue are discarded | a library where only AddReference fails: Encode signs and returns a signature without its reference | return each error where it is made | not executed | AuthnReq.DroppedErrorAsWritten | AuthnReq.SignedChecksEveryCall |
| authnreq.go:82-97 | the error of `dsig.NewSignature` is checked only after `doc.Dump`, so the NewSignature error is not reported where it is made; the calls in between are made on the signature that was not created, and what follows depends on go-xmlsec's methods on a nil receiver | any library in which `dsig.NewSignature` fails | report the NewSignature error where it is made | not executed | AuthnReq.CreationErrorLostAsWritten | AuthnReq.CreationErrorReported |
