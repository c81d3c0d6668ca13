/** What the token streams of xml.go promise: each marshaller writes one
    well-nested element, the Assertion's children come in the order of
    section 2.3.3 of SAML 2.0 Core, texts appear in slice order, each in its
    own element, and the fixed attribute layouts and defaults hold. */
module XmlProps {
  import opened Base
  import opened Ns
  import opened Tokens
  import opened Saml
  import opened XmlMarshal
  import TimeFmt

  /** A stream that is one element named `n`: its start tag, balanced
      content, and the matching end tag. */
  predicate IsElement(ts: seq<Token>, n: XmlName) {
    |ts| >= 2 && ts[0].Start? && ts[0].name == n && ts[|ts| - 1] == End(n) &&
    n.local != "" && Balanced(ts[1..|ts| - 1])
  }

  lemma Wrapped(n: XmlName, attrs: seq<XmlAttr>, inner: seq<Token>)
    requires n.local != "" && Balanced(inner)
    ensures IsElement([Start(n, attrs)] + inner + [End(n)], n)
    ensures ChildNames([Start(n, attrs)] + inner + [End(n)]) == TopNames(inner, 0)
  {
    var ts := [Start(n, attrs)] + inner + [End(n)];
    assert ts[1..|ts| - 1] == inner;
  }

  /** One element is balanced and is one top-level name. */
  lemma ElementFacts(ts: seq<Token>, n: XmlName)
    requires IsElement(ts, n)
    ensures Balanced(ts) && TopNames(ts, 0) == [n] && Depth(ts, 0) == 0
  {
    var inner := ts[1..|ts| - 1];
    assert ts == [Start(n, ts[0].attrs)] + inner + [End(n)];
    BalancedWrap(n, ts[0].attrs, inner);
    WrapTopNames(n, ts[0].attrs, inner);
  }

  /** Elements one after another list their names in order. */
  lemma NamesConcat(a: seq<Token>, b: seq<Token>)
    requires Balanced(a)
    ensures TopNames(a + b, 0) == TopNames(a, 0) + TopNames(b, 0)
    ensures Depth(a + b, 0) == Depth(b, 0)
  {
    TopNamesAppend(a, b, 0);
    BalancedDepth(a, [], 0);
  }

  lemma BalancedText(s: string)
    ensures Balanced([CharData(s)])
  {
    assert [CharData(s)][1..] == [];
  }

  /** An element holding only text: balanced, and its text is that text. */
  lemma TextElement(n: XmlName, attrs: seq<XmlAttr>, s: string)
    requires n.local != ""
    ensures IsElement([Start(n, attrs), CharData(s), End(n)], n)
    ensures Texts([Start(n, attrs), CharData(s), End(n)]) == [s]
  {
    BalancedText(s);
    Wrapped(n, attrs, [CharData(s)]);
    assert [Start(n, attrs), CharData(s), End(n)] == [Start(n, attrs)] + [CharData(s)] + [End(n)];
    var ts := [Start(n, attrs), CharData(s), End(n)];
    var last := ts[1..][1..];
    assert last == [End(n)] && last[1..] == [];
    assert Texts(last) == [];
    assert Texts(ts[1..]) == [s] + Texts(last);
  }

  // ----- Each marshaller writes one element -----

  lemma AttributeValueElement(av: AttributeValue, start: StartElement)
    ensures IsElement(AttributeValueTokens(av, start), SamlName("AttributeValue"))
    ensures Texts(AttributeValueTokens(av, start)) == [av.value]
  {
    TextElement(SamlName("AttributeValue"), start.attrs + [Plain("xsi:type", av.valueType)], av.value);
  }

  function ValueStrings(vs: seq<AttributeValue>): (r: seq<string>)
    ensures |r| == |vs| && forall i :: 0 <= i < |vs| ==> r[i] == vs[i].value
  {
    seq(|vs|, i requires 0 <= i < |vs| => vs[i].value)
  }

  /** Attribute values are written in slice order, each in its own element. */
  lemma {:induction false} ValuesStream(vs: seq<AttributeValue>)
    ensures Balanced(ValuesWritten(vs))
    ensures Texts(ValuesWritten(vs)) == ValueStrings(vs)
    ensures TopNames(ValuesWritten(vs), 0) == seq(|vs|, _ => SamlName("AttributeValue"))
    decreases |vs|
  {
    if vs != [] {
      var init := vs[..|vs| - 1];
      var one := Written(OfAttributeValue(vs[|vs| - 1]), DefaultStart("AttributeValue"));
      ValuesStream(init);
      AttributeValueElement(vs[|vs| - 1], DefaultStart("AttributeValue"));
      ElementFacts(one, SamlName("AttributeValue"));
      BalancedConcat(ValuesWritten(init), one);
      TextsAppend(ValuesWritten(init), one);
      NamesConcat(ValuesWritten(init), one);
      assert ValueStrings(vs) == ValueStrings(init) + [vs[|vs| - 1].value];
      assert seq(|vs|, _ => SamlName("AttributeValue")) ==
        seq(|init|, _ => SamlName("AttributeValue")) + [SamlName("AttributeValue")];
    }
  }

  /** A named Attribute is one element whose children are its values, in order. */
  lemma AttributeElement(a: Attribute, start: StartElement)
    requires a.name != ""
    ensures IsElement(AttributeTokens(a, start), SamlName("Attribute"))
    ensures Texts(AttributeTokens(a, start)) == ValueStrings(a.values)
    ensures ChildNames(AttributeTokens(a, start)) == seq(|a.values|, _ => SamlName("AttributeValue"))
  {
    var n := SamlName("Attribute");
    var attrs := AttributeStartAttrs(a, start);
    ValuesStream(a.values);
    Wrapped(n, attrs, ValuesWritten(a.values));
    TextsAppend([Start(n, attrs)], ValuesWritten(a.values));
    TextsAppend([Start(n, attrs)] + ValuesWritten(a.values), [End(n)]);
  }

  /** An Attribute without a Name writes nothing; one with a Name writes something. */
  lemma MissingNameWritesNothing(a: Attribute, start: StartElement)
    ensures AttributeTokens(a, start) == [] <==> a.name == ""
  {
    if a.name != "" {
      assert AttributeTokens(a, start)[0].Start?;
    }
  }

  /** The Attribute start tag: the caller's attributes, the extra Attrs, then
      Name, then FriendlyName exactly when it is non-empty. */
  lemma AttributeStartOrder(a: Attribute, start: StartElement)
    requires a.name != ""
    ensures var t := AttributeTokens(a, start)[0];
      var k := |start.attrs| + |a.attrs|;
      t.Start? && k < |t.attrs| &&
      t.attrs[..k] == start.attrs + a.attrs &&
      t.attrs[k] == Plain("Name", a.name) &&
      (|t.attrs| == k + 1 <==> a.friendlyName == "") &&
      (a.friendlyName != "" ==> |t.attrs| == k + 2 && t.attrs[k + 1] == Plain("FriendlyName", a.friendlyName))
  {
  }

  lemma AuthnContextElement(ac: AuthnContext)
    ensures IsElement(AuthnContextTokens(ac), XmlName("", "AuthnContext"))
  {
    var ctx := XmlName("", "AuthnContext");
    var ref := XmlName("", "AuthnContextClassRef");
    var inner := [Start(ref, []), CharData(ac.authnContextClassRef), End(ref)];
    TextElement(ref, [], ac.authnContextClassRef);
    ElementFacts(inner, ref);
    Wrapped(ctx, [], inner);
    assert AuthnContextTokens(ac) == [Start(ctx, [])] + inner + [End(ctx)];
  }

  lemma AuthnStatementElement(st: AuthnStatement, start: StartElement)
    ensures IsElement(AuthnStatementTokens(st, start), SamlName("AuthnStatement"))
  {
    AuthnContextElement(st.authnContext);
    ElementFacts(AuthnContextTokens(st.authnContext), XmlName("", "AuthnContext"));
    Wrapped(SamlName("AuthnStatement"), start.attrs +
      [Plain("AuthnInstant", TimeFmt.Format(st.authnInstant)), Plain("SessionIndex", st.sessionIndex)],
      AuthnContextTokens(st.authnContext));
  }

  /** Audiences are written in slice order, each in its own element. */
  lemma {:induction false} AudienceStream(auds: seq<string>)
    ensures Balanced(AudienceTokens(auds))
    ensures Texts(AudienceTokens(auds)) == auds
    ensures TopNames(AudienceTokens(auds), 0) == seq(|auds|, _ => SamlName("Audience"))
    decreases |auds|
  {
    if auds != [] {
      var init := auds[..|auds| - 1];
      var n := SamlName("Audience");
      var one := [Start(n, []), CharData(auds[|auds| - 1]), End(n)];
      AudienceStream(init);
      TextElement(n, [], auds[|auds| - 1]);
      ElementFacts(one, n);
      BalancedConcat(AudienceTokens(init), one);
      TextsAppend(AudienceTokens(init), one);
      NamesConcat(AudienceTokens(init), one);
      assert auds == init + [auds[|auds| - 1]];
      assert seq(|auds|, _ => n) == seq(|init|, _ => n) + [n];
    }
  }

  /** An AudienceRestriction is one element whose children are its audiences, in order. */
  lemma AudienceRestrictionElement(ar: AudienceRestriction, start: StartElement)
    ensures IsElement(AudienceRestrictionTokens(ar, start), SamlName("AudienceRestriction"))
    ensures Texts(AudienceRestrictionTokens(ar, start)) == ar.audience
    ensures ChildNames(AudienceRestrictionTokens(ar, start)) == seq(|ar.audience|, _ => SamlName("Audience"))
  {
    var n := SamlName("AudienceRestriction");
    AudienceStream(ar.audience);
    Wrapped(n, start.attrs, AudienceTokens(ar.audience));
    TextsAppend([Start(n, start.attrs)], AudienceTokens(ar.audience));
    TextsAppend([Start(n, start.attrs)] + AudienceTokens(ar.audience), [End(n)]);
  }

  lemma {:induction false} RestrictionsBalanced(rs: seq<AudienceRestriction>)
    ensures Balanced(RestrictionsWritten(rs))
    decreases |rs|
  {
    if rs != [] {
      var last := rs[|rs| - 1];
      RestrictionsBalanced(rs[..|rs| - 1]);
      AudienceRestrictionElement(last, DefaultStart("AudienceRestriction"));
      ElementFacts(AudienceRestrictionTokens(last, DefaultStart("AudienceRestriction")), SamlName("AudienceRestriction"));
      BalancedConcat(RestrictionsWritten(rs[..|rs| - 1]), Written(OfAudienceRestriction(last), DefaultStart("AudienceRestriction")));
    }
  }

  lemma ConditionsElement(c: Conditions, start: StartElement)
    ensures IsElement(ConditionsTokens(c, start), SamlName("Conditions"))
  {
    RestrictionsBalanced(c.audienceRestriction);
    Wrapped(SamlName("Conditions"), start.attrs +
      [Plain("NotBefore", TimeFmt.Format(c.notBefore)), Plain("NotOnOrAfter", TimeFmt.Format(c.notOnOrAfter))],
      RestrictionsWritten(c.audienceRestriction));
  }

  /** The confirmation is one element holding an empty SubjectConfirmationData,
      and its Method is bearer unless one is set. */
  lemma SubjectConfirmationElement(sc: SubjectConfirmation, start: StartElement)
    ensures IsElement(SubjectConfirmationTokens(sc, start), SamlName("SubjectConfirmation"))
    ensures ChildNames(SubjectConfirmationTokens(sc, start)) == [SamlName("SubjectConfirmationData")]
    ensures var t := SubjectConfirmationTokens(sc, start)[0];
      t.Start? && t.attrs == start.attrs + [Plain("Method", if sc.confirmMethod == "" then Bearer else sc.confirmMethod)]
  {
    var data := SamlName("SubjectConfirmationData");
    var dattrs := [Plain("InResponseTo", sc.inResponseTo), Plain("Recipient", sc.recipient),
                   Plain("NotOnOrAfter", TimeFmt.Format(sc.notOnOrAfter))];
    var inner := [Start(data, dattrs), End(data)];
    var e: seq<Token> := [];
    Wrapped(data, dattrs, e);
    assert inner == [Start(data, dattrs)] + e + [End(data)];
    ElementFacts(inner, data);
    Wrapped(SamlName("SubjectConfirmation"), start.attrs + [Plain("Method", MethodOf(sc))], inner);
    assert SubjectConfirmationTokens(sc, start) ==
      [Start(SamlName("SubjectConfirmation"), start.attrs + [Plain("Method", MethodOf(sc))])] + inner +
      [End(SamlName("SubjectConfirmation"))];
  }

  /** A NameID under a named start element is one element whose text is the
      identifier and whose last attribute is the transient Format, whatever
      the identifier; under an unnamed one only its text gets through. */
  lemma NameIDElement(n: NameID, start: StartElement)
    ensures start.name.local != "" ==> IsElement(NameIDTokens(n, start), start.name)
    ensures start.name.local != "" ==>
      NameIDTokens(n, start)[0].attrs == start.attrs + [Plain("Format", Transient)]
    ensures start.name.local == "" ==> Balanced(NameIDTokens(n, start))
    ensures Texts(NameIDTokens(n, start)) == [n]
  {
    if start.name.local != "" {
      TextElement(start.name, start.attrs + [Plain("Format", Transient)], n);
    } else {
      BalancedText(n);
      assert [CharData(n)][1..] == [];
    }
  }

  /** A Subject holds a NameID and then a SubjectConfirmation. */
  lemma SubjectElement(s: Subject, start: StartElement)
    ensures IsElement(SubjectTokens(s, start), SamlName("Subject"))
    ensures ChildNames(SubjectTokens(s, start)) == [SamlName("NameID"), SamlName("SubjectConfirmation")]
  {
    var id := Written(OfNameID(s.nameID), Named(SamlName("NameID")));
    var conf := Written(OfSubjectConfirmation(s.subjectConfirmation), Named(SamlName("SubjectConfirmation")));
    NameIDElement(s.nameID, Named(SamlName("NameID")));
    ElementFacts(id, SamlName("NameID"));
    SubjectConfirmationElement(s.subjectConfirmation, Named(SamlName("SubjectConfirmation")));
    ElementFacts(conf, SamlName("SubjectConfirmation"));
    BalancedConcat(id, conf);
    NamesConcat(id, conf);
    Wrapped(SamlName("Subject"), start.attrs, id + conf);
    Regroup([Start(SamlName("Subject"), start.attrs)], id, conf);
  }

  lemma SignatureElement(sig: Signature, start: StartElement)
    ensures IsElement(SignatureTokens(sig, start), DsSignature)
    ensures ChildNames(SignatureTokens(sig, start)) == []
  {
    var e: seq<Token> := [];
    Wrapped(DsSignature, start.attrs + [XMLAttr(XMLDSignature)], e);
    assert SignatureTokens(sig, start) == [Start(DsSignature, start.attrs + [XMLAttr(XMLDSignature)])] + e + [End(DsSignature)];
  }

  /** The attributes written so far are balanced, whether or not one failed. */
  lemma {:induction false} AttributesRunBalanced(attrs: seq<Attribute>)
    ensures Balanced(AttributesRun(attrs).0)
    decreases |attrs|
  {
    if attrs != [] {
      var init := attrs[..|attrs| - 1];
      var a := attrs[|attrs| - 1];
      AttributesRunBalanced(init);
      if AttributesRun(init).1 && a.name != "" {
        AttributeElement(a, DefaultStart("Attributes"));
        ElementFacts(AttributeTokens(a, DefaultStart("Attributes")), SamlName("Attribute"));
        BalancedConcat(AttributesRun(init).0, Written(OfAttribute(a), DefaultStart("Attributes")));
      }
    }
  }

  /** The AttributeStatement completes exactly when every Attribute has a Name. */
  lemma {:induction false} AttributesRunOk(attrs: seq<Attribute>)
    ensures AttributesRun(attrs).1 <==> AllNamed(attrs)
    decreases |attrs|
  {
    if attrs != [] {
      var init := attrs[..|attrs| - 1];
      AttributesRunOk(init);
      assert forall i :: 0 <= i < |init| ==> init[i] == attrs[i];
      if AllNamed(init) && attrs[|attrs| - 1].name != "" {
        assert AllNamed(attrs);
      }
    }
  }

  lemma AttributeStatementElement(st: AttributeStatement, start: StartElement)
    requires start.name.local != "" && AllNamed(st.attributes)
    ensures IsElement(AttributeStatementTokens(st, start), start.name)
  {
    AttributesRunOk(st.attributes);
    AttributesRunBalanced(st.attributes);
    Wrapped(start.name, start.attrs, AttributesRun(st.attributes).0);
  }

  // ----- The Assertion -----

  /** The Issuer and the Signature, each one element. */
  lemma IssuerSignatureNames(a: Assertion)
    ensures var ts := StringTokens(a.issuer, Named(SamlName("Issuer"))) +
      Written(OfSignature(a.signature), Named(SamlName("Signature")));
      Balanced(ts) && TopNames(ts, 0) == [SamlName("Issuer"), DsSignature]
  {
    var i := StringTokens(a.issuer, Named(SamlName("Issuer")));
    var g := Written(OfSignature(a.signature), Named(SamlName("Signature")));
    TextElement(SamlName("Issuer"), [], a.issuer);
    ElementFacts(i, SamlName("Issuer"));
    SignatureElement(a.signature, Named(SamlName("Signature")));
    ElementFacts(g, DsSignature);
    BalancedConcat(i, g);
    NamesConcat(i, g);
  }

  /** Issuer, Signature and Subject, each one element, in that order. */
  lemma HeadNames(a: Assertion)
    ensures Balanced(AssertionHead(a))
    ensures TopNames(AssertionHead(a), 0) == [SamlName("Issuer"), DsSignature, SamlName("Subject")]
  {
    var ig := StringTokens(a.issuer, Named(SamlName("Issuer"))) +
      Written(OfSignature(a.signature), Named(SamlName("Signature")));
    var s := Written(OfSubject(a.subject), Named(SamlName("Subject")));
    IssuerSignatureNames(a);
    SubjectElement(a.subject, Named(SamlName("Subject")));
    ElementFacts(s, SamlName("Subject"));
    BalancedConcat(ig, s);
    NamesConcat(ig, s);
  }

  /** Conditions, AuthnStatement and AttributeStatement, each one element, in that order. */
  lemma RestNames(a: Assertion)
    requires AllNamed(a.attributeStatement.attributes)
    ensures Balanced(AssertionRest(a))
    ensures TopNames(AssertionRest(a), 0) ==
      [SamlName("Conditions"), SamlName("AuthnStatement"), SamlName("AttributeStatement")]
  {
    var c := Written(OfConditions(a.conditions), Named(SamlName("Conditions")));
    var u := Written(OfAuthnStatement(a.authnStatement), Named(SamlName("AuthnStatement")));
    var s := AttributeStatementTokens(a.attributeStatement, Named(SamlName("AttributeStatement")));
    ConditionsElement(a.conditions, Named(SamlName("Conditions")));
    ElementFacts(c, SamlName("Conditions"));
    AuthnStatementElement(a.authnStatement, Named(SamlName("AuthnStatement")));
    ElementFacts(u, SamlName("AuthnStatement"));
    AttributeStatementElement(a.attributeStatement, Named(SamlName("AttributeStatement")));
    ElementFacts(s, SamlName("AttributeStatement"));
    BalancedConcat(c, u);
    BalancedConcat(c + u, s);
    NamesConcat(c, u);
    NamesConcat(c + u, s);
  }

  /** When every Attribute has a Name, the Assertion is one element whose
      children are Issuer, Signature, Subject, Conditions, AuthnStatement
      and AttributeStatement, in that order. */
  lemma AssertionChildren(a: Assertion, start: StartElement)
    requires AllNamed(a.attributeStatement.attributes)
    ensures IsElement(AssertionTokens(a, start), SamlName("Assertion"))
    ensures ChildNames(AssertionTokens(a, start)) ==
      [SamlName("Issuer"), DsSignature, SamlName("Subject"),
       SamlName("Conditions"), SamlName("AuthnStatement"), SamlName("AttributeStatement")]
  {
    var n := SamlName("Assertion");
    var attrs := AssertionStartAttrs(a, start);
    HeadNames(a);
    RestNames(a);
    AttributesRunOk(a.attributeStatement.attributes);
    BalancedConcat(AssertionHead(a), AssertionRest(a));
    NamesConcat(AssertionHead(a), AssertionRest(a));
    Wrapped(n, attrs, AssertionHead(a) + AssertionRest(a));
    Regroup([Start(n, attrs)], AssertionHead(a), AssertionRest(a));
  }

  /** A stream that starts with a balanced part runs as its remainder does. */
  lemma RunAfterBalanced(a: seq<Token>, b: seq<Token>, stack: seq<XmlName>)
    requires Balanced(a)
    ensures Run(a + b, stack) == Run(b, stack)
  {
    RunAppend(a, b, stack);
    BalancedRun(a, stack);
  }

  /** The Assertion's start tag and its first children leave it open. */
  lemma HeadLeavesOpen(a: Assertion, start: StartElement)
    ensures Run([Start(SamlName("Assertion"), AssertionStartAttrs(a, start))] + AssertionHead(a), []) ==
      Some([SamlName("Assertion")])
  {
    var n := SamlName("Assertion");
    var t := [Start(n, AssertionStartAttrs(a, start))];
    var e: seq<XmlName> := [];
    HeadNames(a);
    RunAppend(t, AssertionHead(a), []);
    assert t[1..] == [];
    assert e + [n] == [n];
    assert Run(t, []) == Some([n]);
    BalancedRun(AssertionHead(a), [n]);
  }

  /** With an Attribute lacking its Name, the statements leave the
      AttributeStatement open on top of whatever was open. */
  lemma RestLeavesOpen(a: Assertion, stack: seq<XmlName>)
    requires !AllNamed(a.attributeStatement.attributes)
    ensures Run(AssertionRest(a), stack) == Some(stack + [SamlName("AttributeStatement")])
  {
    var s := SamlName("AttributeStatement");
    AttributesRunOk(a.attributeStatement.attributes);
    var run := AttributesRun(a.attributeStatement.attributes).0;
    var c := Written(OfConditions(a.conditions), Named(SamlName("Conditions")));
    var u := Written(OfAuthnStatement(a.authnStatement), Named(SamlName("AuthnStatement")));
    ConditionsElement(a.conditions, Named(SamlName("Conditions")));
    ElementFacts(c, SamlName("Conditions"));
    AuthnStatementElement(a.authnStatement, Named(SamlName("AuthnStatement")));
    ElementFacts(u, SamlName("AuthnStatement"));
    BalancedConcat(c, u);
    AttributesRunBalanced(a.attributeStatement.attributes);
    var t := [Start(s, [])];
    RunAfterBalanced(c + u, t + run + [], stack);
    assert t + run + [] == t + run;
    RunAppend(t, run, stack);
    assert t[1..] == [];
    assert Run(t, stack) == Some(stack + [s]);
    BalancedRun(run, stack + [s]);
  }

  /** An Attribute without a Name leaves the Assertion and its
      AttributeStatement open: the stream is not balanced. */
  lemma UnnamedLeavesOpen(a: Assertion, start: StartElement)
    requires !AllNamed(a.attributeStatement.attributes)
    ensures Run(AssertionTokens(a, start), []) ==
      Some([SamlName("Assertion"), SamlName("AttributeStatement")])
  {
    var head := [Start(SamlName("Assertion"), AssertionStartAttrs(a, start))] + AssertionHead(a);
    AttributesRunOk(a.attributeStatement.attributes);
    HeadLeavesOpen(a, start);
    RestLeavesOpen(a, [SamlName("Assertion")]);
    RunAppend(head, AssertionRest(a), []);
    assert AssertionTokens(a, start) == head + AssertionRest(a) + [];
    assert head + AssertionRest(a) + [] == head + AssertionRest(a);
    assert [SamlName("Assertion")] + [SamlName("AttributeStatement")] ==
      [SamlName("Assertion"), SamlName("AttributeStatement")];
  }

  /** The Assertion's stream is balanced exactly when every Attribute has a Name. */
  lemma AssertionBalanced(a: Assertion, start: StartElement)
    ensures Balanced(Written(OfAssertion(a), start)) <==> AllNamed(a.attributeStatement.attributes)
  {
    if AllNamed(a.attributeStatement.attributes) {
      AssertionChildren(a, start);
      ElementFacts(AssertionTokens(a, start), SamlName("Assertion"));
    } else {
      UnnamedLeavesOpen(a, start);
    }
  }

  /** Every marshaller that succeeds writes a balanced stream. */
  lemma WrittenBalanced(m: Marshaler, start: StartElement)
    requires Clean(m)
    ensures Balanced(Written(m, start))
  {
    match m {
      case OfAttributeValue(av) =>
        AttributeValueElement(av, start);
        ElementFacts(Written(m, start), SamlName("AttributeValue"));
      case OfAttribute(a) =>
        AttributeElement(a, start);
        ElementFacts(Written(m, start), SamlName("Attribute"));
      case OfAuthnStatement(st) =>
        AuthnStatementElement(st, start);
        ElementFacts(Written(m, start), SamlName("AuthnStatement"));
      case OfAudienceRestriction(ar) =>
        AudienceRestrictionElement(ar, start);
        ElementFacts(Written(m, start), SamlName("AudienceRestriction"));
      case OfConditions(c) =>
        ConditionsElement(c, start);
        ElementFacts(Written(m, start), SamlName("Conditions"));
      case OfSubjectConfirmation(sc) =>
        SubjectConfirmationElement(sc, start);
        ElementFacts(Written(m, start), SamlName("SubjectConfirmation"));
      case OfNameID(id) =>
        NameIDElement(id, start);
        if start.name.local != "" {
          ElementFacts(Written(m, start), start.name);
        }
      case OfSubject(s) =>
        SubjectElement(s, start);
        ElementFacts(Written(m, start), SamlName("Subject"));
      case OfSignature(sig) =>
        SignatureElement(sig, start);
        ElementFacts(Written(m, start), DsSignature);
      case OfAssertion(a) =>
        AttributesRunOk(a.attributeStatement.attributes);
        AssertionBalanced(a, start);
    }
  }

  /** The Assertion start tag adds, after the caller's attributes, the three
      namespace declarations and then ID, Version and IssueInstant. */
  lemma AssertionStartOrder(a: Assertion, start: StartElement)
    ensures var t := AssertionTokens(a, start)[0];
      var added := t.attrs[|start.attrs|..];
      t.Start? && t.attrs[..|start.attrs|] == start.attrs && |added| == 6 &&
      added[0].name.local == "xmlns:saml" && added[0].value == SAML.uri &&
      added[1].name.local == "xmlns:xs" && added[1].value == XMLSchema.uri &&
      added[2].name.local == "xmlns:xsi" && added[2].value == XMLSchemaInstance.uri &&
      added[3] == Plain("ID", a.id) && added[4] == Plain("Version", a.version) &&
      added[5] == Plain("IssueInstant", TimeFmt.Format(a.issueInstant))
  {
    var t := AssertionTokens(a, start)[0];
    assert t.attrs[|start.attrs|..] ==
      [XMLAttr(SAML), XMLAttr(XMLSchema), XMLAttr(XMLSchemaInstance),
       Plain("ID", a.id), Plain("Version", a.version), Plain("IssueInstant", TimeFmt.Format(a.issueInstant))];
  }
}
