/** assertion.go: the String conversions of the enumeration types, the two
    appenders and the small constructors. */
module Builders {
  import opened Base
  import opened Saml
  import opened Tokens
  import opened XmlMarshal
  import XmlProps
  import TimeFmt

  /** Open string types, as in the source. */
  type AuthenticationMethod = string
  type ConfirmationMethod = string
  type NameIDFormat = string

  function AuthenticationMethodString(am: AuthenticationMethod): (s: string)
    ensures |s| == |am| && forall i :: 0 <= i < |s| ==> s[i] == am[i]
  {
    am
  }

  function ConfirmationMethodString(cm: ConfirmationMethod): (s: string)
    ensures |s| == |cm| && forall i :: 0 <= i < |s| ==> s[i] == cm[i]
  {
    cm
  }

  function NameIDFormatString(n: NameIDFormat): (s: string)
    ensures |s| == |n| && forall i :: 0 <= i < |s| ==> s[i] == n[i]
  {
    n
  }

  /** A `*Conditions` of interface.go, whose audience restrictions form a list. */
  class ConditionsRef {
    var value: Conditions

    constructor (c: Conditions)
      ensures value == c
    {
      value := c;
    }

    /** Appends `ar`; never fails. */
    method AddAudienceRestriction(ar: AudienceRestriction) returns (err: Option<Error>)
      modifies this
      ensures err == None
      ensures value == old(value).(audienceRestriction := old(value).audienceRestriction + [ar])
    {
      value := value.(audienceRestriction := value.audienceRestriction + [ar]);
      return None;
    }
  }

  /** A `*Assertion`. */
  class AssertionRef {
    var value: Assertion

    constructor (a: Assertion)
      ensures value == a
    {
      value := a;
    }

    /** Appends `att` to the attribute statement; never fails. */
    method AddAttribute(att: Attribute) returns (err: Option<Error>)
      modifies this
      ensures err == None
      ensures value == old(value).(attributeStatement :=
        AttributeStatement(old(value).attributeStatement.attributes + [att]))
    {
      value := value.(attributeStatement := AttributeStatement(value.attributeStatement.attributes + [att]));
      return None;
    }
  }

  /** An appended restriction is written last inside Conditions: the
      earlier ones are written as before, and its audiences follow theirs. */
  lemma {:induction false} AppendedRestrictionWritten(rs: seq<AudienceRestriction>, ar: AudienceRestriction)
    ensures RestrictionsWritten(rs + [ar]) ==
            RestrictionsWritten(rs) + Written(OfAudienceRestriction(ar), DefaultStart("AudienceRestriction"))
    ensures Texts(RestrictionsWritten(rs + [ar])) == Texts(RestrictionsWritten(rs)) + ar.audience
  {
    assert (rs + [ar])[..|rs|] == rs;
    var w := Written(OfAudienceRestriction(ar), DefaultStart("AudienceRestriction"));
    XmlProps.AudienceRestrictionElement(ar, DefaultStart("AudienceRestriction"));
    TextsAppend(RestrictionsWritten(rs), w);
  }

  /** After AddAttribute the assertion still marshals to a balanced stream
      exactly when it did before and the new attribute has a Name. */
  lemma AddedAttributeWritable(a: Assertion, att: Attribute, start: StartElement)
    ensures var a' := a.(attributeStatement := AttributeStatement(a.attributeStatement.attributes + [att]));
      Balanced(Written(OfAssertion(a'), start)) <==>
      Balanced(Written(OfAssertion(a), start)) && att.name != ""
  {
    var a' := a.(attributeStatement := AttributeStatement(a.attributeStatement.attributes + [att]));
    XmlProps.AssertionBalanced(a, start);
    XmlProps.AssertionBalanced(a', start);
    var attrs := a.attributeStatement.attributes;
    assert AllNamed(attrs + [att]) <==> AllNamed(attrs) && att.name != "" by {
      if AllNamed(attrs + [att]) {
        assert (attrs + [att])[|attrs|] == att;
        forall i | 0 <= i < |attrs| ensures attrs[i].name != "" {
          assert (attrs + [att])[i] == attrs[i];
        }
      }
    }
  }

  /** A NameIDPolicy with the given Format and AllowCreate, and no SPNameQualifier. */
  function NewNameIDPolicy(f: NameIDFormat, allowCreate: bool): (p: NameIDPolicy)
    ensures p.format == f && p.allowCreate == allowCreate
    ensures p.spNameQualifier == ""
  {
    NameIDPolicy(allowCreate, f, "")
  }

  function NewRequestedAuthnContext(cmp: string, classRef: string): (r: RequestedAuthnContext)
    ensures r.comparison == cmp && r.authnContextClassRef == classRef
  {
    RequestedAuthnContext(cmp, classRef)
  }

  /** This variant returns the zero request: every string empty, both
      flags false, both indices 0, no optional child, and the zero
      time.Time as its instant, which formats as 0001-01-01T00:00:00. */
  function NewAuthnRequest(): (r: AuthnRequest)
    ensures r == ZeroAuthnRequest
    ensures r.request.message.id == "" && r.request.message.version == ""
    ensures r.request.message.issuer == "" && r.request.message.destination == "" &&
            r.request.message.consent == "" && r.request.signature == ""
    ensures r.request.message.issueInstant == TimeFmt.ZeroInstant
    ensures TimeFmt.Format(r.request.message.issueInstant) == "0001-01-01T00:00:00"
    ensures !r.forceAuthn && !r.isPassive
    ensures r.protocolBinding == "" && r.assertionConsumerServiceURL == "" && r.providerName == ""
    ensures r.assertionConsumerServiceIndex == 0 && r.attributeConsumingServiceIndex == 0
    ensures r.nameIDPolicy.None? && r.requestedAuthnContext.None?
  {
    TimeFmt.ZeroFormat();
    ZeroAuthnRequest
  }
}
