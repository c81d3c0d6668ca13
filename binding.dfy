/** SAML protocol binding identifiers (binding/binding.go). */
module Binding {

  /** An open string type: any string converts to a Protocol. */
  type Protocol = string

  const BindingsPrefix: string := "urn:oasis:names:tc:SAML:2.0:bindings:"
  const HTTPPost: Protocol := "urn:oasis:names:tc:SAML:2.0:bindings:HTTP-POST"
  const HTTPRedirect: Protocol := "urn:oasis:names:tc:SAML:2.0:bindings:HTTP-Redirect"

  /** The binding URI as a plain string, unchanged. */
  function String(p: Protocol): (s: string)
    ensures |s| == |p| && forall i :: 0 <= i < |s| ==> s[i] == p[i]
  {
    p
  }

  /** The two named members of the otherwise open Protocol type. */
  predicate IsKnown(p: Protocol) {
    p == HTTPPost || p == HTTPRedirect
  }

  lemma ConstantsShape()
    ensures HTTPPost != HTTPRedirect
    ensures HTTPPost[..|BindingsPrefix|] == BindingsPrefix
    ensures HTTPRedirect[..|BindingsPrefix|] == BindingsPrefix
    ensures IsKnown(HTTPPost) && IsKnown(HTTPRedirect)
  {
  }

  /** The type itself is open: a string other than the two constants is a Protocol. */
  lemma ProtocolIsOpen()
    ensures exists p: Protocol :: !IsKnown(p)
  {
    assert !IsKnown("");
  }
}
