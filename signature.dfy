/** signature.go: the whitelist of XML Signature algorithms a GenericSign
    accepts, the signature template it renders, and the injection of that
    template into a node. The algorithm identifiers are those of XML
    Signature Syntax and Processing (section 6.6.4 for the enveloped
    signature transform). */
module Signing {
  import opened Base
  import opened Dom
  import opened Saml

  /** A validated signer: the four algorithms and the rendered template. */
  datatype GenericSign = GenericSign(c14nmethod: C14NMethod, digmethod: DigestMethod,
                                     sigmethod: SignatureMethod, template: string, transform: Transform)

  // The fixed text of the template around its four Algorithm values; each
  // piece after a value opens with the quote that closes the value.
  const Quote: string := "\""
  const Head: string := "<Signature xmlns=\"http://www.w3.org/2000/09/xmldsig#\">\n    <SignedInfo>\n      <CanonicalizationMethod Algorithm=\""
  const AfterC14N: string := Quote + " />\n      <SignatureMethod Algorithm=\""
  /** The Reference covers the whole document: its URI is empty. */
  const ReferenceOpen: string := "<Reference URI=\"\">"
  const SignatureMethodClose: string := Quote + " />\n      "
  const TransformsOpen: string := "\n        <Transforms>\n          <Transform Algorithm=\""
  const AfterSignatureMethod: string := SignatureMethodClose + (ReferenceOpen + TransformsOpen)
  const AfterTransform: string := Quote + " />\n        </Transforms>\n        <DigestMethod Algorithm=\""
  const Tail: string := Quote + " />\n        <DigestValue></DigestValue>\n      </Reference>\n    </SignedInfo>\n    <SignatureValue/>\n    <KeyInfo>\n      <KeyName/>\n    </KeyInfo>\n  </Signature>"

  /** The template of lines 12 to 28 with its four fields filled in. */
  function Template(c: C14NMethod, m: SignatureMethod, t: Transform, d: DigestMethod): string {
    Head + (c + (AfterC14N + (m + (AfterSignatureMethod + (t + (AfterTransform + (d + Tail)))))))
  }

  /** Lines 36 to 84: each argument is checked against its whitelist, in
      the order signature method, transform, digest, canonicalization. */
  function NewGenericSign(m: SignatureMethod, t: Transform, d: DigestMethod, c: C14NMethod): (r: Result<GenericSign>)
    ensures r.Ok? ==> r.value.sigmethod == m && r.value.transform == t &&
                      r.value.digmethod == d && r.value.c14nmethod == c
  {
    if m != RSA_SHA1 && m != DSA_SHA1 then Err(ErrUnsupportedSignatureMethod)
    else if t != EnvelopedSignature then Err(ErrUnsupportedTransform)
    else if d != SHA1 then Err(ErrUnsupportedDigestMethod)
    else if c != C14N1_0 then Err(ErrUnsupportedC14NMethod)
    else Ok(GenericSign(c, d, m, Template(c, m, t, d), t))
  }

  /** Construction succeeds exactly for RSA-SHA1 or DSA-SHA1, the enveloped
      signature transform, SHA-1 and Canonical XML 1.0. */
  lemma Whitelist(m: SignatureMethod, t: Transform, d: DigestMethod, c: C14NMethod)
    ensures NewGenericSign(m, t, d, c).Ok? <==>
      (m == RSA_SHA1 || m == DSA_SHA1) && t == EnvelopedSignature && d == SHA1 && c == C14N1_0
  {
  }

  /** The earliest unsupported argument decides the error. */
  lemma EarliestUnsupportedReported(m: SignatureMethod, t: Transform, d: DigestMethod, c: C14NMethod)
    ensures m != RSA_SHA1 && m != DSA_SHA1 ==> NewGenericSign(m, t, d, c) == Err(ErrUnsupportedSignatureMethod)
    ensures (m == RSA_SHA1 || m == DSA_SHA1) && t != EnvelopedSignature ==>
      NewGenericSign(m, t, d, c) == Err(ErrUnsupportedTransform)
    ensures (m == RSA_SHA1 || m == DSA_SHA1) && t == EnvelopedSignature && d != SHA1 ==>
      NewGenericSign(m, t, d, c) == Err(ErrUnsupportedDigestMethod)
    ensures (m == RSA_SHA1 || m == DSA_SHA1) && t == EnvelopedSignature && d == SHA1 && c != C14N1_0 ==>
      NewGenericSign(m, t, d, c) == Err(ErrUnsupportedC14NMethod)
  {
  }

  // ----- Reading the algorithms back from a template -----

  datatype Algorithms = Algorithms(c14n: string, signature: string, transform: string, digest: string)

  /** The first index from `i` on that holds a double quote, or |s|. */
  function NextQuote(s: string, i: nat): (k: nat)
    requires i <= |s|
    ensures i <= k <= |s|
    ensures k < |s| ==> s[k] == '"'
    ensures forall j :: i <= j < k ==> s[j] != '"'
    decreases |s| - i
  {
    if i == |s| || s[i] == '"' then i else NextQuote(s, i + 1)
  }

  /** The text up to the next double quote, and the rest from it on. */
  function Split(s: string): (string, string) {
    var k := NextQuote(s, 0);
    (s[..k], s[k..])
  }

  /** Reads the four Algorithm values back out of a rendered template. */
  function Extract(s: string): Option<Algorithms> {
    if !StartsWith(s, Head) then None
    else
      var (c, r1) := Split(s[|Head|..]);
      if !StartsWith(r1, AfterC14N) then None
      else
        var (m, r2) := Split(r1[|AfterC14N|..]);
        if !StartsWith(r2, AfterSignatureMethod) then None
        else
          var (t, r3) := Split(r2[|AfterSignatureMethod|..]);
          if !StartsWith(r3, AfterTransform) then None
          else
            var (d, r4) := Split(r3[|AfterTransform|..]);
            if r4 != Tail then None
            else Some(Algorithms(c, m, t, d))
  }

  lemma {:induction false} NextQuoteFirst(s: string, i: nat, k: nat)
    requires i <= k < |s| && s[k] == '"'
    requires forall j :: i <= j < k ==> s[j] != '"'
    ensures NextQuote(s, i) == k
    decreases k - i
  {
    if i < k {
      NextQuoteFirst(s, i + 1, k);
    }
  }

  /** A value without quotes ends at the quote that opens the next piece. */
  lemma SplitField(v: string, rest: string)
    requires '"' !in v && |rest| > 0 && rest[0] == '"'
    ensures Split(v + rest) == (v, rest)
  {
    var s := v + rest;
    assert s[|v|] == '"';
    NextQuoteFirst(s, 0, |v|);
    assert s[..|v|] == v;
    assert s[|v|..] == rest;
  }

  lemma Skip(p: string, rest: string)
    ensures StartsWith(p + rest, p) && (p + rest)[|p|..] == rest
  {
    assert (p + rest)[..|p|] == p;
  }

  /** The pieces after a value open with the quote that closes it. */
  lemma PiecesOpenWithQuote()
    ensures |AfterC14N| > 0 && AfterC14N[0] == '"'
    ensures |AfterSignatureMethod| > 0 && AfterSignatureMethod[0] == '"'
    ensures |AfterTransform| > 0 && AfterTransform[0] == '"'
    ensures |Tail| > 0 && Tail[0] == '"'
  {
  }

  /** Rendering and reading back agree: the four Algorithm attributes carry
      exactly the four identifiers, when none of them contains a quote. */
  lemma ExtractTemplate(c: C14NMethod, m: SignatureMethod, t: Transform, d: DigestMethod)
    requires '"' !in c && '"' !in m && '"' !in t && '"' !in d
    ensures Extract(Template(c, m, t, d)) == Some(Algorithms(c, m, t, d))
  {
    PiecesOpenWithQuote();
    var r8 := d + Tail;
    var r7 := AfterTransform + r8;
    var r6 := t + r7;
    var r5 := AfterSignatureMethod + r6;
    var r4 := m + r5;
    var r3 := AfterC14N + r4;
    var r2 := c + r3;
    Skip(Head, r2);
    SplitField(c, r3);
    Skip(AfterC14N, r4);
    SplitField(m, r5);
    Skip(AfterSignatureMethod, r6);
    SplitField(t, r7);
    Skip(AfterTransform, r8);
    SplitField(d, Tail);
  }

  /** The whitelisted identifiers contain no quote. */
  lemma C14NQuoteFree() ensures '"' !in C14N1_0 {}
  lemma SignatureMethodsQuoteFree() ensures '"' !in RSA_SHA1 && '"' !in DSA_SHA1 {}
  lemma TransformQuoteFree() ensures '"' !in EnvelopedSignature {}
  lemma DigestQuoteFree() ensures '"' !in SHA1 {}

  lemma PrefixOfConcat(a: string, b: string, c: string)
    ensures StartsWith(a + (b + c), a + b)
  {
    assert (a + (b + c))[..|a + b|] == a + b;
  }

  /** Right after the SignatureMethod element comes the Reference element
      with the empty URI: the signature covers the whole document. */
  lemma ReferenceCoversDocument()
    ensures StartsWith(AfterSignatureMethod, SignatureMethodClose + ReferenceOpen)
  {
    PrefixOfConcat(SignatureMethodClose, ReferenceOpen, TransformsOpen);
  }

  /** A constructed signer's template names exactly its own four algorithms. */
  lemma TemplateCarriesAlgorithms(m: SignatureMethod, t: Transform, d: DigestMethod, c: C14NMethod)
    requires NewGenericSign(m, t, d, c).Ok?
    ensures Extract(NewGenericSign(m, t, d, c).value.template) == Some(Algorithms(c, m, t, d))
  {
    C14NQuoteFree();
    SignatureMethodsQuoteFree();
    TransformQuoteFree();
    DigestQuoteFree();
    ExtractTemplate(c, m, t, d);
  }

  // ----- Injection -----

  /** The xmlsec and libxml2 calls Sign makes, as oracles, and what the
      key argument holds. */
  datatype Dsig = Dsig(
    /** `xmlsec.NewDSigCtx` fails with this error, if any. */
    newCtx: Option<Error>,
    /** The key argument holds an `*rsa.PrivateKey`, so the type assertion
        `key.(*rsa.PrivateKey)` succeeds; a nil key holds none. */
    rsaKey: bool,
    /** `LoadKeyFromRSAPrivateKey` of the key at hand fails with this error, if any. */
    loadKey: Option<Error>,
    /** `n.ParseInContext(template, …)`. */
    parseInContext: (Node, string) -> Result<Node>,
    /** `ctx.SignNode(newnode)` fails with this error, if any. */
    signNode: Node -> Option<Error>)

  /** How a call ends: it returns an error (or nil), or it panics. */
  datatype Completion = Returned(err: Option<Error>) | Panicked

  /** The children of `n` after Sign, and how the call ends. A failed type
      assertion on the key panics before the key is loaded. */
  function SignOutcome(s: GenericSign, n: Node, x: Dsig): (seq<Node>, Completion)
    requires n.Element?
  {
    if x.newCtx.Some? then (n.children, Returned(x.newCtx))
    else if s.sigmethod != RSA_SHA1 then (n.children, Returned(Some(ErrUnsupportedKeyType)))
    else if !x.rsaKey then (n.children, Panicked)
    else if x.loadKey.Some? then (n.children, Returned(x.loadKey))
    else
      match x.parseInContext(n, s.template)
      case Err(e) => (n.children, Returned(Some(e)))
      case Ok(sig) => (n.children + [sig], Returned(x.signNode(sig)))
  }

  /** Lines 87 to 121: the parsed template becomes the last child of `n`
      before it is signed. */
  method Sign(s: GenericSign, n: Element, x: Dsig) returns (c: Completion)
    modifies n
    ensures n.Value() == Node.Element(old(n.name), old(n.ns), old(n.nsDecls), old(n.attrs),
                                      SignOutcome(s, old(n.Value()), x).0)
    ensures c == SignOutcome(s, old(n.Value()), x).1
  {
    if x.newCtx.Some? {
      return Returned(x.newCtx);
    }
    if s.sigmethod == RSA_SHA1 {
      if !x.rsaKey {
        return Panicked;
      }
      if x.loadKey.Some? {
        return Returned(x.loadKey);
      }
    } else {
      return Returned(Some(ErrUnsupportedKeyType));
    }
    var newnode := x.parseInContext(n.Value(), s.template);
    if newnode.Err? {
      return Returned(Some(newnode.error));
    }
    n.AddChild(newnode.value);
    c := Returned(x.signNode(newnode.value));
  }

  /** `n` gains exactly one child, the parsed template, exactly when the
      context, the key and the parse succeed; otherwise it is unchanged. The
      call returns nil only when signing the injected node succeeds too, and
      it panics exactly when RSA-SHA1 is asked for with a key that is not an
      RSA private key. */
  lemma InjectionOutcome(s: GenericSign, n: Node, x: Dsig)
    requires n.Element?
    ensures var ok := x.newCtx.None? && s.sigmethod == RSA_SHA1 && x.rsaKey && x.loadKey.None? &&
                      x.parseInContext(n, s.template).Ok?;
      (ok ==> SignOutcome(s, n, x).0 == n.children + [x.parseInContext(n, s.template).value]) &&
      (!ok ==> SignOutcome(s, n, x).0 == n.children && SignOutcome(s, n, x).1 != Returned(None)) &&
      (SignOutcome(s, n, x).1 == Returned(None) <==> ok && x.signNode(x.parseInContext(n, s.template).value).None?) &&
      (SignOutcome(s, n, x).1.Panicked? <==> x.newCtx.None? && s.sigmethod == RSA_SHA1 && !x.rsaKey)
  {
  }

  /** DSA-SHA1 passes construction, yet Sign refuses it with the unsupported
      key type error and leaves `n` unchanged, whatever the key holds. */
  lemma DsaAcceptedButNotSigned(n: Node, x: Dsig)
    requires n.Element? && x.newCtx.None?
    ensures NewGenericSign(DSA_SHA1, EnvelopedSignature, SHA1, C14N1_0).Ok?
    ensures SignOutcome(NewGenericSign(DSA_SHA1, EnvelopedSignature, SHA1, C14N1_0).value, n, x) ==
            (n.children, Returned(Some(ErrUnsupportedKeyType)))
  {
    assert DSA_SHA1[34] != RSA_SHA1[34];
  }
}
