/** The transport encoding of encode.go: serialize, sign when a key is
    given, then deflate and Base64-encode when asked to compress (the
    DEFLATE encoding of section 3.4.4.1 of the SAML 2.0 Bindings). */
module Codec {
  import opened Base
  import opened Xmlsec
  import Dom
  import Base64

  /** The signature calls encode makes for `key`, in the order it makes them. */
  function SignSteps(key: Key): (r: seq<Call>)
    ensures |r| == (if key.hasX509 then 6 else 5)
    ensures r[0] == NewSignature && r[1] == AddReference && r[2] == AddTransform && r[3] == AddKeyValue
    ensures r[|r| - 1] == SignWith
    ensures AddX509Data in r <==> key.hasX509
  {
    [NewSignature, AddReference, AddTransform, AddKeyValue] + (if key.hasX509 then [AddX509Data] else []) + [SignWith]
  }

  /** Lines 53 to 97 of encode.go with every error checked where it is made:
      parse, fetch the root, create the signature, add its parts, sign, and
      dump the signed document. */
  function Signed(xml: Bytes, key: Key, lib: Lib): Result<Bytes> {
    match lib.parse(xml)
    case Err(e) => Err(e)
    case Ok(doc) =>
      match lib.documentElement(doc)
      case Err(e) => Err(e)
      case Ok(_) =>
        match FirstFault(lib, SignSteps(key))
        case Some(e) => Err(e)
        case None => Ok(lib.dump(doc, key))
  }

  /** How the signing code as written ends: it returns, or a failed
      NewSignature lets it go on to call AddReference and the later methods
      on the signature that was not created. go-xmlsec is not part of this
      model; by Go's convention that signature is a nil *Signature, and what
      calling its methods does (most likely a nil-pointer panic) is left open. */
  datatype AsWritten = Returned(result: Result<Bytes>) | CallsOnUncreated

  /** Lines 53 to 97 as written: the error of NewSignature is looked at only
      after Dump (line 94), so a failed creation is not reported where it
      happens; with a created signature, each later call's error is checked
      where it is made. */
  function SignedAsWritten(xml: Bytes, key: Key, lib: Lib): AsWritten {
    match lib.parse(xml)
    case Err(e) => Returned(Err(e))
    case Ok(doc) =>
      match lib.documentElement(doc)
      case Err(e) => Returned(Err(e))
      case Ok(_) =>
        if NewSignature in lib.fails then CallsOnUncreated
        else
          match FirstFault(lib, SignSteps(key)[1..])
          case Some(e) => Returned(Err(e))
          case None => Returned(Ok(lib.dump(doc, key)))
  }

  /** Lines 99 to 126: the text itself, or Base64 of its DEFLATE compression. */
  function Compressed(xml: Bytes, compress: bool, lib: Lib): Result<Bytes> {
    if !compress then Ok(xml)
    else
      match lib.deflate(xml)
      case Err(e) => Err(e)
      case Ok(c) => Ok(Base64.Encode(c))
  }

  /** What `encode` returns for the outcome of Serialize. */
  function EncodeSpec(serialized: Result<Bytes>, key: Option<Key>, compress: bool, lib: Lib): Result<Bytes> {
    match serialized
    case Err(e) => Err(e)
    case Ok(xml) =>
      if key.None? then Compressed(xml, compress, lib)
      else
        match Signed(xml, key.value, lib)
        case Err(e) => Err(e)
        case Ok(s) => Compressed(s, compress, lib)
  }

  /** `encode(s, key, compress)`, given what `s.Serialize()` returned. */
  method Encode(serialized: Result<Bytes>, key: Option<Key>, compress: bool, lib: Lib) returns (r: Result<Bytes>)
    ensures r == EncodeSpec(serialized, key, compress, lib)
  {
    if serialized.Err? {
      return Err(serialized.error);
    }
    var xmlstr := serialized.value;
    if key.Some? {
      var s := Sign(xmlstr, key.value, lib);
      if s.Err? {
        return Err(s.error);
      }
      xmlstr := s.value;
    }
    if !compress {
      return Ok(xmlstr);
    }
    var buf := lib.deflate(xmlstr);
    if buf.Err? {
      return Err(buf.error);
    }
    var ret := Base64.Encode(buf.value);
    return Ok(ret);
  }

  /** The signing half of `encode` (lines 53 to 97), checking each error
      where it is made. */
  method Sign(xml: Bytes, key: Key, lib: Lib) returns (r: Result<Bytes>)
    ensures r == Signed(xml, key, lib)
  {
    var doc := lib.parse(xml);
    if doc.Err? {
      return Err(doc.error);
    }
    var root := lib.documentElement(doc.value);
    if root.Err? {
      return Err(root.error);
    }
    SignFaultOrder(key, lib);
    var sig := new Signature(lib);
    var err := Fault(lib, NewSignature);
    if err.Some? {
      return Err(err.value);
    }
    err := sig.Add(AddReference);
    if err.Some? {
      return Err(err.value);
    }
    err := sig.Add(AddTransform);
    if err.Some? {
      return Err(err.value);
    }
    err := sig.Add(AddKeyValue);
    if err.Some? {
      return Err(err.value);
    }
    if key.hasX509 {
      err := sig.Add(AddX509Data);
      if err.Some? {
        return Err(err.value);
      }
    }
    err := sig.Add(SignWith);
    if err.Some? {
      return Err(err.value);
    }
    assert sig.parts == SignSteps(key);
    return Ok(lib.dump(doc.value, key));
  }

  // ----- Properties -----

  /** The calls are tried in order: the error is that of NewSignature, else
      of AddReference, AddTransform, AddKeyValue, AddX509Data (with an X.509
      key only) and Sign, whichever fails first. */
  lemma SignFaultOrder(key: Key, lib: Lib)
    ensures FirstFault(lib, SignSteps(key)) ==
      if NewSignature in lib.fails then Some(lib.fails[NewSignature])
      else if AddReference in lib.fails then Some(lib.fails[AddReference])
      else if AddTransform in lib.fails then Some(lib.fails[AddTransform])
      else if AddKeyValue in lib.fails then Some(lib.fails[AddKeyValue])
      else if key.hasX509 && AddX509Data in lib.fails then Some(lib.fails[AddX509Data])
      else if SignWith in lib.fails then Some(lib.fails[SignWith])
      else None
  {
    var s3 := SignSteps(key)[3..];
    var s2 := [AddTransform] + s3;
    var s1 := [AddReference] + s2;
    assert SignSteps(key) == [NewSignature] + s1;
    FirstFaultCons(lib, NewSignature, s1);
    FirstFaultCons(lib, AddReference, s2);
    FirstFaultCons(lib, AddTransform, s3);
    KeyValueFaultOrder(key, lib);
  }

  /** The last calls: AddKeyValue, AddX509Data with an X.509 key, Sign. */
  lemma KeyValueFaultOrder(key: Key, lib: Lib)
    ensures FirstFault(lib, SignSteps(key)[3..]) ==
      if AddKeyValue in lib.fails then Some(lib.fails[AddKeyValue])
      else if key.hasX509 && AddX509Data in lib.fails then Some(lib.fails[AddX509Data])
      else if SignWith in lib.fails then Some(lib.fails[SignWith])
      else None
  {
    var tail := if key.hasX509 then [AddX509Data, SignWith] else [SignWith];
    assert SignSteps(key)[3..] == [AddKeyValue] + tail;
    FirstFaultCons(lib, AddKeyValue, tail);
    FirstFaultCons(lib, SignWith, []);
    if key.hasX509 {
      FirstFaultCons(lib, AddX509Data, [SignWith]);
    }
  }

  /** A Serialize error is returned as it is, before anything else happens. */
  lemma SerializeErrorFirst(e: Error, key: Option<Key>, compress: bool, lib: Lib)
    ensures EncodeSpec(Err(e), key, compress, lib) == Err(e)
  {
  }

  /** Without a key nothing is parsed or signed: the outcome depends only on
      the compressor, and without compression the text passes through. */
  lemma NoKeyNoSigning(xml: Bytes, compress: bool, lib: Lib, other: Lib)
    requires other.deflate == lib.deflate
    ensures EncodeSpec(Ok(xml), None, compress, lib) == EncodeSpec(Ok(xml), None, compress, other)
    ensures EncodeSpec(Ok(xml), None, false, lib) == Ok(xml)
  {
  }

  /** Without compression the (possibly signed) text is returned verbatim. */
  lemma UncompressedVerbatim(xml: Bytes, key: Key, lib: Lib)
    ensures EncodeSpec(Ok(xml), Some(key), false, lib) == Signed(xml, key, lib)
  {
  }

  /** The first failing signature call decides the error, in the order
      NewSignature, AddReference, AddTransform, AddKeyValue, AddX509Data, Sign. */
  lemma FirstFailingStepReported(xml: Bytes, key: Key, lib: Lib, i: nat)
    requires lib.parse(xml).Ok? && lib.documentElement(lib.parse(xml).value).Ok?
    requires i < |SignSteps(key)| && SignSteps(key)[i] in lib.fails
    requires forall j :: 0 <= j < i ==> SignSteps(key)[j] !in lib.fails
    ensures Signed(xml, key, lib) == Err(lib.fails[SignSteps(key)[i]])
  {
    FirstFaultAt(lib, SignSteps(key), i);
  }

  /** Signing succeeds exactly when parsing, fetching the root and every
      signature call succeed; the result is then the dumped document. */
  lemma SignedOk(xml: Bytes, key: Key, lib: Lib)
    ensures Signed(xml, key, lib).Ok? <==>
      lib.parse(xml).Ok? && lib.documentElement(lib.parse(xml).value).Ok? &&
      forall j :: 0 <= j < |SignSteps(key)| ==> SignSteps(key)[j] !in lib.fails
    ensures Signed(xml, key, lib).Ok? ==> Signed(xml, key, lib).value == lib.dump(lib.parse(xml).value, key)
  {
    FirstFaultNone(lib, SignSteps(key));
  }

  /** Compressed output is the padded Base64 of the deflated bytes, 4·⌈n/3⌉
      long for n deflated bytes, and decodes back to them. */
  lemma CompressedShape(xml: Bytes, lib: Lib)
    ensures Compressed(xml, true, lib).Ok? <==> lib.deflate(xml).Ok?
    ensures Compressed(xml, true, lib).Ok? ==>
      var out := Compressed(xml, true, lib).value;
      |out| == Base64.EncodedLen(|lib.deflate(xml).value|) &&
      Base64.Decode(out) == Ok(lib.deflate(xml).value)
  {
    if lib.deflate(xml).Ok? {
      Base64.RoundTrip(lib.deflate(xml).value);
    }
  }

  /** The receiving side's first two stages, a flate reader over a Base64
      stream decoder copied to its end and closed. The flate reader pulls
      decoded bytes only as it needs them, so the stream's own end (an
      error, or running out, which flate reports as "unexpected EOF")
      matters only when the inflater needs more than the stream handed
      out. */
  function Inflated(b: Bytes, lib: Lib): Result<Bytes> {
    var y := Base64.Stream(b);
    match lib.inflate(y.bytes)
    case Finished(out) => Ok(out)
    case Refused(e) => Err(e)
    case Short => Err(if y.end.Some? then y.end.value else Base64.UnexpectedEOF)
  }

  /** Text DecodeString accepts is inflated from the bytes it decodes to,
      and an inflater that runs short reports "unexpected EOF". */
  lemma InflatedWhole(b: Bytes, lib: Lib)
    requires Base64.Decode(b).Ok?
    ensures var c := Base64.Decode(b).value;
      Inflated(b, lib) ==
        match lib.inflate(c)
        case Finished(out) => Ok(out)
        case Refused(e) => Err(e)
        case Short => Err(Base64.UnexpectedEOF)
  {
    Base64.StreamAgrees(b);
  }

  /** One to three characters after an encoded DEFLATE stream do not
      change the result when the inflater finishes: the dangling group's
      "unexpected EOF" is not reported. If the inflater needs more, that
      error is what it reports. */
  lemma DanglingIgnored(c: Bytes, d: Bytes, lib: Lib)
    requires 1 <= |d| <= 3 && forall i :: 0 <= i < |d| ==> d[i] != 10 && d[i] != 13
    ensures lib.inflate(c).Finished? ==> Inflated(Base64.Encode(c) + d, lib) == Ok(lib.inflate(c).out)
    ensures lib.inflate(c).Short? ==> Inflated(Base64.Encode(c) + d, lib) == Err(Base64.UnexpectedEOF)
  {
    Base64.EncodedThenDangling(c, d);
  }

  /** Without a key, decoding and inflating the output gives back the
      serialized text, provided inflating what deflating produced finishes
      with the original bytes. */
  lemma RoundTrip(xml: Bytes, lib: Lib)
    requires lib.deflate(xml).Ok? ==> lib.inflate(lib.deflate(xml).value) == Finished(xml)
    requires EncodeSpec(Ok(xml), None, true, lib).Ok?
    ensures Inflated(EncodeSpec(Ok(xml), None, true, lib).value, lib) == Ok(xml)
  {
    CompressedShape(xml, lib);
    InflatedWhole(EncodeSpec(Ok(xml), None, true, lib).value, lib);
  }

  // ----- Finding: the late NewSignature check -----

  /** As written, a failed creation is not reported where it happens,
      whatever the other calls would do: the code goes on to call methods on
      the signature that was not created. Checked where it is made, the
      creation error is what signing returns. */
  lemma CreationErrorLostAsWritten(xml: Bytes, key: Key, lib: Lib)
    requires lib.parse(xml).Ok? && lib.documentElement(lib.parse(xml).value).Ok?
    requires NewSignature in lib.fails
    ensures SignedAsWritten(xml, key, lib) == CallsOnUncreated
    ensures Signed(xml, key, lib) == Err(lib.fails[NewSignature])
  {
    FirstFaultAt(lib, SignSteps(key), 0);
  }

  /** With the check where the call is made, a failed creation is reported
      as such, and no part is added to the signature. */
  lemma CreationErrorReported(xml: Bytes, key: Key, lib: Lib)
    requires lib.parse(xml).Ok? && lib.documentElement(lib.parse(xml).value).Ok?
    requires NewSignature in lib.fails
    ensures Signed(xml, key, lib) == Err(lib.fails[NewSignature])
  {
    FirstFaultAt(lib, SignSteps(key), 0);
  }

  /** The two agree whenever the signature is created. */
  lemma AgreeWhenCreated(xml: Bytes, key: Key, lib: Lib)
    requires NewSignature !in lib.fails
    ensures SignedAsWritten(xml, key, lib) == Returned(Signed(xml, key, lib))
  {
    assert SignSteps(key)[0] == NewSignature;
  }
}
