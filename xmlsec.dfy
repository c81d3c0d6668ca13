/** The foreign libraries the transport code drives: libxml2 parsing and
    dumping, the xmlsec signature object, compress/flate, and signature
    verification. None of them is modelled; each becomes a field of `Lib`,
    a fixed function from its inputs to its outcome. */
module Xmlsec {
  import opened Base
  import opened Dom

  /** A key; `hasX509` says whether `key.HasX509()` returns nil. */
  datatype Key = Key(hasX509: bool)

  /** The calls that build and apply a signature, in the order they are made. */
  datatype Call = NewSignature | AddReference | AddTransform | AddKeyValue | AddX509Data | SignWith

  /** A parsed document, known only by identity. */
  datatype Doc = Doc(handle: nat)

  /** An element value: what a type assertion to `types.Element` admits. */
  type ElementNode = n: Node | n.Element? witness Node.Element("", None, [], [], [])

  /** What a flate reader does with the bytes its source can hand it: it
      reaches the end of the final DEFLATE block within them, with the
      inflated bytes; it needs more than there are; or it finds them corrupt. */
  datatype Inflation = Finished(out: Bytes) | Short | Refused(err: Error)

  datatype Lib = Lib(
    parse: Bytes -> Result<Doc>,
    documentElement: Doc -> Result<ElementNode>,
    /** The signature calls that fail, with the error each gives. */
    fails: map<Call, Error>,
    /** `doc.Dump(false)` after signing with `key`. */
    dump: (Doc, Key) -> Bytes,
    /** Writing through a flate writer into a buffer and closing it. */
    deflate: Bytes -> Result<Bytes>,
    /** A flate reader over a source that can hand it exactly these bytes. */
    inflate: Bytes -> Inflation,
    /** The outcome of `dsig.NewSignatureVerify()`. */
    newVerifier: Option<Error>,
    verify: Bytes -> Option<Error>)

  /** The error a signature call gives, if it fails. */
  function Fault(lib: Lib, c: Call): (r: Option<Error>)
    ensures r.Some? <==> c in lib.fails
  {
    if c in lib.fails then Some(lib.fails[c]) else None
  }

  /** The error of the first failing call of `calls`, if any. */
  function FirstFault(lib: Lib, calls: seq<Call>): (r: Option<Error>)
  {
    if calls == [] then None
    else if calls[0] in lib.fails then Some(lib.fails[calls[0]])
    else FirstFault(lib, calls[1..])
  }

  /** The first call is tried before the rest. */
  lemma FirstFaultCons(lib: Lib, c: Call, rest: seq<Call>)
    ensures FirstFault(lib, [c] + rest) == if c in lib.fails then Some(lib.fails[c]) else FirstFault(lib, rest)
  {
    assert ([c] + rest)[1..] == rest;
  }

  /** FirstFault finds the call at `i` exactly when it fails and no call
      before it does. */
  lemma {:induction false} FirstFaultAt(lib: Lib, calls: seq<Call>, i: nat)
    requires i < |calls| && calls[i] in lib.fails
    requires forall j :: 0 <= j < i ==> calls[j] !in lib.fails
    ensures FirstFault(lib, calls) == Some(lib.fails[calls[i]])
    decreases i
  {
    if i > 0 {
      FirstFaultAt(lib, calls[1..], i - 1);
    }
  }

  /** No failing call, no fault. */
  lemma {:induction false} FirstFaultNone(lib: Lib, calls: seq<Call>)
    ensures FirstFault(lib, calls).None? <==> forall j :: 0 <= j < |calls| ==> calls[j] !in lib.fails
    decreases |calls|
  {
    if calls != [] {
      FirstFaultNone(lib, calls[1..]);
      if calls[0] !in lib.fails {
        forall j | 1 <= j < |calls| ensures calls[j] == calls[1..][j - 1] { }
      }
    }
  }

  /** A `*dsig.Signature` under construction: the parts added so far. */
  class Signature {
    var parts: seq<Call>
    const lib: Lib

    /** `dsig.NewSignature`: the object, and the error the call reports. */
    constructor (lib: Lib)
      ensures this.lib == lib && parts == [NewSignature]
    {
      this.lib := lib;
      parts := [NewSignature];
    }

    /** One of AddReference, AddTransform, AddKeyValue, AddX509Data, Sign. */
    method Add(c: Call) returns (err: Option<Error>)
      requires c != NewSignature
      modifies this
      ensures parts == old(parts) + [c]
      ensures err == Fault(lib, c)
    {
      parts := parts + [c];
      err := Fault(lib, c);
    }
  }
}
