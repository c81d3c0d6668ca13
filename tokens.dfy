/** The token-stream side of Go's encoding/xml Encoder as the MarshalXML
    methods use it: start, character-data and end tokens, and the encoder's
    stack of open tags, which rejects an end tag that does not close the
    innermost open element. */
module Tokens {
  import opened Base
  import opened Ns

  datatype Token =
    | Start(name: XmlName, attrs: seq<XmlAttr>)
    | CharData(text: string)
    | End(name: XmlName)

  /** The start element handed to a MarshalXML method. */
  datatype StartElement = StartElement(name: XmlName, attrs: seq<XmlAttr>)

  /** The marker the encoder pushes around a nested MarshalXML call so that
      the callee cannot close tags it did not open. */
  const Mark: XmlName := XmlName("", "")

  /** One token against the stack of open tags; None when the encoder refuses it. */
  function Step(t: Token, stack: seq<XmlName>): Option<seq<XmlName>> {
    match t
    case Start(n, _) => if |n.local| == 0 then None else Some(stack + [n])
    case CharData(_) => Some(stack)
    case End(n) =>
      if |n.local| == 0 || stack == [] || stack[|stack| - 1] != n then None
      else Some(stack[..|stack| - 1])
  }

  function Run(ts: seq<Token>, stack: seq<XmlName>): Option<seq<XmlName>>
    decreases |ts|
  {
    if ts == [] then Some(stack)
    else match Step(ts[0], stack)
      case None => None
      case Some(s) => Run(ts[1..], s)
  }

  /** Every start token is closed by an end token of the same name, properly nested. */
  predicate Balanced(ts: seq<Token>) {
    Run(ts, []) == Some([])
  }

  lemma {:induction false} RunAppend(a: seq<Token>, b: seq<Token>, stack: seq<XmlName>)
    ensures Run(a + b, stack) == match Run(a, stack) case None => None case Some(s) => Run(b, s)
    decreases |a|
  {
    if a == [] {
      assert a + b == b;
    } else {
      assert (a + b)[0] == a[0] && (a + b)[1..] == a[1..] + b;
      match Step(a[0], stack) {
        case None =>
        case Some(s) => RunAppend(a[1..], b, s);
      }
    }
  }

  /** Running a stream on a deeper stack leaves the extra entries untouched. */
  lemma {:induction false} RunFrame(ts: seq<Token>, below: seq<XmlName>, p: seq<XmlName>, q: seq<XmlName>)
    requires Run(ts, p) == Some(q)
    ensures Run(ts, below + p) == Some(below + q)
    decreases |ts|
  {
    if ts != [] {
      var s :| Step(ts[0], p) == Some(s);
      match ts[0] {
        case Start(n, _) =>
          assert below + p + [n] == below + (p + [n]);
        case CharData(_) =>
        case End(n) =>
          assert (below + p)[..|below + p| - 1] == below + p[..|p| - 1];
      }
      RunFrame(ts[1..], below, s, q);
    }
  }

  /** A balanced stream leaves any stack as it found it. */
  lemma BalancedRun(ts: seq<Token>, stack: seq<XmlName>)
    requires Balanced(ts)
    ensures Run(ts, stack) == Some(stack)
  {
    RunFrame(ts, stack, [], []);
    assert stack + [] == stack;
  }

  lemma BalancedConcat(a: seq<Token>, b: seq<Token>)
    requires Balanced(a) && Balanced(b)
    ensures Balanced(a + b)
  {
    RunAppend(a, b, []);
  }

  /** One element: a start tag, balanced content, the matching end tag. */
  lemma BalancedWrap(n: XmlName, attrs: seq<XmlAttr>, inner: seq<Token>)
    requires n.local != "" && Balanced(inner)
    ensures Balanced([Start(n, attrs)] + inner + [End(n)])
  {
    RunAppend([Start(n, attrs)], inner + [End(n)], []);
    assert [Start(n, attrs)] + inner + [End(n)] == [Start(n, attrs)] + (inner + [End(n)]);
    assert [Start(n, attrs)][1..] == [];
    var empty: seq<XmlName> := [];
    assert empty + [n] == [n];
    assert Step(Start(n, attrs), empty) == Some([n]);
    assert Run([Start(n, attrs)], []) == Run([], [n]);
    RunAppend(inner, [End(n)], [n]);
    BalancedRun(inner, [n]);
  }

  /** The character data of a stream, in order. */
  function Texts(ts: seq<Token>): seq<string> {
    if ts == [] then []
    else (if ts[0].CharData? then [ts[0].text] else []) + Texts(ts[1..])
  }

  lemma {:induction false} TextsAppend(a: seq<Token>, b: seq<Token>)
    ensures Texts(a + b) == Texts(a) + Texts(b)
    decreases |a|
  {
    if a == [] {
      assert a + b == b;
    } else {
      assert (a + b)[1..] == a[1..] + b;
      TextsAppend(a[1..], b);
    }
  }

  /** The names of the elements that start at nesting depth `depth` and the
      ones below: with depth 0, the top-level elements of a stream. */
  function TopNames(ts: seq<Token>, depth: nat): seq<XmlName>
    decreases |ts|
  {
    if ts == [] then []
    else match ts[0]
      case Start(n, _) => (if depth == 0 then [n] else []) + TopNames(ts[1..], depth + 1)
      case CharData(_) => TopNames(ts[1..], depth)
      case End(_) => TopNames(ts[1..], if depth == 0 then 0 else depth - 1)
  }

  /** Depth after a stream that starts at `depth`, counting only starts and ends. */
  function Depth(ts: seq<Token>, depth: nat): nat
    decreases |ts|
  {
    if ts == [] then depth
    else match ts[0]
      case Start(_, _) => Depth(ts[1..], depth + 1)
      case CharData(_) => Depth(ts[1..], depth)
      case End(_) => Depth(ts[1..], if depth == 0 then 0 else depth - 1)
  }

  lemma {:induction false} TopNamesAppend(a: seq<Token>, b: seq<Token>, depth: nat)
    ensures TopNames(a + b, depth) == TopNames(a, depth) + TopNames(b, Depth(a, depth))
    ensures Depth(a + b, depth) == Depth(b, Depth(a, depth))
    decreases |a|
  {
    if a == [] {
      assert a + b == b;
    } else {
      assert (a + b)[0] == a[0] && (a + b)[1..] == a[1..] + b;
      match a[0] {
        case Start(_, _) => TopNamesAppend(a[1..], b, depth + 1);
        case CharData(_) => TopNamesAppend(a[1..], b, depth);
        case End(_) => TopNamesAppend(a[1..], b, if depth == 0 then 0 else depth - 1);
      }
    }
  }

  /** A balanced stream returns to the depth it started from, and names no
      element at depth 0 when it starts inside one. */
  lemma {:induction false} BalancedDepth(ts: seq<Token>, stack: seq<XmlName>, depth: nat)
    requires Run(ts, stack).Some? && depth >= |stack|
    ensures Depth(ts, depth) == depth - |stack| + |Run(ts, stack).value|
    ensures depth > |stack| ==> TopNames(ts, depth) == []
    decreases |ts|
  {
    if ts != [] {
      var s := Step(ts[0], stack).value;
      match ts[0] {
        case Start(_, _) => BalancedDepth(ts[1..], s, depth + 1);
        case CharData(_) => BalancedDepth(ts[1..], s, depth);
        case End(_) => BalancedDepth(ts[1..], s, depth - 1);
      }
    }
  }

  /** A single element is one top-level name, and a stream made of elements
      one after another lists their names in order. */
  lemma WrapTopNames(n: XmlName, attrs: seq<XmlAttr>, inner: seq<Token>)
    requires n.local != "" && Balanced(inner)
    ensures TopNames([Start(n, attrs)] + inner + [End(n)], 0) == [n]
    ensures Depth([Start(n, attrs)] + inner + [End(n)], 0) == 0
  {
    var ts := [Start(n, attrs)] + inner + [End(n)];
    assert ts == [Start(n, attrs)] + (inner + [End(n)]);
    assert [Start(n, attrs)][1..] == [] && [End(n)][1..] == [];
    TopNamesAppend([Start(n, attrs)], inner + [End(n)], 0);
    TopNamesAppend(inner, [End(n)], 1);
    BalancedDepth(inner, [], 1);
  }

  /** The names of the children of a stream that is one element, in order. */
  function ChildNames(ts: seq<Token>): seq<XmlName> {
    if |ts| < 2 then [] else TopNames(ts[1..|ts| - 1], 0)
  }

  /** Regrouping a concatenation (of token streams, or of open tags). */
  lemma Regroup<T>(a: seq<T>, b: seq<T>, c: seq<T>)
    ensures (a + b) + c == a + (b + c)
  {
  }

  /** The encoder: the tokens written so far and the stack of open tags. */
  class Encoder {
    var tokens: seq<Token>
    var open: seq<XmlName>

    constructor ()
      ensures tokens == [] && open == []
    {
      tokens := [];
      open := [];
    }

    /** Writes a token if the stack of open tags admits it; otherwise writes
        nothing and reports the error. The tokens are kept as given: the
        printer's skipping of an attribute with an empty local name happens
        when the text is written, which this model does not reach. */
    method EncodeToken(t: Token) returns (err: Option<Error>)
      modifies this
      ensures Step(t, old(open)).Some? ==> err.None? && open == Step(t, old(open)).value && tokens == old(tokens) + [t]
      ensures Step(t, old(open)).None? ==> err.Some? && open == old(open) && tokens == old(tokens)
    {
      match t {
        case Start(n, _) =>
          if |n.local| == 0 {
            return Some(Error("xml: start tag with no name"));
          }
          open := open + [n];
        case CharData(_) =>
        case End(n) =>
          if |n.local| == 0 {
            return Some(Error("xml: end tag with no name"));
          }
          if open == [] || |open[|open| - 1].local| == 0 {
            return Some(Error("xml: end tag </" + n.local + "> without start tag"));
          }
          var top := open[|open| - 1];
          if top.local != n.local {
            return Some(Error("xml: end tag </" + n.local + "> does not match start tag <" + top.local + ">"));
          }
          if top.space != n.space {
            return Some(Error("xml: end tag </" + n.local + "> in namespace " + n.space +
                              " does not match start tag <" + top.local + "> in namespace " + top.space));
          }
          open := open[..|open| - 1];
      }
      tokens := tokens + [t];
      return None;
    }

    /** The marker pushed before a nested MarshalXML call. */
    method PushMark() returns (n: nat)
      modifies this
      ensures open == old(open) + [Mark] && tokens == old(tokens)
      ensures n == |open|
    {
      open := open + [Mark];
      n := |open|;
    }

    /** After a nested MarshalXML call returned without error: fail if it left
        tags open above the marker at position `n - 1`, else drop the marker. */
    method CloseMark(n: nat) returns (err: Option<Error>)
      requires 1 <= n <= |open| && open[n - 1] == Mark
      modifies this
      ensures tokens == old(tokens)
      ensures err.None? <==> |old(open)| == n
      ensures err.None? ==> open == old(open)[..n - 1]
      ensures err.Some? ==> open == old(open)
    {
      if |open| > n {
        return Some(Error("xml: MarshalXML wrote invalid XML: <" + open[|open| - 1].local + "> not closed"));
      }
      open := open[..n - 1];
      return None;
    }
  }
}
