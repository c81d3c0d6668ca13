/** The part of the libxml2 DOM the SAML code drives: element trees as
    values, a mutable element with the setters the builders call, and a
    document that creates elements (or refuses to). */
module Dom {
  import opened Base
  import opened Ns

  datatype Attr = Attr(key: string, value: string)

  /** An XML node: an element with its active namespace, its namespace
      declarations, attributes in document order and children, or text. */
  datatype Node =
    | Element(name: string, ns: Option<Namespace>, nsDecls: seq<Namespace>,
              attrs: seq<Attr>, children: seq<Node>)
    | Text(content: string)

  function Keys(attrs: seq<Attr>): set<string> {
    set a | a in attrs :: a.key
  }

  /** The value of the first attribute named `key`. */
  function GetAttr(attrs: seq<Attr>, key: string): (r: Option<string>)
    ensures r.Some? <==> key in Keys(attrs)
  {
    if attrs == [] then None
    else if attrs[0].key == key then Some(attrs[0].value)
    else
      assert Keys(attrs) == {attrs[0].key} + Keys(attrs[1..]);
      GetAttr(attrs[1..], key)
  }

  /** xmlSetProp: overwrite the attribute named `key` in place, or append it. */
  function SetAttr(attrs: seq<Attr>, key: string, value: string): seq<Attr>
  {
    if attrs == [] then [Attr(key, value)]
    else if attrs[0].key == key then [Attr(key, value)] + attrs[1..]
    else [attrs[0]] + SetAttr(attrs[1..], key, value)
  }

  /** After SetAttr the key reads back the new value, every other key reads
      what it read before, and the key set gains exactly `key`. */
  lemma {:induction false} SetAttrGet(attrs: seq<Attr>, key: string, value: string, other: string)
    ensures GetAttr(SetAttr(attrs, key, value), key) == Some(value)
    ensures other != key ==> GetAttr(SetAttr(attrs, key, value), other) == GetAttr(attrs, other)
    ensures Keys(SetAttr(attrs, key, value)) == Keys(attrs) + {key}
  {
    if attrs != [] {
      var r := SetAttr(attrs, key, value);
      assert Keys(attrs) == {attrs[0].key} + Keys(attrs[1..]);
      assert Keys(r) == {r[0].key} + Keys(r[1..]);
      if attrs[0].key != key {
        SetAttrGet(attrs[1..], key, value, other);
      }
    }
  }

  /** The first attribute named `key` gives its value. */
  lemma {:induction false} GetAttrAt(attrs: seq<Attr>, i: nat, key: string)
    requires i < |attrs| && attrs[i].key == key
    requires forall j :: 0 <= j < i ==> attrs[j].key != key
    ensures GetAttr(attrs, key) == Some(attrs[i].value)
    decreases i
  {
    if i > 0 {
      GetAttrAt(attrs[1..], i - 1, key);
    }
  }

  /** No attribute named `key`: no value. */
  lemma GetAttrAbsent(attrs: seq<Attr>, key: string)
    requires forall j :: 0 <= j < |attrs| ==> attrs[j].key != key
    ensures GetAttr(attrs, key) == None
  {
  }

  /** Setting a new key appends it, so attributes keep the order they were set in. */
  lemma {:induction false} SetAttrFresh(attrs: seq<Attr>, key: string, value: string)
    requires forall j :: 0 <= j < |attrs| ==> attrs[j].key != key
    ensures SetAttr(attrs, key, value) == attrs + [Attr(key, value)]
  {
    if attrs != [] {
      SetAttrFresh(attrs[1..], key, value);
      assert attrs == [attrs[0]] + attrs[1..];
    }
  }

  /** Setting an existing key keeps the length and order of the attributes. */
  lemma {:induction false} SetAttrExisting(attrs: seq<Attr>, key: string, value: string)
    requires key in Keys(attrs)
    ensures |SetAttr(attrs, key, value)| == |attrs|
    ensures Keys(SetAttr(attrs, key, value)) == Keys(attrs)
  {
    assert Keys(attrs) == {attrs[0].key} + Keys(attrs[1..]);
    if attrs[0].key != key {
      SetAttrExisting(attrs[1..], key, value);
    }
    SetAttrGet(attrs, key, value, key);
  }

  /** The position of the first ':' at or after `i`, or |qname| when there is none. */
  function ColonAt(qname: string, i: nat): (k: nat)
    requires i <= |qname|
    ensures i <= k <= |qname|
    ensures k < |qname| ==> qname[k] == ':'
    ensures forall j :: i <= j < k ==> qname[j] != ':'
    decreases |qname| - i
  {
    if i == |qname| || qname[i] == ':' then i else ColonAt(qname, i + 1)
  }

  /** The prefix of a qualified name: what precedes its first ':', or ""
      when it has none. */
  function PrefixOf(qname: string): (r: string)
    ensures ':' !in r && |r| <= |qname|
    ensures r != "" ==> |r| < |qname| && qname[..|r|] == r && qname[|r|] == ':'
  {
    var k := ColonAt(qname, 0);
    if k < |qname| then qname[..k] else ""
  }

  /** The first ':' found from `i` is the one at `k` when none comes before it. */
  lemma {:induction false} ColonAtFirst(qname: string, i: nat, k: nat)
    requires i <= k < |qname| && qname[k] == ':'
    requires forall j :: i <= j < k ==> qname[j] != ':'
    ensures ColonAt(qname, i) == k
    decreases k - i
  {
    if i < k {
      ColonAtFirst(qname, i + 1, k);
    }
  }

  /** A name `prefix:local` has the prefix it was built with. */
  lemma PrefixOfQualified(prefix: string, local: string)
    requires ':' !in prefix
    ensures PrefixOf(prefix + ":" + local) == prefix
  {
    var q := prefix + ":" + local;
    assert q[..|prefix|] == prefix;
    ColonAtFirst(q, 0, |prefix|);
  }

  /** The concatenated text children of an element. */
  function TextOf(children: seq<Node>): string {
    if children == [] then ""
    else (if children[0].Text? then children[0].content else "") + TextOf(children[1..])
  }

  /** The XPath string value of `@key` on an element: its value, or "" when absent. */
  function AttrString(n: Node, key: string): string {
    if n.Element? then
      match GetAttr(n.attrs, key)
      case Some(v) => v
      case None => ""
    else ""
  }

  /** The first child element named `name` (an XPath child step's first node). */
  function FirstChild(children: seq<Node>, name: string): (r: Option<Node>)
    ensures r.Some? ==> r.value in children && r.value.Element? && r.value.name == name
  {
    if children == [] then None
    else if children[0].Element? && children[0].name == name then Some(children[0])
    else FirstChild(children[1..], name)
  }

  /** An element under construction (libxml2's `types.Element`). */
  class Element {
    var name: string
    var ns: Option<Namespace>
    var nsDecls: seq<Namespace>
    var attrs: seq<Attr>
    var children: seq<Node>

    /** The tree this element stands for, as a value. */
    function Value(): (n: Node)
      reads this
      ensures n.Element? && n.name == name && n.attrs == attrs && n.children == children
    {
      Node.Element(name, ns, nsDecls, attrs, children)
    }

    constructor Create(name: string)
      ensures Value() == Node.Element(name, None, [], [], [])
    {
      this.name := name;
      ns := None;
      nsDecls := [];
      attrs := [];
      children := [];
    }

    /** An element holding a tree built elsewhere. */
    constructor FromValue(n: Node)
      requires n.Element?
      ensures Value() == n
    {
      name := n.name;
      ns := n.ns;
      nsDecls := n.nsDecls;
      attrs := n.attrs;
      children := n.children;
    }

    method SetAttribute(key: string, value: string)
      modifies this
      ensures Value() == Node.Element(old(name), old(ns), old(nsDecls), SetAttr(old(attrs), key, value), old(children))
    {
      attrs := SetAttr(attrs, key, value);
    }

    method SetNodeName(n: string)
      modifies this
      ensures Value() == Node.Element(n, old(ns), old(nsDecls), old(attrs), old(children))
    {
      name := n;
    }

    /** Declares `prefix` for `uri` here and, when `activate`, puts the
        element in it. The declaration is appended even when the element
        already declares `prefix`; libxml2's refusal of such a duplicate is
        not modelled. */
    method SetNamespace(uri: string, prefix: string, activate: bool)
      modifies this
      ensures Value() == Node.Element(old(name), if activate then Some(Namespace(prefix, uri)) else old(ns),
                                   old(nsDecls) + [Namespace(prefix, uri)], old(attrs), old(children))
    {
      nsDecls := nsDecls + [Namespace(prefix, uri)];
      if activate {
        ns := Some(Namespace(prefix, uri));
      }
    }

    /** Appends a child; the child's tree is taken as it is at this point. */
    method AddChild(child: Node)
      modifies this
      ensures Value() == Node.Element(old(name), old(ns), old(nsDecls), old(attrs), old(children) + [child])
    {
      children := children + [child];
    }

    method AppendText(s: string)
      modifies this
      ensures Value() == Node.Element(old(name), old(ns), old(nsDecls), old(attrs), old(children) + [Text(s)])
    {
      children := children + [Text(s)];
    }
  }

  /** A document as a factory of elements. Element creation is foreign; the
      names it refuses, with the error it gives, are a parameter. */
  datatype Document = Document(refused: map<string, Error>)

  method CreateElement(doc: Document, name: string) returns (r: Result<Element>)
    ensures r.Err? <==> name in doc.refused
    ensures r.Err? ==> r.error == doc.refused[name]
    ensures r.Ok? ==> fresh(r.value) && r.value.Value() == Node.Element(name, None, [], [], [])
  {
    if name in doc.refused {
      return Err(doc.refused[name]);
    }
    var e := new Element.Create(name);
    return Ok(e);
  }

  /** An element in namespace `uri`, declared on it under the prefix of `qname`. */
  method CreateElementNS(doc: Document, uri: string, qname: string) returns (r: Result<Element>)
    ensures r.Err? <==> qname in doc.refused
    ensures r.Err? ==> r.error == doc.refused[qname]
    ensures r.Ok? ==> (fresh(r.value) && r.value.Value() ==
      Node.Element(qname, Some(Namespace(PrefixOf(qname), uri)), [Namespace(PrefixOf(qname), uri)], [], []))
  {
    if qname in doc.refused {
      return Err(doc.refused[qname]);
    }
    var e := new Element.Create(qname);
    e.SetNamespace(uri, PrefixOf(qname), true);
    return Ok(e);
  }
}
