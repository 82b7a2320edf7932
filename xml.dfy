/** An already-parsed XML document, as the LINQ to XML queries the metadata
    walker uses see it: elements with expanded names, attributes and element
    children. Text, comments and processing instructions play no part in those
    queries and are not represented. */
module Xml {
  import opened Results

  /** An expanded name: a namespace URI (empty for none) and a local name. */
  datatype XName = XName(namespace: string, localName: string)

  datatype XAttribute = XAttribute(name: XName, value: string)

  datatype XElement = XElement(name: XName, attributes: seq<XAttribute>, children: seq<XElement>)

  /** `e` and all elements below it, in document order (pre-order). */
  function Subtree(e: XElement): (r: seq<XElement>)
    decreases e, 1
    ensures |r| > 0 && r[0] == e
  {
    [e] + SubtreesOf(e.children)
  }

  /** The subtrees of `es`, one after the other. */
  function SubtreesOf(es: seq<XElement>): seq<XElement>
    decreases es, 0
  {
    if es == [] then [] else Subtree(es[0]) + SubtreesOf(es[1..])
  }

  /** The elements of `es` named `name`, in their order. */
  function Named(es: seq<XElement>, name: XName): (r: seq<XElement>)
    ensures |r| <= |es|
    ensures forall i :: 0 <= i < |r| ==> r[i].name == name
  {
    if es == [] then []
    else if es[0].name == name then [es[0]] + Named(es[1..], name)
    else Named(es[1..], name)
  }

  /** `XDocument.Descendants(name)`: every element of the document with that
      expanded name, the root included, in document order. */
  function DocumentDescendants(root: XElement, name: XName): seq<XElement>
  {
    Named(Subtree(root), name)
  }

  /** `XContainer.Elements(name)`: the direct children with that expanded name, in order. */
  function Elements(e: XElement, name: XName): seq<XElement>
  {
    Named(e.children, name)
  }

  /** `XContainer.Element(name)`: the first such child, or null. */
  function Element(e: XElement, name: XName): (r: Option<XElement>)
    ensures r.Some? <==> Elements(e, name) != []
    ensures r.Some? ==> r.value == Elements(e, name)[0]
  {
    var matching := Elements(e, name);
    if matching == [] then None else Some(matching[0])
  }

  /** `XElement.Attribute(localName)`: the value of the first attribute whose
      name is `localName` in no namespace, or null. */
  function Attribute(e: XElement, localName: string): (r: Option<string>)
    ensures r.None? <==> forall i :: 0 <= i < |e.attributes| ==> e.attributes[i].name != XName("", localName)
    ensures r.Some? ==> exists i :: 0 <= i < |e.attributes| && e.attributes[i] == XAttribute(XName("", localName), r.value)
  {
    AttributeIn(e.attributes, XName("", localName))
  }

  function AttributeIn(attributes: seq<XAttribute>, name: XName): (r: Option<string>)
    ensures r.None? <==> forall i :: 0 <= i < |attributes| ==> attributes[i].name != name
    ensures r.Some? ==> exists i :: 0 <= i < |attributes| && attributes[i] == XAttribute(name, r.value)
  {
    if attributes == [] then None
    else if attributes[0].name == name then Some(attributes[0].value)
    else
      var r := AttributeIn(attributes[1..], name);
      assert r.None? ==> forall i :: 1 <= i < |attributes| ==> attributes[1..][i - 1] == attributes[i];
      r
  }

  /** The filter keeps exactly the elements with the name, nothing else. */
  lemma {:induction false} NamedMembers(es: seq<XElement>, name: XName, x: XElement)
    ensures x in Named(es, name) <==> x in es && x.name == name
  {
    if es != [] {
      NamedMembers(es[1..], name, x);
      assert es == [es[0]] + es[1..];
    }
  }

  lemma {:induction false} NamedNone(es: seq<XElement>, name: XName)
    requires forall i :: 0 <= i < |es| ==> es[i].name != name
    ensures Named(es, name) == []
  {
    if es != [] {
      NamedNone(es[1..], name);
    }
  }

  lemma {:induction false} NamedAll(es: seq<XElement>, name: XName)
    requires forall i :: 0 <= i < |es| ==> es[i].name == name
    ensures Named(es, name) == es
  {
    if es != [] {
      NamedAll(es[1..], name);
    }
  }

  /** The filter keeps order: filtering a concatenation filters each part. */
  lemma {:induction false} NamedAppend(a: seq<XElement>, b: seq<XElement>, name: XName)
    ensures Named(a + b, name) == Named(a, name) + Named(b, name)
  {
    if a == [] {
      assert a + b == b;
    } else {
      assert (a + b)[1..] == a[1..] + b;
      NamedAppend(a[1..], b, name);
    }
  }

  /** An element lies in a subtree when it is its root or lies in the subtree
      of one of the root's children: `Subtree` reaches every element, at any depth. */
  lemma {:induction false} SubtreeMembers(e: XElement, x: XElement)
    decreases e, 1
    ensures x in Subtree(e) <==> x == e || exists c :: c in e.children && x in Subtree(c)
  {
    SubtreesOfMembers(e.children, x);
  }

  lemma {:induction false} SubtreesOfMembers(es: seq<XElement>, x: XElement)
    decreases es, 0
    ensures x in SubtreesOf(es) <==> exists c :: c in es && x in Subtree(c)
  {
    if es != [] {
      SubtreesOfMembers(es[1..], x);
      if x in Subtree(es[0]) {
        assert es[0] in es;
      }
      if exists c :: c in es && x in Subtree(c) {
        var c :| c in es && x in Subtree(c);
        if c != es[0] {
          assert c in es[1..];
        }
      }
    }
  }
}
