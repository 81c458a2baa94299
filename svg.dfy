/** The part of the SVG document the icon builds: leaf shape elements held as
    values, the attribute-name mapping applied when an element is made, and a
    parent element whose list of children grows as shapes are appended. */
module Svg {

  /** The geometry of one shape in whole DIT units; rotations and slice
      widths are in degrees, 0 pointing up and increasing clockwise. */
  datatype Shape =
    | Pulse(rotation: real, angle: real, innerUnits: int, widthUnits: int)
    | Line(rotation: real, innerUnits: int, outerUnits: int)
    | Circle(rUnits: int)
    | Rect
  {
    /** The XML tag the shape is written as. */
    function Tag(): Tag {
      match this
      case Pulse(_, _, _, _) => PathTag
      case Line(_, _, _) => LineTag
      case Circle(_) => CircleTag
      case Rect => RectTag
    }

    /** The outer radius of an annular wedge. */
    function OuterUnits(): int
      requires Pulse?
    {
      innerUnits + widthUnits
    }
  }

  /** The XML tags of the leaf elements. */
  datatype Tag = PathTag | LineTag | CircleTag | RectTag {
    /** The tag name written in the document. */
    function Name(): string {
      match this
      case PathTag => "path"
      case LineTag => "line"
      case CircleTag => "circle"
      case RectTag => "rect"
    }
  }

  /** A leaf element: its shape and the attributes set on it, by name. */
  datatype Element = Element(shape: Shape, attrs: map<string, string>)

  /** A keyword argument as given to the element factory: name and value text. */
  type Attr = (string, string)

  /** The attribute name written for a keyword-argument name: every
      underscore becomes a hyphen, every other character stays. */
  function Hyphenate(k: string): (r: string)
  {
    seq(|k|, i requires 0 <= i < |k| => if k[i] == '_' then '-' else k[i])
  }

  /** The mapping keeps the length, turns each underscore into a hyphen,
      keeps every other character, and leaves no underscore behind. */
  lemma HyphenateChars(k: string)
    ensures |Hyphenate(k)| == |k|
    ensures forall i :: 0 <= i < |k| ==> (k[i] == '_' ==> Hyphenate(k)[i] == '-')
    ensures forall i :: 0 <= i < |k| ==> (k[i] != '_' ==> Hyphenate(k)[i] == k[i])
    ensures '_' !in Hyphenate(k)
  {
  }

  /** On names without a hyphen (every keyword-argument name is one) the
      mapping loses nothing: distinct names give distinct attributes. */
  lemma HyphenateInjective(a: string, b: string)
    requires '-' !in a && '-' !in b
    requires Hyphenate(a) == Hyphenate(b)
    ensures a == b
  {
    assert |a| == |b|;
    forall i | 0 <= i < |a| ensures a[i] == b[i] {
      assert Hyphenate(a)[i] == Hyphenate(b)[i];
    }
  }

  /** The attributes an element ends with after setting each keyword
      argument in turn; a later setting of the same name wins. */
  function Attributes(attrs: seq<Attr>): (m: map<string, string>)
  {
    if attrs == [] then map[]
    else
      var last := attrs[|attrs| - 1];
      assert attrs == attrs[..|attrs| - 1] + [last];
      Attributes(attrs[..|attrs| - 1])[Hyphenate(last.0) := last.1]
  }

  /** Every keyword argument is set under its hyphenated name, and every
      attribute set comes from one of them; so no attribute name holds an
      underscore. */
  lemma {:induction false} AttributesDomain(attrs: seq<Attr>)
    ensures forall i :: 0 <= i < |attrs| ==> Hyphenate(attrs[i].0) in Attributes(attrs)
    ensures forall k :: k in Attributes(attrs) ==>
              '_' !in k && exists i :: 0 <= i < |attrs| && Hyphenate(attrs[i].0) == k
  {
    if attrs != [] {
      var n := |attrs| - 1;
      var front := attrs[..n];
      AttributesDomain(front);
      forall i | 0 <= i < n ensures Hyphenate(attrs[i].0) in Attributes(attrs) {
        assert front[i] == attrs[i];
      }
      forall k | k in Attributes(attrs)
        ensures '_' !in k && exists i :: 0 <= i < |attrs| && Hyphenate(attrs[i].0) == k
      {
        if k != Hyphenate(attrs[n].0) {
          assert k in Attributes(front);
          var i :| 0 <= i < n && Hyphenate(front[i].0) == k;
          assert front[i] == attrs[i];
        }
      }
    }
  }

  /** With distinct hyphen-free names, as keyword arguments have, each
      argument's value is found under its hyphenated name. */
  lemma {:induction false} AttributesLookup(attrs: seq<Attr>)
    requires forall i, j :: 0 <= i < j < |attrs| ==> attrs[i].0 != attrs[j].0
    requires forall i :: 0 <= i < |attrs| ==> '-' !in attrs[i].0
    ensures forall i :: 0 <= i < |attrs| ==>
              Hyphenate(attrs[i].0) in Attributes(attrs) && Attributes(attrs)[Hyphenate(attrs[i].0)] == attrs[i].1
  {
    AttributesDomain(attrs);
    if attrs != [] {
      var n := |attrs| - 1;
      var front := attrs[..n];
      var key := Hyphenate(attrs[n].0);
      assert forall i :: 0 <= i < n ==> front[i] == attrs[i];
      AttributesLookup(front);
      forall i | 0 <= i < n
        ensures Attributes(attrs)[Hyphenate(attrs[i].0)] == attrs[i].1
      {
        if Hyphenate(attrs[i].0) == key {
          HyphenateInjective(attrs[i].0, attrs[n].0);
          assert false;
        }
        assert Attributes(front)[Hyphenate(front[i].0)] == attrs[i].1;
      }
    }
  }

  /** Makes the element for `shape`, setting each keyword argument as an
      attribute under its hyphenated name. */
  method MakeElement(shape: Shape, attrs: seq<Attr>) returns (el: Element)
    ensures el.shape == shape
    ensures el.attrs == Attributes(attrs)
  {
    var m: map<string, string> := map[];
    for i := 0 to |attrs|
      invariant m == Attributes(attrs[..i])
    {
      assert attrs[..i + 1][..i] == attrs[..i];
      m := m[Hyphenate(attrs[i].0) := attrs[i].1];
    }
    assert attrs[..|attrs|] == attrs;
    el := Element(shape, m);
  }

  /** An element that other elements are appended to. */
  class Node {
    const tag: string
    var attrs: map<string, string>
    var children: seq<Element>

    constructor (tag: string)
      ensures this.tag == tag && attrs == map[] && children == []
    {
      this.tag := tag;
      attrs := map[];
      children := [];
    }

    method SetAttribute(name: string, value: string)
      modifies this
      ensures attrs == old(attrs)[name := value]
      ensures children == old(children)
    {
      attrs := attrs[name := value];
    }

    method AppendChild(child: Element)
      modifies this
      ensures children == old(children) + [child]
      ensures attrs == old(attrs)
    {
      children := children + [child];
    }
  }
}
