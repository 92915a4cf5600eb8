/**
 * The part of Python's `xml.etree.ElementTree` the state parsers use: an
 * already-parsed element tree, `element.iter()`, iteration over an element's
 * children, `child.tag` and `child.text`. Byte-level parsing
 * (`ElementTree.fromstring`) is not modelled; its result is an
 * `Option<Element>`, `None` standing for `ParseError`.
 */
module Xml {
  import opened Wrappers
  import Text

  /**
   * An element: its tag in ElementTree's `{namespace}local` form (or bare
   * `local` when it has no namespace), its text (`None` when the element has
   * no text), and its children in document order.
   */
  datatype Element = Element(tag: string, text: Option<string>, children: seq<Element>)

  /** `e.iter()`: `e` itself, then every descendant, in document (pre-)order. */
  function Iter(e: Element): (r: seq<Element>)
    ensures 1 <= |r| && r[0] == e
    decreases e, 1
  {
    [e] + IterAll(e.children)
  }

  /** Pre-order walk of a sequence of sibling subtrees. */
  function IterAll(es: seq<Element>): seq<Element>
    decreases es, 0
  {
    if es == [] then [] else Iter(es[0]) + IterAll(es[1..])
  }

  /** The elements of `es` whose full tag is exactly `tag`, in order. */
  function Select(es: seq<Element>, tag: string): (r: seq<Element>)
    ensures |r| <= |es|
    ensures forall x :: x in r <==> x in es && x.tag == tag
  {
    if es == [] then []
    else Select(es[..|es| - 1], tag) + (if es[|es| - 1].tag == tag then [es[|es| - 1]] else [])
  }

  /**
   * `e.iter(tag)`: the elements of the subtree rooted at `e`, `e` included,
   * whose full (namespaced) tag equals `tag`, in document order.
   */
  function IterTag(e: Element, tag: string): (r: seq<Element>)
    ensures forall x :: x in r <==> x in Iter(e) && x.tag == tag
  {
    Select(Iter(e), tag)
  }

  /** A leading element with the tag comes out first. */
  lemma {:induction false} SelectHead(es: seq<Element>, tag: string)
    requires 1 <= |es| && es[0].tag == tag
    ensures 1 <= |Select(es, tag)| && Select(es, tag)[0] == es[0]
  {
    if |es| > 1 {
      assert es[..|es| - 1][0] == es[0];
      SelectHead(es[..|es| - 1], tag);
    }
  }

  /** The root is the first element `iter(tag)` yields when its tag matches. */
  lemma IterTagRoot(e: Element, tag: string)
    requires e.tag == tag
    ensures 1 <= |IterTag(e, tag)| && IterTag(e, tag)[0] == e
  {
    SelectHead(Iter(e), tag);
  }

  /**
   * The local name of a tag: the text after the last `}` when the tag has
   * one, otherwise the whole tag. Both branches of the conditional the
   * parsers use are `split("}")[-1]`, so one expression covers them.
   */
  function LocalName(tag: string): (r: string)
    ensures '}' !in r
    ensures '}' !in tag ==> r == tag
  {
    Text.AfterLast(tag, '}')
  }

  /**
   * A namespaced tag `{ns}local` splits as the namespace part, the last `}`
   * and the local name, whatever `ns` holds.
   */
  lemma LocalNameSplit(tag: string)
    requires '}' in tag
    ensures var r := LocalName(tag);
      |r| < |tag| && tag == tag[..|tag| - |r| - 1] + "}" + r
  {
    var r := Text.AfterLast(tag, '}');
    var k := |tag| - |r| - 1;
    assert tag[k] == '}' && r == tag[k + 1..];
    SplitAt(tag, k);
  }

  /** A string is its prefix, the character at `k`, and the rest. */
  lemma SplitAt(s: string, k: nat)
    requires k < |s|
    ensures s == s[..k] + [s[k]] + s[k + 1..]
  {
  }

  /** Concretely, the namespace is dropped whichever namespace it is. */
  lemma LocalNameOfQualified(ns: string, local: string)
    requires '}' !in local
    ensures LocalName("{" + ns + "}" + local) == local
  {
    var tag := "{" + ns + "}" + local;
    assert tag[|tag| - |local| - 1] == '}';
    var r := LocalName(tag);
    LocalNameSplit(tag);
    assert r == tag[|tag| - |r|..] == local;
  }

  /** `child.text or ""`. */
  function TextOrEmpty(e: Element): string {
    e.text.GetOr("")
  }

  /**
   * The index of the last element of `cs` whose local name is `name`, or -1
   * when there is none.
   */
  function LastIndex(cs: seq<Element>, name: string): (r: int)
    ensures -1 <= r < |cs|
    ensures 0 <= r ==> LocalName(cs[r].tag) == name
  {
    if cs == [] then -1
    else if LocalName(cs[|cs| - 1].tag) == name then |cs| - 1
    else LastIndex(cs[..|cs| - 1], name)
  }

  /** No element after the one `LastIndex` finds has the name. */
  lemma LastIndexIsLast(cs: seq<Element>, name: string)
    ensures forall j :: LastIndex(cs, name) < j < |cs| ==> LocalName(cs[j].tag) != name
  {
    forall j | LastIndex(cs, name) < j < |cs|
      ensures LocalName(cs[j].tag) != name
    {
      LastIndexAfter(cs, name, j);
    }
  }

  /** The element at `j`, after the one `LastIndex` finds, does not have the name. */
  lemma {:induction false} LastIndexAfter(cs: seq<Element>, name: string, j: int)
    requires LastIndex(cs, name) < j < |cs|
    ensures LocalName(cs[j].tag) != name
  {
    if j < |cs| - 1 {
      var init := cs[..|cs| - 1];
      assert LocalName(cs[|cs| - 1].tag) != name;
      assert LastIndex(cs, name) == LastIndex(init, name);
      LastIndexAfter(init, name, j);
      assert init[j] == cs[j];
    }
  }

  /**
   * The text a record field ends up with when every child named `name`
   * overwrites it in turn: that of the last such child, or `""`.
   */
  function FieldText(cs: seq<Element>, name: string): string {
    var i := LastIndex(cs, name);
    if i < 0 then "" else TextOrEmpty(cs[i])
  }

  /** One more child either overwrites the field or leaves it as it was. */
  lemma FieldTextSnoc(cs: seq<Element>, c: Element, name: string)
    ensures FieldText(cs + [c], name)
      == if LocalName(c.tag) == name then TextOrEmpty(c) else FieldText(cs, name)
  {
    assert (cs + [c])[..|cs|] == cs;
  }
}
