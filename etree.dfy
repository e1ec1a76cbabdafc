/**
 * The parsed XML document the client inspects, and the three ElementTree queries it
 * uses on it: `elem.get(key)`, `root.find(".//tag")` and `root.findall(".//tag")`.
 * A path ".//tag" selects the elements with that tag at any depth strictly below
 * the element it is applied to, in document order; `find` returns the first of
 * them and `findall` all of them.
 */
module ElementTree {
  import opened Wrappers

  /**
   * A namespaced tag in the Clark notation ElementTree gives it, "{namespace}local";
   * the prefix map of a query ("ca" for the response schema) is resolved to this form.
   */
  function QName(ns: string, local: string): string {
    "{" + ns + "}" + local
  }

  /** An element: its tag, its attributes, its text (None when it has none) and its children in order. */
  datatype Element = Element(tag: string, attrib: map<string, string>, text: Option<string>, children: seq<Element>)

  /** `elem.get(key)`: the attribute's value, or None when the element does not carry it. */
  function Get(e: Element, key: string): Option<string> {
    if key in e.attrib then Some(e.attrib[key]) else None
  }

  /** The elements of a forest in document order: each tree's root, then its subtrees, then the next tree. */
  function Preorder(forest: seq<Element>): seq<Element>
    decreases forest
  {
    if forest == [] then [] else [forest[0]] + Preorder(forest[0].children) + Preorder(forest[1..])
  }

  /** Every element strictly below `e`, in document order. */
  function Descendants(e: Element): seq<Element> {
    Preorder(e.children)
  }

  /** The elements of `s` whose tag is `tag`, in their order in `s`. */
  function WithTag(s: seq<Element>, tag: string): (r: seq<Element>)
    ensures |r| <= |s|
    ensures forall x :: x in r <==> x in s && x.tag == tag
  {
    if s == [] then []
    else if s[0].tag == tag then [s[0]] + WithTag(s[1..], tag)
    else WithTag(s[1..], tag)
  }

  /** `e.findall(".//tag")`. */
  function FindAll(e: Element, tag: string): seq<Element> {
    WithTag(Descendants(e), tag)
  }

  /** A depth-first search of a forest for the first element with `tag`. */
  function First(forest: seq<Element>, tag: string): Option<Element>
    decreases forest
  {
    if forest == [] then None
    else if forest[0].tag == tag then Some(forest[0])
    else
      match First(forest[0].children, tag)
      case Some(x) => Some(x)
      case None => First(forest[1..], tag)
  }

  /** `e.find(".//tag")`. */
  function Find(e: Element, tag: string): Option<Element> {
    First(e.children, tag)
  }

  lemma {:induction false} WithTagAppend(a: seq<Element>, b: seq<Element>, tag: string)
    ensures WithTag(a + b, tag) == WithTag(a, tag) + WithTag(b, tag)
  {
    if a == [] {
      assert a + b == b;
    } else {
      assert (a + b)[0] == a[0] && (a + b)[1..] == a[1..] + b;
      WithTagAppend(a[1..], b, tag);
    }
  }

  /** The depth-first search finds exactly the first element that `findall` lists, and nothing when it lists none. */
  lemma {:induction false} FirstIsHeadOfMatches(forest: seq<Element>, tag: string)
    ensures var all := WithTag(Preorder(forest), tag);
      First(forest, tag) == if all == [] then None else Some(all[0])
    decreases forest
  {
    if forest != [] {
      var head, below, rest := forest[0], forest[0].children, forest[1..];
      assert Preorder(forest) == [head] + Preorder(below) + Preorder(rest);
      WithTagAppend([head] + Preorder(below), Preorder(rest), tag);
      WithTagAppend([head], Preorder(below), tag);
      FirstIsHeadOfMatches(below, tag);
      FirstIsHeadOfMatches(rest, tag);
    }
  }

  /** `find` returns the first element `findall` returns, or None exactly when `findall` returns nothing. */
  lemma FindIsFirstOfFindAll(e: Element, tag: string)
    ensures Find(e, tag).None? <==> FindAll(e, tag) == []
    ensures Find(e, tag).Some? ==> Find(e, tag).value == FindAll(e, tag)[0]
  {
    FirstIsHeadOfMatches(e.children, tag);
  }

  /** Whatever `find` returns carries the tag asked for and lies strictly below the element searched. */
  lemma FindFindsDescendant(e: Element, tag: string)
    ensures Find(e, tag).Some? ==> Find(e, tag).value.tag == tag && Find(e, tag).value in Descendants(e)
  {
    FindIsFirstOfFindAll(e, tag);
  }
}
