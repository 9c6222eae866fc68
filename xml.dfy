/** The object-dump document as the interpreter sees it: element records
    and the start/end events of a streaming parse over them. */
module Xml {
  import opened Wrappers

  /** One element: its tag, its attributes, its child elements in document
      order, and its text (`None` when the element has no text node). */
  datatype Element = Element(
    tag: string,
    attrib: map<string, string>,
    children: seq<Element>,
    text: Option<string>)

  /** `start` is reported when the open tag has been read (attributes known),
      `end` when the whole element, children included, has been read. */
  datatype Event = Start(elem: Element) | End(elem: Element)

  /** `elem.get(key)`. */
  function Get(e: Element, key: string): (r: Option<string>)
    ensures r.Some? <==> key in e.attrib
    ensures r.Some? ==> r.value == e.attrib[key]
  {
    if key in e.attrib then Some(e.attrib[key]) else None
  }

  /** `elem.get("object_id", elem.get("object_id_reference"))`: the element's
      own object id, else the id it refers to, else `None`. */
  function ObjectRef(e: Element): (r: Option<string>)
    ensures "object_id" in e.attrib ==> r == Some(e.attrib["object_id"])
    ensures "object_id" !in e.attrib ==> r == Get(e, "object_id_reference")
  {
    if "object_id" in e.attrib then Some(e.attrib["object_id"])
    else Get(e, "object_id_reference")
  }

  /** XPath `child::tag` evaluated over the children `cs`: those carrying
      the tag, in document order. */
  function ChildrenNamed(cs: seq<Element>, tag: string): (r: seq<Element>)
    ensures |r| <= |cs|
    ensures forall x :: x in r ==> x in cs && x.tag == tag
    ensures forall i :: 0 <= i < |cs| && cs[i].tag == tag ==> cs[i] in r
  {
    if cs == [] then []
    else (if cs[0].tag == tag then [cs[0]] else []) + ChildrenNamed(cs[1..], tag)
  }

  /** Positions `idx` in a sequence of length `n`: in bounds and strictly
      increasing, so they pick elements out in document order. */
  predicate Ascending(idx: seq<nat>, n: nat)
  {
    (forall j :: 0 <= j < |idx| ==> idx[j] < n) &&
    (forall j, k :: 0 <= j < k < |idx| ==> idx[j] < idx[k])
  }

  /** The positions `idx` moved one place on, past a new first element. */
  function Shifted(idx: seq<nat>): (r: seq<nat>)
    ensures |r| == |idx| && forall j :: 0 <= j < |idx| ==> r[j] == idx[j] + 1
  {
    if idx == [] then [] else [idx[0] + 1] + Shifted(idx[1..])
  }

  /** Shifting keeps positions ascending, and position `0` may go first. */
  lemma ShiftedAscending(idx: seq<nat>, n: nat)
    requires Ascending(idx, n)
    ensures Ascending(Shifted(idx), n + 1) && Ascending([0] + Shifted(idx), n + 1)
  {
    var sh := Shifted(idx);
    forall j, k | 0 <= j < k < |[0] + sh|
      ensures ([0] + sh)[j] < ([0] + sh)[k]
    {
      assert ([0] + sh)[k] == sh[k - 1];
    }
  }

  /** `idx` lists, ascending, the positions of the children of `cs`
      carrying `tag`, and `r` holds those children in that order. */
  predicate NamedAt(cs: seq<Element>, tag: string, r: seq<Element>, idx: seq<nat>)
  {
    PickedFrom(cs, r, idx) && ReachesNamed(cs, tag, idx)
  }

  /** Each of `r` is the element of `cs` at the matching one of the
      ascending positions `idx`. */
  predicate PickedFrom(cs: seq<Element>, r: seq<Element>, idx: seq<nat>)
  {
    |idx| == |r| && Ascending(idx, |cs|) &&
    forall j :: 0 <= j < |idx| ==> r[j] == cs[idx[j]]
  }

  /** Every child of `cs` carrying `tag` sits at one of the positions `idx`. */
  predicate ReachesNamed(cs: seq<Element>, tag: string, idx: seq<nat>)
  {
    forall i :: 0 <= i < |cs| && cs[i].tag == tag ==> i in idx
  }

  /** `child::tag` yields exactly the children carrying the tag, in
      document order: `idx` maps each result to its child, ascending,
      and reaches every child that carries the tag. */
  lemma {:induction false} ChildrenNamedOrder(cs: seq<Element>, tag: string) returns (idx: seq<nat>)
    ensures NamedAt(cs, tag, ChildrenNamed(cs, tag), idx)
  {
    if cs == [] {
      return [];
    }
    var rest := ChildrenNamedOrder(cs[1..], tag);
    assert cs == [cs[0]] + cs[1..];
    idx := NamedAtCons(cs[0], cs[1..], tag, ChildrenNamed(cs[1..], tag), rest);
  }

  /** One step of `ChildrenNamedOrder`: from the positions in `tail` to
      those in `[x] + tail`. */
  lemma NamedAtCons(x: Element, tail: seq<Element>, tag: string, r: seq<Element>, rest: seq<nat>)
    returns (idx: seq<nat>)
    requires NamedAt(tail, tag, r, rest)
    ensures NamedAt([x] + tail, tag, (if x.tag == tag then [x] else []) + r, idx)
  {
    ShiftedAscending(rest, |tail|);
    if x.tag == tag {
      idx := [0] + Shifted(rest);
      PickedFromKeep(x, tail, r, rest);
    } else {
      idx := Shifted(rest);
      PickedFromSkip(x, tail, r, rest);
      assert [] + r == r;
    }
    ReachesNamedCons(x, tail, tag, rest);
    assert [] + Shifted(rest) == Shifted(rest);
  }

  /** A kept first element goes in front, at position `0`. */
  lemma PickedFromKeep(x: Element, tail: seq<Element>, r: seq<Element>, rest: seq<nat>)
    requires PickedFrom(tail, r, rest)
    ensures PickedFrom([x] + tail, [x] + r, [0] + Shifted(rest))
  {
    var cs := [x] + tail;
    var idx := [0] + Shifted(rest);
    var t := [x] + r;
    ShiftedAscending(rest, |tail|);
    forall j | 0 < j < |idx|
      ensures t[j] == cs[idx[j]]
    {
      assert idx[j] == rest[j - 1] + 1 && rest[j - 1] < |tail| && t[j] == r[j - 1];
      assert cs[idx[j]] == tail[rest[j - 1]];
    }
  }

  /** A skipped first element adds nothing; the positions move on. */
  lemma PickedFromSkip(x: Element, tail: seq<Element>, r: seq<Element>, rest: seq<nat>)
    requires PickedFrom(tail, r, rest)
    ensures PickedFrom([x] + tail, r, Shifted(rest))
  {
    var cs := [x] + tail;
    var sh := Shifted(rest);
    ShiftedAscending(rest, |tail|);
    forall j | 0 <= j < |sh|
      ensures r[j] == cs[sh[j]]
    {
      assert sh[j] == rest[j] + 1 && rest[j] < |tail|;
      assert cs[sh[j]] == tail[rest[j]];
    }
  }

  /** Every child carrying the tag is still reached after a new first element. */
  lemma ReachesNamedCons(x: Element, tail: seq<Element>, tag: string, rest: seq<nat>)
    requires ReachesNamed(tail, tag, rest)
    ensures ReachesNamed([x] + tail, tag, (if x.tag == tag then [0] else []) + Shifted(rest))
  {
    var cs := [x] + tail;
    var head := if x.tag == tag then [0] else [];
    var idx := head + Shifted(rest);
    forall i | 0 <= i < |cs| && cs[i].tag == tag
      ensures i in idx
    {
      if i > 0 {
        assert tail[i - 1] == cs[i];
        var m :| 0 <= m < |rest| && rest[m] == i - 1;
        assert idx[|head| + m] == i;
      }
    }
  }

  /** Child `k` carries `tag` and no earlier child does. */
  predicate FirstNamedAt(cs: seq<Element>, tag: string, k: int)
  {
    0 <= k < |cs| && cs[k].tag == tag && forall j :: 0 <= j < k ==> cs[j].tag != tag
  }

  /** `child::tag[0]` is the first child carrying the tag. */
  lemma {:induction false} ChildrenNamedFirst(cs: seq<Element>, tag: string) returns (k: nat)
    requires |ChildrenNamed(cs, tag)| > 0
    ensures FirstNamedAt(cs, tag, k) && ChildrenNamed(cs, tag)[0] == cs[k]
  {
    if cs[0].tag == tag {
      k := 0;
    } else {
      var k' := ChildrenNamedFirst(cs[1..], tag);
      k := k' + 1;
    }
  }

  /** The text nodes of the elements `es`, in order. */
  function Texts(es: seq<Element>): (r: seq<string>)
    ensures |r| <= |es|
    ensures forall i :: 0 <= i < |es| && es[i].text.Some? ==> es[i].text.value in r
  {
    if es == [] then []
    else (if es[0].text.Some? then [es[0].text.value] else []) + Texts(es[1..])
  }

  /** `idx` lists, ascending, the positions of the elements of `es`
      that have a text, and `r` holds those texts in that order. */
  predicate TextsAt(es: seq<Element>, r: seq<string>, idx: seq<nat>)
  {
    TextsFrom(es, r, idx) && ReachesTexts(es, idx)
  }

  /** Each of the texts `r` is the text of the element of `es` at the
      matching one of the ascending positions `idx`. */
  predicate TextsFrom(es: seq<Element>, r: seq<string>, idx: seq<nat>)
  {
    |idx| == |r| && Ascending(idx, |es|) &&
    forall j :: 0 <= j < |idx| ==> es[idx[j]].text.Some? && es[idx[j]].text.value == r[j]
  }

  /** Every element of `es` that has a text sits at one of the positions `idx`. */
  predicate ReachesTexts(es: seq<Element>, idx: seq<nat>)
  {
    forall i :: 0 <= i < |es| && es[i].text.Some? ==> i in idx
  }

  /** The texts are exactly those of the elements that have one, in
      order: `idx` maps each text to its element, ascending, and reaches
      every element with a text. */
  lemma {:induction false} TextsOrder(es: seq<Element>) returns (idx: seq<nat>)
    ensures TextsAt(es, Texts(es), idx)
  {
    if es == [] {
      return [];
    }
    var rest := TextsOrder(es[1..]);
    assert es == [es[0]] + es[1..];
    idx := TextsAtCons(es[0], es[1..], Texts(es[1..]), rest);
  }

  /** One step of `TextsOrder`: from the positions in `tail` to those in
      `[x] + tail`. */
  lemma TextsAtCons(x: Element, tail: seq<Element>, r: seq<string>, rest: seq<nat>) returns (idx: seq<nat>)
    requires TextsAt(tail, r, rest)
    ensures TextsAt([x] + tail, (if x.text.Some? then [x.text.value] else []) + r, idx)
  {
    ShiftedAscending(rest, |tail|);
    if x.text.Some? {
      idx := [0] + Shifted(rest);
      TextsFromText(x, tail, r, rest);
    } else {
      idx := Shifted(rest);
      TextsFromSkip(x, tail, r, rest);
      assert [] + r == r;
    }
    ReachesTextsCons(x, tail, rest);
    assert [] + Shifted(rest) == Shifted(rest);
  }

  /** An element with a text puts it in front, at position `0`. */
  lemma TextsFromText(x: Element, tail: seq<Element>, r: seq<string>, rest: seq<nat>)
    requires x.text.Some? && TextsFrom(tail, r, rest)
    ensures TextsFrom([x] + tail, [x.text.value] + r, [0] + Shifted(rest))
  {
    var es := [x] + tail;
    var idx := [0] + Shifted(rest);
    var t := [x.text.value] + r;
    ShiftedAscending(rest, |tail|);
    forall j | 0 < j < |idx|
      ensures es[idx[j]].text.Some? && es[idx[j]].text.value == t[j]
    {
      assert idx[j] == rest[j - 1] + 1 && rest[j - 1] < |tail| && t[j] == r[j - 1];
      assert es[idx[j]] == tail[rest[j - 1]];
    }
  }

  /** An element without a text adds nothing; the positions move on. */
  lemma TextsFromSkip(x: Element, tail: seq<Element>, r: seq<string>, rest: seq<nat>)
    requires x.text.None? && TextsFrom(tail, r, rest)
    ensures TextsFrom([x] + tail, r, Shifted(rest))
  {
    var es := [x] + tail;
    var sh := Shifted(rest);
    ShiftedAscending(rest, |tail|);
    forall j | 0 <= j < |sh|
      ensures es[sh[j]].text.Some? && es[sh[j]].text.value == r[j]
    {
      assert sh[j] == rest[j] + 1 && rest[j] < |tail|;
      assert es[sh[j]] == tail[rest[j]];
    }
  }

  /** Every element with a text is still reached after a new first element. */
  lemma ReachesTextsCons(x: Element, tail: seq<Element>, rest: seq<nat>)
    requires ReachesTexts(tail, rest)
    ensures ReachesTexts([x] + tail, (if x.text.Some? then [0] else []) + Shifted(rest))
  {
    var es := [x] + tail;
    var head := if x.text.Some? then [0] else [];
    var sh := Shifted(rest);
    var idx := head + sh;
    forall i | 0 <= i < |es| && es[i].text.Some?
      ensures i in idx
    {
      if i > 0 {
        assert tail[i - 1] == es[i];
        var m :| 0 <= m < |rest| && rest[m] == i - 1;
        assert idx[|head| + m] == i;
      }
    }
  }

  /** XPath `child::tag/text()` over element `e`. */
  function ChildTexts(e: Element, tag: string): seq<string>
  {
    Texts(ChildrenNamed(e.children, tag))
  }

  /** The first text of a child named `tag` is the text of the FIRST child
      carrying both that tag and a text, whatever children come later. */
  lemma {:induction false} ChildTextsFirst(cs: seq<Element>, tag: string, k: nat)
    requires k < |cs| && cs[k].tag == tag && cs[k].text.Some?
    requires forall j :: 0 <= j < k ==> cs[j].tag != tag || cs[j].text.None?
    ensures |Texts(ChildrenNamed(cs, tag))| > 0
    ensures Texts(ChildrenNamed(cs, tag))[0] == cs[k].text.value
  {
    var rest := ChildrenNamed(cs[1..], tag);
    var head := if cs[0].tag == tag then [cs[0]] else [];
    assert ChildrenNamed(cs, tag) == head + rest;
    if k > 0 {
      forall j | 0 <= j < k - 1 ensures cs[1..][j].tag != tag || cs[1..][j].text.None? {
        assert cs[1..][j] == cs[j + 1];
      }
      ChildTextsFirst(cs[1..], tag, k - 1);
      TextsSkip(head, rest);
    } else {
      assert (head + rest)[0] == cs[0];
      assert Texts(head + rest)[0] == cs[0].text.value;
    }
  }

  /** Leading elements without text contribute nothing. */
  lemma {:induction false} TextsSkip(head: seq<Element>, rest: seq<Element>)
    requires forall i :: 0 <= i < |head| ==> head[i].text.None?
    ensures Texts(head + rest) == Texts(rest)
  {
    if head != [] {
      assert (head + rest)[1..] == head[1..] + rest;
      TextsSkip(head[1..], rest);
    } else {
      assert head + rest == rest;
    }
  }

  /** The number of `end` events in a stream. */
  function CountEnds(events: seq<Event>): (n: nat)
    ensures n <= |events|
  {
    if events == [] then 0
    else (if events[0].End? then 1 else 0) + CountEnds(events[1..])
  }

  /** The elements of the `end` events of a stream, in order. */
  function EndElems(events: seq<Event>): (r: seq<Element>)
    ensures |r| == CountEnds(events)
  {
    if events == [] then []
    else (if events[0].End? then [events[0].elem] else []) + EndElems(events[1..])
  }
}
