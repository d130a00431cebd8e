/**
 * Element lookup by selector-like key: `#id`, `.class`, `<tag>` or a plain
 * name. The document is an abstract value mapping ids, class names, tag
 * names and `name` attributes to elements in document order.
 */
module DomUtil {
  import opened Wrappers

  type Element = nat

  /** What the document answers: one element per id, a collection per class, tag and name. */
  datatype Document = Document(
    byId: map<string, Element>,
    byClass: map<string, seq<Element>>,
    byTag: map<string, seq<Element>>,
    byName: map<string, seq<Element>>)

  /** A live collection; a key with no elements gives an empty one. */
  function Collection(m: map<string, seq<Element>>, k: string): seq<Element> {
    if k in m then m[k] else []
  }

  datatype Selector = ById(id: string) | ByClass(className: string) | ByTag(tag: string) | ByName(name: string)

  predicate AlphaNumeric(c: char) {
    '0' <= c <= '9' || 'a' <= c <= 'z' || 'A' <= c <= 'Z'
  }

  /** `/^<[0-9a-zA-Z]+>$/`. */
  predicate IsTagKey(key: string) {
    |key| >= 3 && key[0] == '<' && key[|key| - 1] == '>'
    && forall i :: 1 <= i < |key| - 1 ==> AlphaNumeric(key[i])
  }

  /** Which lookup a key asks for; the empty key asks for none. `#` is tested first, then `.`, then the tag pattern. */
  function Classify(key: string): Option<Selector> {
    if |key| == 0 then None
    else if key[0] == '#' then Some(ById(key[1..]))
    else if key[0] == '.' then Some(ByClass(key[1..]))
    else if IsTagKey(key) then Some(ByTag(key[1..|key| - 1]))
    else Some(ByName(key))
  }

  /** Each key form selects its lookup, and every other non-empty key is a name. */
  lemma ClassifyCases(key: string)
    ensures Classify(key).None? <==> key == []
    ensures Classify(key).Some? && Classify(key).value.ById? <==> |key| > 0 && key[0] == '#'
    ensures Classify(key).Some? && Classify(key).value.ByClass? <==> |key| > 0 && key[0] == '.'
    ensures Classify(key).Some? && Classify(key).value.ByTag? <==> IsTagKey(key)
    ensures Classify(key).Some? && Classify(key).value.ByName? <==> |key| > 0 && key[0] != '#' && key[0] != '.' && !IsTagKey(key)
    ensures Classify(key) == Some(ByName(key)) || |key| == 0 || key[0] == '#' || key[0] == '.' || IsTagKey(key)
  {
  }

  /** `#id` looks up exactly `id`. */
  lemma IdKeyRoundTrip(id: string)
    ensures Classify(['#'] + id) == Some(ById(id))
  {
    assert (['#'] + id)[1..] == id;
  }

  /** `<tag>` with a non-empty alphanumeric tag looks up exactly `tag`, brackets stripped. */
  lemma TagKeyRoundTrip(tag: string)
    requires |tag| > 0 && forall i :: 0 <= i < |tag| ==> AlphaNumeric(tag[i])
    ensures Classify(['<'] + tag + ['>']) == Some(ByTag(tag))
  {
    var key := ['<'] + tag + ['>'];
    assert forall i :: 1 <= i < |key| - 1 ==> key[i] == tag[i - 1];
    assert key[1..|key| - 1] == tag;
  }

  /** Keys that only look like a tag, and a `#` key holding a dot. */
  lemma ClassifyEdgeCases()
    ensures Classify("<>") == Some(ByName("<>"))
    ensures Classify("<a-b>") == Some(ByName("<a-b>"))
    ensures Classify("#.x") == Some(ById(".x"))
  {
    assert !AlphaNumeric("<a-b>"[2]);
    assert "#.x"[1..] == ".x";
  }

  /** What `getElems` returns: None for the empty key, otherwise the selected elements in document order. */
  function Elems(doc: Document, key: string): Option<seq<Element>> {
    match Classify(key)
    case None => None
    case Some(ById(id)) => Some(if id in doc.byId then [doc.byId[id]] else [])
    case Some(ByClass(c)) => Some(Collection(doc.byClass, c))
    case Some(ByTag(t)) => Some(Collection(doc.byTag, t))
    case Some(ByName(n)) => Some(Collection(doc.byName, n))
  }

  /** An id lookup yields at most one element, and none exactly when the id is missing. */
  lemma IdLookupAtMostOne(doc: Document, key: string)
    requires |key| > 0 && key[0] == '#'
    ensures Elems(doc, key).Some? && |Elems(doc, key).value| <= 1
    ensures Elems(doc, key).value == [] <==> key[1..] !in doc.byId
  {
  }

  /** `getElems`: the class, tag and name branches copy their collection element by element. */
  method GetElems(doc: Document, key: string) returns (r: Option<seq<Element>>)
    ensures r == Elems(doc, key)
  {
    if |key| == 0 {
      return None;
    }
    var result: seq<Element> := [];
    if key[0] == '#' {
      var id := key[1..];
      if id in doc.byId {
        result := [doc.byId[id]];
      }
    } else if key[0] == '.' {
      result := CopyAll(Collection(doc.byClass, key[1..]));
    } else if IsTagKey(key) {
      var name := key[1..|key| - 1];
      result := CopyAll(Collection(doc.byTag, name));
    } else {
      result := CopyAll(Collection(doc.byName, key));
    }
    return Some(result);
  }

  /** The copy loop: pushes each element of the collection, in order. */
  method CopyAll(elems: seq<Element>) returns (r: seq<Element>)
    ensures r == elems
  {
    r := [];
    for i := 0 to |elems|
      invariant r == elems[..i]
    {
      r := r + [elems[i]];
      assert elems[..i + 1] == elems[..i] + [elems[i]];
    }
    assert elems[..|elems|] == elems;
  }

  /** `getElem`: the first element, or None when the lookup gives nothing. */
  function GetElem(doc: Document, key: string): (r: Option<Element>)
    ensures r.Some? <==> Elems(doc, key).Some? && |Elems(doc, key).value| > 0
    ensures r.Some? ==> r.value == Elems(doc, key).value[0]
    ensures r.Some? ==> r.value in Elems(doc, key).value
  {
    var elems := Elems(doc, key);
    if elems.Some? && |elems.value| > 0 then Some(elems.value[0]) else None
  }

  /** An id lookup's single element is the element with that id. */
  lemma GetElemById(doc: Document, id: string)
    ensures GetElem(doc, ['#'] + id) == (if id in doc.byId then Some(doc.byId[id]) else None)
  {
    IdKeyRoundTrip(id);
  }
}
