/** Media resolution for `<picture>` elements: the usable size variants of a
    media record in size order, the `src` fallback chain, and the single
    `srcset` source built from the variants. Media records are untyped JSON,
    so the record, its variants and the `alt` text are JavaScript values. */
module ResolveMedia {
  import opened Js
  import opened Text

  /** The variant keys, smallest first. */
  const OrderedKeys: seq<string> := ["sm", "md", "lg", "xl"]

  /** `Boolean(v?.url && v?.width)`: a variant with a truthy URL and width. */
  predicate Usable(v: JsValue)
  {
    Truthy(Field(v, "url")) && Truthy(Field(v, "width"))
  }

  /** One `<source>` of the picture: its `srcset` and its `type` (`Undefined`
      when absent). */
  datatype Source = Source(srcset: string, mimeType: JsValue)

  /** What `resolveMedia` returns. */
  datatype Resolved = Resolved(src: JsValue, alt: JsValue, sources: seq<Source>)

  /** `list.filter(p)` for the usable-variant test: the usable values, in order. */
  function Keep(vs: seq<JsValue>): (r: seq<JsValue>)
    ensures |r| <= |vs|
    ensures forall i :: 0 <= i < |r| ==> Usable(r[i])
    ensures forall v :: v in r <==> v in vs && Usable(v)
    ensures |vs| == 1 && Usable(vs[0]) ==> r == vs
    ensures |vs| == 1 && !Usable(vs[0]) ==> r == []
  {
    if vs == [] then [] else (if Usable(vs[0]) then [vs[0]] else []) + Keep(vs[1..])
  }

  /** Filtering keeps the order of the list: the filter of two lists one after
      the other is the filter of the first followed by the filter of the second. */
  lemma {:induction false} KeepAppend(a: seq<JsValue>, b: seq<JsValue>)
    ensures Keep(a + b) == Keep(a) + Keep(b)
  {
    if a == [] {
      assert a + b == b;
    } else {
      assert (a + b)[0] == a[0];
      assert (a + b)[1..] == a[1..] + b;
      KeepAppend(a[1..], b);
    }
  }

  /** Filtering an already filtered list changes nothing. */
  lemma {:induction false} KeepOfUsable(vs: seq<JsValue>)
    requires forall i :: 0 <= i < |vs| ==> Usable(vs[i])
    ensures Keep(vs) == vs
  {
    if vs != [] {
      KeepOfUsable(vs[1..]);
    }
  }

  /** Filtering four values filters each in turn. */
  lemma KeepFour(a: JsValue, b: JsValue, c: JsValue, d: JsValue)
    ensures Keep([a, b, c, d]) == Keep([a]) + Keep([b]) + Keep([c]) + Keep([d])
  {
    assert [a, b, c, d] == [a] + [b] + [c] + [d];
    KeepAppend([a] + [b] + [c], [d]);
    KeepAppend([a] + [b], [c]);
    KeepAppend([a], [b]);
  }

  /** `media.variants || {}`. */
  function Variants(media: JsValue): JsValue
  {
    Or(Field(media, "variants"), Obj(map[]))
  }

  /** The four candidates are the values under the ordered keys. */
  lemma CandidatesInKeyOrder(variants: JsValue, candidates: seq<JsValue>)
    requires candidates == [Field(variants, "sm"), Field(variants, "md"), Field(variants, "lg"), Field(variants, "xl")]
    ensures forall v :: v in candidates <==> exists i :: 0 <= i < 4 && v == Field(variants, OrderedKeys[i])
  {
    forall v | v in candidates
      ensures exists i :: 0 <= i < 4 && v == Field(variants, OrderedKeys[i])
    {
      var i :| 0 <= i < 4 && candidates[i] == v;
      assert v == Field(variants, OrderedKeys[i]);
    }
  }

  /** `orderedKeys.map((k) => variants[k]).filter(...)`. */
  function VariantList(variants: JsValue): (list: seq<JsValue>)
    ensures |list| <= 4
    ensures forall i :: 0 <= i < |list| ==> Usable(list[i])
    ensures forall v :: v in list <==> exists i :: 0 <= i < 4 && v == Field(variants, OrderedKeys[i]) && Usable(v)
    ensures list == Keep([Field(variants, "sm")]) + Keep([Field(variants, "md")])
      + Keep([Field(variants, "lg")]) + Keep([Field(variants, "xl")])
  {
    var candidates := [Field(variants, "sm"), Field(variants, "md"), Field(variants, "lg"), Field(variants, "xl")];
    CandidatesInKeyOrder(variants, candidates);
    KeepFour(candidates[0], candidates[1], candidates[2], candidates[3]);
    Keep(candidates)
  }

  /** One `srcset` entry: `${v.url} ${v.width}w`. */
  function Entry(v: JsValue): (e: string)
    ensures StartsWith(e, ToText(Field(v, "url")) + " ")
    ensures e[|e| - 1] == 'w'
  {
    ToText(Field(v, "url")) + " " + ToText(Field(v, "width")) + "w"
  }

  /** `buildSrcSet(list)`: the entries of the usable variants joined by `", "`. */
  function SrcSet(list: seq<JsValue>): (r: string)
    ensures |Keep(list)| > 0 ==> r != "" && StartsWith(r, Entry(Keep(list)[0]))
  {
    var kept := Keep(list);
    JoinWith(seq(|kept|, i requires 0 <= i < |kept| => Entry(kept[i])), ", ")
  }

  /** On a list of usable variants the `srcset` lists the first entry, then the
      rest in order. */
  lemma SrcSetCons(list: seq<JsValue>)
    requires |list| >= 2 && forall i :: 0 <= i < |list| ==> Usable(list[i])
    ensures SrcSet(list) == Entry(list[0]) + ", " + SrcSet(list[1..])
  {
    var entries := seq(|list|, i requires 0 <= i < |list| => Entry(list[i]));
    var rest := seq(|list| - 1, i requires 0 <= i < |list| - 1 => Entry(list[1..][i]));
    assert SrcSet(list) == JoinWith(entries, ", ") by {
      KeepOfUsable(list);
    }
    assert SrcSet(list[1..]) == JoinWith(rest, ", ") by {
      KeepOfUsable(list[1..]);
    }
    assert entries[1..] == rest;
    assert JoinWith(entries, ", ") == entries[0] + ", " + JoinWith(rest, ", ");
  }

  /** A single usable variant gives a `srcset` of its one entry. */
  lemma SrcSetSingle(v: JsValue)
    requires Usable(v)
    ensures SrcSet([v]) == Entry(v)
  {
    KeepOfUsable([v]);
  }

  /** `list[i]`, or `undefined` past the end. */
  function At(list: seq<JsValue>, i: nat): JsValue
  {
    if i < |list| then list[i] else Undefined
  }

  /** `x ? { url: x } : null`. */
  function UrlCandidate(x: JsValue): JsValue
  {
    if Truthy(x) then Obj(map["url" := x]) else Null
  }

  /** `fallback?.url || ''`, with the fallback chain
      `variantList[1] || variantList[2] || variantList[0] || original_url || url`. */
  function Src(media: JsValue, list: seq<JsValue>): JsValue
  {
    var fallback := Or(At(list, 1), Or(At(list, 2), Or(At(list, 0),
      Or(UrlCandidate(Field(media, "original_url")), UrlCandidate(Field(media, "url"))))));
    Or(Field(fallback, "url"), Str(""))
  }

  /** The source `src` picks: the second usable variant, else the only one,
      else `original_url`, else `url`, else the empty string. The third
      element of the chain is never reached: a list with a third element has a
      second. */
  lemma SrcChoice(media: JsValue, list: seq<JsValue>)
    requires forall i :: 0 <= i < |list| ==> Usable(list[i])
    ensures |list| >= 2 ==> Src(media, list) == Field(list[1], "url")
    ensures |list| == 1 ==> Src(media, list) == Field(list[0], "url")
    ensures |list| == 0 ==>
      Src(media, list) == Or(Field(media, "original_url"), Or(Field(media, "url"), Str("")))
  {
  }

  /** `alt = ''`: the default of the optional argument. */
  function AltOrDefault(alt: JsValue): JsValue
  {
    if alt == Undefined then Str("") else alt
  }

  /** `resolveMedia(media, alt)`. */
  function Resolve(media: JsValue, alt: JsValue): (r: Resolved)
    ensures r.alt == AltOrDefault(alt)
    ensures !Truthy(media) ==> r == Resolved(Str(""), AltOrDefault(alt), [])
    ensures |r.sources| <= 1
    ensures r.sources == [] <==> !Truthy(media) || VariantList(Variants(media)) == []
    ensures r.sources != [] ==>
      var list := VariantList(Variants(media));
      && r.sources[0].srcset == SrcSet(list)
      && StartsWith(r.sources[0].srcset, Entry(list[0]))
      && r.sources[0].mimeType == Or(Field(list[0], "mimeType"), Undefined)
    ensures Truthy(media) ==>
      var list := VariantList(Variants(media));
      && (|list| >= 2 ==> r.src == Field(list[1], "url"))
      && (|list| == 1 ==> r.src == Field(list[0], "url"))
      && (|list| == 0 ==> r.src == Or(Field(media, "original_url"), Or(Field(media, "url"), Str(""))))
  {
    if !Truthy(media) then Resolved(Str(""), AltOrDefault(alt), [])
    else
      var list := VariantList(Variants(media));
      SrcChoice(media, list);
      KeepOfUsable(list);
      var sources :=
        if |list| > 0 then
          var srcset := SrcSet(list);
          if srcset != "" then [Source(srcset, Or(Field(list[0], "mimeType"), Undefined))] else []
        else [];
      Resolved(Src(media, list), AltOrDefault(alt), sources)
  }

  /** The choice is by position in the filtered list, not by key: without a
      usable `sm`, the `lg` variant is chosen ahead of `md`. */
  lemma MissingSmallPicksLarge(media: JsValue, alt: JsValue, variants: map<string, JsValue>)
    requires Truthy(media) && Variants(media) == Obj(variants)
    requires !Usable(Field(Obj(variants), "sm"))
    requires "md" in variants && Usable(variants["md"])
    requires "lg" in variants && Usable(variants["lg"])
    ensures Resolve(media, alt).src == Field(variants["lg"], "url")
  {
    var v := Obj(variants);
    var sm, md, lg, xl := Field(v, "sm"), Field(v, "md"), Field(v, "lg"), Field(v, "xl");
    var list := VariantList(v);
    assert list == Keep([sm, md, lg, xl]);
    assert [sm, md, lg, xl][1..] == [md, lg, xl];
    assert [md, lg, xl][1..] == [lg, xl];
    assert Keep([sm, md, lg, xl]) == Keep([md, lg, xl]);
    assert Keep([md, lg, xl]) == [md] + Keep([lg, xl]);
    assert Keep([lg, xl]) == [lg] + Keep([xl]);
  }
}
