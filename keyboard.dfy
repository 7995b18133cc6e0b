/** The state of a VirtKeyboard widget: the pages of its stacked widget, the page on
    show, and the link each key caches when it is first clicked. */
module Keyboard {
  import opened Wrappers
  import opened QtString
  import opened VirtKeyDefs
  import opened KeyParser
  import opened PageBuilder

  /** findChild by object name over the pages: the index of the first page with
      that id, or None where Qt returns a null pointer. */
  function FindPage(pages: seq<Page>, id: string): (r: Option<nat>)
    ensures r.Some? ==> r.value < |pages| && pages[r.value].id == id
    ensures r.Some? ==> forall k :: 0 <= k < r.value ==> pages[k].id != id
    ensures r.None? <==> forall k :: 0 <= k < |pages| ==> pages[k].id != id
  {
    FindFrom(pages, id, 0)
  }

  function FindFrom(pages: seq<Page>, id: string, i: nat): (r: Option<nat>)
    requires i <= |pages|
    ensures r.Some? ==> i <= r.value < |pages| && pages[r.value].id == id
    ensures r.Some? ==> forall k :: i <= k < r.value ==> pages[k].id != id
    ensures r.None? <==> forall k :: i <= k < |pages| ==> pages[k].id != id
    decreases |pages| - i
  {
    if i == |pages| then None
    else if pages[i].id == id then Some(i)
    else FindFrom(pages, id, i + 1)
  }

  /** The search sees the ids only. */
  lemma FindPageOfIds(a: seq<Page>, b: seq<Page>, id: string)
    requires Ids(a) == Ids(b)
    ensures FindPage(a, id) == FindPage(b, id)
  {
    assert |a| == |Ids(a)| && |b| == |Ids(b)|;
    assert forall k :: 0 <= k < |a| ==> a[k].id == Ids(a)[k] && b[k].id == Ids(b)[k];
  }

  /** A cached link is never stale: it is the page the key's link names. */
  predicate LinkCached(pages: seq<Page>, k: KeyData)
  {
    k.link.Some? ==> k.linkStr != [] && k.link == FindPage(pages, k.linkStr)
  }

  predicate IsKeyRef(pages: seq<Page>, p: int, r: int, c: int)
  {
    0 <= p < |pages| && 0 <= r < |pages[p].rows| && 0 <= c < |pages[p].rows[r]|
  }

  ghost predicate AllLinksCached(pages: seq<Page>)
  {
    forall p, r, c :: IsKeyRef(pages, p, r, c) ==> LinkCached(pages, pages[p].rows[r][c])
  }

  /** The key after the link step of onKeyClicked: a key with a link and no cached
      page looks the page up. */
  function Touched(pages: seq<Page>, k: KeyData): (t: KeyData)
    ensures t == k.(link := t.link)
    ensures k.linkStr == [] || k.link.Some? ==> t.link == k.link
    ensures k.linkStr != [] && k.link.None? ==> t.link == FindPage(pages, k.linkStr)
  {
    if k.linkStr != [] && k.link.None? then k.(link := FindPage(pages, k.linkStr)) else k
  }

  /** The pages with one key replaced. */
  function SetKey(pages: seq<Page>, p: nat, r: nat, c: nat, k: KeyData): (ps: seq<Page>)
    requires IsKeyRef(pages, p, r, c)
    ensures |ps| == |pages| && Ids(ps) == Ids(pages)
    ensures forall q :: 0 <= q < |ps| ==> |ps[q].rows| == |pages[q].rows|
    ensures forall q, s :: 0 <= q < |ps| && 0 <= s < |ps[q].rows| ==> |ps[q].rows[s]| == |pages[q].rows[s]|
    ensures ps[p].rows[r][c] == k
    ensures forall q, s, d :: IsKeyRef(pages, q, s, d) && (q, s, d) != (p, r, c) ==>
              ps[q].rows[s][d] == pages[q].rows[s][d]
  {
    var page := pages[p];
    var row := page.rows[r][c := k];
    pages[p := page.(rows := page.rows[r := row])]
  }

  /** Looking a link up, once, yields the page the link names and keeps the cache
      honest; a second look changes nothing. */
  lemma TouchedLink(pages: seq<Page>, k: KeyData)
    requires LinkCached(pages, k)
    ensures Touched(pages, k).link == (if k.linkStr == [] then None else FindPage(pages, k.linkStr))
    ensures LinkCached(pages, Touched(pages, k))
    ensures Touched(pages, Touched(pages, k)) == Touched(pages, k)
  {
  }

  /** A click changes no page id, so every cached link stays right. */
  lemma {:induction false} SetKeyKeepsLinks(pages: seq<Page>, p: nat, r: nat, c: nat, k: KeyData)
    requires IsKeyRef(pages, p, r, c) && AllLinksCached(pages) && LinkCached(pages, k)
    ensures AllLinksCached(SetKey(pages, p, r, c, k))
  {
    var ps := SetKey(pages, p, r, c, k);
    forall q, s, d | IsKeyRef(ps, q, s, d)
      ensures LinkCached(ps, ps[q].rows[s][d])
    {
      var key := ps[q].rows[s][d];
      assert IsKeyRef(pages, q, s, d);
      assert LinkCached(pages, key);
      if key.link.Some? {
        FindPageOfIds(pages, ps, key.linkStr);
      }
    }
  }

  /** The keys of freshly parsed rows cache no link. */
  ghost predicate Unlinked(pages: seq<Page>)
  {
    forall p, r, c :: IsKeyRef(pages, p, r, c) ==> pages[p].rows[r][c].link == None
  }

  lemma PagesUnlinked(ss: seq<Section>)
    ensures Unlinked(PagesOfSections(ss))
  {
    var ps := PagesOfSections(ss);
    forall p, r, c | IsKeyRef(ps, p, r, c)
      ensures ps[p].rows[r][c].link == None
    {
      assert ps[p].rows[r] == RowSpec(ss[p].lines[r]);
    }
  }

  lemma UnlinkedCached(pages: seq<Page>)
    requires Unlinked(pages)
    ensures AllLinksCached(pages)
  {
  }

  /** The page-building part of createLayout for the layout text it settles on. */
  method BuildPages(text: string) returns (ps: seq<Page>)
    ensures ps == PagesOf(Cleaned(Split(text, '\n')))
    ensures Unlinked(ps)
  {
    var lines := Split(text, '\n');
    var blocks := GroupLines(lines);
    ps := ParsePages(blocks);
    CollectSections(blocks);
    PagesUnlinked(SectionsFrom(Cleaned(lines), 0));
  }

  /** The first statement of createLayout: an empty layout string means the default
      layout. */
  method DefaultIfEmpty(layoutStr: string) returns (text: string)
    ensures text == EffectiveLayout(layoutStr)
  {
    text := layoutStr;
    if text == [] {
      text := DefaultLayout;
    }
  }

  class VirtKeyboard {
    /** The page widgets of the stacked widget, in insertion order. */
    var pages: seq<Page>
    /** The index of the stacked widget's current page, None where Qt says -1. */
    var current: Option<nat>

    ghost predicate Valid()
      reads this
    {
      (current.Some? <==> pages != []) &&
      (current.Some? ==> current.value < |pages|) &&
      AllLinksCached(pages)
    }

    /** A new keyboard holds an empty stacked widget. */
    constructor ()
      ensures Valid()
      ensures pages == [] && current == None
    {
      pages := [];
      current := None;
    }

    /** VirtKeyboard::createLayout (VirtKeyboard.cpp:70-108): discard the pages,
        split the layout into blocks of lines, parse each block into a page, and
        show the first page, if any. */
    method CreateLayout(layoutStr: string)
      modifies this
      ensures Valid()
      ensures pages == LayoutPages(layoutStr)
      ensures current == (if pages == [] then None else Some(0))
    {
      var text := DefaultIfEmpty(layoutStr);
      var ps := BuildPages(text);
      UnlinkedCached(ps);
      pages := ps;
      current := if ps == [] then None else Some(0);
    }

    /** VirtKeyboard::onKeyClicked (VirtKeyboard.cpp:307-325) for the key at column
        `c` of row `r` of page `p`: a key with a link looks its page up once and
        caches it, a cached page becomes the current page, and the key's data is
        emitted. Nothing is a VirtKey outside the pages and a spacer is not one
        either: such a sender changes nothing and emits nothing. */
    method OnKeyClicked(p: nat, r: nat, c: nat) returns (emitted: Option<KeyData>)
      requires Valid()
      modifies this
      ensures Valid()
      ensures Ids(pages) == Ids(old(pages))
      ensures !IsKeyRef(old(pages), p, r, c) || old(pages)[p].rows[r][c].keyType == Spacer ==>
                emitted == None && pages == old(pages) && current == old(current)
      ensures IsKeyRef(old(pages), p, r, c) && old(pages)[p].rows[r][c].keyType != Spacer ==>
                var k := Touched(old(pages), old(pages)[p].rows[r][c]);
                emitted == Some(k) &&
                pages == SetKey(old(pages), p, r, c, k) &&
                current == (if k.link.Some? then k.link else old(current))
    {
      if !IsKeyRef(pages, p, r, c) || pages[p].rows[r][c].keyType == Spacer {
        return None;
      }
      var k := pages[p].rows[r][c];
      assert LinkCached(pages, k);
      if k.linkStr != [] && k.link.None? {
        var link := FindPage(pages, k.linkStr);
        k := k.(link := link);
      }
      TouchedLink(pages, pages[p].rows[r][c]);
      SetKeyKeepsLinks(pages, p, r, c, k);
      pages := SetKey(pages, p, r, c, k);
      if k.link.Some? {
        current := k.link;
      }
      emitted := Some(k);
    }
  }

  /** Caching is invisible: with cached links kept honest, a click on a key with a
      link shows the first page of that name if there is one and otherwise leaves
      the current page; a key without a link never changes it. */
  lemma ClickNavigation(pages: seq<Page>, current: Option<nat>, k: KeyData)
    requires LinkCached(pages, k)
    ensures k.linkStr == [] ==> Touched(pages, k).link == None
    ensures k.linkStr != [] ==> Touched(pages, k).link == FindPage(pages, k.linkStr)
    ensures (if Touched(pages, k).link.Some? then Touched(pages, k).link else current) ==
            (if k.linkStr != [] && FindPage(pages, k.linkStr).Some? then FindPage(pages, k.linkStr)
             else current)
  {
    TouchedLink(pages, k);
  }
}
