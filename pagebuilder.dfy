/** The page splitter of VirtKeyboard::createLayout and VirtKeyboard::parsePage:
    the layout text is cut into lines, the lines into blocks that each open with a
    `$header`, and every block into one page of rows. */
module PageBuilder {
  import opened Wrappers
  import opened QtString
  import opened VirtKeyDefs
  import opened KeyParser

  /** One page widget of the stacked widget: its object name and its rows of keys. */
  datatype Page = Page(id: string, rows: seq<seq<KeyData>>)

  predicate IsHeader(line: string) { StartsWith(line, HeaderSigil) }

  /** The lines the line loop of createLayout keeps: each line simplified, the empty
      ones dropped, in their order. */
  function Cleaned(lines: seq<string>): (cl: seq<string>)
    ensures |cl| <= |lines|
    ensures forall k :: 0 <= k < |cl| ==> cl[k] != [] && Simplified(cl[k]) == cl[k]
  {
    if lines == [] then []
    else
      var init := Cleaned(lines[..|lines| - 1]);
      var line := Simplified(lines[|lines| - 1]);
      SimplifiedIdempotent(lines[|lines| - 1]);
      if line == [] then init else init + [line]
  }

  /** The line loop works line by line: cleaning a concatenation cleans each part. */
  lemma {:induction false} CleanedAppend(a: seq<string>, b: seq<string>)
    ensures Cleaned(a + b) == Cleaned(a) + Cleaned(b)
    decreases |b|
  {
    if b == [] {
      assert a + b == a;
    } else {
      var n := |b| - 1;
      assert (a + b)[..|a + b| - 1] == a + b[..n];
      assert (a + b)[|a + b| - 1] == b[n];
      CleanedAppend(a, b[..n]);
    }
  }

  /** Lines that are already simplified and not empty are all kept, unchanged. */
  lemma CleanedSnoc(init: seq<string>, line: string)
    requires line != [] && Simplified(line) == line
    ensures Cleaned(init + [line]) == Cleaned(init) + [line]
  {
    assert (init + [line])[..|init|] == init;
  }

  lemma {:induction false} CleanedKeepsClean(a: seq<string>)
    requires forall k :: 0 <= k < |a| ==> a[k] != [] && Simplified(a[k]) == a[k]
    ensures Cleaned(a) == a
    decreases |a|
  {
    if a != [] {
      var n := |a| - 1;
      var init := a[..n];
      assert forall k :: 0 <= k < n ==> init[k] == a[k];
      CleanedKeepsClean(init);
      assert init + [a[n]] == a;
      CleanedSnoc(init, a[n]);
    }
  }

  /** An empty line is dropped. */
  lemma CleanedDropsEmpty()
    ensures Cleaned([""]) == []
  {
    assert Words("") == [];
    assert [""][..0] == [];
  }

  function Flatten(blocks: seq<seq<string>>): seq<string>
  {
    if blocks == [] then [] else Flatten(blocks[..|blocks| - 1]) + blocks[|blocks| - 1]
  }

  /** A block of lines with no header after its first line. */
  predicate HeaderFirst(block: seq<string>)
  {
    forall j :: 0 < j < |block| ==> !IsHeader(block[j])
  }

  /** The shape of the `pages` list createLayout builds: no block is empty, every
      block but the first opens with a header, and no header stands anywhere else. */
  predicate Grouped(blocks: seq<seq<string>>)
  {
    forall i :: 0 <= i < |blocks| ==>
      blocks[i] != [] && HeaderFirst(blocks[i]) && (0 < i ==> IsHeader(blocks[i][0]))
  }

  /** The line loop of createLayout (VirtKeyboard.cpp:83-103): a header line closes
      the block being collected and opens the next. */
  method GroupLines(layout: seq<string>) returns (blocks: seq<seq<string>>)
    ensures Grouped(blocks)
    ensures Flatten(blocks) == Cleaned(layout)
  {
    blocks := [];
    var page: seq<string> := [];
    var i := 0;
    while i < |layout|
      invariant 0 <= i <= |layout|
      invariant Flatten(blocks) + page == Cleaned(layout[..i])
      invariant Grouped(blocks)
      invariant blocks != [] ==> page != [] && IsHeader(page[0])
      invariant HeaderFirst(page)
    {
      var line := Simplified(layout[i]);
      CleanedStep(layout, i);
      if line != [] {
        blocks, page := PushLine(blocks, page, line);
      }
      i := i + 1;
    }
    if page != [] {
      blocks := AppendBlock(blocks, page);
    }
    assert layout[..|layout|] == layout;
  }

  /** One kept line: a header closes the page being collected, unless it is empty,
      and the line joins the page. */
  method PushLine(blocks: seq<seq<string>>, page: seq<string>, line: string)
    returns (blocks': seq<seq<string>>, page': seq<string>)
    requires Grouped(blocks) && HeaderFirst(page)
    requires blocks != [] ==> page != [] && IsHeader(page[0])
    ensures Grouped(blocks') && HeaderFirst(page')
    ensures blocks' != [] ==> page' != [] && IsHeader(page'[0])
    ensures Flatten(blocks') + page' == Flatten(blocks) + page + [line]
  {
    blocks', page' := blocks, page;
    if IsHeader(line) && page != [] {
      blocks' := AppendBlock(blocks, page);
      page' := [];
    }
    page' := page' + [line];
  }

  lemma CleanedStep(lines: seq<string>, i: nat)
    requires i < |lines|
    ensures Cleaned(lines[..i + 1]) ==
      Cleaned(lines[..i]) + (if Simplified(lines[i]) == [] then [] else [Simplified(lines[i])])
  {
    assert lines[..i + 1][..i] == lines[..i];
  }

  /** `pages.append(page)`: one more block at the end. */
  method AppendBlock(blocks: seq<seq<string>>, page: seq<string>) returns (r: seq<seq<string>>)
    requires Grouped(blocks) && page != []
    requires blocks != [] ==> IsHeader(page[0])
    requires HeaderFirst(page)
    ensures Grouped(r)
    ensures Flatten(r) == Flatten(blocks) + page
  {
    r := blocks + [page];
    assert r[..|blocks|] == blocks;
  }

  /** A page as the line loop hands it over: the simplified header line and the
      lines after it. */
  datatype Section = Section(header: string, lines: seq<string>)

  /** The rows of a page: one per line, whatever keys the line holds. */
  function Rows(lines: seq<string>): (rows: seq<seq<KeyData>>)
    ensures |rows| == |lines|
  {
    seq(|lines|, k requires 0 <= k < |lines| => RowSpec(lines[k]))
  }

  /** The page widget parsePage builds for a section: the header without its sigil
      names it. */
  function PageOfSection(s: Section): Page
  {
    Page(if s.header == [] then [] else s.header[1..], Rows(s.lines))
  }

  function PagesOfSections(ss: seq<Section>): (ps: seq<Page>)
    ensures |ps| == |ss|
  {
    seq(|ss|, k requires 0 <= k < |ss| => PageOfSection(ss[k]))
  }

  /** The section of a block, or None when parsePage returns early: the block is
      empty or its simplified first line is no header. */
  function SectionOf(block: seq<string>): Option<Section>
  {
    if block == [] then None
    else
      var header := Simplified(block[0]);
      if IsHeader(header) then Some(Section(header, block[1..])) else None
  }

  /** VirtKeyboard::parsePage without the widgets (VirtKeyboard.cpp:110-145). */
  method ParsePage(page: seq<string>) returns (p: Option<Page>)
    ensures SectionOf(page).None? ==> p == None
    ensures SectionOf(page).Some? ==> p == Some(PageOfSection(SectionOf(page).value))
  {
    if page == [] {
      return None;
    }
    var header := Simplified(page[0]);
    if !StartsWith(header, HeaderSigil) {
      return None;
    }
    var rows := ParseRows(page[1..]);
    p := Some(Page(header[1..], rows));
  }

  /** The row loop of parsePage: one row per line, handed to parseLine. */
  method ParseRows(lines: seq<string>) returns (rows: seq<seq<KeyData>>)
    ensures rows == Rows(lines)
  {
    rows := [];
    var i := 0;
    while i < |lines|
      invariant 0 <= i <= |lines|
      invariant |rows| == i
      invariant forall k :: 0 <= k < i ==> rows[k] == RowSpec(lines[k])
    {
      var row := ParseLine(lines[i]);
      rows := rows + [row];
      i := i + 1;
    }
  }

  /** The sections of the blocks, in order, skipping a block without a header. */
  function Collect(blocks: seq<seq<string>>): seq<Section>
  {
    if blocks == [] then []
    else
      var init := Collect(blocks[..|blocks| - 1]);
      match SectionOf(blocks[|blocks| - 1])
      case Some(s) => init + [s]
      case None => init
  }

  lemma CollectStep(blocks: seq<seq<string>>, i: nat)
    requires i < |blocks|
    ensures PagesOfSections(Collect(blocks[..i + 1])) ==
            PagesOfSections(Collect(blocks[..i])) +
            (if SectionOf(blocks[i]).Some? then [PageOfSection(SectionOf(blocks[i]).value)] else [])
  {
    assert blocks[..i + 1][..i] == blocks[..i];
    var init := Collect(blocks[..i]);
    if SectionOf(blocks[i]).Some? {
      var ss := init + [SectionOf(blocks[i]).value];
      assert forall k :: 0 <= k < |init| ==> ss[k] == init[k];
    }
  }

  /** The page loop of createLayout: parsePage on every block, in order. */
  method ParsePages(blocks: seq<seq<string>>) returns (ps: seq<Page>)
    ensures ps == PagesOfSections(Collect(blocks))
  {
    ps := [];
    var i := 0;
    while i < |blocks|
      invariant 0 <= i <= |blocks|
      invariant ps == PagesOfSections(Collect(blocks[..i]))
    {
      var page := ParsePage(blocks[i]);
      CollectStep(blocks, i);
      if page.Some? {
        ps := ps + [page.value];
      }
      i := i + 1;
    }
    assert blocks[..|blocks|] == blocks;
  }

  /** The first header at or after `i`, or the end of the lines. */
  function NextHeader(cl: seq<string>, i: nat): (e: nat)
    requires i <= |cl|
    ensures i <= e <= |cl|
    ensures forall k :: i <= k < e ==> !IsHeader(cl[k])
    ensures e == |cl| || IsHeader(cl[e])
    decreases |cl| - i
  {
    if i == |cl| || IsHeader(cl[i]) then i else NextHeader(cl, i + 1)
  }

  lemma NextHeaderUnique(cl: seq<string>, i: nat, e: nat)
    requires i <= e <= |cl|
    requires forall k :: i <= k < e ==> !IsHeader(cl[k])
    requires e == |cl| || IsHeader(cl[e])
    ensures NextHeader(cl, i) == e
  {
  }

  /** The sections of the cleaned lines from index `i` on, read line by line: every
      header opens a section holding the lines up to the next header; lines before
      the first header belong to no section. */
  function SectionsFrom(cl: seq<string>, i: nat): seq<Section>
    requires i <= |cl|
    decreases |cl| - i
  {
    if i == |cl| then []
    else if !IsHeader(cl[i]) then SectionsFrom(cl, i + 1)
    else
      var e := NextHeader(cl, i + 1);
      [Section(cl[i], cl[i + 1..e])] + SectionsFrom(cl, e)
  }

  /** The pages of the cleaned lines of a layout. */
  function PagesOf(cl: seq<string>): seq<Page>
  {
    PagesOfSections(SectionsFrom(cl, 0))
  }

  /** The ids the header lines from index `i` on name: each header without its sigil. */
  function HeaderIdsFrom(cl: seq<string>, i: nat): seq<string>
    requires i <= |cl|
    decreases |cl| - i
  {
    if i == |cl| then []
    else (if IsHeader(cl[i]) then [cl[i][1..]] else []) + HeaderIdsFrom(cl, i + 1)
  }

  function Ids(pages: seq<Page>): (ids: seq<string>)
    ensures |ids| == |pages|
  {
    seq(|pages|, k requires 0 <= k < |pages| => pages[k].id)
  }

  function SectionIds(ss: seq<Section>): seq<string>
  {
    seq(|ss|, k requires 0 <= k < |ss| => if ss[k].header == [] then [] else ss[k].header[1..])
  }

  function TotalLines(ss: seq<Section>): nat
  {
    if ss == [] then 0 else |ss[0].lines| + TotalLines(ss[1..])
  }

  function TotalRows(pages: seq<Page>): nat
  {
    if pages == [] then 0 else |pages[0].rows| + TotalRows(pages[1..])
  }

  lemma {:induction false} HeaderIdsSkip(cl: seq<string>, i: nat, e: nat)
    requires i <= e <= |cl|
    requires forall k :: i <= k < e ==> !IsHeader(cl[k])
    ensures HeaderIdsFrom(cl, i) == HeaderIdsFrom(cl, e)
    decreases e - i
  {
    if i < e {
      HeaderIdsSkip(cl, i + 1, e);
      assert !IsHeader(cl[i]);
      assert HeaderIdsFrom(cl, i) == [] + HeaderIdsFrom(cl, i + 1);
    }
  }

  lemma {:induction false} SectionsSkip(cl: seq<string>, i: nat, e: nat)
    requires i <= e <= |cl|
    requires forall k :: i <= k < e ==> !IsHeader(cl[k])
    ensures SectionsFrom(cl, i) == SectionsFrom(cl, e)
    decreases e - i
  {
    if i < e {
      SectionsSkip(cl, i + 1, e);
    }
  }

  lemma {:induction false} SectionsFromIds(cl: seq<string>, i: nat)
    requires i <= |cl|
    ensures SectionIds(SectionsFrom(cl, i)) == HeaderIdsFrom(cl, i)
    decreases |cl| - i
  {
    if i < |cl| {
      if !IsHeader(cl[i]) {
        SectionsFromIds(cl, i + 1);
      } else {
        var e := NextHeader(cl, i + 1);
        HeaderIdsSkip(cl, i + 1, e);
        SectionsFromIds(cl, e);
        var rest := SectionsFrom(cl, e);
        assert SectionsFrom(cl, i) == [Section(cl[i], cl[i + 1..e])] + rest;
        SectionIdsCons(Section(cl[i], cl[i + 1..e]), rest);
        assert HeaderIdsFrom(cl, i) == [cl[i][1..]] + HeaderIdsFrom(cl, i + 1);
      }
    }
  }

  lemma SectionIdsCons(s: Section, rest: seq<Section>)
    requires s.header != []
    ensures SectionIds([s] + rest) == [s.header[1..]] + SectionIds(rest)
  {
    var ss := [s] + rest;
    assert forall k :: 0 < k < |ss| ==> ss[k] == rest[k - 1];
  }

  lemma PagesOfSectionsIds(ss: seq<Section>)
    ensures Ids(PagesOfSections(ss)) == SectionIds(ss)
  {
  }

  /** Pages appear in the order of their headers, one page per header line, and a
      page's id is its header line without the `$`. */
  lemma PagesOfIds(cl: seq<string>)
    ensures Ids(PagesOf(cl)) == HeaderIdsFrom(cl, 0)
  {
    SectionsFromIds(cl, 0);
    PagesOfSectionsIds(SectionsFrom(cl, 0));
  }

  /** Lines before the first header never form a page. */
  lemma PagesOfLeading(cl: seq<string>)
    ensures PagesOf(cl) == PagesOfSections(SectionsFrom(cl, NextHeader(cl, 0)))
  {
    SectionsSkip(cl, 0, NextHeader(cl, 0));
  }

  lemma {:induction false} SectionsFromLines(cl: seq<string>, i: nat)
    requires i <= |cl| && (i == |cl| || IsHeader(cl[i]))
    ensures TotalLines(SectionsFrom(cl, i)) + |HeaderIdsFrom(cl, i)| == |cl| - i
    decreases |cl| - i
  {
    if i < |cl| {
      var e := NextHeader(cl, i + 1);
      HeaderIdsSkip(cl, i + 1, e);
      SectionsFromLines(cl, e);
      var s := Section(cl[i], cl[i + 1..e]);
      assert ([s] + SectionsFrom(cl, e))[1..] == SectionsFrom(cl, e);
    }
  }

  lemma {:induction false} PagesOfSectionsRows(ss: seq<Section>)
    ensures TotalRows(PagesOfSections(ss)) == TotalLines(ss)
  {
    if ss != [] {
      PagesOfSectionsRows(ss[1..]);
      assert PagesOfSections(ss)[1..] == PagesOfSections(ss[1..]);
    }
  }

  /** Every line from the first header on is either a header, opening one page, or
      the line of exactly one row, empty or not. */
  lemma PagesOfRows(cl: seq<string>)
    ensures TotalRows(PagesOf(cl)) + |HeaderIdsFrom(cl, 0)| == |cl| - NextHeader(cl, 0)
  {
    var h := NextHeader(cl, 0);
    SectionsSkip(cl, 0, h);
    HeaderIdsSkip(cl, 0, h);
    SectionsFromLines(cl, h);
    PagesOfSectionsRows(SectionsFrom(cl, 0));
  }

  /** One more block that opens with a header adds exactly its section at the end. */
  lemma {:induction false} SectionsFromAppend(xs: seq<string>, b: seq<string>, i: nat)
    requires b != [] && IsHeader(b[0])
    requires HeaderFirst(b)
    requires i <= |xs|
    ensures SectionsFrom(xs + b, i) == SectionsFrom(xs, i) + [Section(b[0], b[1..])]
    decreases |xs| - i
  {
    if i == |xs| {
      AppendAtEnd(xs, b);
    } else if !IsHeader(xs[i]) {
      SectionsFromAppend(xs, b, i + 1);
      AppendPlainLine(xs, b, i);
    } else {
      var e := NextHeader(xs, i + 1);
      SectionsFromAppend(xs, b, e);
      AppendHeaderLine(xs, b, i, e);
    }
  }

  lemma AppendAtEnd(xs: seq<string>, b: seq<string>)
    requires b != [] && IsHeader(b[0])
    requires HeaderFirst(b)
    ensures SectionsFrom(xs + b, |xs|) == [Section(b[0], b[1..])]
  {
    var cl := xs + b;
    var i := |xs|;
    assert cl[i] == b[0];
    assert forall k :: i + 1 <= k < |cl| ==> cl[k] == b[k - i];
    NextHeaderUnique(cl, i + 1, |cl|);
    assert cl[i + 1..|cl|] == b[1..];
  }

  lemma AppendPlainLine(xs: seq<string>, b: seq<string>, i: nat)
    requires i < |xs| && !IsHeader(xs[i])
    ensures SectionsFrom(xs + b, i) == SectionsFrom(xs + b, i + 1)
  {
    assert (xs + b)[i] == xs[i];
  }

  lemma AppendHeaderLine(xs: seq<string>, b: seq<string>, i: nat, e: nat)
    requires b != [] && IsHeader(b[0])
    requires i < |xs| && IsHeader(xs[i]) && e == NextHeader(xs, i + 1)
    ensures SectionsFrom(xs + b, i) == [Section(xs[i], xs[i + 1..e])] + SectionsFrom(xs + b, e)
  {
    var cl := xs + b;
    assert cl[i] == xs[i];
    assert forall k :: i + 1 <= k < e ==> cl[k] == xs[k];
    assert e == |xs| ==> cl[e] == b[0];
    NextHeaderUnique(cl, i + 1, e);
    assert cl[i + 1..e] == xs[i + 1..e];
  }

  /** The sections createLayout collects block by block are the sections of its
      lines: the grouping loses and invents nothing. */
  lemma {:induction false} CollectSections(blocks: seq<seq<string>>)
    requires Grouped(blocks)
    requires forall k :: 0 <= k < |Flatten(blocks)| ==> Simplified(Flatten(blocks)[k]) == Flatten(blocks)[k]
    ensures Collect(blocks) == SectionsFrom(Flatten(blocks), 0)
    decreases |blocks|
  {
    if blocks != [] {
      var n := |blocks| - 1;
      var init, last := blocks[..n], blocks[n];
      assert Grouped(init);
      var xs := Flatten(init);
      assert Flatten(blocks) == xs + last;
      assert forall k :: 0 <= k < |xs| ==> (xs + last)[k] == xs[k];
      CollectSections(init);
      assert (xs + last)[|xs|] == last[0];
      assert Simplified(last[0]) == last[0];
      if n > 0 {
        SectionsFromAppend(xs, last, 0);
      } else {
        assert xs == [] && xs + last == last;
        if IsHeader(last[0]) {
          SectionsFromAppend([], last, 0);
        } else {
          SectionsSkip(last, 0, |last|);
        }
      }
    }
  }

  /** createLayout falls back on the default layout for an empty string only. */
  function EffectiveLayout(layoutStr: string): string
  {
    if layoutStr == [] then DefaultLayout else layoutStr
  }

  /** The cleaned lines of a layout string. */
  function LayoutLines(layoutStr: string): seq<string>
  {
    Cleaned(Split(EffectiveLayout(layoutStr), '\n'))
  }

  /** The pages a layout string gives. */
  function LayoutPages(layoutStr: string): seq<Page>
  {
    PagesOf(LayoutLines(layoutStr))
  }

  /** Whitespace is not empty: it keeps its meaning and gives no pages at all. */
  lemma BlankLayoutHasNoPages()
    ensures EffectiveLayout(" ") == " "
    ensures LayoutPages(" ") == []
  {
    assert Split(" ", '\n') == [" "];
    assert Words(" ") == Words(" "[1..]);
    assert Simplified(" ") == [];
    assert Cleaned([" "]) == [];
  }
}
