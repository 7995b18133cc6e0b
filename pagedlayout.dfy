/** Layout text in the shape of VK_DEFAULT_LAYOUT (VirtKeyboard.h:30-54): pages of
    six lines, a `$id` header, four lines of keys and an empty line, every line
    ended by a line feed. The page splitter turns such a text into exactly those
    pages, one row of keys per key line. */
module PagedLayout {
  import opened Wrappers
  import opened QtString
  import opened VirtKeyDefs
  import opened KeyParser
  import opened PageBuilder

  /** Line `r` of page `p`, as tokens and as text. */
  function RowAt(rows: seq<seq<string>>, p: nat, r: nat): seq<string>
    requires 6 * p + r < |rows|
  {
    rows[6 * p + r]
  }

  function LineAt(lines: seq<string>, p: nat, r: nat): string
    requires 6 * p + r < |lines|
  {
    lines[6 * p + r]
  }

  /** `$id`: a header token without whitespace. */
  predicate HeaderToken(h: string, id: string)
  {
    h != [] && NoSpace(h) && h[0] == HeaderSigil && h[1..] == id
  }

  /** The tokens of a line of keys: no whitespace inside a token, and the line does
      not open with a header sigil. */
  predicate KeyTokens(ts: seq<string>)
  {
    ts != [] && PlainTokens(ts) && ts[0][0] != HeaderSigil
  }

  predicate PageRows(rows: seq<seq<string>>, p: nat, id: string)
    requires 6 * p + 6 <= |rows|
  {
    |RowAt(rows, p, 0)| == 1 && HeaderToken(RowAt(rows, p, 0)[0], id) &&
    (forall r :: 1 <= r < 5 ==> KeyTokens(RowAt(rows, p, r))) &&
    RowAt(rows, p, 5) == []
  }

  /** Token rows that make one six-line page per id. */
  predicate Paged(rows: seq<seq<string>>, ids: seq<string>)
  {
    |rows| == 6 * |ids| && forall p :: 0 <= p < |ids| ==> PageRows(rows, p, ids[p])
  }

  /** The text lines are the token rows joined by single spaces. */
  predicate JoinedRows(lines: seq<string>, rows: seq<seq<string>>)
  {
    |lines| == |rows| && forall i :: 0 <= i < |rows| ==> lines[i] == JoinWith(rows[i], ' ')
  }

  /** The page the six rows of page `p` describe: named by its id, one row of keys
      per key line. */
  function TokenPage(rows: seq<seq<string>>, p: nat, id: string): Page
    requires 6 * p + 6 <= |rows|
  {
    Page(id, seq(4, r requires 0 <= r < 4 => KeysOf(RowAt(rows, p, r + 1))))
  }

  function TokenPages(rows: seq<seq<string>>, ids: seq<string>): (ps: seq<Page>)
    requires |rows| == 6 * |ids|
    ensures |ps| == |ids|
  {
    seq(|ids|, p requires 0 <= p < |ids| => TokenPage(rows, p, ids[p]))
  }

  /** The six text lines of a page, as the line loop of createLayout sees them. */
  predicate PageLines(lines: seq<string>, p: nat, id: string)
    requires 6 * p + 6 <= |lines|
  {
    IsHeader(LineAt(lines, p, 0)) && LineAt(lines, p, 0)[1..] == id &&
    (forall r :: 0 <= r < 5 ==> LineAt(lines, p, r) != [] && Simplified(LineAt(lines, p, r)) == LineAt(lines, p, r)) &&
    (forall r :: 1 <= r < 5 ==> !IsHeader(LineAt(lines, p, r))) &&
    LineAt(lines, p, 5) == [] &&
    (forall r :: 0 <= r < 6 ==> '\n' !in LineAt(lines, p, r))
  }

  lemma NoLineFeed(t: string)
    requires NoSpace(t)
    ensures '\n' !in t
  {
    forall j | 0 <= j < |t|
      ensures t[j] != '\n'
    {
      assert !IsSpace(t[j]);
    }
  }

  /** A header row is its token; it is simplified already. */
  lemma HeaderRowLine(ts: seq<string>, id: string)
    requires |ts| == 1 && HeaderToken(ts[0], id)
    ensures JoinWith(ts, ' ') == ts[0]
    ensures Simplified(ts[0]) == ts[0]
    ensures '\n' !in ts[0]
  {
    var h := ts[0];
    assert JoinWith([h], ' ') == h;
    assert forall w :: w in [h] ==> w != [] && NoSpace(w);
    WordsOfJoin([h]);
    NoLineFeed(h);
  }

  /** A line of keys is simplified, is no header, holds no line feed, and reads back
      as the keys of its tokens. */
  lemma KeyTokensLine(ts: seq<string>)
    requires KeyTokens(ts)
    ensures JoinWith(ts, ' ') != [] && !IsHeader(JoinWith(ts, ' '))
    ensures Simplified(JoinWith(ts, ' ')) == JoinWith(ts, ' ')
    ensures '\n' !in JoinWith(ts, ' ')
    ensures RowSpec(JoinWith(ts, ' ')) == KeysOf(ts)
  {
    LineOfTokens(ts);
    JoinStart(ts, ' ');
    assert JoinWith(ts, ' ')[0] == ts[0][0];
    forall k | 0 <= k < |ts|
      ensures '\n' !in ts[k]
    {
      NoLineFeed(ts[k]);
    }
    NotInJoin(ts, ' ', '\n');
  }

  lemma PageLinesOfRows(lines: seq<string>, rows: seq<seq<string>>, p: nat, id: string)
    requires JoinedRows(lines, rows) && 6 * p + 6 <= |rows| && PageRows(rows, p, id)
    ensures PageLines(lines, p, id)
    ensures forall r :: 1 <= r < 5 ==> RowSpec(LineAt(lines, p, r)) == KeysOf(RowAt(rows, p, r))
  {
    forall r | 0 <= r < 6
      ensures LineAt(lines, p, r) == JoinWith(RowAt(rows, p, r), ' ')
    {
    }
    HeaderRowLine(RowAt(rows, p, 0), id);
    forall r | 1 <= r < 5
      ensures LineAt(lines, p, r) != [] && !IsHeader(LineAt(lines, p, r))
      ensures Simplified(LineAt(lines, p, r)) == LineAt(lines, p, r)
      ensures '\n' !in LineAt(lines, p, r)
      ensures RowSpec(LineAt(lines, p, r)) == KeysOf(RowAt(rows, p, r))
    {
      KeyTokensLine(RowAt(rows, p, r));
    }
  }

  /** The lines of page `p` the line loop keeps: all but the empty one. */
  function Block(lines: seq<string>, p: nat): seq<string>
    requires 6 * p + 6 <= |lines|
  {
    lines[6 * p .. 6 * p + 5]
  }

  function Blocks(lines: seq<string>, n: nat): seq<string>
    requires 6 * n <= |lines|
  {
    if n == 0 then [] else Blocks(lines, n - 1) + Block(lines, n - 1)
  }

  predicate AllPageLines(lines: seq<string>, ids: seq<string>)
  {
    |lines| == 6 * |ids| && forall p :: 0 <= p < |ids| ==> PageLines(lines, p, ids[p])
  }

  lemma BlockFacts(lines: seq<string>, p: nat, id: string)
    requires 6 * p + 6 <= |lines| && PageLines(lines, p, id)
    ensures |Block(lines, p)| == 5
    ensures IsHeader(Block(lines, p)[0]) && HeaderFirst(Block(lines, p))
    ensures forall k :: 0 <= k < 5 ==> Block(lines, p)[k] != [] && Simplified(Block(lines, p)[k]) == Block(lines, p)[k]
  {
    var b := Block(lines, p);
    forall k | 0 <= k < 5
      ensures b[k] == LineAt(lines, p, k)
    {
    }
  }

  /** The line loop drops exactly the empty line of each page. */
  lemma {:induction false} CleanedPages(lines: seq<string>, ids: seq<string>, n: nat)
    requires AllPageLines(lines, ids) && n <= |ids|
    ensures Cleaned(lines[..6 * n]) == Blocks(lines, n)
  {
    if n > 0 {
      var m := n - 1;
      CleanedPages(lines, ids, m);
      var b := Block(lines, m);
      assert PageLines(lines, m, ids[m]);
      BlockFacts(lines, m, ids[m]);
      PrefixBlock(lines, m);
      CleanedBlock(lines[..6 * m], b, LineAt(lines, m, 5));
    }
  }

  lemma PrefixBlock(lines: seq<string>, m: nat)
    requires 6 * m + 6 <= |lines|
    ensures lines[..6 * (m + 1)] == lines[..6 * m] + Block(lines, m) + [LineAt(lines, m, 5)]
  {
  }

  /** The lines of a page survive the line loop and its empty line does not. */
  lemma CleanedBlock(pre: seq<string>, b: seq<string>, e: string)
    requires forall k :: 0 <= k < |b| ==> b[k] != [] && Simplified(b[k]) == b[k]
    requires e == []
    ensures Cleaned(pre + b + [e]) == Cleaned(pre) + b
  {
    CleanedAppend(pre + b, [e]);
    CleanedAppend(pre, b);
    CleanedKeepsClean(b);
    CleanedDropsEmpty();
  }

  /** Each kept block opens a section at its header. */
  lemma {:induction false} SectionsOfBlocks(lines: seq<string>, ids: seq<string>, n: nat)
    requires AllPageLines(lines, ids) && n <= |ids|
    ensures SectionsFrom(Blocks(lines, n), 0) ==
            seq(n, k requires 0 <= k < n => Section(Block(lines, k)[0], Block(lines, k)[1..]))
  {
    if n > 0 {
      var m := n - 1;
      SectionsOfBlocks(lines, ids, m);
      assert PageLines(lines, m, ids[m]);
      BlockFacts(lines, m, ids[m]);
      SectionsFromAppend(Blocks(lines, m), Block(lines, m), 0);
    }
  }

  lemma BlockLine(lines: seq<string>, p: nat, r: nat)
    requires 6 * p + 6 <= |lines| && r < 4
    ensures Block(lines, p)[1..][r] == LineAt(lines, p, r + 1)
  {
  }

  /** parsePage names a section's page by its header and reads one row per line. */
  lemma SectionPage(h: string, ls: seq<string>, id: string, keys: seq<seq<KeyData>>)
    requires h != [] && h[1..] == id && |ls| == |keys|
    requires forall r :: 0 <= r < |ls| ==> RowSpec(ls[r]) == keys[r]
    ensures PageOfSection(Section(h, ls)) == Page(id, keys)
  {
  }

  /** The page parsePage builds from the block of page `p`. */
  lemma PageOfBlock(lines: seq<string>, rows: seq<seq<string>>, p: nat, id: string)
    requires JoinedRows(lines, rows) && 6 * p + 6 <= |rows| && PageRows(rows, p, id)
    ensures PageOfSection(Section(Block(lines, p)[0], Block(lines, p)[1..])) == TokenPage(rows, p, id)
  {
    PageLinesOfRows(lines, rows, p, id);
    var b := Block(lines, p);
    assert b[0] == LineAt(lines, p, 0);
    var keys := TokenPage(rows, p, id).rows;
    forall r | 0 <= r < 4
      ensures RowSpec(b[1..][r]) == keys[r]
    {
      BlockLine(lines, p, r);
    }
    SectionPage(b[0], b[1..], id, keys);
  }

  /** The page splitter on a paged layout text: one page per header, in order, each
      with the four rows of keys its lines describe. */
  lemma PagedLayoutPages(rows: seq<seq<string>>, ids: seq<string>, lines: seq<string>)
    requires Paged(rows, ids) && JoinedRows(lines, rows)
    ensures PagesOf(Cleaned(Split(Terminated(lines), '\n'))) == TokenPages(rows, ids)
  {
    forall p | 0 <= p < |ids|
      ensures PageLines(lines, p, ids[p])
    {
      PageLinesOfRows(lines, rows, p, ids[p]);
    }
    forall i | 0 <= i < |lines|
      ensures '\n' !in lines[i]
    {
      var p, r := i / 6, i % 6;
      assert PageLines(lines, p, ids[p]);
      assert lines[i] == LineAt(lines, p, r);
    }
    SplitTerminated(lines);
    CleanedAppend(lines, [""]);
    CleanedDropsEmpty();
    assert lines[..6 * |ids|] == lines;
    CleanedPages(lines, ids, |ids|);
    SectionsOfBlocks(lines, ids, |ids|);
    var ss := SectionsFrom(Blocks(lines, |ids|), 0);
    forall p | 0 <= p < |ids|
      ensures PagesOfSections(ss)[p] == TokenPage(rows, p, ids[p])
    {
      PageOfBlock(lines, rows, p, ids[p]);
    }
  }
}
