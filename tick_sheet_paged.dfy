/** The tick sheet with the page break its test is there for: a running
    line position that moves down one gap per title and starts a new page
    when it would fall below the bottom margin. Each page restarts at the
    top line, 742 (a choice: create_tick_sheet resets to 722, start_y - gap, after a
    break), so
    every page holds 35 lines, from 742 down to 62, and no two lines share
    a position. */
module TickSheetPaged {
  import opened Pdf
  import TickSheet

  const START_X: int := TickSheet.START_X
  const START_Y: int := TickSheet.START_Y
  const GAP: int := TickSheet.GAP
  const BOTTOM_MARGIN: int := TickSheet.BOTTOM_MARGIN

  /** Lines that fit between START_Y and BOTTOM_MARGIN: 742 - 20 * 34 == 62,
      and one more would sit at 42. */
  const LINES_PER_PAGE: nat := 35

  /** The line entry k (counted from 0) is drawn on: its place on its page. */
  function PagedEntry(k: nat, song: string): Draw {
    TextRun(5 * START_X, START_Y - GAP * (k % LINES_PER_PAGE), TickSheet.Label(k + 1, song))
  }

  /** Every entry, in order, before it is split into pages. */
  function PagedEntries(songs: seq<string>): (entries: seq<Draw>)
    ensures |entries| == |songs|
  {
    seq(|songs|, k requires 0 <= k < |songs| => PagedEntry(k, songs[k]))
  }

  /** Number of pages needed for n lines. */
  function PageCount(n: nat): nat {
    (n + LINES_PER_PAGE - 1) / LINES_PER_PAGE
  }

  /** s cut into consecutive pages of LINES_PER_PAGE elements; the last one
      holds the rest. */
  function Chunks<T>(s: seq<T>): seq<seq<T>> {
    seq(PageCount(|s|), p requires 0 <= p < PageCount(|s|) =>
      s[LINES_PER_PAGE * p .. if LINES_PER_PAGE * p + LINES_PER_PAGE <= |s| then LINES_PER_PAGE * p + LINES_PER_PAGE else |s|])
  }

  /** The pages laid end to end. */
  function Concat<T>(pages: seq<seq<T>>): seq<T> {
    if pages == [] then [] else Concat(pages[..|pages| - 1]) + pages[|pages| - 1]
  }

  /** create_tick_sheet with a running line position. */
  method CreateTickSheetPaged(songs: seq<string>, filename: string) returns (c: Canvas)
    ensures fresh(c) && c.filename == filename && c.saved
    ensures c.pages == Chunks(PagedEntries(songs)) && c.current == []
  {
    c := new Canvas(filename);
    ghost var entries := PagedEntries(songs);
    var y := START_Y;
    var idx := 1;
    while idx <= |songs|
      invariant 1 <= idx <= |songs| + 1
      invariant c.filename == filename && !c.saved
      invariant idx - 1 == LINES_PER_PAGE * |c.pages| + |c.current|
      invariant |c.current| <= LINES_PER_PAGE
      invariant idx == 1 ==> c.pages == [] && c.current == []
      invariant idx > 1 ==> 1 <= |c.current| && c.pages + [c.current] == Chunks(entries[..idx - 1])
      invariant y == START_Y - GAP * |c.current|
    {
      ghost var done := entries[..idx - 1];
      ghost var full := idx == 1 || |c.current| == LINES_PER_PAGE;
      if y < BOTTOM_MARGIN {
        c.ShowPage();
        y := START_Y;
      }
      LineOnPage(|c.pages|, |c.current|);
      assert TextRun(5 * START_X, y, TickSheet.Label(idx, songs[idx - 1])) == entries[idx - 1];
      c.DrawString(5 * START_X, y, TickSheet.Label(idx, songs[idx - 1]));
      y := y - GAP;
      if full {
        assert |done| == LINES_PER_PAGE * |c.pages|;
        assert c.pages == Chunks(done);
        assert c.current == [entries[idx - 1]];
        ChunksSnocFull(done, entries[idx - 1], |c.pages|);
      } else {
        ChunksSnocPartial(done, entries[idx - 1], |c.pages|, |done| - LINES_PER_PAGE * |c.pages|);
        assert Chunks(done)[..|c.pages|] == c.pages;
        assert c.current == Chunks(done)[|c.pages|] + [entries[idx - 1]];
      }
      assert entries[..idx] == done + [entries[idx - 1]];
      idx := idx + 1;
    }
    c.Save();
    assert entries[..idx - 1] == entries;
  }

  /** (35p + i) div 35 == p and (35p + i) mod 35 == i: used to place
      entry 35p + i on line i of page p. */
  lemma LineOnPage(p: nat, i: nat)
    requires i < LINES_PER_PAGE
    ensures (LINES_PER_PAGE * p + i) % LINES_PER_PAGE == i
    ensures (LINES_PER_PAGE * p + i) / LINES_PER_PAGE == p
  {
  }

  // ---------------------------------------------------------------------
  // Pages

  /** Page p holds elements 35p, 35p + 1, ...: all pages but the last are
      full, and the last holds at least one element. */
  lemma ChunksAt<T>(s: seq<T>, p: nat, i: nat)
    requires p < |Chunks(s)|
    ensures 1 <= |Chunks(s)[p]| <= LINES_PER_PAGE
    ensures p + 1 < |Chunks(s)| ==> |Chunks(s)[p]| == LINES_PER_PAGE
    ensures i < |Chunks(s)[p]| ==> LINES_PER_PAGE * p + i < |s| && Chunks(s)[p][i] == s[LINES_PER_PAGE * p + i]
  {
  }

  /** Adding an element after a full last page opens a new page. */
  lemma ChunksSnocFull<T>(s: seq<T>, x: T, m: nat)
    requires |s| == LINES_PER_PAGE * m
    ensures Chunks(s + [x]) == Chunks(s) + [[x]]
  {
    var t := s + [x];
    assert PageCount(|s|) == m;
    assert PageCount(|t|) == m + 1;
    forall p | 0 <= p < m
      ensures Chunks(t)[p] == Chunks(s)[p]
    {
      assert LINES_PER_PAGE * p + LINES_PER_PAGE <= |s|;
    }
    assert Chunks(t)[m] == [x];
  }

  /** Adding an element after a last page that has room extends it. */
  lemma ChunksSnocPartial<T>(s: seq<T>, x: T, m: nat, r: nat)
    requires |s| == LINES_PER_PAGE * m + r && 0 < r < LINES_PER_PAGE
    ensures |Chunks(s)| == m + 1
    ensures Chunks(s + [x]) == Chunks(s)[..m] + [Chunks(s)[m] + [x]]
  {
    var t := s + [x];
    assert PageCount(|s|) == m + 1;
    assert PageCount(|t|) == m + 1;
    forall p | 0 <= p < m
      ensures Chunks(t)[p] == Chunks(s)[p]
    {
      assert LINES_PER_PAGE * p + LINES_PER_PAGE <= |s|;
    }
    assert Chunks(s)[m] == s[LINES_PER_PAGE * m..];
    assert Chunks(t)[m] == t[LINES_PER_PAGE * m..] == s[LINES_PER_PAGE * m..] + [x];
    assert |Chunks(t)| == |Chunks(s)[..m] + [Chunks(s)[m] + [x]]|;
  }

  /** The pages laid end to end give back the whole sequence. */
  lemma {:induction false} ConcatChunks<T>(s: seq<T>)
    ensures Concat(Chunks(s)) == s
    decreases |s|
  {
    if s != [] {
      var init, x := s[..|s| - 1], s[|s| - 1];
      ConcatChunks(init);
      assert init + [x] == s;
      var m, r := |init| / LINES_PER_PAGE, |init| % LINES_PER_PAGE;
      if r == 0 {
        ChunksSnocFull(init, x, m);
        ConcatSnoc(Chunks(init), [x]);
      } else {
        ChunksSnocPartial(init, x, m, r);
        var cs := Chunks(init);
        ConcatSnoc(cs[..m], cs[m]);
        assert cs[..m] + [cs[m]] == cs;
        ConcatSnoc(cs[..m], cs[m] + [x]);
      }
    }
  }

  lemma ConcatSnoc<T>(pages: seq<seq<T>>, page: seq<T>)
    ensures Concat(pages + [page]) == Concat(pages) + page
  {
    assert (pages + [page])[..|pages|] == pages;
  }

  // ---------------------------------------------------------------------
  // The document

  /** The corrected tick sheet lists every title once, in input order,
      on as many pages as 35 lines a page need, every page but the last
      full. */
  lemma PagedPages(songs: seq<string>, p: nat)
    ensures |Chunks(PagedEntries(songs))| == PageCount(|songs|)
    ensures Concat(Chunks(PagedEntries(songs))) == PagedEntries(songs)
    ensures p + 1 < PageCount(|songs|) ==> |Chunks(PagedEntries(songs))[p]| == LINES_PER_PAGE
  {
    ConcatChunks(PagedEntries(songs));
    if p + 1 < PageCount(|songs|) {
      ChunksAt(PagedEntries(songs), p, 0);
    }
  }

  /** Line i of page p is entry 35p + i, drawn at 742 - 20 * i, never
      below 62, and it reads back as that entry's number and title. */
  lemma PagedLine(songs: seq<string>, p: nat, i: nat)
    requires p < |Chunks(PagedEntries(songs))|
    requires i < |Chunks(PagedEntries(songs))[p]|
    ensures LINES_PER_PAGE * p + i < |songs|
    ensures Chunks(PagedEntries(songs))[p][i].TextRun?
    ensures Chunks(PagedEntries(songs))[p][i].y == START_Y - GAP * i
    ensures BOTTOM_MARGIN < Chunks(PagedEntries(songs))[p][i].y <= START_Y
    ensures TickSheet.ParseLabel(Chunks(PagedEntries(songs))[p][i].text)
         == TickSheet.Some((LINES_PER_PAGE * p + i + 1, songs[LINES_PER_PAGE * p + i]))
  {
    var entries := PagedEntries(songs);
    ChunksAt(entries, p, i);
    var k := LINES_PER_PAGE * p + i;
    LineOnPage(p, i);
    assert Chunks(entries)[p][i] == PagedEntry(k, songs[k]);
    TickSheet.LabelRoundTrip(k + 1, songs[k]);
  }

  /** Two lines of the same page are at least one gap apart. */
  lemma PagedLinesApart(songs: seq<string>, p: nat, i: nat, j: nat)
    requires p < |Chunks(PagedEntries(songs))|
    requires i < j < |Chunks(PagedEntries(songs))[p]|
    ensures Chunks(PagedEntries(songs))[p][i].y - Chunks(PagedEntries(songs))[p][j].y >= GAP
  {
    PagedLine(songs, p, i);
    PagedLine(songs, p, j);
  }
}
