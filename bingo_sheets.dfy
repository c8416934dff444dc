/** Bingo sheet assembly and grid layout: for every sheet, draw titles at
    random without replacement, insert the FREE cell, and lay the list out
    row by row as a 5x5 grid on a page of its own. */
module BingoSheets {
  import opened Pdf

  const GRID_SIZE: int := 5
  const CELLS: int := 25            // GRID_SIZE * GRID_SIZE
  const FULL_SAMPLE: int := 24      // titles drawn when there are enough
  const FREE_INDEX: nat := 12       // where "FREE" is inserted
  const FREE: string := "FREE"
  const START_X: int := 50
  const START_Y: int := PAGE_HEIGHT - 50
  const CELL_WIDTH5: int := PAGE_WIDTH - 100  // (width - 100) / GRID_SIZE, in fifths of a point
  const CELL_HEIGHT: int := 100
  const TEXT_INSET5: int := 50      // 10 points

  /** The exceptions the generator can raise. */
  datatype Error =
    | SampleSizeOutOfRange        // sample() with a negative or too large count
    | IndexOutOfRange(index: int) // current_songs[idx] past the end of the list

  datatype Result<T> = Ok(value: T) | Err(error: Error)

  datatype Outcome = Done | Failed(error: Error)

  /** How many titles a sheet draws from n: 24, or n - 1 when there are
      fewer than 24 (which is -1 for an empty list). */
  function SampleSize(n: nat): int {
    if n >= FULL_SAMPLE then FULL_SAMPLE else n - 1
  }

  /** The outcome of one random draw of k titles from n: k pairwise
      distinct positions, in the order they were drawn. */
  predicate IsDraw(draw: seq<nat>, n: nat, k: int) {
    && |draw| == k
    && (forall i :: 0 <= i < |draw| ==> draw[i] < n)
    && (forall i, j :: 0 <= i < j < |draw| ==> draw[i] != draw[j])
  }

  function Picks(songs: seq<string>, draw: seq<nat>): (r: seq<string>)
    requires forall i :: 0 <= i < |draw| ==> draw[i] < |songs|
  {
    seq(|draw|, i requires 0 <= i < |draw| => songs[draw[i]])
  }

  /** random.sample(songs, k), whose random choice is the caller's draw. */
  function Sample(songs: seq<string>, k: int, draw: seq<nat>): (r: Result<seq<string>>)
    requires 0 <= k <= |songs| ==> IsDraw(draw, |songs|, k)
    ensures r.Err? <==> k < 0 || |songs| < k
    ensures r.Err? ==> r.error == SampleSizeOutOfRange
    ensures r.Ok? ==> |r.value| == k && multiset(r.value) <= multiset(songs)
  {
    if 0 <= k <= |songs| then
      PicksWithinSongs(songs, draw);
      Ok(Picks(songs, draw))
    else
      Err(SampleSizeOutOfRange)
  }

  /** list.insert(i, x): an index past the end appends. */
  function ListInsert<T>(s: seq<T>, i: nat, x: T): (r: seq<T>)
    ensures |r| == |s| + 1
    ensures var p := if i <= |s| then i else |s|;
      r[p] == x && r[..p] == s[..p] && r[p + 1..] == s[p..]
  {
    if i <= |s| then s[..i] + [x] + s[i..] else s + [x]
  }

  /** The list of one sheet's cells (current_songs after the insertion). */
  function SheetCells(songs: seq<string>, draw: seq<nat>): (cells: seq<string>)
    requires 0 < |songs| && IsDraw(draw, |songs|, SampleSize(|songs|))
    ensures |cells| == SampleSize(|songs|) + 1
  {
    ListInsert(Sample(songs, SampleSize(|songs|), draw).value, FREE_INDEX, FREE)
  }

  /** The position of row i, column j in the list of cells. */
  function CellIndex(i: int, j: int): int {
    i * GRID_SIZE + j
  }

  /** The bordered rectangle of cell k, in row k / 5 and column k % 5. */
  function CellRect(k: int): Draw {
    var i, j := k / GRID_SIZE, k % GRID_SIZE;
    Rectangle(5 * START_X + j * CELL_WIDTH5, START_Y - i * CELL_HEIGHT - CELL_HEIGHT,
              CELL_WIDTH5, CELL_HEIGHT)
  }

  /** The title of cell k. */
  function CellTitle(k: int, title: string): Draw {
    var i, j := k / GRID_SIZE, k % GRID_SIZE;
    TextRun(5 * START_X + j * CELL_WIDTH5 + TEXT_INSET5, START_Y - i * CELL_HEIGHT - CELL_HEIGHT / 2,
            title)
  }

  /** The drawing calls for the first n cells, in row-major order. */
  function GridDraws(cells: seq<string>, n: nat): seq<Draw>
    requires n <= |cells|
    decreases n
  {
    if n == 0 then [] else GridDraws(cells, n - 1) + [CellRect(n - 1)] + [CellTitle(n - 1, cells[n - 1])]
  }

  /** A complete sheet's page. */
  function SheetPage(cells: seq<string>): seq<Draw>
    requires |cells| == CELLS
  {
    GridDraws(cells, |cells|)
  }

  /** The pages of the first n sheets, page s drawn from draws[s]. */
  function SheetPages(songs: seq<string>, draws: seq<seq<nat>>, n: nat): (r: seq<seq<Draw>>)
    requires FULL_SAMPLE <= |songs| && n <= |draws|
    requires forall s :: 0 <= s < |draws| ==> IsDraw(draws[s], |songs|, SampleSize(|songs|))
    ensures |r| == n
    decreases n
  {
    if n == 0 then []
    else SheetPages(songs, draws, n - 1) + [SheetPage(SheetCells(songs, draws[n - 1]))]
  }

  /** One cell: its border, then its title inset from the left edge and
      on the cell's midline. */
  method DrawCell(c: Canvas, i: int, j: int, songTitle: string)
    requires 0 <= i && 0 <= j < GRID_SIZE
    modifies c`current
    ensures var k := CellIndex(i, j);
      c.current == old(c.current) + [CellRect(k)] + [CellTitle(k, songTitle)]
  {
    var x5 := 5 * START_X + j * CELL_WIDTH5;
    var y := START_Y - i * CELL_HEIGHT;
    c.Rect(x5, y - CELL_HEIGHT, CELL_WIDTH5, CELL_HEIGHT);
    c.DrawString(x5 + TEXT_INSET5, y - CELL_HEIGHT / 2, songTitle);
    assert CellIndex(i, j) / GRID_SIZE == i && CellIndex(i, j) % GRID_SIZE == j;
  }

  /** The nested row and column loops of one sheet: each cell's rectangle
      and title, in row-major order, until the list runs out. */
  method DrawGrid(c: Canvas, currentSongs: seq<string>) returns (r: Outcome)
    requires |currentSongs| <= CELLS && c.current == []
    modifies c`current
    ensures |currentSongs| == CELLS ==> r == Done && c.current == SheetPage(currentSongs)
    ensures |currentSongs| < CELLS ==>
      && r == Failed(IndexOutOfRange(|currentSongs|))
      && c.current == GridDraws(currentSongs, |currentSongs|)
  {
    var i := 0;
    while i < GRID_SIZE
      invariant 0 <= i <= GRID_SIZE && CellIndex(i, 0) <= |currentSongs|
      invariant c.current == GridDraws(currentSongs, CellIndex(i, 0))
    {
      var j := 0;
      while j < GRID_SIZE
        invariant 0 <= j <= GRID_SIZE && CellIndex(i, j) <= |currentSongs|
        invariant c.current == GridDraws(currentSongs, CellIndex(i, j))
      {
        var idx := CellIndex(i, j);
        if idx >= |currentSongs| {
          return Failed(IndexOutOfRange(idx));
        }
        var songTitle := currentSongs[idx];
        DrawCell(c, i, j, songTitle);
        j := j + 1;
      }
      i := i + 1;
    }
    assert CellIndex(i, 0) == |currentSongs|;
    r := Done;
  }

  /** One pass of the sheet loop: draw the titles, insert FREE, lay out
      the grid and end the page. */
  method DrawSheet(c: Canvas, songs: seq<string>, draw: seq<nat>) returns (r: Outcome)
    requires 0 < |songs| ==> IsDraw(draw, |songs|, SampleSize(|songs|))
    requires c.current == []
    modifies c`pages, c`current
    ensures |songs| == 0 ==> r == Failed(SampleSizeOutOfRange) && c.pages == old(c.pages) && c.current == []
    ensures 0 < |songs| < FULL_SAMPLE ==>
      && r == Failed(IndexOutOfRange(|songs|)) && c.pages == old(c.pages)
      && c.current == GridDraws(SheetCells(songs, draw), |songs|)
    ensures FULL_SAMPLE <= |songs| ==>
      r == Done && c.pages == old(c.pages) + [SheetPage(SheetCells(songs, draw))] && c.current == []
  {
    var k := if |songs| >= FULL_SAMPLE then FULL_SAMPLE else |songs| - 1;
    var sample := Sample(songs, k, draw);
    if sample.Err? {
      return Failed(sample.error);
    }
    var currentSongs := ListInsert(sample.value, FREE_INDEX, FREE);
    assert currentSongs == SheetCells(songs, draw);
    r := DrawGrid(c, currentSongs);
    if r.Failed? {
      return;
    }
    assert |currentSongs| == CELLS && c.current == SheetPage(currentSongs);
    c.ShowPage();
  }

  /** create_bingo_sheets(songs, num_sheets, filename). `draws[s]` is what
      random.sample returns for sheet s. */
  method CreateBingoSheets(songs: seq<string>, numSheets: int, filename: string, draws: seq<seq<nat>>)
    returns (c: Canvas, r: Outcome)
    requires numSheets <= |draws|
    requires 0 < |songs| ==> forall s :: 0 <= s < |draws| ==> IsDraw(draws[s], |songs|, SampleSize(|songs|))
    ensures fresh(c) && c.filename == filename
    ensures numSheets <= 0 ==> r == Done && c.saved && c.pages == [] && c.current == []
    ensures 0 < numSheets && |songs| == 0 ==>
      r == Failed(SampleSizeOutOfRange) && !c.saved && c.pages == [] && c.current == []
    ensures 0 < numSheets && 0 < |songs| < FULL_SAMPLE ==>
      && r == Failed(IndexOutOfRange(|songs|)) && !c.saved && c.pages == []
      && c.current == GridDraws(SheetCells(songs, draws[0]), |songs|)
    ensures 0 < numSheets && FULL_SAMPLE <= |songs| ==>
      r == Done && c.saved && c.pages == SheetPages(songs, draws, numSheets) && c.current == []
  {
    c := new Canvas(filename);
    var sheet := 0;
    while sheet < numSheets
      invariant 0 <= sheet <= (if numSheets < 0 then 0 else numSheets)
      invariant 0 < sheet ==> FULL_SAMPLE <= |songs|
      invariant c.pages == (if sheet == 0 then [] else SheetPages(songs, draws, sheet))
      invariant c.current == [] && !c.saved && c.filename == filename
    {
      r := DrawSheet(c, songs, draws[sheet]);
      if r.Failed? {
        return;
      }
      sheet := sheet + 1;
    }
    c.Save();
    r := Done;
  }

  // ---------------------------------------------------------------------
  // Sampling

  /** Drawing at pairwise distinct positions takes no title more often than
      the list holds it. */
  lemma {:induction false} PicksWithinSongs(songs: seq<string>, draw: seq<nat>)
    requires IsDraw(draw, |songs|, |draw|)
    ensures multiset(Picks(songs, draw)) <= multiset(songs)
    decreases |songs|
  {
    if draw != [] {
      assert draw[0] < |songs|;
      var m := |songs| - 1;
      var init := songs[..m];
      assert songs == init + [songs[m]];
      if p :| 0 <= p < |draw| && draw[p] == m {
        var rest := PicksRemove(songs, draw, p);
        PicksOfPrefix(songs, rest, m);
        PicksWithinSongs(init, rest);
      } else {
        PicksOfPrefix(songs, draw, m);
        PicksWithinSongs(init, draw);
      }
    }
  }

  /** Taking the position drawn p-th out of a draw takes its title out of
      the picks; the other positions stay distinct and differ from it. */
  lemma PicksRemove(songs: seq<string>, draw: seq<nat>, p: nat) returns (rest: seq<nat>)
    requires IsDraw(draw, |songs|, |draw|) && p < |draw|
    ensures IsDraw(rest, |songs|, |draw| - 1)
    ensures forall i :: 0 <= i < |rest| ==> rest[i] != draw[p]
    ensures multiset(Picks(songs, draw)) == multiset(Picks(songs, rest)) + multiset{songs[draw[p]]}
  {
    rest := draw[..p] + draw[p + 1..];
    assert forall i :: 0 <= i < |rest| ==> rest[i] == draw[if i < p then i else i + 1];
    var all := Picks(songs, draw);
    assert Picks(songs, rest) == all[..p] + all[p + 1..];
    MultisetWithout(all, p);
  }

  lemma MultisetWithout<T>(s: seq<T>, p: nat)
    requires p < |s|
    ensures multiset(s) == multiset(s[..p] + s[p + 1..]) + multiset{s[p]}
  {
    assert s == s[..p] + [s[p]] + s[p + 1..];
  }

  /** Positions below m pick the same titles from the first m songs. */
  lemma PicksOfPrefix(songs: seq<string>, draw: seq<nat>, m: nat)
    requires m <= |songs| && forall i :: 0 <= i < |draw| ==> draw[i] < m
    ensures Picks(songs[..m], draw) == Picks(songs, draw)
  {
  }

  /** The empty list is the only one for which no sample can be taken. */
  lemma SampleSizeValid(n: nat)
    ensures 0 <= SampleSize(n) <= n <==> 0 < n
    ensures 0 < n < FULL_SAMPLE ==> SampleSize(n) == n - 1
  {
  }

  // ---------------------------------------------------------------------
  // The cell list

  /** With 24 titles or more, a sheet holds 25 cells: the drawn titles in
      draw order with FREE at index 12, which is row 2, column 2. */
  lemma SheetCellsFull(songs: seq<string>, draw: seq<nat>)
    requires FULL_SAMPLE <= |songs| && IsDraw(draw, |songs|, FULL_SAMPLE)
    ensures var cells := SheetCells(songs, draw);
      && |cells| == CELLS
      && cells[FREE_INDEX] == FREE
      && FREE_INDEX / GRID_SIZE == 2 && FREE_INDEX % GRID_SIZE == 2
      && (forall p :: 0 <= p < FREE_INDEX ==> cells[p] == songs[draw[p]])
      && (forall p :: FREE_INDEX < p < CELLS ==> cells[p] == songs[draw[p - 1]])
  {
    var cells := SheetCells(songs, draw);
    var picks := Picks(songs, draw);
    assert cells[..FREE_INDEX] == picks[..FREE_INDEX];
    assert cells[FREE_INDEX + 1..] == picks[FREE_INDEX..];
    forall p | 0 <= p < FREE_INDEX
      ensures cells[p] == songs[draw[p]]
    {
      assert cells[p] == cells[..FREE_INDEX][p];
    }
    forall p | FREE_INDEX < p < CELLS
      ensures cells[p] == songs[draw[p - 1]]
    {
      assert cells[p] == cells[FREE_INDEX + 1..][p - FREE_INDEX - 1];
    }
  }

  /** With 1 to 23 titles, n - 1 are drawn and the list is only n long;
      FREE sits at index 12, or at the end when fewer than 12 were drawn,
      and the drawn titles surround it in draw order. */
  lemma SheetCellsShort(songs: seq<string>, draw: seq<nat>)
    requires 0 < |songs| < FULL_SAMPLE && IsDraw(draw, |songs|, |songs| - 1)
    ensures var cells := SheetCells(songs, draw);
      && |cells| == |songs|
      && cells[if |songs| - 1 < FREE_INDEX then |songs| - 1 else FREE_INDEX] == FREE
      && (forall p :: 0 <= p < |songs| - 1 && p < FREE_INDEX ==> cells[p] == songs[draw[p]])
      && (forall p :: FREE_INDEX < p < |songs| ==> cells[p] == songs[draw[p - 1]])
  {
    var cells := SheetCells(songs, draw);
    var picks := Picks(songs, draw);
    if |songs| - 1 < FREE_INDEX {
      assert cells == picks + [FREE];
      forall p | 0 <= p < |songs| - 1
        ensures cells[p] == songs[draw[p]]
      {
        assert cells[p] == picks[p];
      }
    } else {
      assert cells[..FREE_INDEX] == picks[..FREE_INDEX];
      assert cells[FREE_INDEX + 1..] == picks[FREE_INDEX..];
      forall p | 0 <= p < FREE_INDEX
        ensures cells[p] == songs[draw[p]]
      {
        assert cells[p] == cells[..FREE_INDEX][p];
      }
      forall p | FREE_INDEX < p < |songs|
        ensures cells[p] == songs[draw[p - 1]]
      {
        assert cells[p] == cells[FREE_INDEX + 1..][p - FREE_INDEX - 1];
      }
    }
  }

  /** Every one of the 25 grid reads is in bounds exactly when there are at
      least 24 titles. */
  lemma GridReadsInBounds(songs: seq<string>, draw: seq<nat>)
    requires 0 < |songs| && IsDraw(draw, |songs|, SampleSize(|songs|))
    ensures CELLS <= |SheetCells(songs, draw)| <==> FULL_SAMPLE <= |songs|
  {
  }

  /** Unless a song is itself called FREE, the FREE cell is the centre one
      and no other. */
  lemma FreeOnlyAtCentre(songs: seq<string>, draw: seq<nat>)
    requires FULL_SAMPLE <= |songs| && IsDraw(draw, |songs|, FULL_SAMPLE)
    requires FREE !in songs
    ensures var cells := SheetCells(songs, draw);
      forall p :: 0 <= p < |cells| ==> (cells[p] == FREE <==> p == FREE_INDEX)
  {
    SheetCellsFull(songs, draw);
  }

  /** From a list without repeated titles (none of them FREE), no sheet
      repeats a cell. */
  lemma NoRepeatedCell(songs: seq<string>, draw: seq<nat>)
    requires FULL_SAMPLE <= |songs| && IsDraw(draw, |songs|, FULL_SAMPLE)
    requires FREE !in songs
    requires forall a, b :: 0 <= a < b < |songs| ==> songs[a] != songs[b]
    ensures var cells := SheetCells(songs, draw);
      forall p, q :: 0 <= p < q < |cells| ==> cells[p] != cells[q]
  {
    var cells := SheetCells(songs, draw);
    SheetCellsFull(songs, draw);
    forall p, q | 0 <= p < q < |cells|
      ensures cells[p] != cells[q]
    {
      if p != FREE_INDEX && q != FREE_INDEX {
        var p' := if p < FREE_INDEX then p else p - 1;
        var q' := if q < FREE_INDEX then q else q - 1;
        assert draw[p'] != draw[q'];
        assert cells[p] == songs[draw[p']] && cells[q] == songs[draw[q']];
      }
    }
  }

  // ---------------------------------------------------------------------
  // The grid

  /** idx = i * 5 + j over rows i and columns j in 0..4 numbers the cells
      0..24, each exactly once, and row i, column j is read back from idx. */
  lemma RowMajorIndex()
    ensures forall i, j :: 0 <= i < GRID_SIZE && 0 <= j < GRID_SIZE ==>
      0 <= CellIndex(i, j) < CELLS && CellIndex(i, j) / GRID_SIZE == i && CellIndex(i, j) % GRID_SIZE == j
    ensures forall idx :: 0 <= idx < CELLS ==>
      0 <= idx / GRID_SIZE < GRID_SIZE && CellIndex(idx / GRID_SIZE, idx % GRID_SIZE) == idx
  {
  }

  /** The page holds, for each cell k in order, its rectangle followed by
      its title. */
  lemma {:induction false} GridDrawsAt(cells: seq<string>, n: nat, k: nat)
    requires n <= |cells| && k < n
    ensures |GridDraws(cells, n)| == 2 * n
    ensures GridDraws(cells, n)[2 * k] == CellRect(k)
    ensures GridDraws(cells, n)[2 * k + 1] == CellTitle(k, cells[k])
    decreases n
  {
    GridDrawsLength(cells, n - 1);
    if k < n - 1 {
      GridDrawsAt(cells, n - 1, k);
    }
  }

  lemma {:induction false} GridDrawsLength(cells: seq<string>, n: nat)
    requires n <= |cells|
    ensures |GridDraws(cells, n)| == 2 * n
    decreases n
  {
    if n > 0 {
      GridDrawsLength(cells, n - 1);
    }
  }

  /** Cell k lies in row k / 5 and column k % 5 of the 612 x 792 page,
      between heights 242 and 742; its title starts inside it, on its
      midline, 692 - 100 * row. */
  lemma CellGeometry(k: int, title: string)
    requires 0 <= k < CELLS
    ensures var rect, text, row := CellRect(k), CellTitle(k, title), k / GRID_SIZE;
      && 0 <= rect.x5 && rect.x5 + rect.w5 <= 5 * PAGE_WIDTH
      && 0 <= 242 <= rect.y && rect.y + rect.h <= 742 <= PAGE_HEIGHT
      && rect.x5 == 5 * START_X + (k % GRID_SIZE) * rect.w5
      && rect.y == 642 - 100 * row
      && text.y == rect.y + rect.h / 2 == 692 - 100 * row
      && rect.x5 < text.x5 < rect.x5 + rect.w5
  {
  }

  /** Cell k of a sheet is drawn at row k / 5, column k % 5, and each of
      its rectangles lies on the page. */
  lemma SheetCellGeometry(cells: seq<string>, k: nat)
    requires |cells| == CELLS && k < CELLS
    ensures |SheetPage(cells)| == 2 * CELLS
    ensures var rect, text := SheetPage(cells)[2 * k], SheetPage(cells)[2 * k + 1];
      && rect.Rectangle? && text.TextRun? && text.text == cells[k]
      && 0 <= rect.x5 && rect.x5 + rect.w5 <= 5 * PAGE_WIDTH
      && 0 <= rect.y && rect.y + rect.h <= PAGE_HEIGHT
      && rect.x5 == 250 + 512 * (k % GRID_SIZE)
      && rect.y == 642 - 100 * (k / GRID_SIZE)
      && text.y == 692 - 100 * (k / GRID_SIZE)
  {
    GridDrawsAt(cells, CELLS, k);
    CellGeometry(k, cells[k]);
  }

  /** The document has one page per sheet, page s being sheet s. */
  lemma {:induction false} SheetPagesAt(songs: seq<string>, draws: seq<seq<nat>>, n: nat, s: nat)
    requires FULL_SAMPLE <= |songs| && n <= |draws|
    requires forall t :: 0 <= t < |draws| ==> IsDraw(draws[t], |songs|, SampleSize(|songs|))
    requires s < n
    ensures SheetPages(songs, draws, n)[s] == SheetPage(SheetCells(songs, draws[s]))
    decreases n
  {
    if s < n - 1 {
      SheetPagesAt(songs, draws, n - 1, s);
    }
  }
}
