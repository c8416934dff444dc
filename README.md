# Music bingo generator, modelled in Dafny

The generator takes an ordered list of song titles and writes two PDF
documents:

- A bingo document. Each sheet draws 24 titles at random without
  replacement, inserts `"FREE"` at list index 12, and lays the 25 cells out
  row by row as a 5×5 grid on a page of its own.
- A tick sheet for the host. It lists every title, numbered from 1 in input
  order, one line each.

The model has five modules:

- `Pdf` (`pdf_canvas.dfy`): the reportlab canvas as a class that records
  drawing calls. It holds the closed `pages`, the page in progress
  (`current`) and whether the document was `saved`.
  - `showPage` closes the page in progress, even an empty one.
  - `save` closes the page in progress only when it holds any drawing,
    as reportlab does.
  - Horizontal coordinates are kept in fifths of a point. The cell width
    (612 − 100) / 5 = 102.4 points is then the integer 512.
- `Decimal` (`decimal.dfy`): Python's `str()` of a non-negative integer and
  reading a numeral back, used for the tick-sheet labels `"{idx}. {song}"`.
- `BingoSheets` (`bingo_sheets.dfy`): `create_bingo_sheets`. The random
  draw for sheet `s` is the caller's `draws[s]`: a sequence of pairwise
  distinct positions in the song list, of the length `sample` is asked for.
  - The exceptions the code raises are modelled as an `Outcome`:
    `ValueError` from `sample` with a negative count, and `IndexError` from
    the grid read at line 60.
  - The canvas left behind is modelled too: its pages are never saved when
    an exception escapes.
- `TickSheet` (`tick_sheet.dfy`): `create_tick_sheet` as written. The
  method is proved against `TickState`, a specification that mirrors the
  loop, page-break branch included. Separate lemmas then show that:
  - the branch never fires;
  - the whole list lands on one page;
  - line positions repeat with period 173.
- `TickSheetPaged` (`tick_sheet_paged.dfy`): the tick sheet with the page
  break its test is there for. A running line position moves down 20 points
  per title and starts a new page below the 50-point margin, restarting at
  742. This is the corrected half of the finding below.

The docstring (bingo_generator.py:4) promises sheets of 25 song titles.
With 1 to 23 titles the code draws only `len(songs) - 1` of them (line 54),
so the cell list is `len(songs)` long. The grid read at line 60 then raises
`IndexError` at `idx == len(songs)`, after that many cells have been drawn.
An empty list makes the sample size -1, and `sample` raises `ValueError`.
The model follows the code (`BingoSheets.DrawGrid`,
`BingoSheets.CreateBingoSheets`).

## Model

| member | source | states |
|---|---|---|
| Pdf.Canvas.constructor | bingo_generator.py:44 | a new canvas for the file name has no pages, an empty page in progress and is not saved |
| Pdf.Canvas.Rect | bingo_generator.py:63 | `rect` appends one rectangle record to the page in progress and changes nothing else |
| Pdf.Canvas.DrawString | bingo_generator.py:64 | `drawString` appends one text record to the page in progress and changes nothing else |
| Pdf.Canvas.ShowPage | bingo_generator.py:65 | `showPage` closes the page in progress (even an empty one) and starts an empty page |
| Pdf.Canvas.Save | bingo_generator.py:66 | `save` closes the page in progress only when it holds drawing, then marks the document saved |
| Decimal.FromNat | bingo_generator.py:87 | the `{idx}` numeral is non-empty, all digits, with no leading zero |
| Decimal.DigitPrefix | bingo_generator.py:87 | the longest digit prefix of a line: a prefix, all digits, followed by a non-digit or the end |
| Decimal.ToNatFromNat | bingo_generator.py:87 | reading the numeral back gives the number it was made from |
| Decimal.DigitPrefixOf | bingo_generator.py:87 | a numeral followed by a non-digit is read exactly up to its end |
| BingoSheets.SampleSize | bingo_generator.py:54 | the count `sample` is asked for: 24 when there are at least 24 titles, otherwise len(songs) - 1 (-1 for an empty list); its range is in `SampleSizeValid` |
| BingoSheets.Picks | bingo_generator.py:54 | the list `sample` returns for a given draw: the titles at the drawn positions, in draw order; its multiset bound is in `PicksWithinSongs` |
| BingoSheets.Sample | bingo_generator.py:54 | `sample(songs, k)` fails exactly when k < 0 or k > len(songs), as `ValueError`; otherwise it gives k titles and takes no title more often than the list holds it |
| BingoSheets.ListInsert | bingo_generator.py:55 | `insert(12, x)` adds one element: x at min(12, len), everything before it unchanged, everything after it shifted by one |
| BingoSheets.SheetCells | bingo_generator.py:54-55 | a sheet's cell list is one longer than the sample size |
| BingoSheets.SheetPages | bingo_generator.py:52-65 | the first n sheets give exactly n pages |
| BingoSheets.CellIndex | bingo_generator.py:59 | `idx = i * grid_size + j`; that it numbers the grid one-to-one is in `RowMajorIndex` |
| BingoSheets.GridDraws | bingo_generator.py:57-64 | the drawing calls of the nested loops for the first n cells: each cell's rectangle, then its title, in row-major order; record positions are in `GridDrawsAt`, and `DrawGrid`, `DrawSheet` and `CreateBingoSheets` are proved against it |
| BingoSheets.SheetPage | bingo_generator.py:57-65 | the page of one complete sheet, all 25 cells; its geometry is in `SheetCellGeometry` |
| BingoSheets.CellRect | bingo_generator.py:61-63 | cell k's border: x = 50 + (k % 5) * 102.4 (in fifths of a point), lower edge at 742 - 100 * (k / 5) - 100, 102.4 wide and 100 high; its bounds are in `CellGeometry` |
| BingoSheets.CellTitle | bingo_generator.py:61-64 | cell k's title: 10 points right of the cell's left edge, on height 742 - 100 * (k / 5) - 50; its position inside the cell is in `CellGeometry` |
| BingoSheets.DrawCell | bingo_generator.py:59-64 | one cell appends its rectangle, then its title, for cell index i*5 + j |
| BingoSheets.DrawGrid | bingo_generator.py:57-64 | with 25 cells the nested loops draw the whole sheet page in row-major order; with fewer they draw every cell there is, then stop with `IndexError` at idx == len(list) |
| BingoSheets.DrawSheet | bingo_generator.py:53-65 | one sheet: an empty list fails with `ValueError` and draws nothing; 1 to 23 titles fail with `IndexError` after drawing len(songs) cells, with no page closed; 24 or more close exactly one new page, that sheet's grid |
| BingoSheets.CreateBingoSheets | bingo_generator.py:35-66 | num_sheets <= 0 saves an empty document; otherwise an empty list fails with `ValueError` and a list of 1 to 23 titles fails with `IndexError` on the first sheet, neither saving; with 24 or more titles the saved document is exactly one page per sheet, page s being sheet s's grid |
| BingoSheets.PicksWithinSongs | bingo_generator.py:54 | drawing at pairwise distinct positions takes no title more often than the list holds it (multiset inclusion) |
| BingoSheets.PicksRemove | bingo_generator.py:54 | taking one position out of a draw leaves a valid draw without it and takes exactly that title out of the picks |
| BingoSheets.MultisetWithout | bingo_generator.py:54 | deleting element p from a list removes exactly one copy of it from the list's multiset |
| BingoSheets.PicksOfPrefix | bingo_generator.py:54 | positions below m pick the same titles from the first m songs |
| BingoSheets.SampleSizeValid | bingo_generator.py:54 | the sample size is a valid count exactly when the list is non-empty, and it is len(songs) - 1 below 24 |
| BingoSheets.SheetCellsFull | bingo_generator.py:54-55 | with at least 24 titles a sheet has 25 cells, FREE at index 12 (row 2, column 2), and the drawn titles in draw order before and after it |
| BingoSheets.SheetCellsShort | bingo_generator.py:54-55 | with 1 to 23 titles the list is len(songs) long, FREE sits at min(12, len(songs) - 1), and the drawn titles fill the other cells in draw order |
| BingoSheets.GridReadsInBounds | bingo_generator.py:54-60 | all 25 grid reads are in bounds exactly when there are at least 24 titles |
| BingoSheets.FreeOnlyAtCentre | bingo_generator.py:55 | unless a title is itself "FREE", the FREE cell is the centre cell and no other |
| BingoSheets.NoRepeatedCell | bingo_generator.py:54-55 | from a list of distinct titles (none "FREE"), no sheet repeats a cell |
| BingoSheets.RowMajorIndex | bingo_generator.py:57-59 | idx = i*5 + j over i, j in 0..4 numbers the cells 0..24 once each, and row and column are recovered from idx |
| BingoSheets.GridDrawsAt | bingo_generator.py:57-64 | the first n cells give 2n records: cell k's rectangle at position 2k, its title at 2k + 1 |
| BingoSheets.GridDrawsLength | bingo_generator.py:57-64 | the first n cells give 2n drawing records |
| BingoSheets.CellGeometry | bingo_generator.py:45-50 | a cell of row i spans heights 642 - 100i to 742 - 100i, inside [242, 742] and inside the page width; its title baseline is the cell midline 692 - 100i, starting inside the cell |
| BingoSheets.SheetCellGeometry | bingo_generator.py:57-64 | on a sheet's page, cell k's rectangle lies on the page at row k / 5 and column k % 5, and its text is the title of cell k |
| BingoSheets.SheetPagesAt | bingo_generator.py:52-65 | page s of the document is sheet s's grid |
| TickSheet.Label | bingo_generator.py:87 | the line `f"{idx}. {song}"`; it reads back by `LabelRoundTrip` |
| TickSheet.FormulaY | bingo_generator.py:82 | the formula's position 742 - (20 * idx mod 692); its range is in `FormulaYBounds` |
| TickSheet.TickY | bingo_generator.py:82-86 | where entry idx is drawn: the formula's y, or 742 for entry 1 and 722 after a break; see `TickYAsFormula` and `TickYCoincide` |
| TickSheet.Place | bingo_generator.py:83-87 | one loop pass from a computed y: a page break when y < 50 and idx != 1, the reset position for entry 1 or after a break, then the labelled line appended to the page in progress |
| TickSheet.TickState | bingo_generator.py:81-87 | the closed pages and the page in progress after the loop has placed the first n entries, one `Place` per entry with the formula's y; it is the specification `CreateTickSheet` is proved against |
| TickSheet.TickDocument | bingo_generator.py:81-89 | the tick document after `save`: the closed pages, plus the page in progress when it holds a line; `CreateTickSheet` is proved against it and `TickSheetLists` states what it contains |
| TickSheet.CreateTickSheet | bingo_generator.py:68-89 | the saved document is exactly what the loop's specification `TickState` (numbering, position formula, page-break test) gives, with the pending page closed by `save` |
| TickSheet.PlaceEntry | bingo_generator.py:83-87 | one loop pass after y is computed: a page break when y < 50 and idx != 1, the reset position for the first entry or after a break, then the labelled line |
| TickSheet.LabelRoundTrip | bingo_generator.py:87 | the line `"{idx}. {song}"` reads back as (idx, song) |
| TickSheet.LabelInjective | bingo_generator.py:87 | distinct (idx, song) pairs give distinct lines |
| TickSheet.FormulaYBounds | bingo_generator.py:82 | 742 - (20*idx mod 692) always lies in [54, 742], and 54 is reached at idx 69 |
| TickSheet.TickYAsFormula | bingo_generator.py:82-86 | the y < 50 test never fires; entry 1 is drawn at 742, every later entry at the formula's y |
| TickSheet.TickYCoincide | bingo_generator.py:82-86 | two entries from the second on share a line exactly when their numbers differ by a multiple of 173 |
| TickSheet.TickYPeriodic | bingo_generator.py:82-86 | y(idx + 173) == y(idx) for idx >= 2 |
| TickSheet.TickLinesCollide | bingo_generator.py:82-86 | entry 173 is drawn on entry 1, entry 175 on entry 2, and entry 35 only 8 points below entry 1 |
| TickSheet.TickEntries | bingo_generator.py:81-87 | one line per title |
| TickSheet.TickStateOnePage | bingo_generator.py:81-87 | after any number of entries no page has been closed, and the page in progress holds the entries in order |
| TickSheet.TickSheetLists | bingo_generator.py:81-89 | the saved tick sheet is one page (none for an empty list); line k reads back as number k + 1 and title k, so every title appears once, in order |
| TickSheetPaged.PagedEntries | bingo_generator.py:81-87 | one line per title |
| TickSheetPaged.CreateTickSheetPaged | bingo_generator.py:78-89 | with a running position the saved document is the entries cut into consecutive pages of 35 lines |
| TickSheetPaged.LineOnPage | bingo_generator.py:83-86 | (35p + i) div 35 == p and (35p + i) mod 35 == i for i < 35, used to place entries on pages |
| TickSheetPaged.ChunksAt | bingo_generator.py:83-86 | page p holds entries 35p, 35p + 1, …, each page 1 to 35 long, and all but the last full |
| TickSheetPaged.ChunksSnocFull | bingo_generator.py:83-86 | a line added after a full last page opens a new page |
| TickSheetPaged.ChunksSnocPartial | bingo_generator.py:83-86 | a line added after a last page with room extends that page |
| TickSheetPaged.ConcatChunks | bingo_generator.py:81-87 | the pages laid end to end give back every entry in order |
| TickSheetPaged.ConcatSnoc | bingo_generator.py:81-87 | laying out one more page appends its lines |
| TickSheetPaged.PagedPages | bingo_generator.py:81-89 | the corrected sheet has ceil(n / 35) pages, all but the last full, and together they list every entry once, in order |
| TickSheetPaged.PagedLine | bingo_generator.py:82-87 | line i of page p is entry 35p + i, drawn at 742 - 20i, above the 50-point margin, and it reads back as that entry's number and title |
| TickSheetPaged.PagedLinesApart | bingo_generator.py:82-86 | two lines of one page are at least 20 points apart |

## Left out

- `read_song_titles` and the `__main__` block are not modelled. Reading the
  CSV file is I/O; the song list is an input sequence.
- reportlab rendering is reduced to records of `rect`, `drawString`,
  `showPage` and `save`. Fonts, text width, and writing the PDF file are
  not modelled.
- The randomness of `random.sample` is not modelled: no distribution and no
  uniformity. Each sheet's draw is a caller-supplied list of distinct
  positions.
- Floating point is not modelled. Horizontal coordinates are exact
  multiples of a fifth of a point, and the model keeps them as integers
  scaled by 5.
- The default arguments (`num_sheets=100` and the two file names) are
  explicit parameters.
- `BingoSheets.ListInsert`: `current_songs.insert(12, "FREE")` updates a
  local list in place. The model computes the new list as a value, because
  nothing else holds a reference to that list.
- `TickSheet.PlaceEntry`: the y position is computed by the caller and
  passed in. Inside the loop the page-break branch can never run, so it is
  stated on its own, for every y.
- Text width is not modelled: a long title runs past its cell's border,
  since `rect` only strokes the border and does not clip.

## Findings

| source | as written | input that shows it | evidently intended | confidence | as-written member | corrected member |
|---|---|---|---|---|---|---|
| bingo_generator.py:82-86 | y = 742 - (20*idx mod 692) wraps back to the top of the same page instead of starting a new one; y never drops below 54, so the `y < 50` page break never fires | 35 titles: entry 35 is drawn at 734, 8 points below entry 1 at 742, over it; 173 titles: entry 173 is drawn exactly on entry 1 | a new page once the next line would fall below the 50-point margin, lines 20 points apart; the corrected layout restarts each page at 742, so every page holds 35 lines | high, not executed | TickSheet.TickLinesCollide | TickSheetPaged.CreateTickSheetPaged |

The as-written half is `TickSheet.CreateTickSheet`, with `TickSheet.TickSheetLists`
(one page), `TickSheet.TickYCoincide` and `TickSheet.TickLinesCollide`. The
corrected half is `TickSheetPaged.CreateTickSheetPaged`. `TickSheetPaged.PagedPages`,
`TickSheetPaged.PagedLine` and `TickSheetPaged.PagedLinesApart` prove about it
that every title appears once, in order, above the margin, and that no two
lines of a page overlap. The corrected layout makes two choices that the source does not dictate:

- Each new page restarts at the top line, 742. Line 86 of the source resets
  to 722 (`start_y - gap`) after a break. With that reset, a running cursor
  would fit 35 lines on the first page and 34 on every later one.
- It drops the as-written code's 40-point gap between entries 1 and 2, so
  entry 2 lands at 722, not 702.
