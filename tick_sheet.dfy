/** The host's tick sheet: every title, numbered from 1 in input order, one
    line each, placed by the position formula and page-break test the
    generator uses. */
module TickSheet {
  import opened Pdf
  import Decimal

  const START_X: int := 50
  const START_Y: int := PAGE_HEIGHT - 50      // 742
  const GAP: int := 20
  const BOTTOM_MARGIN: int := 50
  const USABLE_HEIGHT: int := PAGE_HEIGHT - 100  // 692, the modulus of the position formula
  const PERIOD: int := 173                    // USABLE_HEIGHT / gcd(GAP, USABLE_HEIGHT)

  datatype Option<T> = None | Some(value: T)

  /** The line of entry idx: f"{idx}. {song}". */
  function Label(idx: nat, song: string): string {
    Decimal.FromNat(idx) + ". " + song
  }

  /** Reads a line back into its number and its title. */
  function ParseLabel(line: string): Option<(int, string)> {
    var digits := Decimal.DigitPrefix(line);
    var n := |digits|;
    if n == 0 || |line| < n + 2 || line[n..n + 2] != ". " then None
    else Some((Decimal.ToNat(digits), line[n + 2..]))
  }

  /** The position the formula gives entry idx, before the page-break test. */
  function FormulaY(idx: nat): int {
    START_Y - (idx * GAP) % USABLE_HEIGHT
  }

  /** Where entry idx is drawn: the first entry, and any entry after a
      break, is moved to a fixed line instead of the formula's y. */
  function TickY(idx: nat): int {
    var y := FormulaY(idx);
    if y < BOTTOM_MARGIN || idx == 1 then START_Y - (if idx != 1 then GAP else 0) else y
  }

  /** The finished pages and the page in progress. */
  datatype Layout = Layout(pages: seq<seq<Draw>>, current: seq<Draw>)

  /** One pass of the loop from the computed y on: the page-break test,
      then the line. */
  function Place(s: Layout, idx: nat, y: int, song: string): Layout {
    var breaks := y < BOTTOM_MARGIN && idx != 1;
    var s' := if breaks then Layout(s.pages + [s.current], []) else s;
    var y' := if y < BOTTOM_MARGIN || idx == 1 then START_Y - (if idx != 1 then GAP else 0) else y;
    Layout(s'.pages, s'.current + [TextRun(5 * START_X, y', Label(idx, song))])
  }

  /** The canvas after the loop has placed the first n entries. */
  function TickState(songs: seq<string>, n: nat): Layout
    requires n <= |songs|
    decreases n
  {
    if n == 0 then Layout([], [])
    else Place(TickState(songs, n - 1), n, FormulaY(n), songs[n - 1])
  }

  /** The saved document: saving closes the page in progress if it holds
      any line. */
  function TickDocument(songs: seq<string>): seq<seq<Draw>> {
    var s := TickState(songs, |songs|);
    s.pages + (if s.current == [] then [] else [s.current])
  }

  /** create_tick_sheet(songs, filename). */
  method CreateTickSheet(songs: seq<string>, filename: string) returns (c: Canvas)
    ensures fresh(c) && c.filename == filename && c.saved
    ensures c.pages == TickDocument(songs) && c.current == []
  {
    c := new Canvas(filename);
    var idx := 1;
    while idx <= |songs|
      invariant 1 <= idx <= |songs| + 1
      invariant c.filename == filename
      invariant Layout(c.pages, c.current) == TickState(songs, idx - 1)
    {
      var song := songs[idx - 1];
      var y := START_Y - (idx * GAP) % USABLE_HEIGHT;
      PlaceEntry(c, idx, y, song);
      idx := idx + 1;
    }
    c.Save();
  }

  /** The page-break test and the drawing of one line, for a y computed
      by the caller. */
  method PlaceEntry(c: Canvas, idx: nat, y: int, song: string)
    modifies c`pages, c`current
    ensures Layout(c.pages, c.current) == Place(Layout(old(c.pages), old(c.current)), idx, y, song)
  {
    var lineY := y;
    if lineY < BOTTOM_MARGIN || idx == 1 {
      if idx != 1 {
        c.ShowPage();
      }
      lineY := START_Y - (if idx != 1 then GAP else 0);
    }
    c.DrawString(5 * START_X, lineY, Label(idx, song));
  }

  // ---------------------------------------------------------------------
  // Labels

  /** A line gives back the number and the title it was made from. */
  lemma LabelRoundTrip(idx: nat, song: string)
    ensures ParseLabel(Label(idx, song)) == Some((idx, song))
  {
    var digits := Decimal.FromNat(idx);
    assert Label(idx, song) == digits + (". " + song);
    Decimal.DigitPrefixOf(digits, ". " + song);
    Decimal.ToNatFromNat(idx);
    var line := Label(idx, song);
    assert line[|digits|..|digits| + 2] == ". ";
    assert line[|digits| + 2..] == song;
  }

  /** Distinct entries get distinct lines. */
  lemma LabelInjective(a: nat, s: string, b: nat, t: string)
    requires Label(a, s) == Label(b, t)
    ensures a == b && s == t
  {
    LabelRoundTrip(a, s);
    LabelRoundTrip(b, t);
  }

  // ---------------------------------------------------------------------
  // Positions

  /** (idx * 20) mod 692 is a multiple of 4, so at most 688: the formula
      never goes below 54, which it reaches at idx 69. */
  lemma FormulaYBounds(idx: nat)
    ensures 54 <= FormulaY(idx) <= START_Y
    ensures FormulaY(idx) % 4 == 2
    ensures FormulaY(69) == 54
  {
    var q, r := (idx * GAP) / USABLE_HEIGHT, (idx * GAP) % USABLE_HEIGHT;
    assert idx * GAP == USABLE_HEIGHT * q + r;
    assert r == 4 * (5 * idx - PERIOD * q);
  }

  /** The page-break test never fires: every entry is drawn where the
      formula puts it (the first at 742), between heights 54 and 742. */
  lemma TickYAsFormula(idx: nat)
    requires 1 <= idx
    ensures !(FormulaY(idx) < BOTTOM_MARGIN && idx != 1)
    ensures TickY(idx) == if idx == 1 then START_Y else START_Y - (idx * GAP) % USABLE_HEIGHT
    ensures 54 <= TickY(idx) <= START_Y
  {
    FormulaYBounds(idx);
  }

  /** Two entries after the first share a line exactly when their numbers
      differ by a multiple of 173. */
  lemma TickYCoincide(a: nat, b: nat)
    requires 2 <= a <= b
    ensures TickY(a) == TickY(b) <==> (b - a) % PERIOD == 0
  {
    TickYAsFormula(a);
    TickYAsFormula(b);
    var d := b - a;
    var qa, ra := (a * GAP) / USABLE_HEIGHT, (a * GAP) % USABLE_HEIGHT;
    var qb, rb := (b * GAP) / USABLE_HEIGHT, (b * GAP) % USABLE_HEIGHT;
    assert a * GAP == USABLE_HEIGHT * qa + ra;
    assert b * GAP == USABLE_HEIGHT * qb + rb;
    assert GAP * d == USABLE_HEIGHT * (qb - qa) + (rb - ra);
    if d % PERIOD == 0 {
      var m := d / PERIOD;
      assert d == PERIOD * m;
      assert rb - ra == USABLE_HEIGHT * (5 * m - qb + qa);
    }
    if ra == rb {
      // 5 * d == 173 * (qb - qa), and 5 * 104 == 3 * 173 + 1
      assert 5 * d == PERIOD * (qb - qa);
      assert d == PERIOD * (104 * (qb - qa) - 3 * d);
    }
  }

  /** Positions repeat with period 173 from the second entry on. */
  lemma TickYPeriodic(idx: nat)
    requires 2 <= idx
    ensures TickY(idx + PERIOD) == TickY(idx)
  {
    TickYCoincide(idx, idx + PERIOD);
  }

  /** What this does to a long list: entry 173 is drawn on top of entry 1,
      entry 175 on top of entry 2, and entry 35 only 8 points below entry 1,
      closer than the 20-point line gap. */
  lemma TickLinesCollide()
    ensures TickY(173) == TickY(1) && TickY(175) == TickY(2)
    ensures 0 < TickY(1) - TickY(35) < GAP
  {
    TickYPeriodic(2);
  }

  // ---------------------------------------------------------------------
  // The document

  function TickEntries(songs: seq<string>): (entries: seq<Draw>)
    ensures |entries| == |songs|
  {
    seq(|songs|, k requires 0 <= k < |songs| => TextRun(5 * START_X, TickY(k + 1), Label(k + 1, songs[k])))
  }

  /** No page is ever closed: after n entries all of them are on the first
      page, in order. */
  lemma {:induction false} TickStateOnePage(songs: seq<string>, n: nat)
    requires n <= |songs|
    ensures TickState(songs, n) == Layout([], TickEntries(songs)[..n])
    decreases n
  {
    if n > 0 {
      TickStateOnePage(songs, n - 1);
      TickYAsFormula(n);
      assert TickEntries(songs)[..n] == TickEntries(songs)[..n - 1] + [TickEntries(songs)[n - 1]];
    }
  }

  /** The tick sheet is one page (none for an empty list) listing every
      title exactly once, in input order, numbered 1, 2, ... */
  lemma TickSheetLists(songs: seq<string>)
    ensures |TickDocument(songs)| == if songs == [] then 0 else 1
    ensures songs != [] ==>
      var page := TickDocument(songs)[0];
      && |page| == |songs|
      && forall k: nat :: k < |page| ==>
           page[k].TextRun? && ParseLabel(page[k].text) == Some((k + 1, songs[k]))
  {
    TickStateOnePage(songs, |songs|);
    assert TickEntries(songs)[..|songs|] == TickEntries(songs);
    forall k: nat | k < |songs|
      ensures ParseLabel(TickEntries(songs)[k].text) == Some((k + 1, songs[k]))
    {
      LabelRoundTrip(k + 1, songs[k]);
    }
  }
}
