/**
 * The parts of a word-processing document that `process_document` walks, as
 * python-docx presents them: paragraphs made of runs, tables whose cells hold
 * paragraphs and nested tables, sections with six optional header/footer slots,
 * and the raw markup tree of the body, searched for text boxes.
 *
 * The structure is immutable here; only runs, which are objects, change. A run may
 * be reachable along several paths (a merged cell that python-docx's `row.cells`
 * repeats, a text box nested in another one), and then it is the same object each time.
 *
 * Each "...Runs" function lists the runs in the order the engine visits them, one
 * entry per visit.
 */
module DocModel {
  import opened Wrappers
  import opened RunFonts

  datatype Paragraph = Paragraph(runs: seq<Run>)

  /** A table: rows of cells; each cell holds paragraphs and then nested tables, to any depth. */
  datatype Table = Table(rows: seq<Row>)
  datatype Row = Row(cells: seq<Cell>)
  datatype Cell = Cell(paragraphs: seq<Paragraph>, tables: seq<Table>)

  /** A header or footer part: its own paragraphs and tables. */
  datatype HeaderFooter = HeaderFooter(paragraphs: seq<Paragraph>, tables: seq<Table>)

  /** A section's six header/footer slots, any of which may be absent. */
  datatype Section = Section(
    header: Option<HeaderFooter>,
    firstPageHeader: Option<HeaderFooter>,
    evenPageHeader: Option<HeaderFooter>,
    footer: Option<HeaderFooter>,
    firstPageFooter: Option<HeaderFooter>,
    evenPageFooter: Option<HeaderFooter>)

  /** An element of the body's markup. A `w:r` element carries the run object it backs. */
  datatype Node =
    | Element(name: string, children: seq<Node>)
    | RunElement(run: Run, children: seq<Node>)

  const RunTag := "w:r"
  const ParagraphTag := "w:p"
  const TextBoxContentTag := "w:txbxContent"

  /**
   * An opened document: body paragraphs and body tables (python-docx's `doc.paragraphs`
   * and `doc.tables`), the sections, and the body element `doc.element.body`.
   */
  datatype Document = Document(
    paragraphs: seq<Paragraph>,
    tables: seq<Table>,
    sections: seq<Section>,
    body: Node)

  /** The slots of a section in the order `process_document` visits them. */
  function Slots(s: Section): (r: seq<Option<HeaderFooter>>)
    ensures |r| == 6
  {
    [s.header, s.firstPageHeader, s.evenPageHeader, s.footer, s.firstPageFooter, s.evenPageFooter]
  }

  // ---------------------------------------------------------------- visiting order

  /** The runs of a list of paragraphs, paragraph by paragraph. */
  function Runs(ps: seq<Paragraph>): seq<Run>
  {
    if ps == [] then [] else Runs(ps[..|ps| - 1]) + ps[|ps| - 1].runs
  }

  /** Row by row, cell by cell. */
  function TableRuns(t: Table): seq<Run>
    decreases t
  {
    RowsRuns(t.rows)
  }

  function RowsRuns(rows: seq<Row>): seq<Run>
    decreases rows
  {
    if rows == [] then [] else RowsRuns(rows[..|rows| - 1]) + CellsRuns(rows[|rows| - 1].cells)
  }

  function CellsRuns(cells: seq<Cell>): seq<Run>
    decreases cells
  {
    if cells == [] then [] else CellsRuns(cells[..|cells| - 1]) + CellRuns(cells[|cells| - 1])
  }

  /** A cell's paragraphs first, then its nested tables. */
  function CellRuns(c: Cell): seq<Run>
    decreases c
  {
    Runs(c.paragraphs) + TablesRuns(c.tables)
  }

  function TablesRuns(ts: seq<Table>): seq<Run>
    decreases ts
  {
    if ts == [] then [] else TablesRuns(ts[..|ts| - 1]) + TableRuns(ts[|ts| - 1])
  }

  /** A header or footer: its paragraphs, then its tables. An absent slot has no runs. */
  function SlotRuns(slot: Option<HeaderFooter>): seq<Run>
  {
    if slot.Some? then Runs(slot.value.paragraphs) + TablesRuns(slot.value.tables) else []
  }

  function SlotsRuns(slots: seq<Option<HeaderFooter>>): seq<Run>
  {
    if slots == [] then [] else SlotsRuns(slots[..|slots| - 1]) + SlotRuns(slots[|slots| - 1])
  }

  function SectionsRuns(ss: seq<Section>): seq<Run>
  {
    if ss == [] then [] else SectionsRuns(ss[..|ss| - 1]) + SlotsRuns(Slots(ss[|ss| - 1]))
  }

  // ---------------------------------------------------------------- markup search

  function Name(n: Node): string
  {
    if n.RunElement? then RunTag else n.name
  }

  /**
   * `n.findall(".//" + name)`: every proper descendant of `n` with this tag, in
   * document order (an element before its own descendants, before its later siblings).
   */
  function Descendants(n: Node, name: string): seq<Node>
    decreases n
  {
    Matching(n.children, name)
  }

  /** The nodes of `ns`, and of their subtrees, that have this tag, in document order. */
  function Matching(ns: seq<Node>, name: string): seq<Node>
    decreases ns
  {
    if ns == [] then []
    else (if Name(ns[0]) == name then [ns[0]] else []) + Descendants(ns[0], name) + Matching(ns[1..], name)
  }

  /** `m` lies strictly below `n` in the tree. */
  predicate IsDescendant(m: Node, n: Node)
    decreases n
  {
    exists k :: 0 <= k < |n.children| && (n.children[k] == m || IsDescendant(m, n.children[k]))
  }

  /** `m` is one of `ns` or lies below one of them. */
  predicate InForest(m: Node, ns: seq<Node>)
  {
    exists k :: 0 <= k < |ns| && (ns[k] == m || IsDescendant(m, ns[k]))
  }

  /** The search finds exactly the descendants that carry the tag. */
  lemma {:induction false} DescendantsIff(n: Node, name: string, m: Node)
    ensures m in Descendants(n, name) <==> IsDescendant(m, n) && Name(m) == name
    decreases n, 1
  {
    MatchingIff(n.children, name, m);
  }

  lemma {:induction false} MatchingIff(ns: seq<Node>, name: string, m: Node)
    ensures m in Matching(ns, name) <==> InForest(m, ns) && Name(m) == name
    decreases ns, 0
  {
    if ns != [] {
      DescendantsIff(ns[0], name, m);
      MatchingIff(ns[1..], name, m);
      if InForest(m, ns[1..]) {
        var k :| 0 <= k < |ns[1..]| && (ns[1..][k] == m || IsDescendant(m, ns[1..][k]));
        assert ns[k + 1] == m || IsDescendant(m, ns[k + 1]);
      }
      if InForest(m, ns) && !(ns[0] == m || IsDescendant(m, ns[0])) {
        var k :| 0 <= k < |ns| && (ns[k] == m || IsDescendant(m, ns[k]));
        assert ns[1..][k - 1] == m || IsDescendant(m, ns[1..][k - 1]);
      }
    }
  }

  /** The runs of a `w:p` element: its `w:r` children, as python-docx's `Paragraph.runs`. */
  function RunChildren(ns: seq<Node>): seq<Run>
  {
    if ns == [] then []
    else RunChildren(ns[..|ns| - 1]) + (if ns[|ns| - 1].RunElement? then [ns[|ns| - 1].run] else [])
  }

  /** `Paragraph(para_elem, doc)`: a paragraph element seen as a paragraph. */
  function ParagraphOf(p: Node): Paragraph
  {
    Paragraph(RunChildren(p.children))
  }

  function ParagraphsOf(ns: seq<Node>): seq<Paragraph>
  {
    if ns == [] then [] else ParagraphsOf(ns[..|ns| - 1]) + [ParagraphOf(ns[|ns| - 1])]
  }

  /** For each text box, in order, the paragraphs found anywhere below it. */
  function BoxParagraphs(boxes: seq<Node>): seq<Paragraph>
  {
    if boxes == [] then []
    else BoxParagraphs(boxes[..|boxes| - 1]) + ParagraphsOf(Descendants(boxes[|boxes| - 1], ParagraphTag))
  }

  /** The text-box paragraphs of the body, one entry per (text box, paragraph below it) pair. */
  function TextBoxParagraphs(body: Node): seq<Paragraph>
  {
    BoxParagraphs(Descendants(body, TextBoxContentTag))
  }

  /** Every run visit `process_document` makes, in its order: body, tables, headers/footers, text boxes. */
  function DocumentRuns(d: Document): seq<Run>
  {
    Runs(d.paragraphs) + TablesRuns(d.tables) + SectionsRuns(d.sections) + Runs(TextBoxParagraphs(d.body))
  }

  // ---------------------------------------------------------------- prefixes

  lemma {:induction false} RunsAppend(a: seq<Paragraph>, b: seq<Paragraph>)
    ensures Runs(a + b) == Runs(a) + Runs(b)
    decreases |b|
  {
    if b == [] {
      assert a + b == a;
    } else {
      assert (a + b)[..|a + b| - 1] == a + b[..|b| - 1];
      RunsAppend(a, b[..|b| - 1]);
    }
  }

  lemma {:induction false} RunsPrefix(ps: seq<Paragraph>, i: nat)
    requires i <= |ps|
    ensures Runs(ps[..i]) <= Runs(ps)
  {
    assert ps == ps[..i] + ps[i..];
    RunsAppend(ps[..i], ps[i..]);
  }

  lemma {:induction false} RowsRunsPrefix(rows: seq<Row>, i: nat)
    requires i <= |rows|
    ensures RowsRuns(rows[..i]) <= RowsRuns(rows)
    decreases |rows|
  {
    if i < |rows| {
      var init := rows[..|rows| - 1];
      RowsRunsPrefix(init, i);
      assert init[..i] == rows[..i];
    } else {
      assert rows[..i] == rows;
    }
  }

  lemma {:induction false} CellsRunsPrefix(cells: seq<Cell>, i: nat)
    requires i <= |cells|
    ensures CellsRuns(cells[..i]) <= CellsRuns(cells)
    decreases |cells|
  {
    if i < |cells| {
      var init := cells[..|cells| - 1];
      CellsRunsPrefix(init, i);
      assert init[..i] == cells[..i];
    } else {
      assert cells[..i] == cells;
    }
  }

  lemma {:induction false} TablesRunsPrefix(ts: seq<Table>, i: nat)
    requires i <= |ts|
    ensures TablesRuns(ts[..i]) <= TablesRuns(ts)
    decreases |ts|
  {
    if i < |ts| {
      var init := ts[..|ts| - 1];
      TablesRunsPrefix(init, i);
      assert init[..i] == ts[..i];
    } else {
      assert ts[..i] == ts;
    }
  }

  lemma {:induction false} SlotsRunsPrefix(slots: seq<Option<HeaderFooter>>, i: nat)
    requires i <= |slots|
    ensures SlotsRuns(slots[..i]) <= SlotsRuns(slots)
    decreases |slots|
  {
    if i < |slots| {
      var init := slots[..|slots| - 1];
      SlotsRunsPrefix(init, i);
      assert init[..i] == slots[..i];
    } else {
      assert slots[..i] == slots;
    }
  }

  lemma {:induction false} SectionsRunsPrefix(ss: seq<Section>, i: nat)
    requires i <= |ss|
    ensures SectionsRuns(ss[..i]) <= SectionsRuns(ss)
    decreases |ss|
  {
    if i < |ss| {
      var init := ss[..|ss| - 1];
      SectionsRunsPrefix(init, i);
      assert init[..i] == ss[..i];
    } else {
      assert ss[..i] == ss;
    }
  }

  lemma {:induction false} BoxParagraphsPrefix(boxes: seq<Node>, i: nat)
    requires i <= |boxes|
    ensures BoxParagraphs(boxes[..i]) <= BoxParagraphs(boxes)
    decreases |boxes|
  {
    if i < |boxes| {
      var init := boxes[..|boxes| - 1];
      BoxParagraphsPrefix(init, i);
      assert init[..i] == boxes[..i];
    } else {
      assert boxes[..i] == boxes;
    }
  }

  lemma {:induction false} ParagraphsOfPrefix(ns: seq<Node>, i: nat)
    requires i <= |ns|
    ensures ParagraphsOf(ns[..i]) <= ParagraphsOf(ns)
    decreases |ns|
  {
    if i < |ns| {
      var init := ns[..|ns| - 1];
      ParagraphsOfPrefix(init, i);
      assert init[..i] == ns[..i];
    } else {
      assert ns[..i] == ns;
    }
  }

  /** Runs of a prefix of a paragraph list are a prefix of its runs. */
  lemma RunsOfPrefix(a: seq<Paragraph>, b: seq<Paragraph>)
    requires a <= b
    ensures Runs(a) <= Runs(b)
  {
    assert b == a + b[|a|..];
    RunsAppend(a, b[|a|..]);
  }

  lemma RunsSingle(p: Paragraph)
    ensures Runs([p]) == p.runs
  {
    assert [p][..0] == [];
  }

  // ---------------------------------------------------------------- one loop step

  lemma RunsStep(ps: seq<Paragraph>, i: nat)
    requires i < |ps|
    ensures Runs(ps[..i + 1]) == Runs(ps[..i]) + ps[i].runs
    ensures Runs(ps[..i + 1]) <= Runs(ps)
  {
    assert ps[..i + 1][..i] == ps[..i];
    RunsPrefix(ps, i + 1);
  }

  lemma RowsStep(rows: seq<Row>, i: nat)
    requires i < |rows|
    ensures RowsRuns(rows[..i + 1]) == RowsRuns(rows[..i]) + CellsRuns(rows[i].cells)
    ensures RowsRuns(rows[..i + 1]) <= RowsRuns(rows)
  {
    assert rows[..i + 1][..i] == rows[..i];
    RowsRunsPrefix(rows, i + 1);
  }

  lemma CellsStep(cells: seq<Cell>, j: nat)
    requires j < |cells|
    ensures CellsRuns(cells[..j + 1]) == CellsRuns(cells[..j]) + CellRuns(cells[j])
    ensures CellsRuns(cells[..j + 1]) <= CellsRuns(cells)
  {
    assert cells[..j + 1][..j] == cells[..j];
    CellsRunsPrefix(cells, j + 1);
  }

  lemma TablesStep(ts: seq<Table>, i: nat)
    requires i < |ts|
    ensures TablesRuns(ts[..i + 1]) == TablesRuns(ts[..i]) + TableRuns(ts[i])
    ensures TablesRuns(ts[..i + 1]) <= TablesRuns(ts)
  {
    assert ts[..i + 1][..i] == ts[..i];
    TablesRunsPrefix(ts, i + 1);
  }

  lemma SlotsStep(slots: seq<Option<HeaderFooter>>, j: nat)
    requires j < |slots|
    ensures SlotsRuns(slots[..j + 1]) == SlotsRuns(slots[..j]) + SlotRuns(slots[j])
    ensures SlotsRuns(slots[..j + 1]) <= SlotsRuns(slots)
  {
    assert slots[..j + 1][..j] == slots[..j];
    SlotsRunsPrefix(slots, j + 1);
  }

  lemma SectionsStep(ss: seq<Section>, i: nat)
    requires i < |ss|
    ensures SectionsRuns(ss[..i + 1]) == SectionsRuns(ss[..i]) + SlotsRuns(Slots(ss[i]))
    ensures SectionsRuns(ss[..i + 1]) <= SectionsRuns(ss)
  {
    assert ss[..i + 1][..i] == ss[..i];
    SectionsRunsPrefix(ss, i + 1);
  }

  lemma BoxesStep(boxes: seq<Node>, i: nat)
    requires i < |boxes|
    ensures Runs(BoxParagraphs(boxes[..i + 1]))
         == Runs(BoxParagraphs(boxes[..i])) + Runs(ParagraphsOf(Descendants(boxes[i], ParagraphTag)))
    ensures Runs(BoxParagraphs(boxes[..i + 1])) <= Runs(BoxParagraphs(boxes))
  {
    assert boxes[..i + 1][..i] == boxes[..i];
    RunsAppend(BoxParagraphs(boxes[..i]), ParagraphsOf(Descendants(boxes[i], ParagraphTag)));
    BoxParagraphsPrefix(boxes, i + 1);
    RunsOfPrefix(BoxParagraphs(boxes[..i + 1]), BoxParagraphs(boxes));
  }

  lemma ParagraphsOfStep(ns: seq<Node>, j: nat)
    requires j < |ns|
    ensures Runs(ParagraphsOf(ns[..j + 1])) == Runs(ParagraphsOf(ns[..j])) + Runs([ParagraphOf(ns[j])])
    ensures Runs(ParagraphsOf(ns[..j + 1])) <= Runs(ParagraphsOf(ns))
  {
    assert ns[..j + 1][..j] == ns[..j];
    RunsAppend(ParagraphsOf(ns[..j]), [ParagraphOf(ns[j])]);
    ParagraphsOfPrefix(ns, j + 1);
    RunsOfPrefix(ParagraphsOf(ns[..j + 1]), ParagraphsOf(ns));
  }
}
