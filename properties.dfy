/**
 * Properties of the counts the walkers return, stated on the visiting order of
 * `DocModel`: how the count of a table splits over its cells at every depth, when
 * the count is a number of distinct runs, and where a run is visited twice.
 */
module Properties {
  import opened Wrappers
  import opened RunFonts
  import opened DocModel
  import opened FontEngine

  // ---------------------------------------------------------------- tables, cell by cell

  /**
   * Every cell of a table at any depth, in the order `process_table` reaches it:
   * row by row, cell by cell, each cell followed by the cells of its nested tables.
   */
  function TableCells(t: Table): seq<Cell>
    decreases t
  {
    RowsCells(t.rows)
  }

  function RowsCells(rows: seq<Row>): seq<Cell>
    decreases rows
  {
    if rows == [] then [] else RowsCells(rows[..|rows| - 1]) + CellsCells(rows[|rows| - 1].cells)
  }

  function CellsCells(cells: seq<Cell>): seq<Cell>
    decreases cells
  {
    if cells == [] then [] else CellsCells(cells[..|cells| - 1]) + CellTree(cells[|cells| - 1])
  }

  function CellTree(c: Cell): seq<Cell>
    decreases c
  {
    [c] + TablesCells(c.tables)
  }

  function TablesCells(ts: seq<Table>): seq<Cell>
    decreases ts
  {
    if ts == [] then [] else TablesCells(ts[..|ts| - 1]) + TableCells(ts[|ts| - 1])
  }

  /** The sum, over these cells, of what `process_paragraphs` counts in each cell's own paragraphs. */
  function ParagraphCounts(cs: seq<Cell>): nat
  {
    if cs == [] then 0 else ParagraphCounts(cs[..|cs| - 1]) + CountQualifying(Runs(cs[|cs| - 1].paragraphs))
  }

  lemma {:induction false} ParagraphCountsAppend(a: seq<Cell>, b: seq<Cell>)
    ensures ParagraphCounts(a + b) == ParagraphCounts(a) + ParagraphCounts(b)
    decreases |b|
  {
    if b == [] {
      assert a + b == a;
    } else {
      assert (a + b)[..|a + b| - 1] == a + b[..|b| - 1];
      ParagraphCountsAppend(a, b[..|b| - 1]);
    }
  }

  /**
   * The count of `process_table` is the sum of the `process_paragraphs` counts of
   * all its cells, at every depth of nesting. A table without rows counts 0.
   */
  lemma {:induction false} TableCountIsCellSum(t: Table)
    ensures CountQualifying(TableRuns(t)) == ParagraphCounts(TableCells(t))
    ensures t.rows == [] ==> CountQualifying(TableRuns(t)) == 0
    decreases t
  {
    RowsCountIsCellSum(t.rows);
  }

  lemma {:induction false} RowsCountIsCellSum(rows: seq<Row>)
    ensures CountQualifying(RowsRuns(rows)) == ParagraphCounts(RowsCells(rows))
    decreases rows
  {
    if rows != [] {
      var init, last := rows[..|rows| - 1], rows[|rows| - 1];
      RowsCountIsCellSum(init);
      CellsCountIsCellSum(last.cells);
      CountQualifyingAppend(RowsRuns(init), CellsRuns(last.cells));
      ParagraphCountsAppend(RowsCells(init), CellsCells(last.cells));
    }
  }

  lemma {:induction false} CellsCountIsCellSum(cells: seq<Cell>)
    ensures CountQualifying(CellsRuns(cells)) == ParagraphCounts(CellsCells(cells))
    decreases cells
  {
    if cells != [] {
      var init, last := cells[..|cells| - 1], cells[|cells| - 1];
      CellsCountIsCellSum(init);
      CellCountIsCellSum(last);
      CountQualifyingAppend(CellsRuns(init), CellRuns(last));
      ParagraphCountsAppend(CellsCells(init), CellTree(last));
    }
  }

  lemma {:induction false} CellCountIsCellSum(c: Cell)
    ensures CountQualifying(CellRuns(c)) == ParagraphCounts(CellTree(c))
    decreases c
  {
    TablesCountIsCellSum(c.tables);
    CountQualifyingAppend(Runs(c.paragraphs), TablesRuns(c.tables));
    ParagraphCountsAppend([c], TablesCells(c.tables));
    assert [c][..0] == [];
  }

  lemma {:induction false} TablesCountIsCellSum(ts: seq<Table>)
    ensures CountQualifying(TablesRuns(ts)) == ParagraphCounts(TablesCells(ts))
    decreases ts
  {
    if ts != [] {
      var init, last := ts[..|ts| - 1], ts[|ts| - 1];
      TablesCountIsCellSum(init);
      TableCountIsCellSum(last);
      CountQualifyingAppend(TablesRuns(init), TableRuns(last));
      ParagraphCountsAppend(TablesCells(init), TableCells(last));
    }
  }

  // ---------------------------------------------------------------- sections, slot by slot

  /**
   * A section is walked slot by slot in the fixed order header, first-page header,
   * even-page header, footer, first-page footer, even-page footer.
   */
  lemma SectionSlotsOrder(s: Section)
    ensures SlotsRuns(Slots(s))
         == SlotRuns(s.header) + SlotRuns(s.firstPageHeader) + SlotRuns(s.evenPageHeader)
          + SlotRuns(s.footer) + SlotRuns(s.firstPageFooter) + SlotRuns(s.evenPageFooter)
  {
    var sl := Slots(s);
    assert sl[..1][..0] == sl[..0] == [];
    assert SlotsRuns(sl[..1]) == SlotRuns(s.header);
    assert sl[..2][..1] == sl[..1];
    assert SlotsRuns(sl[..2]) == SlotsRuns(sl[..1]) + SlotRuns(s.firstPageHeader);
    assert sl[..3][..2] == sl[..2];
    assert SlotsRuns(sl[..3]) == SlotsRuns(sl[..2]) + SlotRuns(s.evenPageHeader);
    assert sl[..4][..3] == sl[..3];
    assert SlotsRuns(sl[..4]) == SlotsRuns(sl[..3]) + SlotRuns(s.footer);
    assert sl[..5][..4] == sl[..4];
    assert SlotsRuns(sl[..5]) == SlotsRuns(sl[..4]) + SlotRuns(s.firstPageFooter);
    assert sl[..6][..5] == sl[..5];
    assert sl[..6] == sl;
  }

  /**
   * A section's count is the sum of its six slot counts, in that order, and an
   * absent slot counts 0.
   */
  lemma SectionCountIsSlotSum(s: Section)
    ensures CountQualifying(SlotsRuns(Slots(s)))
         == CountQualifying(SlotRuns(s.header)) + CountQualifying(SlotRuns(s.firstPageHeader))
          + CountQualifying(SlotRuns(s.evenPageHeader)) + CountQualifying(SlotRuns(s.footer))
          + CountQualifying(SlotRuns(s.firstPageFooter)) + CountQualifying(SlotRuns(s.evenPageFooter))
    ensures CountQualifying(SlotRuns(None)) == 0
  {
    SectionSlotsOrder(s);
    var a, b, c := SlotRuns(s.header), SlotRuns(s.firstPageHeader), SlotRuns(s.evenPageHeader);
    var d, e, f := SlotRuns(s.footer), SlotRuns(s.firstPageFooter), SlotRuns(s.evenPageFooter);
    CountQualifyingAppend(a, b);
    CountQualifyingAppend(a + b, c);
    CountQualifyingAppend(a + b + c, d);
    CountQualifyingAppend(a + b + c + d, e);
    CountQualifyingAppend(a + b + c + d + e, f);
  }

  // ---------------------------------------------------------------- visits and runs

  /** The distinct runs among these visits whose text qualifies. */
  function QualifyingRuns(rs: seq<Run>): set<Run>
  {
    set r | r in rs && Qualifies(r.text)
  }

  /**
   * When no run is visited twice, the count is the number of distinct runs
   * `set_eastasia_font` is applied to:
   * the "number of runs modified" that `process_paragraphs` documents.
   */
  lemma {:induction false} CountDistinct(rs: seq<Run>)
    requires forall i, j :: 0 <= i < j < |rs| ==> rs[i] != rs[j]
    ensures CountQualifying(rs) == |QualifyingRuns(rs)|
    decreases |rs|
  {
    if rs != [] {
      var init, last := rs[..|rs| - 1], rs[|rs| - 1];
      CountDistinct(init);
      forall i | 0 <= i < |init|
        ensures init[i] != last
      {
        assert init[i] == rs[i];
      }
      if Qualifies(last.text) {
        assert QualifyingRuns(rs) == QualifyingRuns(init) + {last};
      } else {
        assert QualifyingRuns(rs) == QualifyingRuns(init);
      }
    }
  }

  /** A qualifying run visited twice is counted twice, though it is one run. */
  lemma RevisitCountsTwice(run: Run)
    requires Qualifies(run.text)
    ensures CountQualifying([run, run]) == 2
    ensures |QualifyingRuns([run, run])| == 1
  {
    CountStep([], run);
    assert [] + [run] == [run];
    CountStep([run], run);
    assert [run] + [run] == [run, run];
    assert QualifyingRuns([run, run]) == {run};
  }

  // ---------------------------------------------------------------- text boxes

  /** A `w:txbxContent` element holding one paragraph with one run. */
  function InnerBox(inner: Run): Node
  {
    Element(TextBoxContentTag, [Element(ParagraphTag, [RunElement(inner, [])])])
  }

  /** A `w:txbxContent` element whose one paragraph's run anchors `InnerBox(inner)`. */
  function OuterBox(outer: Run, inner: Run): Node
  {
    Element(TextBoxContentTag, [Element(ParagraphTag, [RunElement(outer, [InnerBox(inner)])])])
  }

  /** A body whose one paragraph's run anchors `OuterBox(outer, inner)`. */
  function NestedTextBoxes(anchor: Run, outer: Run, inner: Run): Node
  {
    Element("w:body", [Element(ParagraphTag, [RunElement(anchor, [OuterBox(outer, inner)])])])
  }

  /** The search below one node: the node itself if it has the tag, then its subtree. */
  lemma MatchingSingle(n: Node, name: string)
    ensures Matching([n], name) == (if Name(n) == name then [n] else []) + Descendants(n, name)
  {
    assert [n][1..] == [];
  }

  lemma InnerBoxSearch(inner: Run)
    ensures Descendants(InnerBox(inner), ParagraphTag) == [InnerBox(inner).children[0]]
    ensures Descendants(InnerBox(inner), TextBoxContentTag) == []
  {
    var leaf := RunElement(inner, []);
    var p := Element(ParagraphTag, [leaf]);
    MatchingSingle(leaf, ParagraphTag);
    MatchingSingle(leaf, TextBoxContentTag);
    MatchingSingle(p, ParagraphTag);
    MatchingSingle(p, TextBoxContentTag);
  }

  lemma OuterBoxSearch(outer: Run, inner: Run)
    ensures Descendants(OuterBox(outer, inner), ParagraphTag)
         == [OuterBox(outer, inner).children[0], InnerBox(inner).children[0]]
    ensures Descendants(OuterBox(outer, inner), TextBoxContentTag) == [InnerBox(inner)]
  {
    var ib := InnerBox(inner);
    var r := RunElement(outer, [ib]);
    var p := Element(ParagraphTag, [r]);
    InnerBoxSearch(inner);
    MatchingSingle(ib, ParagraphTag);
    MatchingSingle(ib, TextBoxContentTag);
    MatchingSingle(r, ParagraphTag);
    MatchingSingle(r, TextBoxContentTag);
    MatchingSingle(p, ParagraphTag);
    MatchingSingle(p, TextBoxContentTag);
  }

  lemma BodySearch(anchor: Run, outer: Run, inner: Run)
    ensures Descendants(NestedTextBoxes(anchor, outer, inner), TextBoxContentTag)
         == [OuterBox(outer, inner), InnerBox(inner)]
  {
    var ob := OuterBox(outer, inner);
    var r := RunElement(anchor, [ob]);
    var p := Element(ParagraphTag, [r]);
    OuterBoxSearch(outer, inner);
    MatchingSingle(ob, TextBoxContentTag);
    MatchingSingle(r, TextBoxContentTag);
    MatchingSingle(p, TextBoxContentTag);
  }

  /** A `w:p` element whose only child is the `w:r` element of `run`. */
  lemma SingleRunParagraph(p: Node, run: Run, kids: seq<Node>)
    requires p.children == [RunElement(run, kids)]
    ensures ParagraphOf(p) == Paragraph([run])
  {
    var ns := p.children;
    assert ns[..0] == [];
    assert RunChildren(ns) == RunChildren(ns[..0]) + [run];
  }

  lemma ParagraphsOfTwo(a: Node, b: Node)
    ensures ParagraphsOf([a, b]) == [ParagraphOf(a), ParagraphOf(b)]
  {
    assert [a, b][..1] == [a];
    assert [a][..0] == [];
    assert ParagraphsOf([a]) == ParagraphsOf([]) + [ParagraphOf(a)];
    assert ParagraphsOf([a, b]) == ParagraphsOf([a]) + [ParagraphOf(b)];
  }

  lemma RunsTwo(p: Paragraph, q: Paragraph)
    ensures Runs([p, q]) == p.runs + q.runs
  {
    assert [p, q][..1] == [p];
    RunsSingle(p);
  }

  lemma BoxParagraphsTwo(x: Node, y: Node)
    ensures Runs(BoxParagraphs([x, y]))
         == Runs(ParagraphsOf(Descendants(x, ParagraphTag))) + Runs(ParagraphsOf(Descendants(y, ParagraphTag)))
  {
    var px, py := ParagraphsOf(Descendants(x, ParagraphTag)), ParagraphsOf(Descendants(y, ParagraphTag));
    assert [x, y][..1] == [x];
    assert [x][..0] == [];
    assert BoxParagraphs([x]) == BoxParagraphs([]) + px;
    assert BoxParagraphs([x, y]) == BoxParagraphs([x]) + py;
    assert [] + px == px;
    RunsAppend(px, py);
  }

  lemma InnerBoxParagraphs(inner: Run)
    ensures ParagraphsOf(Descendants(InnerBox(inner), ParagraphTag)) == [Paragraph([inner])]
  {
    var p := InnerBox(inner).children[0];
    InnerBoxSearch(inner);
    SingleRunParagraph(p, inner, []);
    assert [p][..0] == [];
  }

  lemma OuterBoxParagraphs(outer: Run, inner: Run)
    ensures ParagraphsOf(Descendants(OuterBox(outer, inner), ParagraphTag)) == [Paragraph([outer]), Paragraph([inner])]
  {
    var po, pi := OuterBox(outer, inner).children[0], InnerBox(inner).children[0];
    OuterBoxSearch(outer, inner);
    SingleRunParagraph(po, outer, [InnerBox(inner)]);
    SingleRunParagraph(pi, inner, []);
    ParagraphsOfTwo(po, pi);
  }

  /**
   * The paragraph of the inner text box lies below both `w:txbxContent` elements, so
   * the text-box search visits its run twice; the anchoring body run is not a
   * text-box run at all.
   */
  lemma NestedTextBoxVisitedTwice(anchor: Run, outer: Run, inner: Run)
    ensures Runs(TextBoxParagraphs(NestedTextBoxes(anchor, outer, inner))) == [outer, inner, inner]
  {
    var ob, ib := OuterBox(outer, inner), InnerBox(inner);
    var po, pi := Paragraph([outer]), Paragraph([inner]);
    BodySearch(anchor, outer, inner);
    BoxParagraphsTwo(ob, ib);
    OuterBoxParagraphs(outer, inner);
    InnerBoxParagraphs(inner);
    RunsTwo(po, pi);
    RunsSingle(pi);
  }

  /** The run anchoring the outer text box in the body is not among the text-box visits. */
  lemma NestedTextBoxSkipsAnchor(anchor: Run, outer: Run, inner: Run)
    requires anchor != outer && anchor != inner
    ensures anchor !in Runs(TextBoxParagraphs(NestedTextBoxes(anchor, outer, inner)))
  {
    NestedTextBoxVisitedTwice(anchor, outer, inner);
  }
}
