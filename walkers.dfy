/**
 * The walkers of `change_chinese_font.py`: `process_paragraphs`, `process_table` and
 * `process_document`. Each visits runs in the order `DocModel` lists them, sets the
 * East-Asian font of every run whose text is non-empty and holds a CJK character,
 * and returns how many times it did so.
 *
 * Every method is proved against that order: its count is `CountQualifying` of the
 * runs it visits, each visited run ends as `Annotate` makes it from its state on
 * entry, and its `modifies` clause leaves every other run untouched.
 *
 * Inside a loop, `start` is the state of the runs on entry and `Between` says that
 * no run has gone anywhere but to its annotated state; a run reached for the second
 * time (a repeated merged cell, a nested text box) is already annotated, and
 * annotating it again changes nothing.
 */
module Walkers {
  import opened Wrappers
  import opened Cjk
  import opened RunFonts
  import opened DocModel
  import opened FontEngine

  /** The inner loop of `process_paragraphs`: the runs of one paragraph, in order. */
  method ProcessRuns(runs: seq<Run>, fontName: string) returns (count: nat)
    modifies runs
    ensures count == CountQualifying(runs)
    ensures Annotated(runs, fontName)
  {
    count := 0;
    ghost var start := Snapshot(runs);
    for j := 0 to |runs|
      invariant count == CountQualifying(runs[..j])
      invariant Between(runs, start, fontName) && AnnotatedFrom(runs[..j], start, fontName)
    {
      var run := runs[j];
      ghost var pre := Snapshot(runs);
      Record(runs, runs[..j], start, pre, fontName);
      if |run.text| > 0 && HasChinese(run.text) {
        SetEastAsiaFont(run, fontName);
        count := count + 1;
      }
      assert Between(runs, start, fontName) && AnnotatedFrom(runs[..j + 1], start, fontName) by {
        SliceStep(runs, j);
        assert StepTaken(runs, [run], pre, fontName);
        ChunkPreserves(runs, runs[..j], [run], start, pre, fontName);
      }
      assert count == CountQualifying(runs[..j + 1]) by {
        SliceStep(runs, j);
        CountStep(runs[..j], run);
      }
    }
    assert runs[..|runs|] == runs;
  }

  /** `process_paragraphs`: every run of every paragraph, paragraph by paragraph. */
  method ProcessParagraphs(paragraphs: seq<Paragraph>, fontName: string) returns (count: nat)
    modifies set r | r in Runs(paragraphs)
    ensures count == CountQualifying(Runs(paragraphs))
    ensures Annotated(Runs(paragraphs), fontName)
  {
    count := 0;
    ghost var all := Runs(paragraphs);
    ghost var start := Snapshot(all);
    for i := 0 to |paragraphs|
      invariant Runs(paragraphs[..i]) <= all
      invariant count == CountQualifying(Runs(paragraphs[..i]))
      invariant Between(all, start, fontName) && AnnotatedFrom(Runs(paragraphs[..i]), start, fontName)
    {
      ghost var done := Runs(paragraphs[..i]);
      var runs := paragraphs[i].runs;
      assert Runs(paragraphs[..i + 1]) == done + runs && done + runs <= all by {
        RunsStep(paragraphs, i);
      }
      assert forall r :: r in runs ==> r in Runs(paragraphs) by {
        PrefixWithin(done + runs, all);
      }
      ghost var pre := Snapshot(all);
      Record(all, done, start, pre, fontName);
      var n := ProcessRuns(runs, fontName);
      count := count + n;
      assert Between(all, start, fontName) && AnnotatedFrom(done + runs, start, fontName) by {
        assert StepTaken(all, runs, pre, fontName);
        ChunkPreserves(all, done, runs, start, pre, fontName);
      }
      assert count == CountQualifying(done + runs) by {
        CountQualifyingAppend(done, runs);
      }
    }
    assert paragraphs[..|paragraphs|] == paragraphs;
  }

  /** `process_table`: row by row; each row handled by `ProcessRow`. */
  method ProcessTable(t: Table, fontName: string) returns (count: nat)
    modifies set r | r in TableRuns(t)
    ensures count == CountQualifying(TableRuns(t))
    ensures Annotated(TableRuns(t), fontName)
    decreases t, 3
  {
    count := 0;
    var rows := t.rows;
    ghost var all := TableRuns(t);
    assert all == RowsRuns(rows);
    ghost var start := Snapshot(all);
    for i := 0 to |rows|
      invariant RowsRuns(rows[..i]) <= all
      invariant count == CountQualifying(RowsRuns(rows[..i]))
      invariant Between(all, start, fontName) && AnnotatedFrom(RowsRuns(rows[..i]), start, fontName)
    {
      ghost var done := RowsRuns(rows[..i]);
      ghost var chunk := CellsRuns(rows[i].cells);
      assert RowsRuns(rows[..i + 1]) == done + chunk && done + chunk <= all by {
        RowsStep(rows, i);
      }
      assert forall r :: r in chunk ==> r in TableRuns(t) by {
        PrefixWithin(done + chunk, all);
      }
      ghost var pre := Snapshot(all);
      Record(all, done, start, pre, fontName);
      var n := ProcessRow(rows[i], fontName);
      count := count + n;
      assert Between(all, start, fontName) && AnnotatedFrom(done + chunk, start, fontName) by {
        assert StepTaken(all, chunk, pre, fontName);
        ChunkPreserves(all, done, chunk, start, pre, fontName);
      }
      assert count == CountQualifying(done + chunk) by {
        CountQualifyingAppend(done, chunk);
      }
    }
    assert rows[..|rows|] == rows;
  }

  /** The body of the row loop of `process_table`: the row's cells, in order. */
  method ProcessRow(row: Row, fontName: string) returns (count: nat)
    modifies set r | r in CellsRuns(row.cells)
    ensures count == CountQualifying(CellsRuns(row.cells))
    ensures Annotated(CellsRuns(row.cells), fontName)
    decreases row, 2
  {
    count := 0;
    ghost var all := CellsRuns(row.cells);
    ghost var start := Snapshot(all);
    for j := 0 to |row.cells|
      invariant CellsRuns(row.cells[..j]) <= all
      invariant count == CountQualifying(CellsRuns(row.cells[..j]))
      invariant Between(all, start, fontName) && AnnotatedFrom(CellsRuns(row.cells[..j]), start, fontName)
    {
      ghost var done := CellsRuns(row.cells[..j]);
      ghost var chunk := CellRuns(row.cells[j]);
      assert CellsRuns(row.cells[..j + 1]) == done + chunk && done + chunk <= all by {
        CellsStep(row.cells, j);
      }
      assert forall r :: r in chunk ==> r in CellsRuns(row.cells) by {
        PrefixWithin(done + chunk, all);
      }
      ghost var pre := Snapshot(all);
      Record(all, done, start, pre, fontName);
      var n := ProcessCell(row.cells[j], fontName);
      count := count + n;
      assert Between(all, start, fontName) && AnnotatedFrom(done + chunk, start, fontName) by {
        assert StepTaken(all, chunk, pre, fontName);
        ChunkPreserves(all, done, chunk, start, pre, fontName);
      }
      assert count == CountQualifying(done + chunk) by {
        CountQualifyingAppend(done, chunk);
      }
    }
    assert row.cells[..|row.cells|] == row.cells;
  }

  /** The body of the cell loop of `process_table`: the cell's paragraphs, then its nested tables. */
  method ProcessCell(cell: Cell, fontName: string) returns (count: nat)
    modifies set r | r in CellRuns(cell)
    ensures count == CountQualifying(CellRuns(cell))
    ensures Annotated(CellRuns(cell), fontName)
    decreases cell, 1
  {
    ghost var all := CellRuns(cell);
    ghost var start := Snapshot(all);
    var ps := Runs(cell.paragraphs);
    ghost var preFirst := Snapshot(all);
    Record(all, [], start, preFirst, fontName);
    count := ProcessParagraphs(cell.paragraphs, fontName);
    assert Between(all, start, fontName) && AnnotatedFrom([] + ps, start, fontName) by {
      assert StepTaken(all, ps, preFirst, fontName);
      ChunkPreserves(all, [], ps, start, preFirst, fontName);
    }
    ghost var preSecond := Snapshot(all);
    Record(all, ps, start, preSecond, fontName);
    var n := ProcessTables(cell.tables, fontName);
    count := count + n;
    assert AnnotatedFrom(ps + TablesRuns(cell.tables), start, fontName) by {
      assert [] + ps == ps;
      assert StepTaken(all, TablesRuns(cell.tables), preSecond, fontName);
      ChunkPreserves(all, ps, TablesRuns(cell.tables), start, preSecond, fontName);
    }
    CountQualifyingAppend(ps, TablesRuns(cell.tables));
  }

  /** `for table in tables: count += process_table(table)`, as the engine does it in three places. */
  method ProcessTables(ts: seq<Table>, fontName: string) returns (count: nat)
    modifies set r | r in TablesRuns(ts)
    ensures count == CountQualifying(TablesRuns(ts))
    ensures Annotated(TablesRuns(ts), fontName)
    decreases ts, 0
  {
    count := 0;
    ghost var all := TablesRuns(ts);
    ghost var start := Snapshot(all);
    for i := 0 to |ts|
      invariant TablesRuns(ts[..i]) <= all
      invariant count == CountQualifying(TablesRuns(ts[..i]))
      invariant Between(all, start, fontName) && AnnotatedFrom(TablesRuns(ts[..i]), start, fontName)
    {
      ghost var done := TablesRuns(ts[..i]);
      ghost var chunk := TableRuns(ts[i]);
      assert TablesRuns(ts[..i + 1]) == done + chunk && done + chunk <= all by {
        TablesStep(ts, i);
      }
      assert forall r :: r in chunk ==> r in TablesRuns(ts) by {
        PrefixWithin(done + chunk, all);
      }
      ghost var pre := Snapshot(all);
      Record(all, done, start, pre, fontName);
      var n := ProcessTable(ts[i], fontName);
      count := count + n;
      assert Between(all, start, fontName) && AnnotatedFrom(done + chunk, start, fontName) by {
        assert StepTaken(all, chunk, pre, fontName);
        ChunkPreserves(all, done, chunk, start, pre, fontName);
      }
      assert count == CountQualifying(done + chunk) by {
        CountQualifyingAppend(done, chunk);
      }
    }
    assert ts[..|ts|] == ts;
  }

  /** The body of the slot loop of `process_document`: an absent slot is skipped; a present one has its paragraphs, then its tables, processed. */
  method ProcessSlot(slot: Option<HeaderFooter>, fontName: string) returns (count: nat)
    modifies set r | r in SlotRuns(slot)
    ensures count == CountQualifying(SlotRuns(slot))
    ensures Annotated(SlotRuns(slot), fontName)
  {
    if slot.None? {
      return 0;
    }
    var hf := slot.value;
    ghost var all := SlotRuns(slot);
    ghost var start := Snapshot(all);
    var ps := Runs(hf.paragraphs);
    ghost var preFirst := Snapshot(all);
    Record(all, [], start, preFirst, fontName);
    count := ProcessParagraphs(hf.paragraphs, fontName);
    assert Between(all, start, fontName) && AnnotatedFrom([] + ps, start, fontName) by {
      assert StepTaken(all, ps, preFirst, fontName);
      ChunkPreserves(all, [], ps, start, preFirst, fontName);
    }
    assert [] + ps == ps;
    ghost var preSecond := Snapshot(all);
    Record(all, ps, start, preSecond, fontName);
    var n := ProcessTables(hf.tables, fontName);
    count := count + n;
    assert AnnotatedFrom(ps + TablesRuns(hf.tables), start, fontName) by {
      assert StepTaken(all, TablesRuns(hf.tables), preSecond, fontName);
      ChunkPreserves(all, ps, TablesRuns(hf.tables), start, preSecond, fontName);
    }
    CountQualifyingAppend(ps, TablesRuns(hf.tables));
  }

  /** One section of `process_document`: its six header/footer slots, in the fixed order. */
  method ProcessSection(section: Section, fontName: string) returns (count: nat)
    modifies set r | r in SlotsRuns(Slots(section))
    ensures count == CountQualifying(SlotsRuns(Slots(section)))
    ensures Annotated(SlotsRuns(Slots(section)), fontName)
  {
    count := ProcessSlots(Slots(section), fontName);
  }

  /** The slot loop of `process_document`: the given slots in order, absent ones skipped. */
  method ProcessSlots(slots: seq<Option<HeaderFooter>>, fontName: string) returns (count: nat)
    modifies set r | r in SlotsRuns(slots)
    ensures count == CountQualifying(SlotsRuns(slots))
    ensures Annotated(SlotsRuns(slots), fontName)
  {
    count := 0;
    ghost var all := SlotsRuns(slots);
    ghost var start := Snapshot(all);
    for j := 0 to |slots|
      invariant SlotsRuns(slots[..j]) <= all
      invariant count == CountQualifying(SlotsRuns(slots[..j]))
      invariant Between(all, start, fontName) && AnnotatedFrom(SlotsRuns(slots[..j]), start, fontName)
    {
      ghost var done := SlotsRuns(slots[..j]);
      ghost var chunk := SlotRuns(slots[j]);
      assert SlotsRuns(slots[..j + 1]) == done + chunk && done + chunk <= all by {
        SlotsStep(slots, j);
      }
      assert forall r :: r in chunk ==> r in SlotsRuns(slots) by {
        PrefixWithin(done + chunk, all);
      }
      ghost var pre := Snapshot(all);
      Record(all, done, start, pre, fontName);
      var n := ProcessSlot(slots[j], fontName);
      count := count + n;
      assert Between(all, start, fontName) && AnnotatedFrom(done + chunk, start, fontName) by {
        assert StepTaken(all, chunk, pre, fontName);
        ChunkPreserves(all, done, chunk, start, pre, fontName);
      }
      assert count == CountQualifying(done + chunk) by {
        CountQualifyingAppend(done, chunk);
      }
    }
    assert slots[..|slots|] == slots;
  }

  /** The section loop of `process_document`. */
  method ProcessSections(sections: seq<Section>, fontName: string) returns (count: nat)
    modifies set r | r in SectionsRuns(sections)
    ensures count == CountQualifying(SectionsRuns(sections))
    ensures Annotated(SectionsRuns(sections), fontName)
  {
    count := 0;
    ghost var all := SectionsRuns(sections);
    ghost var start := Snapshot(all);
    for i := 0 to |sections|
      invariant SectionsRuns(sections[..i]) <= all
      invariant count == CountQualifying(SectionsRuns(sections[..i]))
      invariant Between(all, start, fontName) && AnnotatedFrom(SectionsRuns(sections[..i]), start, fontName)
    {
      ghost var done := SectionsRuns(sections[..i]);
      ghost var chunk := SlotsRuns(Slots(sections[i]));
      assert SectionsRuns(sections[..i + 1]) == done + chunk && done + chunk <= all by {
        SectionsStep(sections, i);
      }
      assert forall r :: r in chunk ==> r in SectionsRuns(sections) by {
        PrefixWithin(done + chunk, all);
      }
      ghost var pre := Snapshot(all);
      Record(all, done, start, pre, fontName);
      var n := ProcessSection(sections[i], fontName);
      count := count + n;
      assert Between(all, start, fontName) && AnnotatedFrom(done + chunk, start, fontName) by {
        assert StepTaken(all, chunk, pre, fontName);
        ChunkPreserves(all, done, chunk, start, pre, fontName);
      }
      assert count == CountQualifying(done + chunk) by {
        CountQualifyingAppend(done, chunk);
      }
    }
    assert sections[..|sections|] == sections;
  }

  /**
   * The paragraph loop of the text-box search: each `w:p` element found below one
   * `w:txbxContent`, wrapped as a paragraph and processed on its own.
   */
  method ProcessParagraphElements(elems: seq<Node>, fontName: string) returns (count: nat)
    modifies set r | r in Runs(ParagraphsOf(elems))
    ensures count == CountQualifying(Runs(ParagraphsOf(elems)))
    ensures Annotated(Runs(ParagraphsOf(elems)), fontName)
  {
    count := 0;
    ghost var all := Runs(ParagraphsOf(elems));
    ghost var start := Snapshot(all);
    for j := 0 to |elems|
      invariant Runs(ParagraphsOf(elems[..j])) <= all
      invariant count == CountQualifying(Runs(ParagraphsOf(elems[..j])))
      invariant Between(all, start, fontName) && AnnotatedFrom(Runs(ParagraphsOf(elems[..j])), start, fontName)
    {
      var para := ParagraphOf(elems[j]);
      ghost var done := Runs(ParagraphsOf(elems[..j]));
      ghost var chunk := Runs([para]);
      assert Runs(ParagraphsOf(elems[..j + 1])) == done + chunk && done + chunk <= all by {
        ParagraphsOfStep(elems, j);
      }
      assert forall r :: r in chunk ==> r in Runs(ParagraphsOf(elems)) by {
        PrefixWithin(done + chunk, all);
      }
      ghost var pre := Snapshot(all);
      Record(all, done, start, pre, fontName);
      var n := ProcessParagraphs([para], fontName);
      count := count + n;
      assert Between(all, start, fontName) && AnnotatedFrom(done + chunk, start, fontName) by {
        ChunkPreserves(all, done, chunk, start, pre, fontName);
      }
      assert count == CountQualifying(done + chunk) by {
        CountQualifyingAppend(done, chunk);
      }
    }
    assert elems[..|elems|] == elems;
  }

  /** The text-box loop of `process_document`: every `w:txbxContent` below the body, in document order. */
  method ProcessTextBoxes(body: Node, fontName: string) returns (count: nat)
    modifies set r | r in Runs(TextBoxParagraphs(body))
    ensures count == CountQualifying(Runs(TextBoxParagraphs(body)))
    ensures Annotated(Runs(TextBoxParagraphs(body)), fontName)
  {
    count := 0;
    var boxes := Descendants(body, TextBoxContentTag);
    ghost var all := Runs(BoxParagraphs(boxes));
    ghost var start := Snapshot(all);
    for i := 0 to |boxes|
      invariant Runs(BoxParagraphs(boxes[..i])) <= all
      invariant count == CountQualifying(Runs(BoxParagraphs(boxes[..i])))
      invariant Between(all, start, fontName) && AnnotatedFrom(Runs(BoxParagraphs(boxes[..i])), start, fontName)
    {
      ghost var done := Runs(BoxParagraphs(boxes[..i]));
      ghost var chunk := Runs(ParagraphsOf(Descendants(boxes[i], ParagraphTag)));
      assert Runs(BoxParagraphs(boxes[..i + 1])) == done + chunk && done + chunk <= all by {
        BoxesStep(boxes, i);
      }
      assert forall r :: r in chunk ==> r in Runs(TextBoxParagraphs(body)) by {
        PrefixWithin(done + chunk, all);
      }
      ghost var pre := Snapshot(all);
      Record(all, done, start, pre, fontName);
      var n := ProcessParagraphElements(Descendants(boxes[i], ParagraphTag), fontName);
      count := count + n;
      assert Between(all, start, fontName) && AnnotatedFrom(done + chunk, start, fontName) by {
        assert StepTaken(all, chunk, pre, fontName);
        ChunkPreserves(all, done, chunk, start, pre, fontName);
      }
      assert count == CountQualifying(done + chunk) by {
        CountQualifyingAppend(done, chunk);
      }
    }
    assert boxes[..|boxes|] == boxes;
  }

  /**
   * `process_document`: body paragraphs, body tables, the header/footer slots of every
   * section, then the paragraphs below every text box of the body. The total is the
   * sum of the four parts.
   */
  method ProcessDocument(d: Document, fontName: string) returns (total: nat)
    modifies set r | r in DocumentRuns(d)
    ensures total == CountQualifying(Runs(d.paragraphs)) + CountQualifying(TablesRuns(d.tables))
                   + CountQualifying(SectionsRuns(d.sections)) + CountQualifying(Runs(TextBoxParagraphs(d.body)))
    ensures total == CountQualifying(DocumentRuns(d))
    ensures Annotated(DocumentRuns(d), fontName)
  {
    ghost var all := DocumentRuns(d);
    ghost var start := Snapshot(all);
    ghost var a := Runs(d.paragraphs);
    ghost var b := TablesRuns(d.tables);
    ghost var c := SectionsRuns(d.sections);
    ghost var e := Runs(TextBoxParagraphs(d.body));
    assert all == a + b + c + e;

    ghost var preBody := Snapshot(all);
    Record(all, [], start, preBody, fontName);
    total := ProcessParagraphs(d.paragraphs, fontName);
    assert Between(all, start, fontName) && AnnotatedFrom([] + a, start, fontName) by {
      assert StepTaken(all, a, preBody, fontName);
      ChunkPreserves(all, [], a, start, preBody, fontName);
    }
    assert [] + a == a;

    ghost var preTables := Snapshot(all);
    Record(all, a, start, preTables, fontName);
    var n := ProcessTables(d.tables, fontName);
    total := total + n;
    assert Between(all, start, fontName) && AnnotatedFrom(a + b, start, fontName) by {
      assert StepTaken(all, b, preTables, fontName);
      ChunkPreserves(all, a, b, start, preTables, fontName);
    }

    ghost var preSections := Snapshot(all);
    Record(all, a + b, start, preSections, fontName);
    n := ProcessSections(d.sections, fontName);
    total := total + n;
    assert Between(all, start, fontName) && AnnotatedFrom(a + b + c, start, fontName) by {
      assert StepTaken(all, c, preSections, fontName);
      ChunkPreserves(all, a + b, c, start, preSections, fontName);
    }

    ghost var preBoxes := Snapshot(all);
    Record(all, a + b + c, start, preBoxes, fontName);
    n := ProcessTextBoxes(d.body, fontName);
    total := total + n;
    assert AnnotatedFrom(a + b + c + e, start, fontName) by {
      assert StepTaken(all, e, preBoxes, fontName);
      ChunkPreserves(all, a + b + c, e, start, preBoxes, fontName);
    }

    assert total == CountQualifying(all) by {
      CountQualifyingAppend(a, b);
      CountQualifyingAppend(a + b, c);
      CountQualifyingAppend(a + b + c, e);
    }
  }
}
