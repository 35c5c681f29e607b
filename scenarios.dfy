/**
 * The walkers called on small documents built in place, with the outcome proved: a paragraph mixing Latin and
 * Chinese runs, a two-by-two table with Chinese text in one cell, and a whole
 * document processed twice.
 */
module Scenarios {
  import opened Wrappers
  import opened Cjk
  import opened RunFonts
  import opened DocModel
  import opened FontEngine
  import opened Walkers

  /** "世界" contains Chinese: its first character is a CJK unified ideograph. */
  lemma ChineseHalf()
    ensures HasChinese("世界")
  {
    assert IsCjk('世');
  }

  lemma CountTwo(a: Run, b: Run)
    ensures CountQualifying([a, b]) == CountQualifying([a]) + CountQualifying([b])
  {
    CountQualifyingAppend([a], [b]);
    assert [a] + [b] == [a, b];
  }

  lemma CountOne(a: Run)
    ensures CountQualifying([a]) == if Qualifies(a.text) then 1 else 0
  {
    CountStep([], a);
    assert [] + [a] == [a];
  }

  /**
   * One paragraph of two runs, "Hello " and "世界", neither with properties: the
   * pass changes one run, the Chinese one gets the East Asian font, and the Latin
   * run keeps no properties at all.
   */
  method MixedParagraph(fontName: string) returns (count: nat, latin: Run, chinese: Run)
    ensures latin.text == "Hello " && chinese.text == "世界"
    ensures count == 1
    ensures latin.rPr == None
    ensures chinese.rPr.Some? && EastAsiaFont(chinese.rPr.value) == Some(fontName)
  {
    latin := new Run("Hello ", None);
    chinese := new Run("世界", None);
    var paragraph := Paragraph([latin, chinese]);
    RunsSingle(paragraph);
    count := ProcessParagraphs([paragraph], fontName);
    LatinOnly();
    ChineseHalf();
    CountTwo(latin, chinese);
    CountOne(latin);
    CountOne(chinese);
    AnnotateSelective(None, chinese.text, fontName);
  }

  /** The runs of a cell holding one paragraph of one run and no tables. */
  lemma OneRunCell(r: Run)
    ensures CellRuns(Cell([Paragraph([r])], [])) == [r]
  {
    RunsSingle(Paragraph([r]));
    assert TablesRuns([]) == [];
  }

  lemma TwoCells(x: Cell, y: Cell)
    ensures CellsRuns([x, y]) == CellRuns(x) + CellRuns(y)
  {
    assert [x, y][..1] == [x];
    assert [x][..0] == [];
    assert CellsRuns([x]) == CellsRuns([]) + CellRuns(x);
    assert CellsRuns([x, y]) == CellsRuns([x]) + CellRuns(y);
  }

  lemma TwoRows(x: Row, y: Row)
    ensures RowsRuns([x, y]) == CellsRuns(x.cells) + CellsRuns(y.cells)
  {
    assert [x, y][..1] == [x];
    assert [x][..0] == [];
    assert RowsRuns([x]) == RowsRuns([]) + CellsRuns(x.cells);
    assert RowsRuns([x, y]) == RowsRuns([x]) + CellsRuns(y.cells);
  }

  /** A two-by-two table, one run per cell. */
  function Grid(a: Run, b: Run, c: Run, d: Run): Table
  {
    Table([
      Row([Cell([Paragraph([a])], []), Cell([Paragraph([b])], [])]),
      Row([Cell([Paragraph([c])], []), Cell([Paragraph([d])], [])])])
  }

  lemma GridRuns(a: Run, b: Run, c: Run, d: Run)
    ensures TableRuns(Grid(a, b, c, d)) == [a, b] + [c, d]
  {
    var t := Grid(a, b, c, d);
    TwoRows(t.rows[0], t.rows[1]);
    TwoCells(t.rows[0].cells[0], t.rows[0].cells[1]);
    TwoCells(t.rows[1].cells[0], t.rows[1].cells[1]);
    OneRunCell(a);
    OneRunCell(b);
    OneRunCell(c);
    OneRunCell(d);
  }

  /**
   * A two-by-two table whose top-left cell reads "测试" and whose other cells hold
   * Latin text or nothing: the table pass counts one run and changes only that one.
   */
  method TableWithOneChineseCell(fontName: string) returns (count: nat, cells: seq<Run>)
    ensures |cells| == 4
    ensures cells[0].text == "测试"
    ensures count == 1
    ensures cells[0].rPr.Some? && EastAsiaFont(cells[0].rPr.value) == Some(fontName)
    ensures cells[1].rPr == None && cells[2].rPr == None && cells[3].rPr == None
  {
    var a := new Run("测试", None);
    var b := new Run("Name", None);
    var c := new Run("", None);
    var d := new Run("42", None);
    cells := [a, b, c, d];
    GridRuns(a, b, c, d);
    count := ProcessTable(Grid(a, b, c, d), fontName);
    assert IsCjk("测试"[0]);
    assert HasChinese("测试");
    HasChineseAscii("Name");
    HasChineseAscii("42");
    CountQualifyingAppend([a, b], [c, d]);
    CountTwo(a, b);
    CountTwo(c, d);
    CountOne(a);
    CountOne(b);
    CountOne(c);
    CountOne(d);
    AnnotateSelective(None, a.text, fontName);
  }

  /**
   * Processing a document a second time changes no property the first pass did not
   * already set, and counts the same runs again.
   */
  method ProcessDocumentTwice(d: Document, fontName: string) returns (first: nat, second: nat)
    modifies set r | r in DocumentRuns(d)
    ensures first == second == CountQualifying(DocumentRuns(d))
    ensures Annotated(DocumentRuns(d), fontName)
  {
    ghost var all := DocumentRuns(d);
    ghost var start := Snapshot(all);
    first := ProcessDocument(d, fontName);
    ghost var mid := Snapshot(all);
    assert forall r :: r in all ==> r.rPr == Annotate(start[r], r.text, fontName) && mid[r] == r.rPr;
    second := ProcessDocument(d, fontName);
    forall r | r in all
      ensures r.rPr == Annotate(start[r], r.text, fontName)
    {
      AnnotateIdempotent(start[r], r.text, fontName);
    }
  }
}
