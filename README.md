# East Asian font changer, modelled in Dafny

`change_chinese_font.py` sets the East Asian font of every run it reaches whose text
contains a CJK character. The font goes in the `w:eastAsia` attribute of the run's
`w:rFonts` properties; Latin and other fonts stay as they were.

The script walks four places, in this order:

1. the body paragraphs;
2. the body tables, nested tables included;
3. the six header/footer slots of every section;
4. every paragraph under a `w:txbxContent` (text box) element of the body markup.

The walk does not reach:

- runs that are not direct `w:r` children of a paragraph, such as runs inside
  `w:hyperlink`, `w:ins`, `w:smartTag` or an inline `w:sdt`;
- body content inside a block-level `w:sdt`, except through the text-box search;
- footnotes, endnotes and comments.

It returns how many qualifying runs it visited. A run reached along several paths
counts once per path.

The project models that engine:

- `cjk.dfy` (`Cjk`): the twelve CJK code-point ranges and `has_chinese`, as a
  range-membership predicate over the code points of a string.
- `run_fonts.dfy` (`RunFonts`): a run is an object whose property list (`w:rPr`,
  possibly absent) changes in place. `SetEastAsiaFont` is `set_eastasia_font`: it
  finds the first `w:rFonts`, inserts one at the front if there is none, and sets its
  `w:eastAsia` attribute. `WithEastAsia` is the property list it produces.
- `doc_model.dfy` (`DocModel`): paragraphs, tables, rows and cells (cells hold
  paragraphs and then nested tables), header/footer parts, sections with six optional
  slots, the body markup tree, and `findall(".//tag")` as `Descendants`. Each
  `...Runs` function lists the run visits of one walker in the order the code makes
  them.
- `engine.dfy` (`FontEngine`): the specification the walkers are proved against.
  - `Qualifies` is the test on line 87.
  - `Annotate` is what a visit does to a run's properties.
  - `CountQualifying` counts the qualifying visits in a visiting order.
  - `Annotated` states that every visited run ends as `Annotate` of its initial
    properties.
- `walkers.dfy` (`Walkers`): `process_paragraphs`, `process_table` and
  `process_document` as methods with loops over the structure, mutating the runs they
  reach.
  - Each inner loop of the source is its own method, so each loop carries its own
    invariants: `ProcessRuns`, `ProcessRow`, `ProcessCell`, `ProcessTables`,
    `ProcessSlot`, `ProcessSlots`, `ProcessSections`, `ProcessParagraphElements` and
    `ProcessTextBoxes`.
  - `process_table` remains a recursive method.
  - Each method ensures two things. It returns the number of qualifying visits in its
    order. Every run it reaches ends as one annotation of its initial properties
    leaves it, even when the run is reached, and annotated, again.
  - Its `modifies` clause says that no other run changes.
- `properties.dfy` (`Properties`) holds lemmas relating the counts:
  - A table's count is the sum of its cells' paragraph counts, at every depth.
  - When no run is reached twice, the count is the number of distinct runs
    `set_eastasia_font` is applied to.
  - A run reached twice is counted twice.
  - The paragraph of a text box nested in another text box is reached twice.
- `scenarios.dfy` (`Scenarios`) calls the walkers on small documents built in place and proves the outcome:
  - a paragraph mixing "Hello " and "世界";
  - a two-by-two table with "测试" in one cell;
  - a document processed twice.

The count is a count of visits. Every visit to a qualifying run calls
`set_eastasia_font` on it and adds one to the count. The update is idempotent, so a
run reached twice ends as one update leaves it, but it is counted twice. Such runs
arise in three ways:

- A merged cell that `row.cells` repeats.
- A paragraph inside a text box nested in another text box. Both `.//w:txbxContent`
  searches find it.
- A header part that several sections share.

The docstrings of `process_paragraphs`, `process_table` and `process_document`
(change_chinese_font.py:81-82, 100-101, 122-123) call the result "the number of runs
that were modified". That holds only when no run is reached twice. The model follows
the code:

- `Properties.CountDistinct` proves that, under that condition, the count equals the
  number of distinct runs `set_eastasia_font` is applied to. That includes a run
  whose font was already set, which the call leaves unchanged.
- `Properties.NestedTextBoxVisitedTwice` shows a body where the two differ.

## Model

| member | source | states |
|---|---|---|
| Cjk.InRangesIff | change_chinese_font.py:41 | a code point is in the character class iff one of its ranges contains it |
| Cjk.IsCjkIff | change_chinese_font.py:26-41 | a character is CJK iff its code point lies in one of the twelve inclusive ranges U+3000–U+303F … U+2F800–U+2FA1F |
| Cjk.CjkRangesOrdered | change_chinese_font.py:26-38 | every range is well formed and the ranges are strictly increasing and disjoint |
| Cjk.NotCjkBelow3000 | change_chinese_font.py:26-38 | no code point below U+3000 is CJK |
| Cjk.HasChineseIff | change_chinese_font.py:44-53 | `has_chinese(t)` holds iff some character of `t` is CJK (the search finds at least one match) |
| Cjk.HasChineseEmpty | change_chinese_font.py:53 | the empty string contains no CJK character |
| Cjk.HasChineseAscii | change_chinese_font.py:44-53 | pure-ASCII text contains no CJK character |
| Cjk.HasChineseAppend | change_chinese_font.py:44-53 | `has_chinese(a + b)` iff `has_chinese(a)` or `has_chinese(b)` |
| Cjk.MixedScript | change_chinese_font.py:44-53 | "Hello 世界" contains Chinese |
| Cjk.LatinOnly | change_chinese_font.py:44-53 | "Hello " does not |
| Cjk.ExtensionBBounds | change_chinese_font.py:33 | U+20000 is in Extension B; U+2A6E0, just past its end, is not CJK |
| RunFonts.FirstWithTag | change_chinese_font.py:67 | `find` returns the first child with the tag: it has the tag, no earlier child has it, and None means no child has it |
| RunFonts.WithEastAsiaSetsFont | change_chinese_font.py:66-71 | after the update the first `w:rFonts` has `w:eastAsia` equal to the font name |
| RunFonts.WithEastAsiaPreserves | change_chinese_font.py:67-71 | every other attribute of that `w:rFonts` and every other property child stay as they were, in order; a missing `w:rFonts` is inserted at index 0 |
| RunFonts.AddsAtMostOneRFonts | change_chinese_font.py:67-70 | the update adds no `w:rFonts` when one exists and exactly one when none does |
| RunFonts.LastWriteWins | change_chinese_font.py:71 | setting a second font replaces the first: the result equals setting only the second |
| RunFonts.WithEastAsiaIdempotent | change_chinese_font.py:67-71 | applying the update twice with the same font equals applying it once (no second `w:rFonts`) |
| RunFonts.SetEastAsiaFont | change_chinese_font.py:56-71 | the run's properties become the updated list, created if absent; nothing else changes |
| DocModel.DescendantsIff | change_chinese_font.py:152-153 | `findall(".//tag")` returns exactly the proper descendants that carry the tag |
| DocModel.MatchingIff | change_chinese_font.py:152-153 | the search of a forest returns exactly the nodes of the forest that carry the tag |
| FontEngine.QualifiesIff | change_chinese_font.py:87 | a run is changed iff its text is non-empty and has a CJK character, i.e. iff some character is CJK |
| FontEngine.AnnotateIdempotent | change_chinese_font.py:87-88 | visiting a run a second time leaves its properties as the first visit left them |
| FontEngine.AnnotateSelective | change_chinese_font.py:87-88 | a run without CJK text is untouched; a run with it gets the East Asian font |
| FontEngine.CountQualifyingAppend | change_chinese_font.py:125-160 | the count over two consecutive walks is the sum of their counts |
| FontEngine.CountIsQualifyingPositions | change_chinese_font.py:84-90 | the count is the number of visits whose run qualifies |
| Walkers.ProcessRuns | change_chinese_font.py:86-89 | returns the number of qualifying runs in the paragraph; exactly those runs get the East Asian font |
| Walkers.ProcessParagraphs | change_chinese_font.py:74-90 | returns the number of qualifying run visits over all paragraphs; every run reached ends as one annotation of its initial properties leaves it, no other run changes |
| Walkers.ProcessTable | change_chinese_font.py:93-109 | returns the qualifying visits over every row and cell at every depth; every run reached ends as one annotation of its initial properties leaves it |
| Walkers.ProcessRow | change_chinese_font.py:105-108 | the same, over the cells of one row in order |
| Walkers.ProcessCell | change_chinese_font.py:106-108 | the same, for one cell: its paragraphs, then its nested tables |
| Walkers.ProcessTables | change_chinese_font.py:107-108 | the same, over a list of tables in order |
| Walkers.ProcessSlot | change_chinese_font.py:144-147 | an absent slot counts 0 and changes nothing; a present one counts its paragraphs, then its tables |
| Walkers.ProcessSlots | change_chinese_font.py:136-147 | the same, over the slots in order |
| Walkers.ProcessSection | change_chinese_font.py:136-147 | the same, over the six slots of one section in their fixed order |
| Properties.SectionSlotsOrder | change_chinese_font.py:136-147 | a section's visits are those of its header, first-page header, even-page header, footer, first-page footer and even-page footer, in that order |
| Properties.SectionCountIsSlotSum | change_chinese_font.py:136-147 | a section's count is the sum of its six slot counts, and an absent slot counts 0 |
| Walkers.ProcessSections | change_chinese_font.py:135-147 | the same, over all sections in order |
| Walkers.ProcessParagraphElements | change_chinese_font.py:153-158 | each `w:p` element is wrapped as a paragraph and processed; the count sums those of the single paragraphs |
| Walkers.ProcessTextBoxes | change_chinese_font.py:150-158 | the count over every paragraph under every `w:txbxContent` of the body, box by box in document order |
| Walkers.ProcessDocument | change_chinese_font.py:112-160 | the total is the body count plus the table counts plus the header/footer counts plus the text-box count; every run reached ends as one annotation of its initial properties leaves it, no other run changes |
| Properties.TableCountIsCellSum | change_chinese_font.py:103-109 | a table's count is the sum of the paragraph counts of all its cells at all depths; a table without rows counts 0 |
| Properties.RowsCountIsCellSum | change_chinese_font.py:104-108 | the same for a sequence of rows |
| Properties.CellsCountIsCellSum | change_chinese_font.py:105-108 | the same for the cells of a row |
| Properties.CellCountIsCellSum | change_chinese_font.py:106-108 | a cell's count is its own paragraph count plus those of the cells of its nested tables |
| Properties.TablesCountIsCellSum | change_chinese_font.py:107-108 | the same for a list of tables |
| Properties.CountDistinct | change_chinese_font.py:81-90 | when no run is reached twice, the count is the number of distinct runs `set_eastasia_font` is applied to |
| Properties.RevisitCountsTwice | change_chinese_font.py:84-90 | a qualifying run reached twice counts 2 though it is one run |
| Properties.NestedTextBoxVisitedTwice | change_chinese_font.py:150-158 | in a body with a text box nested in another, the text-box visits are exactly the outer paragraph's run once and the inner paragraph's run twice |
| Properties.NestedTextBoxSkipsAnchor | change_chinese_font.py:150-158 | in that body, the body run anchoring the outer text box, when it is a different run, is not among the text-box visits |
| Scenarios.MixedParagraph | change_chinese_font.py:84-90 | runs "Hello " and "世界": count 1, the Latin run keeps no properties, the Chinese run gets the font |
| Scenarios.TableWithOneChineseCell | change_chinese_font.py:103-109 | a two-by-two table with "测试" in the top-left cell: count 1, only that run changes |
| Scenarios.ProcessDocumentTwice | change_chinese_font.py:125-160 | a second pass counts the same and leaves every run as one pass left it |

## Left out

- `main` (command-line parsing, file checks, loading and saving the package, printing) and `gui.py`: I/O and a windowing front end with no logic of the engine.
- The regex engine: `CJK_PATTERN.search` is modelled by its meaning, membership of some code point in the twelve ranges.
- XML and python-docx internals: `get_or_add_rPr`, `qn` namespace expansion, attribute storage order and the `Paragraph` proxy are modelled as an abstract tree. A run's properties are a list of tagged children with string attributes, and an absent `w:rPr` is `None`.
- How python-docx builds `row.cells` (a merged cell appears once per grid column it spans, and once per row of a vertical merge): a row is given as the list `row.cells` returns, so repeated cells are repeated entries.
- Header linking: a slot is present or absent. A header part that several sections share appears as the same runs in several slots, and python-docx's creation of a header on access is not modelled.
- The body's block-level paragraphs and tables are not tied to the body markup tree: the model takes `doc.paragraphs`, `doc.tables` and `doc.element.body` as separate inputs, so it does not show which body runs are also text-box anchors.
- Text boxes in headers and footers: the code searches only the body markup, and so does the model.
- Font-name validation: the code has none, and the model accepts any string.
- Walkers.ProcessDocument: states the count as the number of qualifying visits, not as the number of distinct runs `set_eastasia_font` is applied to, because the code counts a run once per path that reaches it.
- Markup that spells a run as a plain element: a `w:r` is assumed to be a `RunElement` carrying its run object. An `Element` tagged `w:r` is matched by the tag search, but it is not taken as a run of its paragraph, whereas python-docx would wrap it as one.
