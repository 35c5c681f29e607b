/**
 * The CJK classifier of `change_chinese_font.py`: the character class `_CJK_RANGES`
 * compiled into `CJK_PATTERN`, and `has_chinese`, which searches a string for one
 * character of that class.
 *
 * Text is a Dafny `string`, a sequence of Unicode scalar values, as a Python `str`
 * is a sequence of code points; a supplementary-plane character is one element,
 * never two surrogate halves.
 */
module Cjk {

  /** An inclusive range of code points, `lo-hi` inside a regular-expression class. */
  datatype CodeRange = CodeRange(lo: int, hi: int) {
    predicate Contains(c: int) {
      lo <= c <= hi
    }
  }

  /** The twelve ranges of `_CJK_RANGES`, in the order the source lists them. */
  const CjkRanges: seq<CodeRange> := [
    CodeRange(0x3000, 0x303F),    // CJK Symbols and Punctuation
    CodeRange(0x3400, 0x4DBF),    // CJK Extension A
    CodeRange(0x4E00, 0x9FFF),    // CJK Unified Ideographs
    CodeRange(0xF900, 0xFAFF),    // CJK Compatibility Ideographs
    CodeRange(0xFE30, 0xFE4F),    // CJK Compatibility Forms
    CodeRange(0xFF00, 0xFFEF),    // Halfwidth and Fullwidth Forms
    CodeRange(0x20000, 0x2A6DF),  // CJK Extension B
    CodeRange(0x2A700, 0x2B73F),  // CJK Extension C
    CodeRange(0x2B740, 0x2B81F),  // CJK Extension D
    CodeRange(0x2B820, 0x2CEAF),  // CJK Extension E
    CodeRange(0x2CEB0, 0x2EBEF),  // CJK Extension F
    CodeRange(0x2F800, 0x2FA1F)   // CJK Compatibility Supplement
  ]

  /** Membership in a character class given as a list of ranges, tried in order. */
  predicate InRanges(c: int, ranges: seq<CodeRange>)
  {
    ranges != [] && (ranges[0].Contains(c) || InRanges(c, ranges[1..]))
  }

  /** A character matches `CJK_PATTERN`'s class. */
  predicate IsCjk(ch: char)
  {
    InRanges(ch as int, CjkRanges)
  }

  /**
   * `has_chinese`: `CJK_PATTERN.search(text)` finds a match, scanning from the left.
   */
  predicate HasChinese(text: string)
  {
    text != [] && (IsCjk(text[0]) || HasChinese(text[1..]))
  }

  /** Trying the ranges in order is membership in their union. */
  lemma {:induction false} InRangesIff(c: int, ranges: seq<CodeRange>)
    ensures InRanges(c, ranges) <==> exists k :: 0 <= k < |ranges| && ranges[k].Contains(c)
  {
    if ranges != [] {
      InRangesIff(c, ranges[1..]);
      if !ranges[0].Contains(c) && InRanges(c, ranges) {
        var k :| 0 <= k < |ranges[1..]| && ranges[1..][k].Contains(c);
        assert ranges[k + 1].Contains(c);
      }
      if exists k :: 0 <= k < |ranges| && ranges[k].Contains(c) {
        var k :| 0 <= k < |ranges| && ranges[k].Contains(c);
        if k > 0 {
          assert ranges[1..][k - 1].Contains(c);
        }
      }
    }
  }

  /** A character is CJK exactly when its code point lies in one of the twelve ranges. */
  lemma IsCjkIff(ch: char)
    ensures IsCjk(ch) <==> exists k :: 0 <= k < |CjkRanges| && CjkRanges[k].lo <= ch as int <= CjkRanges[k].hi
  {
    InRangesIff(ch as int, CjkRanges);
  }

  /** The table is well formed: each range non-empty, ascending and pairwise disjoint. */
  lemma CjkRangesOrdered()
    ensures forall k :: 0 <= k < |CjkRanges| ==> CjkRanges[k].lo <= CjkRanges[k].hi
    ensures forall k :: 0 < k < |CjkRanges| ==> CjkRanges[k - 1].hi < CjkRanges[k].lo
  {
  }

  /** No ASCII character (nor any Latin-1 character) is CJK. */
  lemma {:induction false} NotCjkBelow3000(ch: char)
    requires (ch as int) < 0x3000
    ensures !IsCjk(ch)
  {
    IsCjkIff(ch);
  }

  /** `has_chinese(text)` holds exactly when some character of `text` is CJK. */
  lemma {:induction false} HasChineseIff(text: string)
    ensures HasChinese(text) <==> exists i :: 0 <= i < |text| && IsCjk(text[i])
  {
    if text != [] {
      HasChineseIff(text[1..]);
      if HasChinese(text) && !IsCjk(text[0]) {
        var i :| 0 <= i < |text[1..]| && IsCjk(text[1..][i]);
        assert IsCjk(text[i + 1]);
      }
      if exists i :: 0 <= i < |text| && IsCjk(text[i]) {
        var i :| 0 <= i < |text| && IsCjk(text[i]);
        if i > 0 {
          assert IsCjk(text[1..][i - 1]);
        }
      }
    }
  }

  /** The empty string holds no CJK character. */
  lemma HasChineseEmpty()
    ensures !HasChinese("")
  {
  }

  /** Text made only of ASCII characters holds no CJK character. */
  lemma {:induction false} HasChineseAscii(text: string)
    requires forall i :: 0 <= i < |text| ==> (text[i] as int) < 0x80
    ensures !HasChinese(text)
  {
    HasChineseIff(text);
    forall i | 0 <= i < |text|
      ensures !IsCjk(text[i])
    {
      NotCjkBelow3000(text[i]);
    }
  }

  /** The search distributes over concatenation: a match lies in one part or the other. */
  lemma {:induction false} HasChineseAppend(a: string, b: string)
    ensures HasChinese(a + b) <==> HasChinese(a) || HasChinese(b)
  {
    if a != [] {
      assert (a + b)[0] == a[0];
      assert (a + b)[1..] == a[1..] + b;
      HasChineseAppend(a[1..], b);
    } else {
      assert a + b == b;
    }
  }

  /** Mixed-script text counts as CJK: classification is per string, not per character. */
  lemma MixedScript()
    ensures HasChinese("Hello 世界")
  {
    assert IsCjk('世');
    assert HasChinese("世界");
    HasChineseAppend("Hello ", "世界");
  }

  /** Latin-only text is not CJK. */
  lemma LatinOnly()
    ensures !HasChinese("Hello ")
  {
    HasChineseAscii("Hello ");
  }

  /** The first and one-past-the-last code points of CJK Extension B. */
  lemma ExtensionBBounds()
    ensures HasChinese("\U{20000}")
    ensures !HasChinese("\U{2A6E0}")
  {
    assert IsCjk('\U{20000}');
    IsCjkIff('\U{2A6E0}');
    assert "\U{2A6E0}"[1..] == "";
  }
}
