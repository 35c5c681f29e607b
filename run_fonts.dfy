/**
 * The run font mutator of `change_chinese_font.py` (`set_eastasia_font`).
 *
 * A run (`w:r`) may own a properties element `w:rPr`, an ordered list of property
 * children (`w:rFonts`, `w:b`, `w:sz`, ...), each with its attribute map. The mutator
 * makes sure `w:rPr` exists, finds its first `w:rFonts` child or inserts a new one at
 * position 0, and sets that child's `w:eastAsia` attribute to the requested font.
 */
module RunFonts {
  import opened Wrappers

  const RFontsTag := "w:rFonts"
  const EastAsiaAttr := "w:eastAsia"

  /** One child of `w:rPr`: its qualified tag and its attributes. */
  datatype Prop = Prop(tag: string, attrs: map<string, string>)

  /** A run element. Its text never changes here; its `w:rPr` is absent (`None`) or a list of children. */
  class Run {
    const text: string
    var rPr: Option<seq<Prop>>

    constructor (text: string, rPr: Option<seq<Prop>>)
      ensures this.text == text && this.rPr == rPr
    {
      this.text := text;
      this.rPr := rPr;
    }
  }

  /** The children of `w:rPr`; an absent element has none, which is what `get_or_add_rPr` creates. */
  function Children(rPr: Option<seq<Prop>>): seq<Prop>
  {
    if rPr.Some? then rPr.value else []
  }

  /** `rPr.find(tag)`: the position of the first child with this tag, if any. */
  function FirstWithTag(props: seq<Prop>, tag: string): (r: Option<nat>)
    ensures r.Some? ==> r.value < |props| && props[r.value].tag == tag
    ensures r.Some? ==> forall k :: 0 <= k < r.value ==> props[k].tag != tag
    ensures r.None? ==> forall k :: 0 <= k < |props| ==> props[k].tag != tag
  {
    if props == [] then None
    else if props[0].tag == tag then Some(0)
    else match FirstWithTag(props[1..], tag)
      case None => None
      case Some(k) => Some(k + 1)
  }

  /** Two property lists with the same tags at the same positions have the same first match. */
  lemma SameTagsSameFirst(a: seq<Prop>, b: seq<Prop>, tag: string)
    requires |a| == |b|
    requires forall k :: 0 <= k < |a| ==> a[k].tag == b[k].tag
    ensures FirstWithTag(a, tag) == FirstWithTag(b, tag)
  {
  }

  /** How many children carry this tag. */
  function CountTag(props: seq<Prop>, tag: string): nat
  {
    if props == [] then 0 else (if props[0].tag == tag then 1 else 0) + CountTag(props[1..], tag)
  }

  /** The East-Asian font a property list declares: the `w:eastAsia` of its first `w:rFonts`. */
  function EastAsiaFont(props: seq<Prop>): Option<string>
  {
    match FirstWithTag(props, RFontsTag)
    case None => None
    case Some(k) => if EastAsiaAttr in props[k].attrs then Some(props[k].attrs[EastAsiaAttr]) else None
  }

  /**
   * The `w:rPr` children after `set_eastasia_font(run, fontName)` on a run whose
   * `w:rPr` was `rPr`.
   */
  function WithEastAsia(rPr: Option<seq<Prop>>, fontName: string): seq<Prop>
  {
    var props := Children(rPr);
    match FirstWithTag(props, RFontsTag)
    case None => [Prop(RFontsTag, map[EastAsiaAttr := fontName])] + props
    case Some(k) => props[k := props[k].(attrs := props[k].attrs[EastAsiaAttr := fontName])]
  }

  /** Afterwards the run's first `w:rFonts` names `fontName` as its East-Asian font. */
  lemma WithEastAsiaSetsFont(rPr: Option<seq<Prop>>, fontName: string)
    ensures EastAsiaFont(WithEastAsia(rPr, fontName)) == Some(fontName)
  {
    var props := Children(rPr);
    var r := WithEastAsia(rPr, fontName);
    match FirstWithTag(props, RFontsTag)
    case None =>
      assert r[0].tag == RFontsTag;
    case Some(k) =>
      SameTagsSameFirst(props, r, RFontsTag);
  }

  /**
   * Nothing else changes. An existing first `w:rFonts` keeps its position and every
   * attribute other than `w:eastAsia` (`w:ascii`, `w:hAnsi`, `w:cs`, ...), and every
   * other child keeps its position and content. Without one, a new `w:rFonts` holding
   * only `w:eastAsia` is inserted at index 0 ahead of the old children, kept in order.
   */
  lemma WithEastAsiaPreserves(rPr: Option<seq<Prop>>, fontName: string)
    ensures var props, r := Children(rPr), WithEastAsia(rPr, fontName);
      match FirstWithTag(props, RFontsTag)
      case None =>
        && |r| == |props| + 1
        && r[0] == Prop(RFontsTag, map[EastAsiaAttr := fontName])
        && r[1..] == props
      case Some(k) =>
        && |r| == |props|
        && (forall i :: 0 <= i < |props| && i != k ==> r[i] == props[i])
        && r[k].tag == RFontsTag
        && r[k].attrs.Keys == props[k].attrs.Keys + {EastAsiaAttr}
        && (forall a :: a in props[k].attrs && a != EastAsiaAttr ==> r[k].attrs[a] == props[k].attrs[a])
        && r[k].attrs[EastAsiaAttr] == fontName
  {
  }

  lemma {:induction false} CountTagAppend(a: seq<Prop>, b: seq<Prop>, tag: string)
    ensures CountTag(a + b, tag) == CountTag(a, tag) + CountTag(b, tag)
  {
    if a == [] {
      assert a + b == b;
    } else {
      assert (a + b)[1..] == a[1..] + b;
      CountTagAppend(a[1..], b, tag);
    }
  }

  lemma {:induction false} CountTagUpdate(props: seq<Prop>, k: nat, p: Prop, tag: string)
    requires k < |props| && p.tag == props[k].tag
    ensures CountTag(props[k := p], tag) == CountTag(props, tag)
  {
    if k > 0 {
      assert props[k := p][1..] == props[1..][k - 1 := p];
      CountTagUpdate(props[1..], k - 1, p, tag);
    }
  }

  lemma {:induction false} CountTagZero(props: seq<Prop>, tag: string)
    requires forall k :: 0 <= k < |props| ==> props[k].tag != tag
    ensures CountTag(props, tag) == 0
  {
    if props != [] {
      CountTagZero(props[1..], tag);
    }
  }

  /**
   * At most one `w:rFonts` is ever added: exactly one when the run had none (so it
   * then has exactly one), none when it already had one.
   */
  lemma AddsAtMostOneRFonts(rPr: Option<seq<Prop>>, fontName: string)
    ensures var props := Children(rPr);
      CountTag(WithEastAsia(rPr, fontName), RFontsTag)
        == CountTag(props, RFontsTag) + (if FirstWithTag(props, RFontsTag).None? then 1 else 0)
    ensures FirstWithTag(Children(rPr), RFontsTag).None? ==> CountTag(WithEastAsia(rPr, fontName), RFontsTag) == 1
  {
    var props := Children(rPr);
    match FirstWithTag(props, RFontsTag)
    case None =>
      var added := Prop(RFontsTag, map[EastAsiaAttr := fontName]);
      CountTagAppend([added], props, RFontsTag);
      CountTagZero(props, RFontsTag);
    case Some(k) =>
      CountTagUpdate(props, k, props[k].(attrs := props[k].attrs[EastAsiaAttr := fontName]), RFontsTag);
  }

  /** Setting the font is a plain assignment: the last call decides, earlier ones leave no trace. */
  lemma LastWriteWins(rPr: Option<seq<Prop>>, first: string, second: string)
    ensures WithEastAsia(Some(WithEastAsia(rPr, first)), second) == WithEastAsia(rPr, second)
  {
    var props := Children(rPr);
    var once := WithEastAsia(rPr, first);
    match FirstWithTag(props, RFontsTag)
    case None =>
      assert FirstWithTag(once, RFontsTag) == Some(0);
      assert map[EastAsiaAttr := first][EastAsiaAttr := second] == map[EastAsiaAttr := second];
      assert once[0 := once[0].(attrs := once[0].attrs[EastAsiaAttr := second])]
          == [Prop(RFontsTag, map[EastAsiaAttr := second])] + props;
    case Some(k) =>
      SameTagsSameFirst(props, once, RFontsTag);
      var attrs := props[k].attrs;
      assert attrs[EastAsiaAttr := first][EastAsiaAttr := second] == attrs[EastAsiaAttr := second];
      assert once[k := once[k].(attrs := once[k].attrs[EastAsiaAttr := second])]
          == props[k := props[k].(attrs := attrs[EastAsiaAttr := second])];
  }

  /**
   * `set_eastasia_font` is idempotent: a second call with the same font changes
   * nothing, and in particular adds no second `w:rFonts`.
   */
  lemma WithEastAsiaIdempotent(rPr: Option<seq<Prop>>, fontName: string)
    ensures WithEastAsia(Some(WithEastAsia(rPr, fontName)), fontName) == WithEastAsia(rPr, fontName)
  {
    LastWriteWins(rPr, fontName, fontName);
  }

  /**
   * `set_eastasia_font(run, fontName)`: get or add `w:rPr`, find or insert `w:rFonts`
   * at position 0, then set its `w:eastAsia` attribute.
   */
  method SetEastAsiaFont(run: Run, fontName: string)
    modifies run
    ensures run.rPr == Some(WithEastAsia(old(run.rPr), fontName))
  {
    if run.rPr.None? {
      run.rPr := Some([]);
    }
    ghost var props0 := run.rPr.value;
    assert props0 == Children(old(run.rPr));
    var k := FirstWithTag(run.rPr.value, RFontsTag);
    if k.None? {
      run.rPr := Some([Prop(RFontsTag, map[])] + run.rPr.value);
      k := Some(0);
    }
    var props := run.rPr.value;
    run.rPr := Some(props[k.value := props[k.value].(attrs := props[k.value].attrs[EastAsiaAttr := fontName])]);
    if FirstWithTag(props0, RFontsTag).None? {
      assert map[][EastAsiaAttr := fontName] == map[EastAsiaAttr := fontName];
      assert run.rPr.value == [Prop(RFontsTag, map[EastAsiaAttr := fontName])] + props0;
    }
  }
}
