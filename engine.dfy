/**
 * What one visit of the engine does to a run, and how many visits change something:
 * the specification the walkers of `Walkers` are proved against.
 *
 * A visit sets the East-Asian font of a run whose text is non-empty and holds a CJK
 * character (`Annotate`), and the walkers count such visits (`CountQualifying`).
 * The second half of the module describes the states a walk passes through: a
 * snapshot of the runs on entry, and the facts that carry over one step.
 */
module FontEngine {
  import opened Wrappers
  import opened Cjk
  import opened RunFonts

  /** `run.text and has_chinese(run.text)`: the runs the engine changes. */
  predicate Qualifies(text: string)
  {
    |text| > 0 && HasChinese(text)
  }

  /** The emptiness test is subsumed by the search: only CJK-bearing text qualifies. */
  lemma QualifiesIff(text: string)
    ensures Qualifies(text) <==> exists i :: 0 <= i < |text| && IsCjk(text[i])
  {
    HasChineseIff(text);
  }

  /** The `w:rPr` of a run with this text after one visit: set the font if it qualifies, else leave it. */
  function Annotate(rPr: Option<seq<Prop>>, text: string, fontName: string): Option<seq<Prop>>
  {
    if Qualifies(text) then Some(WithEastAsia(rPr, fontName)) else rPr
  }

  /** Visiting a run again with the same font changes nothing. */
  lemma AnnotateIdempotent(rPr: Option<seq<Prop>>, text: string, fontName: string)
    ensures Annotate(Annotate(rPr, text, fontName), text, fontName) == Annotate(rPr, text, fontName)
  {
    if Qualifies(text) {
      WithEastAsiaIdempotent(rPr, fontName);
    }
  }

  /** Script selectivity: a run without CJK text keeps its properties, with or without `w:eastAsia`. */
  lemma AnnotateSelective(rPr: Option<seq<Prop>>, text: string, fontName: string)
    ensures !HasChinese(text) ==> Annotate(rPr, text, fontName) == rPr
    ensures HasChinese(text) ==>
      Annotate(rPr, text, fontName).Some? && EastAsiaFont(Annotate(rPr, text, fontName).value) == Some(fontName)
  {
    if HasChinese(text) {
      WithEastAsiaSetsFont(rPr, fontName);
    }
  }

  /** How many of these run visits qualify: the number of times the engine calls the mutator. */
  function CountQualifying(rs: seq<Run>): nat
  {
    if rs == [] then 0
    else CountQualifying(rs[..|rs| - 1]) + (if Qualifies(rs[|rs| - 1].text) then 1 else 0)
  }

  lemma {:induction false} CountQualifyingAppend(a: seq<Run>, b: seq<Run>)
    ensures CountQualifying(a + b) == CountQualifying(a) + CountQualifying(b)
    decreases |b|
  {
    if b == [] {
      assert a + b == a;
    } else {
      assert (a + b)[..|a + b| - 1] == a + b[..|b| - 1];
      CountQualifyingAppend(a, b[..|b| - 1]);
    }
  }

  lemma CountStep(done: seq<Run>, run: Run)
    ensures CountQualifying(done + [run]) == CountQualifying(done) + if Qualifies(run.text) then 1 else 0
  {
    assert (done + [run])[..|done|] == done;
  }

  lemma SliceStep(rs: seq<Run>, j: nat)
    requires j < |rs|
    ensures rs[..j + 1] == rs[..j] + [rs[j]]
  {
  }

  /** The positions of the visits that qualify. */
  function QualifyingPositions(rs: seq<Run>): set<nat>
  {
    set i: nat | i < |rs| && Qualifies(rs[i].text)
  }

  /** The count is exactly the number of qualifying visits. */
  lemma {:induction false} CountIsQualifyingPositions(rs: seq<Run>)
    ensures CountQualifying(rs) == |QualifyingPositions(rs)|
    decreases |rs|
  {
    if rs != [] {
      var n := |rs| - 1;
      var init := rs[..n];
      CountIsQualifyingPositions(init);
      var before := QualifyingPositions(init);
      assert before == set i: nat | i < n && Qualifies(rs[i].text);
      if Qualifies(rs[n].text) {
        assert QualifyingPositions(rs) == before + {n};
      } else {
        assert QualifyingPositions(rs) == before;
      }
    }
  }

  // ---------------------------------------------------------------- states of the runs

  /** The properties of these runs in the current state. */
  function Snapshot(rs: seq<Run>): map<Run, Option<seq<Prop>>>
    reads rs
  {
    map r | r in rs :: r.rPr
  }

  /** Relative to `start`, each run of `rs` is either untouched or annotated. */
  predicate Between(rs: seq<Run>, start: map<Run, Option<seq<Prop>>>, fontName: string)
    reads rs
  {
    forall r :: r in rs ==> r in start && (r.rPr == start[r] || r.rPr == Annotate(start[r], r.text, fontName))
  }

  /** Relative to `start`, each run of `rs` is annotated. */
  predicate AnnotatedFrom(rs: seq<Run>, start: map<Run, Option<seq<Prop>>>, fontName: string)
    reads rs
  {
    forall r :: r in rs ==> r in start && r.rPr == Annotate(start[r], r.text, fontName)
  }

  /** Every run of `rs` now holds what one visit makes of the properties it had before. */
  twostate predicate Annotated(rs: seq<Run>, fontName: string)
    reads rs
  {
    forall r :: r in rs ==> r.rPr == Annotate(old(r.rPr), r.text, fontName)
  }

  lemma PrefixWithin(a: seq<Run>, b: seq<Run>)
    requires a <= b
    ensures forall r :: r in a ==> r in b
  {
    forall r | r in a
      ensures r in b
    {
      var i :| 0 <= i < |a| && a[i] == r;
      assert b[i] == r;
    }
  }

  /** Relative to `start`, the properties recorded in `pre` are each untouched or annotated. */
  predicate RecordedBetween(rs: seq<Run>, start: map<Run, Option<seq<Prop>>>, pre: map<Run, Option<seq<Prop>>>, fontName: string)
  {
    forall r :: r in rs ==> r in start && r in pre && (pre[r] == start[r] || pre[r] == Annotate(start[r], r.text, fontName))
  }

  /** Relative to `start`, the properties recorded in `pre` are annotated. */
  predicate RecordedAnnotated(rs: seq<Run>, start: map<Run, Option<seq<Prop>>>, pre: map<Run, Option<seq<Prop>>>, fontName: string)
  {
    forall r :: r in rs ==> r in start && r in pre && pre[r] == Annotate(start[r], r.text, fontName)
  }

  /** Taking a snapshot records the current state. */
  lemma Record(all: seq<Run>, done: seq<Run>, start: map<Run, Option<seq<Prop>>>, pre: map<Run, Option<seq<Prop>>>, fontName: string)
    requires Between(all, start, fontName) && AnnotatedFrom(done, start, fontName)
    requires pre == Snapshot(all) && done <= all
    ensures RecordedBetween(all, start, pre, fontName) && RecordedAnnotated(done, start, pre, fontName)
  {
    PrefixWithin(done, all);
  }

  /** The step annotated `chunk` relative to the state recorded in `pre` and touched no other run of `all`. */
  predicate StepTaken(all: seq<Run>, chunk: seq<Run>, pre: map<Run, Option<seq<Prop>>>, fontName: string)
    reads all
  {
    forall r :: r in all ==> r in pre && r.rPr == if r in chunk then Annotate(pre[r], r.text, fontName) else pre[r]
  }

  /**
   * If the runs visited so far were annotated relative to `start` when `pre` was
   * recorded, and the step annotates its chunk relative to `pre` and touches no other
   * run of `all`, then the runs visited so far, chunk included, are annotated relative
   * to `start`: a second visit to a run changes nothing.
   */
  lemma ChunkPreserves(all: seq<Run>, done: seq<Run>, chunk: seq<Run>, start: map<Run, Option<seq<Prop>>>, pre: map<Run, Option<seq<Prop>>>, fontName: string)
    requires RecordedBetween(all, start, pre, fontName) && RecordedAnnotated(done, start, pre, fontName)
    requires done + chunk <= all
    requires StepTaken(all, chunk, pre, fontName)
    ensures Between(all, start, fontName)
    ensures AnnotatedFrom(done + chunk, start, fontName)
  {
    PrefixWithin(done + chunk, all);
    forall r | r in all
      ensures r in start && (r.rPr == start[r] || r.rPr == Annotate(start[r], r.text, fontName))
      ensures r in done + chunk ==> r.rPr == Annotate(start[r], r.text, fontName)
    {
      AnnotateIdempotent(start[r], r.text, fontName);
    }
  }
}
