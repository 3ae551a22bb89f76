/**
 * Small documents worked through the model: how `render_doc` breaks a Group,
 * and the inputs on which the program as written misbehaves.
 */
module Scenarios {
  import opened Lines
  import opened Documents
  import opened Traversal
  import opened Rendering
  import opened Fitting
  import opened Corrected

  /** `String(a) * Line() * String("b")`, built left to right as `*` does, the Line with id 1. */
  function Body(a: string): (d: Doc)
    ensures WellFormed(d) && LineIds(d) == {1} && GroupIds(d) == {}
  {
    var front := Cons(String(a), Line(1));
    var tail := String("b");
    assert Ids(String(a)) == {} && Ids(Line(1)) == {1};
    assert LineIds(front) == {1} && GroupIds(front) == {} && WellFormed(front);
    assert LineIds(tail) == {} && GroupIds(tail) == {} && WellFormed(tail);
    Cons(front, tail)
  }

  /** `Group(String("a") * Line() * String("b"))`. */
  function Pair(): Doc
  {
    Group(0, Body("a"))
  }

  /** `Group(Nest(1, String("aa") * Line() * String("b")))`. */
  function Indenting(): Doc
  {
    Group(0, Nest(1, Body("aa")))
  }

  /** The state of the two example trees: Line 1 renders `c`, Group 0 has flag `f`. */
  function Holding(c: string, f: bool): State
  {
    State(map[1 := c], map[0 := f])
  }

  lemma FreshHolding(d: Doc)
    requires LineIds(d) == {1} && GroupIds(d) == {0}
    ensures Fresh(d) == Holding(" ", true)
  {
    var st := Fresh(d);
    assert st.chars.Keys == {1} && st.flat.Keys == {0};
    assert st.chars == map[1 := " "];
    assert st.flat == map[0 := true];
  }

  lemma PairShape()
    ensures WellFormed(Pair()) && LineIds(Pair()) == {1} && GroupIds(Pair()) == {0}
    ensures Depth(Pair(), 1) == 0
  {
  }

  lemma IndentingShape()
    ensures WellFormed(Indenting()) && LineIds(Indenting()) == {1} && GroupIds(Indenting()) == {0}
    ensures Depth(Indenting(), 1) == 1
  {
  }

  /** `String(a) * Line() * String("b")` with Line 1 holding `c`, indented by `k`. */
  lemma BodyLayout(a: string, c: string, f: bool, k: nat)
    ensures Layout(Body(a), Holding(c, f).chars, k) == a + Shift(c, k) + "b"
  {
    var m := Holding(c, f).chars;
    var front := Cons(String(a), Line(1));
    assert Body(a) == Cons(front, String("b"));
    assert Layout(front, m, k) == a + Shift(c, k);
  }

  lemma PairLayout(c: string, f: bool)
    ensures Covers(Pair(), Holding(c, f))
    ensures Layout(Pair(), Holding(c, f).chars, 0) == "a" + Shift(c, 0) + "b"
  {
    BodyLayout("a", c, f, 0);
  }

  lemma IndentingLayout(c: string, f: bool)
    ensures Covers(Indenting(), Holding(c, f))
    ensures Layout(Indenting(), Holding(c, f).chars, 0) == "aa" + Shift(c, 1) + "b"
  {
    var m := Holding(c, f).chars;
    var body := Body("aa");
    BodyLayout("aa", c, f, 1);
    assert Layout(Nest(1, body), m, 0) == Layout(body, m, 1);
  }

  /**
   * A pass over `Group(body)` with one Line and no inner Group: a flat Group
   * turns non-flat, a non-flat one breaks its Line.
   */
  lemma OneGroupAdvance(body: Doc, c: string, f: bool)
    requires WellFormed(Group(0, body)) && LineIds(body) == {1} && GroupIds(body) == {}
    requires DirectLines(body) == {1}
    ensures Covers(Group(0, body), Holding(c, f))
    ensures AdvanceGroups(Group(0, body), Holding(c, f))
            == if f then Holding(c, false) else Holding("\n", false)
  {
    var d := Group(0, body);
    var st := Holding(c, f);
    AdvanceEffect(d, st);
    OneGroupSets(body, f);
    HoldingAfterPass(c, f);
  }

  /** The Group is the frontier while flat; once non-flat, its Line is opened. */
  lemma OneGroupSets(body: Doc, f: bool)
    requires WellFormed(Group(0, body)) && LineIds(body) == {1} && GroupIds(body) == {}
    requires DirectLines(body) == {1}
    ensures Frontier(Group(0, body), map[0 := f]) == if f then {0} else {}
    ensures Opened(Group(0, body), map[0 := f]) == if f then {} else {1}
  {
  }

  lemma HoldingAfterPass(c: string, f: bool)
    ensures SetAll(Holding(c, f).chars, if f then {} else {1}, "\n") == (if f then Holding(c, false) else Holding("\n", false)).chars
    ensures SetAll(Holding(c, f).flat, if f then {0} else {}, false) == map[0 := false]
  {
    var chars := SetAll(Holding(c, f).chars, if f then {} else {1}, "\n");
    assert chars.Keys == {1} && chars[1] == (if f then c else "\n");
  }

  /** Rendering a tree with one Line leaves that Line indented by its depth. */
  lemma OneLineRender(d: Doc, c: string, f: bool)
    requires WellFormed(d) && LineIds(d) == {1} && GroupIds(d) == {0}
    ensures Covers(d, Holding(c, f))
    ensures Render(d, Holding(c, f))
            == Output(Layout(d, Holding(c, f).chars, 0), Holding(Shift(c, Depth(d, 1)), f))
  {
    var st := Holding(c, f);
    RenderIsLayout(d, st);
    var m := Indented(d, st.chars, 0);
    IndentedLine(d, st.chars, 0, 1, Depth(d, 1));
    assert m.Keys == {1} && m[1] == Shift(c, Depth(d, 1));
    assert m == map[1 := Shift(c, Depth(d, 1))];
  }

  lemma PairAdvance(c: string, f: bool)
    ensures Covers(Pair(), Holding(c, f))
    ensures AdvanceGroups(Pair(), Holding(c, f)) == if f then Holding(c, false) else Holding("\n", false)
  {
    PairShape();
    OneGroupAdvance(Body("a"), c, f);
  }

  lemma IndentingAdvance(c: string, f: bool)
    ensures Covers(Indenting(), Holding(c, f))
    ensures AdvanceGroups(Indenting(), Holding(c, f)) == if f then Holding(c, false) else Holding("\n", false)
  {
    var inner := Body("aa");
    assert DirectLines(inner) == {1};
    OneGroupAdvance(Nest(1, inner), c, f);
  }

  /** With room to spare the Group stays flat: "a b". */
  lemma PairFitsFlat(fuel: nat)
    requires fuel >= 3
    ensures RenderDoc(Pair(), 10, Fresh(Pair()), fuel).outcome == Fits("a b")
  {
    PairShape();
    FreshHolding(Pair());
    PairFlatLayout(true);
    PairFlatWidth();
    RenderToWidthFlatFits(Pair(), 10, Fresh(Pair()));
    RenderDocFromFresh(Pair(), 10, fuel);
  }

  /** One column wide, "a b" is too wide and the corrected driver makes a pass. */
  lemma PairTooWide(f: bool)
    ensures RenderToWidth(Pair(), 1, Holding(" ", f), false)
            == RenderToWidth(Pair(), 1, AdvanceGroups(Pair(), Holding(" ", f)), !f)
  {
    PairFlatLayout(f);
    PairFlatWidth();
    var fg := FlatGroups(Pair(), Holding(" ", f).flat);
    assert fg == if f then {0} else {};
    RenderToWidthStep(Pair(), 1, Holding(" ", f));
  }

  /** With its Line broken, "a\nb" fits one column. */
  lemma PairBroken()
    ensures RenderToWidth(Pair(), 1, Holding("\n", false), true) == Fitted("a\nb", true, Holding("\n", false))
  {
    PairBrokenLayout();
    PairBrokenWidth();
  }

  lemma PairFlatLayout(f: bool)
    ensures Covers(Pair(), Holding(" ", f))
    ensures Layout(Pair(), Holding(" ", f).chars, 0) == "a b"
  {
    PairLayout(" ", f);
    assert Shift(" ", 0) == " ";
    assert "a" + " " + "b" == "a b";
  }

  lemma PairFlatWidth()
    ensures Width("a b") == 3
  {
    WidthOfLine("a b");
  }

  lemma PairBrokenLayout()
    ensures Covers(Pair(), Holding("\n", false))
    ensures Layout(Pair(), Holding("\n", false).chars, 0) == "a\nb"
  {
    PairLayout("\n", false);
    assert Shift("\n", 0) == "\n" by {
      assert "\n"[1..] == [] && Spaces(0) == "";
    }
    assert "a" + "\n" + "b" == "a\nb";
  }

  lemma PairBrokenWidth()
    ensures Width("a\nb") == 1
  {
    assert "a" + "\n" + "b" == "a\nb";
    WidthOfTwoLines("a", "b");
  }

  /** One column wide, the corrected driver needs two passes. */
  lemma PairBreaksCorrected()
    ensures RenderToWidth(Pair(), 1, Holding(" ", true), false) == Fitted("a\nb", true, Holding("\n", false))
  {
    PairTooWide(true);
    PairAdvance(" ", true);
    PairTooWide(false);
    PairAdvance(" ", false);
    PairBroken();
  }

  /**
   * One column wide, the first pass only marks the Group non-flat and the
   * second breaks its Line: "a\nb".
   */
  lemma PairBreaks(fuel: nat)
    requires fuel >= 3
    ensures RenderDoc(Pair(), 1, Fresh(Pair()), fuel).outcome == Fits("a\nb")
  {
    PairShape();
    FreshHolding(Pair());
    PairBreaksCorrected();
    RenderDocFromFresh(Pair(), 1, fuel);
  }

  /** `render_doc(String(""), limit)` reaches `max([])`, which raises. */
  lemma EmptyTextRaises(limit: int, st: State, fuel: nat)
    requires fuel > 0
    ensures RenderDoc(String(""), limit, st, fuel).outcome == EmptyRendering
  {
  }

  /**
   * A text with no Line that is wider than the limit: `render_doc` recurses
   * until the interpreter's recursion limit, whatever that limit is.
   */
  lemma UnbreakableNeverReturns(fuel: nat)
    ensures RenderDoc(String("abcd"), 3, State(map[], map[]), fuel).outcome == Exhausted
  {
    WidthOfLine("abcd");
    RenderDocWithoutLines(String("abcd"), 3, State(map[], map[]), fuel);
  }

  /** The corrected driver returns that text, marked as not fitting. */
  lemma UnbreakableBestEffort()
    ensures RenderToWidth(String("abcd"), 3, State(map[], map[]), false)
            == Fitted("abcd", false, State(map[], map[]))
  {
    var d := String("abcd");
    var st := State(map[], map[]);
    WidthOfLine("abcd");
    AdvanceEffect(d, st);
    assert AdvanceGroups(d, st) == st;
    RenderToWidthStep(d, 3, st);
  }

  /** One call of `render_doc(doc, 3)` on `Indenting()` from `Holding(c, f)`. */
  lemma IndentingStep(c: string, f: bool, fuel: nat, text: string)
    requires fuel > 0 && text == "aa" + Shift(c, 1) + "b"
    ensures Covers(Indenting(), Holding(c, f))
    ensures RenderDoc(Indenting(), 3, Holding(c, f), fuel)
      == if Width(text) <= 3 then Run(Fits(text), Holding(Shift(c, 1), f))
         else RenderDoc(Indenting(), 3, AdvanceGroups(Indenting(), Holding(Shift(c, 1), f)), fuel - 1)
  {
    IndentingShape();
    IndentingLayout(c, f);
    OneLineRender(Indenting(), c, f);
    assert "aa" + Shift(c, 1) + "b" != [];
  }

  /** While Line 1 renders " ", "aa b" is too wide and a pass follows. */
  lemma IndentingTooWide(f: bool, fuel: nat)
    requires fuel > 0
    ensures RenderDoc(Indenting(), 3, Holding(" ", f), fuel)
            == RenderDoc(Indenting(), 3, AdvanceGroups(Indenting(), Holding(" ", f)), fuel - 1)
  {
    assert Shift(" ", 1) == " ";
    assert "aa" + " " + "b" == "aa b";
    IndentingStep(" ", f, fuel, "aa b");
    WidthOfLine("aa b");
  }

  /** Once Line 1 renders "\n", the Nest shifts it to "\n " and "aa\n b" fits. */
  lemma IndentingBroken(fuel: nat)
    requires fuel > 0
    ensures RenderDoc(Indenting(), 3, Holding("\n", false), fuel) == Run(Fits("aa\n b"), Holding("\n ", false))
  {
    assert Shift("\n", 1) == "\n " by {
      assert "\n"[1..] == [] && Spaces(1) == " ";
    }
    assert "aa" + "\n " + "b" == "aa\n b";
    BrokenWidth();
    IndentingStep("\n", false, fuel, "aa\n b");
  }

  lemma BrokenWidth()
    ensures Width("aa\n b") == 2
  {
    assert "aa" + "\n" + " b" == "aa\n b";
    WidthOfTwoLines("aa", " b");
  }

  /** The first `render_doc(doc, 3)` on a fresh tree: "aa\n b", Line left as "\n ". */
  lemma IndentingFirstCall()
    ensures RenderDoc(Indenting(), 3, Fresh(Indenting()), 3) == Run(Fits("aa\n b"), Holding("\n ", false))
  {
    FreshHolding(Indenting());
    IndentingTooWide(true, 3);
    IndentingAdvance(" ", true);
    IndentingTooWide(false, 2);
    IndentingAdvance(" ", false);
    IndentingBroken(1);
  }

  /** Starting from the "\n " the first call left, the Nest shifts Line 1 again. */
  lemma IndentingRebroken()
    ensures RenderDoc(Indenting(), 3, Holding("\n ", false), 3).outcome == Fits("aa\n  b")
  {
    assert Shift("\n ", 1) == "\n  " by {
      assert "\n "[1..] == " " && Spaces(1) == " ";
    }
    assert "aa" + "\n  " + "b" == "aa\n  b";
    RebrokenWidth();
    IndentingStep("\n ", false, 3, "aa\n  b");
  }

  lemma RebrokenWidth()
    ensures Width("aa\n  b") == 3
  {
    assert "aa" + "\n" + "  b" == "aa\n  b";
    WidthOfTwoLines("aa", "  b");
  }

  /**
   * A second `render_doc(doc, 3)` on the same tree indents the broken Line once
   * more: "aa\n  b" instead of "aa\n b".
   */
  lemma IndentingSecondCallDiffers()
    ensures RenderDoc(Indenting(), 3, RenderDoc(Indenting(), 3, Fresh(Indenting()), 3).after, 3).outcome
            == Fits("aa\n  b")
  {
    IndentingFirstCall();
    IndentingRebroken();
  }

  /** The corrected driver gives the same text on every call. */
  lemma IndentingCorrectedStable()
    ensures var r := RenderToWidth(Indenting(), 3, Fresh(Indenting()), false);
      r.fits && r.text == "aa\n b" && RenderToWidth(Indenting(), 3, r.after, false) == r
  {
    var d := Indenting();
    IndentingShape();
    FreshHolding(d);
    RenderDocFromFresh(d, 3, 3);
    IndentingFirstCall();
    RenderToWidthIdempotent(d, 3, Fresh(d));
  }
}
