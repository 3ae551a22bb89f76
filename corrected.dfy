/**
 * A corrected fitting driver, for comparison with `render_doc` as written.
 *
 * It differs from the source in three ways, each the evident intent of the
 * code: the text is rendered without rewriting the Lines (each newline gets
 * exactly its Nest depth of spaces however often the tree is rendered); empty
 * text is zero columns wide instead of making `max` fail; and once no flat
 * Group is left and one more pass has turned their Lines into newlines, the
 * driver returns its best effort instead of recursing forever. The pass itself
 * (`AdvanceGroups`) is the source's.
 */
module Corrected {
  import opened Lines
  import opened Documents
  import opened Traversal
  import opened Rendering
  import opened Fitting

  /** The text, whether it fits, and the state it was rendered from. */
  datatype Fitted = Fitted(text: string, fits: bool, after: State)

  /**
   * Fit `d` to `limit`. `lastPass` is set once a pass found no flat Group left:
   * that pass broke the last Lines, so nothing further can change.
   */
  function RenderToWidth(d: Doc, limit: int, st: State, lastPass: bool): (r: Fitted)
    requires WellFormed(d) && Covers(d, st)
    ensures SameKeys(r.after, st)
    decreases FlatGroups(d, st.flat), if lastPass then 0 else 1
  {
    var text := Layout(d, st.chars, 0);
    if Width(text) <= limit then Fitted(text, true, st)
    else if lastPass then Fitted(text, false, st)
    else
      var next := AdvanceGroups(d, st);
      AdvanceProgress(d, st);
      RenderToWidth(d, limit, next, FlatGroups(d, st.flat) == {})
  }

  /**
   * The result says truthfully whether it fits, and it is the text of the
   * state it leaves behind.
   */
  lemma {:induction false} RenderToWidthFits(d: Doc, limit: int, st: State, lastPass: bool)
    requires WellFormed(d) && Covers(d, st)
    ensures var r := RenderToWidth(d, limit, st, lastPass);
      (r.fits <==> Width(r.text) <= limit) && r.text == Layout(d, r.after.chars, 0)
    decreases FlatGroups(d, st.flat), if lastPass then 0 else 1
  {
    var text := Layout(d, st.chars, 0);
    if Width(text) > limit && !lastPass {
      AdvanceProgress(d, st);
      RenderToWidthFits(d, limit, AdvanceGroups(d, st), FlatGroups(d, st.flat) == {});
    }
  }

  /** If the text fits as it stands, it is returned and nothing changes. */
  lemma RenderToWidthFlatFits(d: Doc, limit: int, st: State)
    requires WellFormed(d) && Covers(d, st) && Width(Layout(d, st.chars, 0)) <= limit
    ensures RenderToWidth(d, limit, st, false) == Fitted(Layout(d, st.chars, 0), true, st)
  {
  }

  /** Every Group is non-flat and every Line inside a Group is "\n". */
  predicate FullyBroken(d: Doc, st: State)
    requires Covers(d, st)
  {
    FlatGroups(d, st.flat) == {}
    && forall l :: l in LineIds(d) && Enclosing(d, l) != {} ==> st.chars[l] == "\n"
  }

  /** After the pass that finds no flat Group, everything breakable is broken. */
  lemma LastPassBreaksAll(d: Doc, st: State)
    requires WellFormed(d) && Covers(d, st) && FlatGroups(d, st.flat) == {}
    ensures FullyBroken(d, AdvanceGroups(d, st))
  {
    AdvanceEffect(d, st);
    AdvanceProgress(d, st);
    var next := AdvanceGroups(d, st);
    forall l | l in LineIds(d) && Enclosing(d, l) != {} ensures next.chars[l] == "\n" {
      OpenedExact(d, st.flat, l);
      assert forall g :: g in Enclosing(d, l) ==> g in GroupIds(d) && !st.flat[g];
    }
  }

  /**
   * The floor: the driver gives up only when every Group is non-flat and every
   * Line inside a Group is already a newline.
   */
  lemma {:induction false} RenderToWidthFloor(d: Doc, limit: int, st: State)
    requires WellFormed(d) && Covers(d, st)
    ensures var r := RenderToWidth(d, limit, st, false);
      !r.fits ==> FullyBroken(d, r.after)
    decreases FlatGroups(d, st.flat)
  {
    var text := Layout(d, st.chars, 0);
    if Width(text) > limit {
      AdvanceProgress(d, st);
      var next := AdvanceGroups(d, st);
      if FlatGroups(d, st.flat) == {} {
        LastPassBreaksAll(d, st);
      } else {
        RenderToWidthFloor(d, limit, next);
      }
    }
  }

  /** On a fully broken tree a pass changes nothing. */
  lemma AdvanceFullyBroken(d: Doc, st: State)
    requires WellFormed(d) && Covers(d, st) && FullyBroken(d, st)
    ensures AdvanceGroups(d, st) == st
  {
    AdvanceEffect(d, st);
    AdvanceProgress(d, st);
    forall l | l in Opened(d, st.flat) ensures st.chars[l] == "\n" {
      OpenedExact(d, st.flat, l);
    }
    assert SetAll(st.chars, Opened(d, st.flat), "\n") == st.chars;
  }

  /**
   * Running the corrected driver again on the tree it leaves behind gives the
   * same text and the same verdict.
   */
  lemma RenderToWidthIdempotent(d: Doc, limit: int, st: State)
    requires WellFormed(d) && Covers(d, st)
    ensures var r := RenderToWidth(d, limit, st, false);
      RenderToWidth(d, limit, r.after, false) == r
  {
    var r := RenderToWidth(d, limit, st, false);
    RenderToWidthFits(d, limit, st, false);
    if !r.fits {
      RenderToWidthFloor(d, limit, st);
      AdvanceFullyBroken(d, r.after);
      AdvanceProgress(d, r.after);
      assert RenderToWidth(d, limit, r.after, false) == RenderToWidth(d, limit, r.after, true);
    }
  }

  /** A tree without a Line renders the same text whatever the limit. */
  lemma LineFreeInvariance(d: Doc, limit1: int, limit2: int, st: State)
    requires WellFormed(d) && Covers(d, st) && LineIds(d) == {}
    ensures RenderToWidth(d, limit1, st, false).text == RenderToWidth(d, limit2, st, false).text
  {
    var r1 := RenderToWidth(d, limit1, st, false);
    var r2 := RenderToWidth(d, limit2, st, false);
    RenderToWidthFits(d, limit1, st, false);
    RenderToWidthFits(d, limit2, st, false);
    LayoutFrame(d, r1.after.chars, r2.after.chars, 0);
  }

  // ---------------------------------------------------------------------------
  // `render_doc` as written, started on a freshly built tree, agrees with the
  // corrected driver wherever it returns.

  /**
   * Every Line is " " or "\n", and a Line is "\n" only where a pass from the
   * root opens it: the state of a fresh tree, kept by every pass.
   */
  predicate Clean(d: Doc, st: State)
    requires Covers(d, st)
  {
    forall l :: l in LineIds(d) ==>
      st.chars[l] == " " || (st.chars[l] == "\n" && l in Opened(d, st.flat))
  }

  /** The state of a tree just built: `Line()` renders " ", `Group(x)` is flat. */
  function Fresh(d: Doc): (st: State)
    ensures Covers(d, st) && Clean(d, st)
  {
    State(map l | l in LineIds(d) :: " ", map g | g in GroupIds(d) :: true)
  }

  lemma {:induction false} LayoutNonEmpty(d: Doc, m: map<nat, string>, k: nat)
    requires LineIds(d) <= m.Keys && LineIds(d) != {}
    requires forall l :: l in LineIds(d) ==> m[l] != []
    ensures Layout(d, m, k) != []
  {
    match d
    case Line(_) =>
    case Cons(a, b) =>
      if LineIds(a) != {} {
        LayoutNonEmpty(a, m, k);
      } else {
        LayoutNonEmpty(b, m, k);
      }
    case Nest(level, c) =>
      LayoutNonEmpty(c, m, k + Pad(level));
    case Group(_, c) =>
      LayoutNonEmpty(c, m, k);
  }

  /** Fewer flat Groups open at least the same Lines. */
  lemma OpenedGrows(d: Doc, f1: map<nat, bool>, f2: map<nat, bool>)
    requires WellFormed(d) && GroupIds(d) <= f1.Keys && GroupIds(d) <= f2.Keys
    requires forall g :: g in GroupIds(d) && f2[g] ==> f1[g]
    ensures Opened(d, f1) <= Opened(d, f2)
  {
    forall l | l in Opened(d, f1) ensures l in Opened(d, f2) {
      OpenedExact(d, f1, l);
      OpenedExact(d, f2, l);
    }
  }

  /** The indentation a render leaves on a clean state sits only on Lines a pass opens. */
  lemma IndentationWiped(d: Doc, st: State)
    requires WellFormed(d) && Covers(d, st) && Clean(d, st)
    ensures var opening := Opened(d, st.flat);
      SetAll(Indented(d, st.chars, 0), opening, "\n") == SetAll(st.chars, opening, "\n")
  {
    var opening := Opened(d, st.flat);
    var ind := Indented(d, st.chars, 0);
    forall l | l in st.chars && l !in opening
      ensures ind[l] == st.chars[l]
    {
      IndentedUnopened(d, st, l);
    }
    SetAllAgree(ind, st.chars, opening, "\n");
  }

  /** On a clean state a render leaves a Line no pass opens as it was. */
  lemma IndentedUnopened(d: Doc, st: State, l: nat)
    requires WellFormed(d) && Covers(d, st) && Clean(d, st)
    requires l in st.chars && l !in Opened(d, st.flat)
    ensures Indented(d, st.chars, 0)[l] == st.chars[l]
  {
    IndentedAt(d, st.chars, 0, l);
    if l in LineIds(d) {
      assert st.chars[l] == " ";
      assert Shift(" ", Depth(d, l)) == " ";
    }
  }

  /** Two maps that differ only on `ids` are equal once `ids` are all set. */
  lemma SetAllAgree<V>(m1: map<nat, V>, m2: map<nat, V>, ids: set<nat>, v: V)
    requires m1.Keys == m2.Keys
    requires forall k :: k in m1 && k !in ids ==> m1[k] == m2[k]
    ensures SetAll(m1, ids, v) == SetAll(m2, ids, v)
  {
  }

  /**
   * On a clean state the render as written gives the corrected text, and the
   * indentation it leaves behind is wiped by the next pass.
   */
  lemma CleanRender(d: Doc, st: State)
    requires WellFormed(d) && Covers(d, st) && Clean(d, st)
    ensures Render(d, st).text == Layout(d, st.chars, 0)
    ensures LineIds(d) != {} ==> Layout(d, st.chars, 0) != []
    ensures AdvanceGroups(d, Render(d, st).after) == AdvanceGroups(d, st)
  {
    RenderIsLayout(d, st);
    if LineIds(d) != {} {
      LayoutNonEmpty(d, st.chars, 0);
    }
    var after := st.(chars := Indented(d, st.chars, 0));
    AdvanceEffect(d, st);
    AdvanceEffect(d, after);
    IndentationWiped(d, st);
  }

  /** A pass keeps a clean state clean. */
  lemma CleanAdvance(d: Doc, st: State)
    requires WellFormed(d) && Covers(d, st) && Clean(d, st)
    ensures Clean(d, AdvanceGroups(d, st))
  {
    AdvanceEffect(d, st);
    var next := AdvanceGroups(d, st);
    OpenedGrows(d, st.flat, next.flat);
    forall l | l in LineIds(d)
      ensures next.chars[l] == " " || (next.chars[l] == "\n" && l in Opened(d, next.flat))
    {
    }
  }

  /** On a clean state whose text fits, `render_doc` returns that text at once. */
  lemma RenderDocCleanFits(d: Doc, limit: int, st: State, fuel: nat)
    requires WellFormed(d) && Covers(d, st) && Clean(d, st) && LineIds(d) != {} && fuel > 0
    requires Width(Layout(d, st.chars, 0)) <= limit
    ensures RenderDoc(d, limit, st, fuel).outcome == Fits(Layout(d, st.chars, 0))
  {
    CleanRender(d, st);
  }

  /** On a clean state whose text is too wide, `render_doc` recurses on the next pass. */
  lemma RenderDocCleanStep(d: Doc, limit: int, st: State, fuel: nat, rest: nat)
    requires WellFormed(d) && Covers(d, st) && Clean(d, st) && LineIds(d) != {} && fuel == rest + 1
    requires Width(Layout(d, st.chars, 0)) > limit
    ensures RenderDoc(d, limit, st, fuel) == RenderDoc(d, limit, AdvanceGroups(d, st), rest)
  {
    CleanRender(d, st);
    var rendered := Render(d, st);
    RenderDocStep(d, limit, st, rendered, Width(rendered.text), fuel, rest);
  }

  /** A pass over a too-wide text moves the corrected driver to the next state. */
  lemma RenderToWidthStep(d: Doc, limit: int, st: State)
    requires WellFormed(d) && Covers(d, st) && Width(Layout(d, st.chars, 0)) > limit
    ensures RenderToWidth(d, limit, st, false)
            == RenderToWidth(d, limit, AdvanceGroups(d, st), FlatGroups(d, st.flat) == {})
  {
  }

  /** A pass that removes some flat Group lowers their count by at least one. */
  lemma FewerFlat(d: Doc, st: State)
    requires WellFormed(d) && Covers(d, st) && FlatGroups(d, st.flat) != {}
    ensures |FlatGroups(d, AdvanceGroups(d, st).flat)| < |FlatGroups(d, st.flat)|
  {
    AdvanceProgress(d, st);
    var before := FlatGroups(d, st.flat);
    var after := FlatGroups(d, AdvanceGroups(d, st).flat);
    var gone := before - after;
    assert gone != {};
    assert before == after + gone;
  }

  /** From a fully broken, clean, over-width tree, `render_doc` never returns. */
  lemma {:induction false} RenderDocStuck(d: Doc, limit: int, st: State, fuel: nat)
    requires WellFormed(d) && Covers(d, st) && Clean(d, st) && FullyBroken(d, st) && LineIds(d) != {}
    requires Width(Layout(d, st.chars, 0)) > limit
    ensures RenderDoc(d, limit, st, fuel).outcome == Exhausted
    decreases fuel
  {
    if fuel > 0 {
      var rest: nat := fuel - 1;
      RenderDocCleanStep(d, limit, st, fuel, rest);
      AdvanceFullyBroken(d, st);
      RenderDocStuck(d, limit, st, rest);
    }
  }

  /**
   * `out` is what `render_doc` returned with `fuel` calls, `r` what the corrected
   * driver returned: either the calls ran out or both give the same fitting
   * text, and with `fuel >= bound` the calls do not run out when `r` fits.
   */
  predicate Agrees(r: Fitted, out: Outcome, fuel: nat, bound: nat)
  {
    && (out == Exhausted || (r.fits && out == Fits(r.text)))
    && (r.fits && fuel >= bound ==> out.Fits?)
  }

  /** Calls `render_doc` needs at most, from a clean state, to reach the fitting text. */
  function CallsNeeded(d: Doc, st: State, lastPass: bool): nat
    requires Covers(d, st)
  {
    |FlatGroups(d, st.flat)| + if lastPass then 1 else 2
  }

  /**
   * Started on a clean state, `render_doc` either runs out of calls or returns
   * the corrected driver's text, which then fits; with one call per flat Group
   * plus two it does not run out when the corrected driver fits.
   */
  lemma {:induction false} RenderDocAgrees(d: Doc, limit: int, st: State, lastPass: bool, fuel: nat)
    requires WellFormed(d) && Covers(d, st) && Clean(d, st) && LineIds(d) != {}
    requires lastPass ==> FullyBroken(d, st)
    ensures Agrees(RenderToWidth(d, limit, st, lastPass), RenderDoc(d, limit, st, fuel).outcome,
                   fuel, CallsNeeded(d, st, lastPass))
    decreases fuel
  {
    if fuel > 0 && Width(Layout(d, st.chars, 0)) > limit && !lastPass {
      var next := AdvanceGroups(d, st);
      var lp := FlatGroups(d, st.flat) == {};
      var rest: nat := fuel - 1;
      PassFacts(d, st, next, lp);
      RenderDocCleanStep(d, limit, st, fuel, rest);
      RenderToWidthStep(d, limit, st);
      RenderDocAgrees(d, limit, next, lp, rest);
      AgreesOneMore(RenderToWidth(d, limit, next, lp), RenderDoc(d, limit, next, rest).outcome,
                    fuel, rest, CallsNeeded(d, next, lp), CallsNeeded(d, st, false));
    } else {
      AgreesAtOnce(d, limit, st, lastPass, fuel);
    }
  }

  /** The calls that make no pass: out of calls, fitting, or stuck for good. */
  lemma AgreesAtOnce(d: Doc, limit: int, st: State, lastPass: bool, fuel: nat)
    requires WellFormed(d) && Covers(d, st) && Clean(d, st) && LineIds(d) != {}
    requires lastPass ==> FullyBroken(d, st)
    requires fuel == 0 || Width(Layout(d, st.chars, 0)) <= limit || lastPass
    ensures Agrees(RenderToWidth(d, limit, st, lastPass), RenderDoc(d, limit, st, fuel).outcome,
                   fuel, CallsNeeded(d, st, lastPass))
  {
    if fuel > 0 {
      if Width(Layout(d, st.chars, 0)) <= limit {
        RenderDocCleanFits(d, limit, st, fuel);
      } else {
        RenderDocStuck(d, limit, st, fuel);
      }
    }
  }

  /**
   * What one too-wide call on a clean state hands on to the next call: the
   * state after the pass (`next`), whether it is the last pass (`lp`), and
   * one call fewer (`rest`).
   */
  lemma PassFacts(d: Doc, st: State, next: State, lp: bool)
    requires WellFormed(d) && Covers(d, st) && Clean(d, st)
    requires next == AdvanceGroups(d, st) && lp == (FlatGroups(d, st.flat) == {})
    ensures Covers(d, next) && Clean(d, next) && (lp ==> FullyBroken(d, next))
    ensures CallsNeeded(d, next, lp) < CallsNeeded(d, st, false)
  {
    CleanAdvance(d, st);
    if lp {
      LastPassBreaksAll(d, st);
    } else {
      FewerFlat(d, st);
    }
  }

  /** One more call, for a bound one higher, keeps the agreement. */
  lemma AgreesOneMore(r: Fitted, out: Outcome, fuel: nat, rest: nat, inner: nat, bound: nat)
    requires fuel == rest + 1 && inner < bound && Agrees(r, out, rest, inner)
    ensures Agrees(r, out, fuel, bound)
  {
  }

  /**
   * `render_doc` on a freshly built tree returns text only where the corrected
   * driver fits, and then the same text; given one call per Group plus two it
   * does return it; where the corrected driver has to give up, `render_doc`
   * never returns.
   */
  lemma RenderDocFromFresh(d: Doc, limit: int, fuel: nat)
    requires WellFormed(d) && LineIds(d) != {}
    ensures var r := RenderToWidth(d, limit, Fresh(d), false);
      var out := RenderDoc(d, limit, Fresh(d), fuel).outcome;
      && (out == Exhausted || (r.fits && out == Fits(r.text)))
      && (r.fits && fuel >= |GroupIds(d)| + 2 ==> out == Fits(r.text))
      && (!r.fits ==> out == Exhausted)
  {
    var st := Fresh(d);
    assert FlatGroups(d, st.flat) == GroupIds(d);
    RenderDocAgrees(d, limit, st, false, fuel);
  }
}
