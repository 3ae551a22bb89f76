/**
 * The fitting driver: `make_line_newline`, `make_next_group_not_flat` and
 * `render_doc`.
 *
 * One over-width pass is `doc.breadthfirst(Group, make_next_group_not_flat,
 * Group)` from the root (`AdvanceGroups`). Its effect is described here by three
 * sets computed from the `flat` flags alone: the topmost flat Groups
 * (`Frontier`), which become non-flat, and the Lines below non-flat Groups only
 * (`Opened`), which become "\n".
 */
module Fitting {
  import opened Wrappers
  import opened Lines
  import opened Documents
  import opened Traversal
  import opened Rendering

  /** `m` with every key of `ids` that it holds set to `v`. */
  function SetAll<V>(m: map<nat, V>, ids: set<nat>, v: V): (r: map<nat, V>)
    ensures r.Keys == m.Keys
  {
    map k | k in m :: if k in ids then v else m[k]
  }

  lemma SetAllTwice<V>(m: map<nat, V>, a: set<nat>, b: set<nat>, v: V)
    ensures SetAll(SetAll(m, a, v), b, v) == SetAll(m, a + b, v)
  {
  }

  /** The Lines of `d` that lie below no Group of `d`. */
  function DirectLines(d: Doc): (r: set<nat>)
    ensures r <= LineIds(d)
  {
    match d
    case String(_) => {}
    case Line(id) => {id}
    case Cons(l, r) => DirectLines(l) + DirectLines(r)
    case Nest(_, c) => DirectLines(c)
    case Group(_, _) => {}
  }

  /** The flat Groups of `d` reached through non-flat Groups only. */
  function Frontier(d: Doc, flat: map<nat, bool>): (r: set<nat>)
    requires GroupIds(d) <= flat.Keys
    ensures r <= GroupIds(d)
  {
    match d
    case String(_) => {}
    case Line(_) => {}
    case Cons(l, r) => Frontier(l, flat) + Frontier(r, flat)
    case Nest(_, c) => Frontier(c, flat)
    case Group(id, c) => if flat[id] then {id} else Frontier(c, flat)
  }

  /** The Lines of `d` below at least one Group, and below non-flat Groups only. */
  function Opened(d: Doc, flat: map<nat, bool>): (r: set<nat>)
    requires GroupIds(d) <= flat.Keys
    ensures r <= LineIds(d)
  {
    match d
    case String(_) => {}
    case Line(_) => {}
    case Cons(l, r) => Opened(l, flat) + Opened(r, flat)
    case Nest(_, c) => Opened(c, flat)
    case Group(id, c) => if flat[id] then {} else DirectLines(c) + Opened(c, flat)
  }

  /** `d.breadthfirst(Group, make_next_group_not_flat, Group)`: one over-width pass. */
  function AdvanceGroups(d: Doc, st: State): (r: State)
    requires Covers(d, st)
    ensures SameKeys(r, st)
  {
    AfterVisit(d, GroupKind, MakeNextGroupNotFlat, Some(GroupKind), st)
  }

  /** The Groups of `d` that are still flat. */
  function FlatGroups(d: Doc, flat: map<nat, bool>): (r: set<nat>)
    requires GroupIds(d) <= flat.Keys
    ensures r <= GroupIds(d)
  {
    set g | g in GroupIds(d) && flat[g]
  }

  /**
   * `c.breadthfirst(Line, make_line_newline, Group)` sets exactly the Lines not
   * below a Group to "\n".
   */
  lemma {:induction false} BreakDirectLines(d: Doc, st: State)
    requires Covers(d, st)
    ensures AfterVisit(d, LineKind, MakeLineNewline, Some(GroupKind), st)
            == st.(chars := SetAll(st.chars, DirectLines(d), "\n"))
    decreases Size(d)
  {
    VisitUnfold(d, LineKind, MakeLineNewline, Some(GroupKind), st);
    match d
    case String(_) =>
      assert SetAll(st.chars, {}, "\n") == st.chars;
    case Line(id) =>
      assert SetAll(st.chars, {id}, "\n") == st.chars[id := "\n"];
    case Cons(l, r) =>
      BreakDirectLines(l, st);
      var st1 := AfterVisit(l, LineKind, MakeLineNewline, Some(GroupKind), st);
      BreakDirectLines(r, st1);
      SetAllTwice(st.chars, DirectLines(l), DirectLines(r), "\n");
    case Nest(_, c) =>
      BreakDirectLines(c, st);
    case Group(_, _) =>
      assert SetAll(st.chars, {}, "\n") == st.chars;
  }

  lemma {:induction false} FrontierFrame(d: Doc, f1: map<nat, bool>, f2: map<nat, bool>)
    requires GroupIds(d) <= f1.Keys && GroupIds(d) <= f2.Keys
    requires forall g :: g in GroupIds(d) ==> f1[g] == f2[g]
    ensures Frontier(d, f1) == Frontier(d, f2) && Opened(d, f1) == Opened(d, f2)
  {
    match d
    case String(_) =>
    case Line(_) =>
    case Cons(l, r) =>
      FrontierFrame(l, f1, f2);
      FrontierFrame(r, f1, f2);
    case Nest(_, c) =>
      FrontierFrame(c, f1, f2);
    case Group(_, c) =>
      FrontierFrame(c, f1, f2);
  }

  /**
   * One pass flips the topmost flat Groups to non-flat and sets the Lines below
   * non-flat Groups only to "\n"; no other Line and no other Group changes.
   */
  lemma {:induction false} AdvanceEffect(d: Doc, st: State)
    requires WellFormed(d) && Covers(d, st)
    ensures AdvanceGroups(d, st)
            == State(SetAll(st.chars, Opened(d, st.flat), "\n"), SetAll(st.flat, Frontier(d, st.flat), false))
    decreases Size(d), 1
  {
    var a := MakeNextGroupNotFlat;
    VisitUnfold(d, GroupKind, a, Some(GroupKind), st);
    match d
    case String(_) =>
      assert SetAll(st.chars, {}, "\n") == st.chars;
      assert SetAll(st.flat, {}, false) == st.flat;
    case Line(_) =>
      assert SetAll(st.chars, {}, "\n") == st.chars;
      assert SetAll(st.flat, {}, false) == st.flat;
    case Cons(l, r) =>
      AdvanceEffectCons(l, r, st);
    case Nest(_, c) =>
      AdvanceEffect(c, st);
    case Group(id, c) =>
      AdvanceOneGroup(id, c, st);
  }

  lemma {:induction false} AdvanceEffectCons(l: Doc, r: Doc, st: State)
    requires WellFormed(Cons(l, r)) && Covers(Cons(l, r), st)
    ensures AdvanceGroups(r, AdvanceGroups(l, st))
            == State(SetAll(st.chars, Opened(Cons(l, r), st.flat), "\n"),
                     SetAll(st.flat, Frontier(Cons(l, r), st.flat), false))
    decreases Size(Cons(l, r)), 0
  {
    AdvanceEffect(l, st);
    var st1 := AdvanceGroups(l, st);
    assert st1.flat == SetAll(st.flat, Frontier(l, st.flat), false);
    assert GroupIds(l) !! GroupIds(r);
    forall g | g in GroupIds(r) ensures st1.flat[g] == st.flat[g] {
      assert g !in Frontier(l, st.flat);
    }
    FrontierFrame(r, st1.flat, st.flat);
    AdvanceEffect(r, st1);
    SetAllTwice(st.chars, Opened(l, st.flat), Opened(r, st.flat), "\n");
    SetAllTwice(st.flat, Frontier(l, st.flat), Frontier(r, st.flat), false);
  }

  /**
   * `make_next_group_not_flat` on one Group: a flat Group only becomes
   * non-flat; a non-flat Group sets every Line below it that no other Group
   * encloses to exactly "\n", and advances its nearest nested Groups by the
   * same rule.
   */
  lemma {:induction false} AdvanceOneGroup(id: nat, c: Doc, st: State)
    requires WellFormed(Group(id, c)) && Covers(Group(id, c), st)
    ensures st.flat[id] ==>
      AfterApply(MakeNextGroupNotFlat, Group(id, c), st) == st.(flat := st.flat[id := false])
    ensures !st.flat[id] ==>
      AfterApply(MakeNextGroupNotFlat, Group(id, c), st)
      == State(SetAll(st.chars, DirectLines(c) + Opened(c, st.flat), "\n"), SetAll(st.flat, Frontier(c, st.flat), false))
    ensures AfterApply(MakeNextGroupNotFlat, Group(id, c), st)
            == State(SetAll(st.chars, Opened(Group(id, c), st.flat), "\n"),
                     SetAll(st.flat, Frontier(Group(id, c), st.flat), false))
    decreases Size(Group(id, c)), 0
  {
    if st.flat[id] {
      assert SetAll(st.chars, {}, "\n") == st.chars;
      assert SetAll(st.flat, {id}, false) == st.flat[id := false];
    } else {
      AdvanceEffect(c, st);
      var st1 := AdvanceGroups(c, st);
      BreakDirectLines(c, st1);
      SetAllTwice(st.chars, Opened(c, st.flat), DirectLines(c), "\n");
      assert Opened(c, st.flat) + DirectLines(c) == DirectLines(c) + Opened(c, st.flat);
    }
  }

  // ---------------------------------------------------------------------------
  // Which nodes a pass reaches, stated through the Groups enclosing each node.

  /** None of the Groups `gs` is flat. */
  predicate NoneFlat(gs: set<nat>, flat: map<nat, bool>)
    requires gs <= flat.Keys
  {
    forall g :: g in gs ==> !flat[g]
  }

  /** `make_line_newline` from a Group's child reaches the Lines no inner Group encloses. */
  lemma {:induction false} DirectLinesExact(d: Doc, l: nat)
    requires WellFormed(d)
    ensures l in DirectLines(d) <==> l in LineIds(d) && Enclosing(d, l) == {}
  {
    match d
    case String(_) =>
    case Line(_) =>
    case Cons(a, b) =>
      DirectLinesExact(a, l);
      DirectLinesExact(b, l);
    case Nest(_, c) =>
      DirectLinesExact(c, l);
    case Group(_, c) =>
  }

  /**
   * The pass from the root reaches exactly the topmost flat Groups: the flat
   * Groups all of whose enclosing Groups are already non-flat.
   */
  lemma {:induction false} FrontierExact(d: Doc, flat: map<nat, bool>, g: nat)
    requires WellFormed(d) && GroupIds(d) <= flat.Keys
    ensures g in Frontier(d, flat) <==>
      g in GroupIds(d) && flat[g] && NoneFlat(Enclosing(d, g), flat)
  {
    match d
    case String(_) =>
    case Line(_) =>
    case Cons(a, b) =>
      FrontierExact(a, flat, g);
      FrontierExact(b, flat, g);
    case Nest(_, c) =>
      FrontierExact(c, flat, g);
    case Group(id, c) =>
      FrontierExact(c, flat, g);
  }

  /**
   * The Lines a pass sets to "\n" are exactly those inside at least one Group
   * whose enclosing Groups are all non-flat.
   */
  lemma {:induction false} OpenedExact(d: Doc, flat: map<nat, bool>, l: nat)
    requires WellFormed(d) && GroupIds(d) <= flat.Keys
    ensures l in Opened(d, flat) <==>
      l in LineIds(d) && Enclosing(d, l) != {} && NoneFlat(Enclosing(d, l), flat)
  {
    match d
    case String(_) =>
    case Line(_) =>
    case Cons(a, b) =>
      OpenedExact(a, flat, l);
      OpenedExact(b, flat, l);
    case Nest(_, c) =>
      OpenedExact(c, flat, l);
    case Group(id, c) =>
      OpenedExact(c, flat, l);
      DirectLinesExact(c, l);
  }

  /** While some Group of `d` is flat, a pass from the root reaches one. */
  lemma {:induction false} FrontierReachesFlat(d: Doc, flat: map<nat, bool>)
    requires GroupIds(d) <= flat.Keys
    ensures Frontier(d, flat) <= FlatGroups(d, flat)
    ensures FlatGroups(d, flat) != {} ==> Frontier(d, flat) != {}
  {
    match d
    case String(_) =>
    case Line(_) =>
    case Cons(a, b) =>
      FrontierReachesFlat(a, flat);
      FrontierReachesFlat(b, flat);
      assert FlatGroups(d, flat) == FlatGroups(a, flat) + FlatGroups(b, flat);
    case Nest(_, c) =>
      FrontierReachesFlat(c, flat);
      assert FlatGroups(d, flat) == FlatGroups(c, flat);
    case Group(id, c) =>
      FrontierReachesFlat(c, flat);
      assert FlatGroups(d, flat) == (if flat[id] then {id} else {}) + FlatGroups(c, flat);
  }

  /**
   * Monotonicity and progress of one pass: `flat` only goes from true to false;
   * while a flat Group remains the set of flat Groups strictly shrinks; once
   * none remains the flags stay as they are.
   */
  lemma AdvanceProgress(d: Doc, st: State)
    requires WellFormed(d) && Covers(d, st)
    ensures forall g :: g in st.flat && AdvanceGroups(d, st).flat[g] ==> st.flat[g]
    ensures FlatGroups(d, st.flat) != {} ==>
      FlatGroups(d, AdvanceGroups(d, st).flat) < FlatGroups(d, st.flat)
    ensures FlatGroups(d, st.flat) == {} ==> AdvanceGroups(d, st).flat == st.flat
  {
    AdvanceEffect(d, st);
    FrontierReachesFlat(d, st.flat);
    var next := AdvanceGroups(d, st).flat;
    assert FlatGroups(d, next) == FlatGroups(d, st.flat) - Frontier(d, st.flat);
    if FlatGroups(d, st.flat) == {} {
      assert Frontier(d, st.flat) == {};
      assert SetAll(st.flat, {}, false) == st.flat;
    }
  }

  // ---------------------------------------------------------------------------
  // `render_doc` as written.

  /**
   * How a call of `render_doc` ends: it returns text, `max` raises on an empty
   * rendering, or it is still recursing when the fuel runs out (the source has
   * no other exit, so such a call never returns).
   */
  datatype Outcome = Fits(text: string) | EmptyRendering | Exhausted

  datatype Run = Run(outcome: Outcome, after: State)

  /** `render_doc(doc, limit)`, allowed at most `fuel` nested calls. */
  function RenderDoc(d: Doc, limit: int, st: State, fuel: nat): (r: Run)
    requires Covers(d, st)
    ensures SameKeys(r.after, st)
    decreases fuel, 0
  {
    if fuel == 0 then Run(Exhausted, st)
    else AfterRender(d, limit, Render(d, st), fuel - 1)
  }

  /**
   * The rest of `render_doc` once `rendered` is the render: return it when it
   * fits, otherwise make a pass and call again with `rest` calls left.
   */
  function AfterRender(d: Doc, limit: int, rendered: Output, rest: nat): (r: Run)
    requires Covers(d, rendered.after)
    ensures SameKeys(r.after, rendered.after)
    decreases rest, 1
  {
    match LongestLine(rendered.text)
    case None => Run(EmptyRendering, rendered.after)
    case Some(length) =>
      if length <= limit then Run(Fits(rendered.text), rendered.after)
      else RenderDoc(d, limit, AdvanceGroups(d, rendered.after), rest)
  }

  /** A render that is too wide is followed by a pass and one call fewer. */
  lemma RenderDocStep(d: Doc, limit: int, st: State, rendered: Output, length: nat, fuel: nat, rest: nat)
    requires Covers(d, st) && rendered == Render(d, st) && fuel == rest + 1
    requires LongestLine(rendered.text) == Some(length) && length > limit
    ensures RenderDoc(d, limit, st, fuel) == RenderDoc(d, limit, AdvanceGroups(d, rendered.after), rest)
  {
    assert RenderDoc(d, limit, st, fuel) == AfterRender(d, limit, rendered, rest);
  }

  /** `render_doc` returns text only when its longest line is within the limit. */
  lemma {:induction false} RenderDocFits(d: Doc, limit: int, st: State, fuel: nat)
    requires Covers(d, st)
    ensures var r := RenderDoc(d, limit, st, fuel);
      r.outcome.Fits? ==> LongestLine(r.outcome.text).Some? && LongestLine(r.outcome.text).value <= limit
    decreases fuel
  {
    if fuel > 0 {
      var rendered := Render(d, st);
      if LongestLine(rendered.text).Some? && LongestLine(rendered.text).value > limit {
        var rest: nat := fuel - 1;
        RenderDocStep(d, limit, st, rendered, LongestLine(rendered.text).value, fuel, rest);
        RenderDocFits(d, limit, AdvanceGroups(d, rendered.after), rest);
      }
    }
  }

  /**
   * If the first render fits, `render_doc` returns it at once and no `flat`
   * flag changes (the render itself may still have indented Lines).
   */
  lemma RenderDocFirstFit(d: Doc, limit: int, st: State, fuel: nat)
    requires WellFormed(d) && Covers(d, st) && fuel > 0
    requires LongestLine(Render(d, st).text).Some? && LongestLine(Render(d, st).text).value <= limit
    ensures RenderDoc(d, limit, st, fuel) == Run(Fits(Render(d, st).text), Render(d, st).after)
    ensures RenderDoc(d, limit, st, fuel).after.flat == st.flat
  {
    RenderIsLayout(d, st);
  }

  /** Across all its passes `render_doc` only ever turns `flat` from true to false. */
  lemma {:induction false} RenderDocFlatOnlyFalls(d: Doc, limit: int, st: State, fuel: nat)
    requires WellFormed(d) && Covers(d, st)
    ensures forall g :: g in st.flat && RenderDoc(d, limit, st, fuel).after.flat[g] ==> st.flat[g]
    decreases fuel
  {
    if fuel > 0 {
      var rendered := Render(d, st);
      RenderIsLayout(d, st);
      if LongestLine(rendered.text).Some? && LongestLine(rendered.text).value > limit {
        var next := AdvanceGroups(d, rendered.after);
        AdvanceProgress(d, rendered.after);
        var rest: nat := fuel - 1;
        RenderDocStep(d, limit, st, rendered, LongestLine(rendered.text).value, fuel, rest);
        RenderDocFlatOnlyFalls(d, limit, next, rest);
      }
    }
  }

  /**
   * A document without Lines renders the same text whatever the state, so
   * `render_doc` returns that text when it fits and otherwise recurses forever,
   * for every limit: there is no exit for a document that cannot fit.
   */
  lemma {:induction false} RenderDocWithoutLines(d: Doc, limit: int, st: State, fuel: nat)
    requires WellFormed(d) && Covers(d, st) && LineIds(d) == {}
    ensures var text := Layout(d, map[], 0);
      RenderDoc(d, limit, st, fuel).outcome ==
        if fuel == 0 then Exhausted
        else match LongestLine(text)
          case None => EmptyRendering
          case Some(length) => if length <= limit then Fits(text) else Exhausted
    decreases fuel
  {
    if fuel > 0 {
      RenderIsLayout(d, st);
      LayoutFrame(d, st.chars, map[], 0);
      var rendered := Render(d, st);
      if LongestLine(rendered.text).Some? && LongestLine(rendered.text).value > limit {
        var rest: nat := fuel - 1;
        RenderDocStep(d, limit, st, rendered, LongestLine(rendered.text).value, fuel, rest);
        RenderDocWithoutLines(d, limit, AdvanceGroups(d, rendered.after), rest);
      }
    }
  }
}
