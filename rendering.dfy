/**
 * `render` on the five node classes. Every case is a structural recursion
 * except `Nest.render`, which first walks its internals with `add_indentation`
 * (a `breadthfirst` over Lines, with no `stop_at`) and so rewrites the
 * `render_char` of every Line below it before rendering them.
 *
 * `Render` is the model of the code as written. `Layout` is an independent,
 * mutation-free reading of the same tree (each Line indented by the sum of the
 * Nest levels around it); `RenderIsLayout` proves the two agree on the text and
 * says exactly which state a render leaves behind.
 */
module Rendering {
  import opened Wrappers
  import opened Lines
  import opened Documents
  import opened Traversal

  datatype Output = Output(text: string, after: State)

  /** `d.render(limit)` from state `st`: its text and the state it leaves. */
  function Render(d: Doc, st: State): (o: Output)
    requires Covers(d, st)
    ensures SameKeys(o.after, st)
    decreases Size(d)
  {
    match d
    case String(text) => Output(text, st)
    case Line(id) => Output(st.chars[id], st)
    case Cons(l, r) =>
      var left := Render(l, st);
      var right := Render(r, left.after);
      Output(left.text + right.text, right.after)
    case Nest(level, c) =>
      Render(c, AfterVisit(c, LineKind, AddIndentation(level), None, st))
    case Group(_, c) =>
      Render(c, st)
  }

  /** `m` with the Lines in `ids` indented by `n` more columns. */
  function ShiftLines(m: map<nat, string>, ids: set<nat>, n: nat): (r: map<nat, string>)
    ensures r.Keys == m.Keys
  {
    map k | k in m :: if k in ids then ReplaceNewlines(m[k], Spaces(n)) else m[k]
  }

  /** Reference text: each Line indented by `k` plus the Nest levels around it. */
  function Layout(d: Doc, chars: map<nat, string>, k: nat): string
    requires LineIds(d) <= chars.Keys
  {
    match d
    case String(text) => text
    case Line(id) => Shift(chars[id], k)
    case Cons(l, r) => Layout(l, chars, k) + Layout(r, chars, k)
    case Nest(level, c) => Layout(c, chars, k + Pad(level))
    case Group(_, c) => Layout(c, chars, k)
  }

  /**
   * `chars` with each Line of `d` indented by `k` plus the Nest levels around
   * it in `d`; `IndentedAt` states the result Line by Line.
   */
  function Indented(d: Doc, chars: map<nat, string>, k: nat): (r: map<nat, string>)
    ensures r.Keys == chars.Keys
  {
    match d
    case String(_) => chars
    case Line(id) => if id in chars then chars[id := Shift(chars[id], k)] else chars
    case Cons(l, r) => Indented(r, Indented(l, chars, k), k)
    case Nest(level, c) => Indented(c, chars, k + Pad(level))
    case Group(_, c) => Indented(c, chars, k)
  }

  /** Line `i` of `Indented(d, m, k)`: shifted by `k + Depth(d, i)` if it is in `d`. */
  lemma {:induction false} IndentedAt(d: Doc, m: map<nat, string>, k: nat, i: nat)
    requires WellFormed(d) && i in m
    ensures Indented(d, m, k)[i] == if i in LineIds(d) then Shift(m[i], k + Depth(d, i)) else m[i]
  {
    match d
    case String(_) =>
    case Line(id) =>
    case Cons(l, r) =>
      IndentedAt(l, m, k, i);
      IndentedAt(r, Indented(l, m, k), k, i);
      if i in LineIds(l) {
        assert i !in LineIds(r);
      }
    case Nest(level, c) =>
      IndentedAt(c, m, k + Pad(level), i);
    case Group(_, c) =>
      IndentedAt(c, m, k, i);
  }

  /** A Line of `d`, indented from offset 0, is shifted by exactly its Nest depth. */
  lemma IndentedLine(d: Doc, m: map<nat, string>, k: nat, i: nat, n: nat)
    requires WellFormed(d) && i in m && i in LineIds(d) && n == k + Depth(d, i)
    ensures Indented(d, m, k)[i] == Shift(m[i], n)
  {
    IndentedAt(d, m, k, i);
  }

  lemma ShiftLinesUnion(m: map<nat, string>, a: set<nat>, b: set<nat>, n: nat)
    requires a !! b
    ensures ShiftLines(ShiftLines(m, a, n), b, n) == ShiftLines(m, a + b, n)
  {
  }

  lemma ShiftLinesTwice(m: map<nat, string>, ids: set<nat>, a: nat, b: nat, n: nat)
    requires n == a + b
    ensures ShiftLines(ShiftLines(m, ids, a), ids, b) == ShiftLines(m, ids, n)
  {
    forall i | i in m
      ensures ShiftLines(ShiftLines(m, ids, a), ids, b)[i] == ShiftLines(m, ids, n)[i]
    {
      ShiftLinesTwiceAt(m, ids, a, b, n, i);
    }
  }

  lemma ShiftLinesTwiceAt(m: map<nat, string>, ids: set<nat>, a: nat, b: nat, n: nat, i: nat)
    requires n == a + b && i in m
    ensures ShiftLines(ShiftLines(m, ids, a), ids, b)[i] == ShiftLines(m, ids, n)[i]
  {
    if i in ids {
      ShiftTwice(m[i], a, b, n);
      assert ShiftLines(m, ids, a)[i] == Shift(m[i], a);
      assert ShiftLines(m, ids, n)[i] == Shift(m[i], n);
    }
  }

  lemma ShiftLinesZero(m: map<nat, string>, ids: set<nat>)
    ensures ShiftLines(m, ids, 0) == m
  {
    forall i | i in m && i in ids ensures ShiftLines(m, ids, 0)[i] == m[i] {
      ShiftZero(m[i]);
    }
  }

  /**
   * What `add_indentation` does to the internals of a `Nest(level, _)`: every
   * Line below, inside nested Groups and Nests too, gets `level` spaces after
   * each newline it holds; a Line rendering " " is unchanged, and nothing
   * else changes.
   */
  lemma {:induction false} NestIndentsEveryLine(c: Doc, level: int, st: State)
    requires WellFormed(c) && Covers(c, st)
    ensures AfterVisit(c, LineKind, AddIndentation(level), None, st)
            == st.(chars := ShiftLines(st.chars, LineIds(c), Pad(level)))
    decreases Size(c)
  {
    var a := AddIndentation(level);
    VisitUnfold(c, LineKind, a, None, st);
    match c
    case String(_) =>
      assert ShiftLines(st.chars, {}, Pad(level)) == st.chars;
    case Line(id) =>
      assert ShiftLines(st.chars, {id}, Pad(level)) == AfterApply(a, c, st).chars;
    case Cons(l, r) =>
      NestIndentsEveryLine(l, level, st);
      var st1 := AfterVisit(l, LineKind, a, None, st);
      NestIndentsEveryLine(r, level, st1);
      ShiftLinesUnion(st.chars, LineIds(l), LineIds(r), Pad(level));
    case Nest(_, i) =>
      NestIndentsEveryLine(i, level, st);
    case Group(_, i) =>
      NestIndentsEveryLine(i, level, st);
  }

  lemma {:induction false} LayoutFrame(d: Doc, m1: map<nat, string>, m2: map<nat, string>, k: nat)
    requires LineIds(d) <= m1.Keys && LineIds(d) <= m2.Keys
    requires forall i :: i in LineIds(d) ==> m1[i] == m2[i]
    ensures Layout(d, m1, k) == Layout(d, m2, k)
  {
    match d
    case String(_) =>
    case Line(_) =>
    case Cons(l, r) =>
      LayoutFrame(l, m1, m2, k);
      LayoutFrame(r, m1, m2, k);
    case Nest(level, c) =>
      LayoutFrame(c, m1, m2, k + Pad(level));
    case Group(_, c) =>
      LayoutFrame(c, m1, m2, k);
  }

  lemma IndentedShifted(l: Doc, m: map<nat, string>, ids: set<nat>, k: nat)
    requires WellFormed(l) && LineIds(l) !! ids
    ensures Indented(l, ShiftLines(m, ids, k), k) == ShiftLines(Indented(l, m, k), ids, k)
  {
    forall i | i in m
      ensures Indented(l, ShiftLines(m, ids, k), k)[i] == ShiftLines(Indented(l, m, k), ids, k)[i]
    {
      IndentedAt(l, ShiftLines(m, ids, k), k, i);
      IndentedAt(l, m, k, i);
    }
  }

  lemma ShiftedCons(l: Doc, r: Doc, m: map<nat, string>, k: nat)
    requires LineIds(l) !! LineIds(r)
    ensures ShiftLines(m, LineIds(Cons(l, r)), k) == ShiftLines(ShiftLines(m, LineIds(r), k), LineIds(l), k)
  {
    ShiftLinesUnion(m, LineIds(r), LineIds(l), k);
    assert LineIds(r) + LineIds(l) == LineIds(Cons(l, r));
  }

  /** The induction behind `RenderIsLayout`, from a state already shifted by `k`. */
  lemma {:induction false} RenderShifted(d: Doc, st: State, k: nat)
    requires WellFormed(d) && Covers(d, st)
    ensures Render(d, st.(chars := ShiftLines(st.chars, LineIds(d), k)))
            == Output(Layout(d, st.chars, k), st.(chars := Indented(d, st.chars, k)))
    decreases Size(d)
  {
    match d
    case String(_) =>
      assert ShiftLines(st.chars, {}, k) == st.chars;
    case Line(id) =>
      RenderShiftedLine(id, st, k);
    case Cons(l, r) =>
      RenderShiftedCons(l, r, st, k);
    case Nest(level, c) =>
      RenderShiftedNest(level, c, st, k);
    case Group(_, c) =>
      RenderShifted(c, st, k);
  }

  lemma RenderShiftedLine(id: nat, st: State, k: nat)
    requires id in st.chars
    ensures Render(Line(id), st.(chars := ShiftLines(st.chars, {id}, k)))
            == Output(Layout(Line(id), st.chars, k), st.(chars := Indented(Line(id), st.chars, k)))
  {
    var m := st.chars;
    assert ShiftLines(m, {id}, k) == m[id := Shift(m[id], k)];
  }

  lemma {:induction false} RenderShiftedNest(level: int, c: Doc, st: State, k: nat)
    requires WellFormed(c) && Covers(c, st)
    ensures Render(Nest(level, c), st.(chars := ShiftLines(st.chars, LineIds(c), k)))
            == Output(Layout(Nest(level, c), st.chars, k), st.(chars := Indented(Nest(level, c), st.chars, k)))
    decreases Size(Nest(level, c)), 0
  {
    var n := k + Pad(level);
    NestShiftsAgain(level, c, st, k, n);
    RenderShifted(c, st, n);
  }

  /** `add_indentation` on Lines already shifted by `k` shifts them by `k + level`. */
  lemma NestShiftsAgain(level: int, c: Doc, st: State, k: nat, n: nat)
    requires WellFormed(c) && Covers(c, st) && n == k + Pad(level)
    ensures AfterVisit(c, LineKind, AddIndentation(level), None, st.(chars := ShiftLines(st.chars, LineIds(c), k)))
            == st.(chars := ShiftLines(st.chars, LineIds(c), n))
  {
    var ids := LineIds(c);
    var once := ShiftLines(st.chars, ids, k);
    NestIndentsEveryLine(c, level, st.(chars := once));
    ShiftLinesTwice(st.chars, ids, k, Pad(level), n);
  }

  lemma {:induction false} RenderShiftedCons(l: Doc, r: Doc, st: State, k: nat)
    requires WellFormed(Cons(l, r)) && Covers(Cons(l, r), st)
    ensures Render(Cons(l, r), st.(chars := ShiftLines(st.chars, LineIds(Cons(l, r)), k)))
            == Output(Layout(Cons(l, r), st.chars, k), st.(chars := Indented(Cons(l, r), st.chars, k)))
    decreases Size(Cons(l, r)), 0
  {
    var m := st.chars;
    var R := LineIds(r);
    var mr := ShiftLines(m, R, k);
    ShiftedCons(l, r, m, k);
    RenderShifted(l, st.(chars := mr), k);
    LayoutFrame(l, mr, m, k);
    var ml := Indented(l, m, k);
    IndentedShifted(l, m, R, k);
    RenderShifted(r, st.(chars := ml), k);
    forall i | i in LineIds(r) ensures ml[i] == m[i] {
      IndentedAt(l, m, k, i);
    }
    LayoutFrame(r, ml, m, k);
  }

  /**
   * Rendering `d` yields `Layout(d, ·, 0)`, reads no `flat` flag, changes no
   * `flat` flag, and leaves every Line of `d` indented by its Nest depth.
   */
  lemma RenderIsLayout(d: Doc, st: State)
    requires WellFormed(d) && Covers(d, st)
    ensures Render(d, st) == Output(Layout(d, st.chars, 0), st.(chars := Indented(d, st.chars, 0)))
  {
    ShiftLinesZero(st.chars, LineIds(d));
    RenderShifted(d, st, 0);
  }

  /** Rendering never touches a `flat` flag, and never reads one. */
  lemma RenderIgnoresFlat(d: Doc, st: State, flat: map<nat, bool>)
    requires WellFormed(d) && Covers(d, st) && GroupIds(d) <= flat.Keys
    ensures Render(d, st).after.flat == st.flat
    ensures Render(d, st.(flat := flat)).text == Render(d, st).text
  {
    RenderIsLayout(d, st);
    RenderIsLayout(d, st.(flat := flat));
  }

  /** A left-leaning and a right-leaning chain of `*` render alike. */
  lemma RenderConsAssociative(a: Doc, b: Doc, c: Doc, st: State)
    requires Covers(a, st) && Covers(b, st) && Covers(c, st)
    ensures Covers(Cons(Cons(a, b), c), st) && Covers(Cons(a, Cons(b, c)), st)
    ensures Render(Cons(Cons(a, b), c), st) == Render(Cons(a, Cons(b, c)), st)
  {
    var ra := Render(a, st);
    var rb := Render(b, ra.after);
    var rc := Render(c, rb.after);
    var rab := Output(ra.text + rb.text, rb.after);
    var rbc := Output(rb.text + rc.text, rc.after);
    RenderConsUnfold(a, b, st, ra, rb);
    RenderConsUnfold(b, c, ra.after, rb, rc);
    RenderConsUnfold(Cons(a, b), c, st, rab, rc);
    RenderConsUnfold(a, Cons(b, c), st, ra, rbc);
    ConcatAssoc(ra.text, rb.text, rc.text);
  }

  lemma RenderConsUnfold(l: Doc, r: Doc, st: State, left: Output, right: Output)
    requires Covers(l, st) && Covers(r, st)
    requires left == Render(l, st) && right == Render(r, left.after)
    ensures Covers(Cons(l, r), st)
    ensures Render(Cons(l, r), st) == Output(left.text + right.text, right.after)
  {
  }

  /**
   * Rendering the same tree again without resetting its Lines indents them
   * again: after two renders each Line carries twice its Nest depth.
   */
  lemma RenderTwiceCompounds(d: Doc, st: State, id: nat)
    requires WellFormed(d) && Covers(d, st) && id in LineIds(d)
    ensures Render(d, Render(d, st).after).after.chars[id] == Shift(st.chars[id], 2 * Depth(d, id))
  {
    var n := Depth(d, id);
    var st1 := Render(d, st).after;
    RenderIndentsLine(d, st, id);
    RenderIndentsLine(d, st1, id);
    ShiftDouble(st.chars[id], n);
  }

  /** One render leaves a Line of `d` indented by its Nest depth in `d`. */
  lemma RenderIndentsLine(d: Doc, st: State, id: nat)
    requires WellFormed(d) && Covers(d, st) && id in LineIds(d)
    ensures Covers(d, Render(d, st).after)
    ensures Render(d, st).after.chars[id] == Shift(st.chars[id], Depth(d, id))
  {
    RenderIsLayout(d, st);
    IndentedLine(d, st.chars, 0, id, Depth(d, id));
  }

  /**
   * A Nest indents the Lines inside a nested Group as well: no `stop_at` is
   * passed to its walk.
   */
  lemma NestReachesIntoGroups(level: int, g: nat, id: nat, st: State)
    requires level > 0 && g != id && id in st.chars && g in st.flat && st.chars[id] == "\n"
    ensures Covers(Nest(level, Group(g, Line(id))), st)
    ensures Render(Nest(level, Group(g, Line(id))), st).text == "\n" + Spaces(level)
  {
    var d := Nest(level, Group(g, Line(id)));
    assert LineIds(Group(g, Line(id))) == {id} && GroupIds(Group(g, Line(id))) == {g};
    assert LineIds(d) == {id} && GroupIds(d) == {g};
    RenderIsLayout(d, st);
    assert ReplaceNewlines("\n"[1..], Spaces(level)) == [];
    assert Layout(d, st.chars, 0) == Layout(Line(id), st.chars, level);
  }
}
