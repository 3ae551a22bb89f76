/**
 * `Doc.breadthfirst(search, apply, stop_at)`, which despite its name is a
 * pre-order depth-first walk, together with the three callbacks the engine
 * passes to it: `add_indentation` (Nest.render), `make_line_newline` and
 * `make_next_group_not_flat`.
 *
 * The callbacks mutate nodes, so the walk is modelled on the mutable state: the
 * `render_char` of every Line and the `flat` flag of every Group, keyed by node
 * identity. The tree's shape is fixed, so the nodes visited never depend on what
 * the callbacks did.
 */
module Traversal {
  import opened Wrappers
  import opened Lines
  import opened Documents

  /** The mutable fields: `Line.render_char` and `Group.flat`, by identity. */
  datatype State = State(chars: map<nat, string>, flat: map<nat, bool>)

  /** Every Line and Group of `d` has its field. */
  predicate Covers(d: Doc, st: State)
  {
    LineIds(d) <= st.chars.Keys && GroupIds(d) <= st.flat.Keys
  }

  predicate SameKeys(a: State, b: State)
  {
    a.chars.Keys == b.chars.Keys && a.flat.Keys == b.flat.Keys
  }

  /** The callbacks handed to `breadthfirst` as `apply`. */
  datatype Action =
    | AddIndentation(level: int)
    | MakeLineNewline
    | MakeNextGroupNotFlat

  /** The class each callback is written for (its parameter annotation). */
  function Target(a: Action): Kind
  {
    match a
    case AddIndentation(_) => LineKind
    case MakeLineNewline => LineKind
    case MakeNextGroupNotFlat => GroupKind
  }

  /** `stop_at and isinstance(self, stop_at)`. */
  predicate Stops(d: Doc, stopAt: Option<Kind>)
  {
    stopAt.Some? && KindOf(d) == stopAt.value
  }

  /** The state after `apply(d)`. */
  function AfterApply(a: Action, d: Doc, st: State): (r: State)
    requires KindOf(d) == Target(a) && Covers(d, st)
    ensures SameKeys(r, st)
    decreases Size(d), 1, 0
  {
    match a
    case AddIndentation(level) =>
      var c := st.chars[d.id];
      if '\n' in c then st.(chars := st.chars[d.id := ReplaceNewlines(c, Spaces(Pad(level)))]) else st
    case MakeLineNewline =>
      st.(chars := st.chars[d.id := "\n"])
    case MakeNextGroupNotFlat =>
      if st.flat[d.id] then st.(flat := st.flat[d.id := false])
      else
        // a Group's children() is [internals]
        var st1 := AfterVisit(d.internals, GroupKind, MakeNextGroupNotFlat, Some(GroupKind), st);
        AfterVisit(d.internals, LineKind, MakeLineNewline, Some(GroupKind), st1)
  }

  /** The state after `d.breadthfirst(search, apply, stop_at)`. */
  function AfterVisit(d: Doc, search: Kind, a: Action, stopAt: Option<Kind>, st: State): (r: State)
    requires Target(a) == search && Covers(d, st)
    ensures SameKeys(r, st)
    decreases Size(d), 2, 0
  {
    var st1 := if KindOf(d) == search then AfterApply(a, d, st) else st;
    if Stops(d, stopAt) then st1 else VisitChildren(d, 0, search, a, stopAt, st1)
  }

  /** The `for child in self.children()` loop, from the `i`-th child on. */
  function VisitChildren(d: Doc, i: nat, search: Kind, a: Action, stopAt: Option<Kind>, st: State): (r: State)
    requires i <= |Children(d)|
    requires Target(a) == search && Covers(d, st)
    ensures SameKeys(r, st)
    decreases Size(d), 1, |Children(d)| - i
  {
    if i == |Children(d)| then st
    else
      var st1 := match Children(d)[i]
        case None => st
        case Some(c) => AfterVisit(c, search, a, stopAt, st);
      VisitChildren(d, i + 1, search, a, stopAt, st1)
  }

  /** One turn of the loop over the children: visit child `i`, if there is one. */
  lemma VisitChildrenStep(d: Doc, i: nat, next: nat, search: Kind, a: Action, stopAt: Option<Kind>,
                          st: State, st1: State)
    requires i < |Children(d)| && next == i + 1
    requires Target(a) == search && Covers(d, st)
    requires st1 == match Children(d)[i]
      case None => st
      case Some(c) => AfterVisit(c, search, a, stopAt, st)
    ensures Covers(d, st1)
    ensures VisitChildren(d, i, search, a, stopAt, st) == VisitChildren(d, next, search, a, stopAt, st1)
  {
  }

  /** The walk, one node kind at a time: apply, maybe stop, else the children in order. */
  lemma VisitUnfold(d: Doc, search: Kind, a: Action, stopAt: Option<Kind>, st: State)
    requires Target(a) == search && Covers(d, st)
    ensures var st1 := if KindOf(d) == search then AfterApply(a, d, st) else st;
      AfterVisit(d, search, a, stopAt, st) ==
        if Stops(d, stopAt) then st1
        else match d
          case String(_) => st1
          case Line(_) => st1
          case Cons(l, r) => AfterVisit(r, search, a, stopAt, AfterVisit(l, search, a, stopAt, st1))
          case Nest(_, c) => AfterVisit(c, search, a, stopAt, st1)
          case Group(_, c) => AfterVisit(c, search, a, stopAt, st1)
  {
    var st1 := if KindOf(d) == search then AfterApply(a, d, st) else st;
    if !Stops(d, stopAt) {
      match d
      case String(_) =>
        assert VisitChildren(d, 1, search, a, stopAt, st1) == st1;
      case Line(_) =>
        assert VisitChildren(d, 1, search, a, stopAt, st1) == st1;
      case Cons(l, r) =>
        var sl := AfterVisit(l, search, a, stopAt, st1);
        assert VisitChildren(d, 0, search, a, stopAt, st1) == VisitChildren(d, 1, search, a, stopAt, sl);
        var sr := AfterVisit(r, search, a, stopAt, sl);
        assert VisitChildren(d, 1, search, a, stopAt, sl) == VisitChildren(d, 2, search, a, stopAt, sr);
      case Nest(_, c) =>
        assert VisitChildren(d, 0, search, a, stopAt, st1) == VisitChildren(d, 1, search, a, stopAt, AfterVisit(c, search, a, stopAt, st1));
      case Group(_, c) =>
        assert VisitChildren(d, 0, search, a, stopAt, st1) == VisitChildren(d, 1, search, a, stopAt, AfterVisit(c, search, a, stopAt, st1));
    }
  }

  // ---------------------------------------------------------------------------
  // The visiting order. A node is named by its path from the root: the indices
  // into `children()` taken on the way down.

  type Path = seq<nat>

  predicate IsPath(d: Doc, p: Path)
    decreases |p|
  {
    p == [] || (p[0] < |Children(d)| && Children(d)[p[0]].Some? && IsPath(Children(d)[p[0]].value, p[1..]))
  }

  /** The node at the end of path `p`. */
  function At(d: Doc, p: Path): (n: Doc)
    requires IsPath(d, p)
    ensures LineIds(n) <= LineIds(d) && GroupIds(n) <= GroupIds(d)
    decreases |p|
  {
    if p == [] then d else At(Children(d)[p[0]].value, p[1..])
  }

  /** No node strictly above the end of `p` matches `stop_at`. */
  predicate Unblocked(d: Doc, p: Path, stopAt: Option<Kind>)
    requires IsPath(d, p)
    decreases |p|
  {
    p == [] || (!Stops(d, stopAt) && Unblocked(Children(d)[p[0]].value, p[1..], stopAt))
  }

  /** Pre-order: `p` is a proper prefix of `q`, or branches off to its left. */
  predicate Before(p: Path, q: Path)
    decreases |p|
  {
    q != [] && (p == [] || p[0] < q[0] || (p[0] == q[0] && Before(p[1..], q[1..])))
  }

  predicate PreOrdered(ps: seq<Path>)
  {
    forall i, j :: 0 <= i < j < |ps| ==> Before(ps[i], ps[j])
  }

  function Prefixed(i: nat, ps: seq<Path>): (r: seq<Path>)
    ensures |r| == |ps|
    ensures forall k :: 0 <= k < |ps| ==> r[k] == [i] + ps[k]
  {
    seq(|ps|, k requires 0 <= k < |ps| => [i] + ps[k])
  }

  /** The nodes on which `breadthfirst` calls `apply`, in the order it calls it. */
  function Trace(d: Doc, search: Kind, stopAt: Option<Kind>): seq<Path>
    decreases Size(d), 1, 0
  {
    (if KindOf(d) == search then [[]] else [])
    + (if Stops(d, stopAt) then [] else TraceChildren(d, 0, search, stopAt))
  }

  function TraceChildren(d: Doc, i: nat, search: Kind, stopAt: Option<Kind>): seq<Path>
    requires i <= |Children(d)|
    decreases Size(d), 0, |Children(d)| - i
  {
    if i == |Children(d)| then []
    else
      (match Children(d)[i]
       case None => []
       case Some(c) => Prefixed(i, Trace(c, search, stopAt)))
      + TraceChildren(d, i + 1, search, stopAt)
  }

  /** Calls `apply` on the nodes at `ps`, in order. */
  function ApplyAll(a: Action, d: Doc, ps: seq<Path>, st: State): (r: State)
    requires Covers(d, st)
    requires forall p :: p in ps ==> IsPath(d, p) && KindOf(At(d, p)) == Target(a)
    ensures SameKeys(r, st)
    decreases |ps|
  {
    if ps == [] then st else ApplyAll(a, d, ps[1..], AfterApply(a, At(d, ps[0]), st))
  }

  lemma {:induction false} TraceChildrenMembers(d: Doc, i: nat, search: Kind, stopAt: Option<Kind>)
    requires i <= |Children(d)|
    ensures forall p :: p in TraceChildren(d, i, search, stopAt) <==>
      (p != [] && i <= p[0] < |Children(d)| && Children(d)[p[0]].Some?
       && p[1..] in Trace(Children(d)[p[0]].value, search, stopAt))
    decreases |Children(d)| - i
  {
    if i < |Children(d)| {
      TraceChildrenMembers(d, i + 1, search, stopAt);
      var rest := TraceChildren(d, i + 1, search, stopAt);
      match Children(d)[i]
      case None =>
        assert TraceChildren(d, i, search, stopAt) == rest;
      case Some(c) =>
        var t := Trace(c, search, stopAt);
        PrefixedMembers(i, t);
        assert TraceChildren(d, i, search, stopAt) == Prefixed(i, t) + rest;
    }
  }

  /** The paths of `Prefixed(i, t)` are those of `t`, each with `i` in front. */
  lemma PrefixedMembers(i: nat, t: seq<Path>)
    ensures forall p :: p in Prefixed(i, t) <==> (p != [] && p[0] == i && p[1..] in t)
  {
    forall p | p in Prefixed(i, t)
      ensures p != [] && p[0] == i && p[1..] in t
    {
      var k :| 0 <= k < |t| && Prefixed(i, t)[k] == p;
      assert p[1..] == t[k];
    }
    forall p | p != [] && p[0] == i && p[1..] in t
      ensures p in Prefixed(i, t)
    {
      var k :| 0 <= k < |t| && t[k] == p[1..];
      assert Prefixed(i, t)[k] == p;
    }
  }

  /**
   * `breadthfirst` calls `apply` on exactly the nodes that match `search` and
   * have no `stop_at` node strictly above them: a `stop_at` node still gets
   * `apply`, its descendants do not, and leaves add no children.
   */
  lemma {:induction false} TraceExact(d: Doc, search: Kind, stopAt: Option<Kind>, p: Path)
    ensures p in Trace(d, search, stopAt) <==>
      IsPath(d, p) && Unblocked(d, p, stopAt) && KindOf(At(d, p)) == search
    decreases |p|
  {
    TraceChildrenMembers(d, 0, search, stopAt);
    if p != [] && !Stops(d, stopAt) && p[0] < |Children(d)| && Children(d)[p[0]].Some? {
      TraceExact(Children(d)[p[0]].value, search, stopAt, p[1..]);
    }
  }

  lemma BeforePrefixed(i: nat, p: Path, q: Path)
    requires Before(p, q)
    ensures Before([i] + p, [i] + q)
  {
    assert ([i] + p)[1..] == p && ([i] + q)[1..] == q;
  }

  lemma AppendOrdered(a: seq<Path>, b: seq<Path>)
    requires PreOrdered(a) && PreOrdered(b)
    requires forall p, q :: p in a && q in b ==> Before(p, q)
    ensures PreOrdered(a + b)
  {
    var all := a + b;
    forall j, k | 0 <= j < k < |all| ensures Before(all[j], all[k]) {
      if k < |a| {
        assert all[j] == a[j] && all[k] == a[k];
      } else if j >= |a| {
        assert all[j] == b[j - |a|] && all[k] == b[k - |a|];
      } else {
        assert all[j] in a && all[k] in b;
      }
    }
  }

  lemma PrefixedOrdered(i: nat, t: seq<Path>)
    requires PreOrdered(t)
    ensures PreOrdered(Prefixed(i, t))
    ensures forall p :: p in Prefixed(i, t) ==> p != [] && p[0] == i
  {
    var head := Prefixed(i, t);
    forall j, k | 0 <= j < k < |head| ensures Before(head[j], head[k]) {
      BeforePrefixed(i, t[j], t[k]);
    }
  }

  lemma {:induction false} TraceChildrenOrdered(d: Doc, i: nat, search: Kind, stopAt: Option<Kind>)
    requires i <= |Children(d)|
    ensures PreOrdered(TraceChildren(d, i, search, stopAt))
    ensures forall p :: p in TraceChildren(d, i, search, stopAt) ==> p != [] && p[0] >= i
    decreases Size(d), 0, |Children(d)| - i
  {
    if i < |Children(d)| {
      TraceChildrenOrdered(d, i + 1, search, stopAt);
      var rest := TraceChildren(d, i + 1, search, stopAt);
      match Children(d)[i]
      case None =>
        assert TraceChildren(d, i, search, stopAt) == [] + rest;
      case Some(c) =>
        var head := Prefixed(i, Trace(c, search, stopAt));
        TraceOrdered(c, search, stopAt);
        PrefixedOrdered(i, Trace(c, search, stopAt));
        AppendOrdered(head, rest);
        assert TraceChildren(d, i, search, stopAt) == head + rest;
    }
  }

  /** `apply` runs on a node before anything below it, and left before right. */
  lemma {:induction false} TraceOrdered(d: Doc, search: Kind, stopAt: Option<Kind>)
    ensures PreOrdered(Trace(d, search, stopAt))
    decreases Size(d), 1, 0
  {
    var rest := if Stops(d, stopAt) then [] else TraceChildren(d, 0, search, stopAt);
    if !Stops(d, stopAt) {
      TraceChildrenOrdered(d, 0, search, stopAt);
    }
    if KindOf(d) == search {
      AppendOrdered([[]], rest);
    }
  }

  lemma {:induction false} ApplyAllAppend(a: Action, d: Doc, p1: seq<Path>, p2: seq<Path>, st: State)
    requires Covers(d, st)
    requires forall p :: p in p1 ==> IsPath(d, p) && KindOf(At(d, p)) == Target(a)
    requires forall p :: p in p2 ==> IsPath(d, p) && KindOf(At(d, p)) == Target(a)
    ensures ApplyAll(a, d, p1 + p2, st) == ApplyAll(a, d, p2, ApplyAll(a, d, p1, st))
    decreases |p1|
  {
    if p1 != [] {
      assert (p1 + p2)[0] == p1[0] && (p1 + p2)[1..] == p1[1..] + p2;
      ApplyAllAppend(a, d, p1[1..], p2, AfterApply(a, At(d, p1[0]), st));
    } else {
      assert p1 + p2 == p2;
    }
  }

  lemma {:induction false} ApplyAllPrefixed(a: Action, d: Doc, i: nat, ps: seq<Path>, st: State)
    requires i < |Children(d)| && Children(d)[i].Some?
    requires Covers(d, st)
    requires forall p :: p in ps ==> IsPath(Children(d)[i].value, p) && KindOf(At(Children(d)[i].value, p)) == Target(a)
    ensures forall p :: p in Prefixed(i, ps) ==> IsPath(d, p) && KindOf(At(d, p)) == Target(a)
    ensures ApplyAll(a, d, Prefixed(i, ps), st) == ApplyAll(a, Children(d)[i].value, ps, st)
    decreases |ps|
  {
    var c := Children(d)[i].value;
    forall p | p in Prefixed(i, ps) ensures IsPath(d, p) && At(d, p) == At(c, p[1..]) {
      var k :| 0 <= k < |ps| && Prefixed(i, ps)[k] == p;
      assert p[1..] == ps[k];
    }
    if ps != [] {
      assert Prefixed(i, ps)[1..] == Prefixed(i, ps[1..]);
      assert Prefixed(i, ps)[0][1..] == ps[0];
      ApplyAllPrefixed(a, d, i, ps[1..], AfterApply(a, At(c, ps[0]), st));
    }
  }

  lemma {:induction false} VisitChildrenAppliesTrace(d: Doc, i: nat, search: Kind, a: Action, stopAt: Option<Kind>, st: State)
    requires i <= |Children(d)|
    requires Target(a) == search && Covers(d, st)
    ensures forall p :: p in TraceChildren(d, i, search, stopAt) ==> IsPath(d, p) && KindOf(At(d, p)) == search
    ensures VisitChildren(d, i, search, a, stopAt, st) == ApplyAll(a, d, TraceChildren(d, i, search, stopAt), st)
    decreases Size(d), 0, |Children(d)| - i, 1
  {
    if i < |Children(d)| {
      var next := i + 1;
      var rest := TraceChildren(d, next, search, stopAt);
      match Children(d)[i]
      case None =>
        assert TraceChildren(d, i, search, stopAt) == rest;
        VisitChildrenStep(d, i, next, search, a, stopAt, st, st);
        VisitChildrenAppliesTrace(d, next, search, a, stopAt, st);
      case Some(c) =>
        ChildAppliesTrace(d, i, next, c, search, a, stopAt, st);
    }
  }

  /** The turn of the loop over the children that visits child `i`, `c`. */
  lemma {:induction false} ChildAppliesTrace(d: Doc, i: nat, next: nat, c: Doc, search: Kind, a: Action,
                                             stopAt: Option<Kind>, st: State)
    requires i < |Children(d)| && next == i + 1 && Children(d)[i] == Some(c)
    requires Target(a) == search && Covers(d, st)
    ensures forall p :: p in TraceChildren(d, i, search, stopAt) ==> IsPath(d, p) && KindOf(At(d, p)) == search
    ensures VisitChildren(d, i, search, a, stopAt, st) == ApplyAll(a, d, TraceChildren(d, i, search, stopAt), st)
    decreases Size(d), 0, |Children(d)| - i, 0
  {
    var rest := TraceChildren(d, next, search, stopAt);
    var t := Trace(c, search, stopAt);
    TraceChildrenStep(d, i, next, c, search, stopAt);
    VisitAppliesTrace(c, search, a, stopAt, st);
    ApplyAllPrefixed(a, d, i, t, st);
    var st1 := AfterVisit(c, search, a, stopAt, st);
    VisitChildrenStep(d, i, next, search, a, stopAt, st, st1);
    VisitChildrenAppliesTrace(d, next, search, a, stopAt, st1);
    ApplyAllAppend(a, d, Prefixed(i, t), rest, st);
  }

  lemma TraceChildrenStep(d: Doc, i: nat, next: nat, c: Doc, search: Kind, stopAt: Option<Kind>)
    requires i < |Children(d)| && next == i + 1 && Children(d)[i] == Some(c)
    ensures TraceChildren(d, i, search, stopAt)
            == Prefixed(i, Trace(c, search, stopAt)) + TraceChildren(d, next, search, stopAt)
  {
  }

  /**
   * `breadthfirst` is exactly: call `apply` on the nodes of `Trace`, one after
   * the other, in pre-order.
   */
  lemma {:induction false} VisitAppliesTrace(d: Doc, search: Kind, a: Action, stopAt: Option<Kind>, st: State)
    requires Target(a) == search && Covers(d, st)
    ensures forall p :: p in Trace(d, search, stopAt) ==> IsPath(d, p) && KindOf(At(d, p)) == search
    ensures AfterVisit(d, search, a, stopAt, st) == ApplyAll(a, d, Trace(d, search, stopAt), st)
    decreases Size(d), 1, 0, 0
  {
    var first: seq<Path> := if KindOf(d) == search then [[]] else [];
    var st1 := if KindOf(d) == search then AfterApply(a, d, st) else st;
    assert ApplyAll(a, d, first, st) == st1 by {
      if KindOf(d) == search {
        assert ApplyAll(a, d, first, st) == ApplyAll(a, d, [], AfterApply(a, At(d, []), st));
      }
    }
    if Stops(d, stopAt) {
      assert Trace(d, search, stopAt) == first;
    } else {
      var rest := TraceChildren(d, 0, search, stopAt);
      VisitChildrenAppliesTrace(d, 0, search, a, stopAt, st1);
      ApplyAllAppend(a, d, first, rest, st);
    }
  }
}
