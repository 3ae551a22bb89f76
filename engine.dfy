/**
 * The engine on a live tree: `Tree` holds the shape of one document together
 * with the two fields the program mutates in place, `Line.render_char` and
 * `Group.flat`, and its methods update them step by step as the program does.
 * Each method is proved to leave exactly the state, and return exactly the
 * text, that the functions of `Traversal`, `Rendering`, `Fitting` and
 * `Corrected` describe, so everything proved about those holds here.
 */
module Engine {
  import opened Wrappers
  import opened Lines
  import opened Documents
  import opened Traversal
  import opened Rendering
  import opened Fitting
  import opened Corrected

  class Tree {
    /** The document: its nodes, their order and their identities. */
    const doc: Doc
    /** `render_char` of every Line, by identity. */
    var renderChar: map<nat, string>
    /** `flat` of every Group, by identity. */
    var flat: map<nat, bool>

    function Fields(): State
      reads this
    {
      State(renderChar, flat)
    }

    predicate Valid()
      reads this
    {
      WellFormed(doc) && Covers(doc, Fields())
    }

    /** A tree just built: every `Line()` renders " ", every `Group(x)` is flat. */
    constructor (d: Doc)
      requires WellFormed(d)
      ensures doc == d && Valid()
      ensures Fields() == Fresh(d)
    {
      doc := d;
      renderChar := Fresh(d).chars;
      flat := Fresh(d).flat;
    }

    /** `apply(d)` for one of the three callbacks. */
    method Apply(a: Action, d: Doc)
      requires KindOf(d) == Target(a) && Covers(d, Fields())
      modifies this
      ensures Fields() == AfterApply(a, d, old(Fields()))
      decreases Size(d), 1, 0
    {
      match a
      case AddIndentation(level) =>
        if '\n' in renderChar[d.id] {
          renderChar := renderChar[d.id := ReplaceNewlines(renderChar[d.id], Spaces(Pad(level)))];
        }
      case MakeLineNewline =>
        renderChar := renderChar[d.id := "\n"];
      case MakeNextGroupNotFlat =>
        if flat[d.id] {
          flat := flat[d.id := false];
        } else {
          Visit(d.internals, GroupKind, MakeNextGroupNotFlat, Some(GroupKind));
          Visit(d.internals, LineKind, MakeLineNewline, Some(GroupKind));
        }
    }

    /** `d.breadthfirst(search, apply, stop_at)` on a subtree `d` of this tree. */
    method Visit(d: Doc, search: Kind, a: Action, stopAt: Option<Kind>)
      requires Target(a) == search && Covers(d, Fields())
      modifies this
      ensures Fields() == AfterVisit(d, search, a, stopAt, old(Fields()))
      decreases Size(d), 2, 0
    {
      if KindOf(d) == search {
        Apply(a, d);
      }
      if Stops(d, stopAt) {
        return;
      }
      ghost var start := Fields();
      var children := Children(d);
      var i := 0;
      while i < |children|
        invariant i <= |children|
        invariant SameKeys(Fields(), start)
        invariant VisitChildren(d, i, search, a, stopAt, Fields())
                  == VisitChildren(d, 0, search, a, stopAt, start)
        decreases |children| - i
      {
        ghost var before := Fields();
        if children[i].Some? {
          Visit(children[i].value, search, a, stopAt);
        }
        var next := i + 1;
        VisitChildrenStep(d, i, next, search, a, stopAt, before, Fields());
        i := next;
      }
    }

    /** `d.render(limit)` on a subtree `d`: a Nest indents the Lines below it first. */
    method Render(d: Doc) returns (text: string)
      requires Covers(d, Fields())
      modifies this
      ensures Output(text, Fields()) == Rendering.Render(d, old(Fields()))
      decreases Size(d)
    {
      match d
      case String(t) =>
        text := t;
      case Line(id) =>
        text := renderChar[id];
      case Cons(l, r) =>
        var left := Render(l);
        var right := Render(r);
        text := left + right;
      case Nest(level, c) =>
        Visit(c, LineKind, AddIndentation(level), None);
        text := Render(c);
      case Group(_, c) =>
        text := Render(c);
    }

    /**
     * `render_doc(doc, limit)`, its tail recursion run as a loop that may make
     * at most `fuel` renders.
     */
    method RenderDoc(limit: int, fuel: nat) returns (outcome: Outcome)
      requires Valid()
      modifies this
      ensures Valid()
      ensures Run(outcome, Fields()) == Fitting.RenderDoc(doc, limit, old(Fields()), fuel)
    {
      var left := fuel;
      while true
        invariant Valid()
        invariant Fitting.RenderDoc(doc, limit, Fields(), left) == Fitting.RenderDoc(doc, limit, old(Fields()), fuel)
        decreases left
      {
        if left == 0 {
          return Exhausted;
        }
        ghost var before := Fields();
        var text := Render(doc);
        ghost var rendered := Output(text, Fields());
        var longest := LongestLine(text);
        if longest.None? {
          return EmptyRendering;
        }
        if longest.value <= limit {
          return Fits(text);
        }
        Visit(doc, GroupKind, MakeNextGroupNotFlat, Some(GroupKind));
        var rest: nat := left - 1;
        Fitting.RenderDocStep(doc, limit, before, rendered, longest.value, left, rest);
        left := rest;
      }
    }

    /**
     * The corrected driver: render without touching the Lines, stop when the
     * text fits, and give up with the last text once a pass finds no flat Group.
     */
    method FitToWidth(limit: int) returns (text: string, fits: bool)
      requires Valid()
      modifies this
      ensures Valid()
      ensures Fitted(text, fits, Fields()) == RenderToWidth(doc, limit, old(Fields()), false)
    {
      var lastPass := false;
      while true
        invariant Valid()
        invariant RenderToWidth(doc, limit, Fields(), lastPass) == RenderToWidth(doc, limit, old(Fields()), false)
        decreases FlatGroups(doc, flat), if lastPass then 0 else 1
      {
        text := Layout(doc, renderChar, 0);
        if Width(text) <= limit {
          return text, true;
        }
        if lastPass {
          return text, false;
        }
        lastPass := FlatGroups(doc, flat) == {};
        AdvanceProgress(doc, Fields());
        Visit(doc, GroupKind, MakeNextGroupNotFlat, Some(GroupKind));
      }
    }
  }
}
