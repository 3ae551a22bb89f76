# A verified model of the `prettier` document engine

`main.py` is a small pretty-printer. A document is a tree of five node kinds:

- `String`: literal text;
- `Line`: a break whose `render_char` starts as `" "`;
- `Cons`: concatenation, also written `a * b`;
- `Nest`: an indentation level around a child;
- `Group`: a child plus a `flat` flag that starts as `True`.

Rendering walks the tree. `Nest.render` first rewrites every Line below it, putting `level` spaces after each newline. The driver `render_doc(doc, limit)` renders the tree and measures its longest line. If the text is too wide, the driver advances the Groups by one layer and tries again:

- a flat Group becomes non-flat;
- a non-flat Group turns the Lines directly under it into `"\n"` and advances its nearest inner Groups.

All of this goes through one generic walk, `Doc.breadthfirst(search, apply, stop_at)`. Despite its name, it is a pre-order depth-first walk.

## How the model is built

- `wrappers.dfy` (`Wrappers`): `Option`.
- `lines.dfy` (`Lines`): the text helpers.
  - `ReplaceNewlines` is `str.replace("\n", "\n" + pad)`.
  - `Spaces` and `Pad` are `" " * level`.
  - `SplitLines` is `str.splitlines`.
  - `LongestLine` is `max(len(l) for l in ...)`. It returns `None` where `max([])` raises.
- `documents.dfy` (`Documents`): the tree as an immutable datatype `Doc`.
  - Line and Group nodes carry an `id`, which stands for Python object identity.
  - `Children` is `children()`, including the `[None]` of a leaf.
  - `WellFormed` says that identities are unique, so no node is shared.
- `traversal.dfy` (`Traversal`): the mutable fields as a `State`. `chars` is `render_char` and `flat` is `Group.flat`, both keyed by identity.
  - The three callbacks are a datatype `Action`.
  - `AfterVisit` and `VisitChildren` are `breadthfirst` and its `for` loop, as functions of the state.
  - The visiting order is characterised by paths: `Trace`, `TraceExact`, `TraceOrdered`.
- `rendering.dfy` (`Rendering`): `render` as written (`Render`).
  - `Layout` is a pure reference: each Line indented by `k` plus its Nest depth.
  - `RenderIsLayout` relates the two.
- `fitting.dfy` (`Fitting`): one over-width pass (`AdvanceGroups`), characterised exactly by `Frontier` and `Opened`.
  - `RenderDoc` is `render_doc` as written. It has a `fuel` bound on its recursion and an explicit `Exhausted` outcome. `AfterRender` is its second half: measure the rendered text, then return it or make a pass and call again.
- `corrected.dfy` (`Corrected`): `RenderToWidth`, the driver with its defects removed (see Findings).
  - It includes the proof that `render_doc` on a freshly built tree with at least one Line agrees with it wherever `render_doc` returns. A tree without Lines is covered exactly by `Fitting.RenderDocWithoutLines`: there an empty text raises, where the corrected driver returns it.
- `scenarios.dfy` (`Scenarios`): small documents worked through the model.
- `engine.dfy` (`Engine`): the imperative engine. `Tree` holds the document and the two mutable fields.
  - `Visit` (a recursive walk with a loop over `children()`), `Apply`, `Render`, `RenderDoc` and `FitToWidth` update them in place.
  - Each is proved to produce exactly the state and text of the functions above.

### Where the code departs from its evident intent

The model follows the code.

- A pretty-printer would be expected to stop a Nest's indentation at the Groups below it. At `main.py:71` the walk is passed no `stop_at`, so it indents Lines inside nested Groups too (`Rendering.NestReachesIntoGroups`). The model keeps this, because the output of nested `Nest`s depends on it.
- A Line would be expected to render as a single space or a single newline. In the code, `render_char` holds the newline together with the spaces that Nests have added, and each render adds them again (`Rendering.RenderTwiceCompounds`).
- A pretty-printer would be expected to return its best effort once nothing more can break, and a text for every document. The code does neither (Findings 2 and 3).
- A document without Lines would be expected to render alike at every limit. This holds for the corrected driver (`Corrected.LineFreeInvariance`). As written, such a document never returns when it is too wide (`Fitting.RenderDocWithoutLines`).

## Model

| member | source | states |
|---|---|---|
| Lines.ReplaceNewlines | main.py:68-69 | a text with no newline is unchanged |
| Lines.ReplaceLength | main.py:68-69 | the replacement grows the text by the pad once per newline |
| Lines.ReplaceTwice | main.py:69 | replacing with pad `p` and then `q` is replacing once with `q + p` (when `p` has no newline) |
| Lines.ShiftTwice | main.py:66-72 | indenting by `a` columns and then by `b` is indenting by their sum `n` |
| Lines.ShiftZero | main.py:69 | a level-0 Nest changes nothing |
| Lines.SplitLines | main.py:166 | the pieces hold no newline, and there are none exactly when the text is empty |
| Lines.SplitJoin | main.py:166 | joining the pieces with newlines restores the text, up to one final newline |
| Lines.MaxLength | main.py:166 | the result bounds every line's length and is the length of some line |
| Lines.LongestLine | main.py:166 | `None` (where `max([])` raises) exactly for empty text; otherwise the longest line's length |
| Lines.Width | main.py:166 | the corrected measure: no line of the text is longer, and for non-empty text some line is exactly that long; empty text is 0 wide |
| Lines.WidthOfLine | main.py:166 | a text without newlines is as wide as it is long |
| Lines.WidthOfTwoLines | main.py:166 | two lines joined by a newline are as wide as the wider one |
| Documents.Children | main.py:29-87 | leaves give `[None]`; inner nodes give their children (`Cons` left then right), each smaller and within the node's Lines and Groups |
| Traversal.AfterVisit | main.py:17-22 | `breadthfirst`: the state after the walk keeps the same Lines and Groups; `Traversal.VisitAppliesTrace` gives its effect in closed form |
| Traversal.VisitChildren | main.py:24-27 | the loop over `children()` from child `i` on keeps the same Lines and Groups; `Traversal.ChildAppliesTrace` gives its effect |
| Traversal.AfterApply | main.py:147-157 | `add_indentation` (`main.py:67-69`), `make_line_newline` and `make_next_group_not_flat` keep the same Lines and Groups; `Fitting.AdvanceOneGroup` and `Rendering.NestIndentsEveryLine` give their effect |
| Traversal.VisitUnfold | main.py:17-27 | the walk applies the callback to a matching node, stops at a `stop_at` node, and otherwise walks the children in order, skipping `None` |
| Traversal.TraceExact | main.py:17-27 | the callback runs on exactly the nodes that match `search` and have no `stop_at` node strictly above them |
| Traversal.TraceOrdered | main.py:24-27 | the callback runs in pre-order: a node before its descendants, a left subtree before a right one |
| Traversal.ChildAppliesTrace | main.py:24-27 | walking child `i` and the children after it applies the callback at child `i`'s nodes, then at the later children's, in that order |
| Traversal.VisitAppliesTrace | main.py:17-27 | the walk's effect is the callback applied at those nodes, in that order |
| Rendering.Render | main.py:37-84 | `render` keeps the same Lines and Groups; `Rendering.RenderIsLayout` gives its text and the state it leaves |
| Rendering.NestIndentsEveryLine | main.py:66-71 | the Nest walk puts `level` spaces after each newline of every Line below it, inside Groups too; a Line holding `" "` and every flag are unchanged |
| Rendering.RenderIsLayout | main.py:66-72 | the render's text is each Line indented by its Nest depth, and it leaves every Line shifted by that depth |
| Rendering.RenderIgnoresFlat | main.py:83-84 | rendering reads no `flat` flag and changes none |
| Rendering.RenderConsAssociative | main.py:54-55 | left- and right-leaning `*` chains render the same text and state |
| Rendering.IndentedAt | main.py:66-72 | after the render, a Line is shifted by exactly its Nest depth below the rendered node, and a Line outside that node keeps its text |
| Rendering.RenderIndentsLine | main.py:66-72 | one render leaves each Line of the tree shifted by its Nest depth |
| Rendering.RenderTwiceCompounds | main.py:66-72 | rendering the tree twice leaves each Line shifted by twice its Nest depth |
| Rendering.NestReachesIntoGroups | main.py:71 | a Nest's indentation reaches a Line inside a nested Group |
| Fitting.AdvanceGroups | main.py:171 | one pass keeps the same Lines and Groups; `Fitting.AdvanceEffect` gives its effect in closed form |
| Fitting.BreakDirectLines | main.py:147-148 | the Line walk stopping at Groups sets exactly the Lines below no Group to `"\n"` |
| Fitting.AdvanceOneGroup | main.py:151-157 | on a flat Group the callback only clears its flag; on a non-flat Group it breaks the Lines directly under it and advances its nearest inner Groups |
| Fitting.AdvanceEffect | main.py:171 | a pass clears exactly the topmost flat Groups, sets to `"\n"` exactly the Lines inside at least one Group, all of whose enclosing Groups are non-flat (a Line outside every Group is never broken), and changes nothing else |
| Fitting.FrontierExact | main.py:151-157 | a pass clears exactly the flat Groups all of whose enclosing Groups are non-flat |
| Fitting.OpenedExact | main.py:151-157 | a pass breaks exactly the Lines inside at least one Group whose enclosing Groups are all non-flat |
| Fitting.FrontierReachesFlat | main.py:171 | while a flat Group remains, a pass reaches one |
| Fitting.AdvanceProgress | main.py:151-153 | a flag only goes from flat to non-flat; while flat Groups remain a pass removes one; with none left it changes no flag |
| Fitting.RenderDoc | main.py:164-173 | `render_doc` as written keeps the same Lines and Groups; `Fitting.RenderDocFits` and `Corrected.RenderDocAgrees` give its outcome |
| Fitting.AfterRender | main.py:166-173 | after a render, the measure, the return or the pass and next call keep the same Lines and Groups |
| Fitting.RenderDocFits | main.py:164-169 | `render_doc` returns text only when its longest line is within the limit |
| Fitting.RenderDocFirstFit | main.py:164-169 | when the first render fits, it is returned at once and no flag changes |
| Fitting.RenderDocFlatOnlyFalls | main.py:164-173 | across the whole run, no Group goes back from non-flat to flat |
| Fitting.RenderDocWithoutLines | main.py:164-173 | a tree without Lines returns its text if it fits, raises if it is empty, and otherwise never returns |
| Corrected.RenderToWidth | main.py:164-173 | the corrected driver keeps the same Lines and Groups; `Corrected.RenderToWidthFits` gives its verdict and text |
| Corrected.RenderToWidthFits | main.py:164-173 | the corrected driver says truthfully whether its text fits, and the text is the rendering of the state it leaves |
| Corrected.LastPassBreaksAll | main.py:151-157 | the pass that finds no flat Group breaks every Line inside a Group |
| Corrected.RenderToWidthFloor | main.py:171-173 | the corrected driver gives up only on a fully broken tree |
| Corrected.AdvanceFullyBroken | main.py:151-157 | on a fully broken tree a pass changes nothing |
| Corrected.RenderToWidthIdempotent | main.py:164-173 | running the corrected driver again on the tree it left returns the same result |
| Corrected.LineFreeInvariance | main.py:164-173 | a tree without Lines renders the same text at every limit |
| Corrected.Fresh | main.py:43 | a tree just built has every Line `" "` and every Group flat (`flat` defaults to `True` at `main.py:81`), a clean state |
| Corrected.CleanRender | main.py:66-72 | on a clean state the render gives the corrected text, and the indentation it leaves is wiped by the next pass |
| Corrected.CleanAdvance | main.py:151-157 | a pass keeps a clean state clean |
| Corrected.FewerFlat | main.py:151-153 | a pass over a tree with flat Groups lowers their count |
| Corrected.RenderDocStuck | main.py:164-173 | on a clean, fully broken, too-wide tree with at least one Line, `render_doc` never returns |
| Corrected.RenderDocAgrees | main.py:164-173 | from a clean state of a tree with at least one Line (fully broken when `lastPass` is set), `render_doc` either runs out of calls or returns the corrected driver's fitting text, and with enough calls it returns it |
| Corrected.RenderDocFromFresh | main.py:164-173 | on a fresh tree with at least one Line (the Line-free case is `Fitting.RenderDocWithoutLines`), `render_doc` returns the corrected text when it fits, given one call per Group plus two, and never returns when the corrected driver gives up |
| Scenarios.PairFitsFlat | main.py:164-169 | `Group("a" * Line() * "b")` at limit 10 gives `"a b"` |
| Scenarios.PairBreaks | main.py:164-173 | the same tree at limit 1 gives `"a\nb"`, after two passes |
| Scenarios.EmptyTextRaises | main.py:166 | `render_doc(String(""), limit)` reaches `max([])` |
| Scenarios.UnbreakableNeverReturns | main.py:164-173 | `String("abcd")` at limit 3 never returns |
| Scenarios.UnbreakableBestEffort | main.py:164-173 | the corrected driver returns `"abcd"`, marked as not fitting |
| Scenarios.IndentingFirstCall | main.py:66-72 | `Group(Nest(1, "aa" * Line() * "b"))` at limit 3 gives `"aa\n b"` and leaves the Line as `"\n "` |
| Scenarios.IndentingSecondCallDiffers | main.py:66-72 | a second `render_doc` on that tree gives `"aa\n  b"` |
| Scenarios.IndentingCorrectedStable | main.py:164-173 | the corrected driver gives `"aa\n b"` on every call |
| Engine.Tree.constructor | main.py:43 | a new tree: every Line `" "`, every Group flat |
| Engine.Tree.Apply | main.py:151-157 | each callback leaves exactly the state `AfterApply` describes |
| Engine.Tree.Visit | main.py:17-27 | the recursive walk with its loop over `children()` leaves exactly the state `AfterVisit` describes |
| Engine.Tree.Render | main.py:66-72 | the in-place render returns and leaves exactly what `Rendering.Render` describes |
| Engine.Tree.RenderDoc | main.py:164-173 | the loop returns and leaves exactly what `Fitting.RenderDoc` describes |
| Engine.Tree.FitToWidth | main.py:164-173 | the corrected loop returns and leaves exactly what `Corrected.RenderToWidth` describes |

## Left out

- `Doc.length` (`main.py:7-9`) is not modelled. It calls `render()` without its required `limit` argument, so it always raises, and nothing calls it.
- `reset_lines` (`main.py:160-161`) is not modelled, because it is never called.
- `new_data`, `print_limit` and the module-level calls (`main.py:90-144`, `main.py:176-189`) are not modelled. They are demo code that prints through the `rich` library.
- The `limit` parameter of `render` is dropped, because every node ignores it.
- `__mul__` (`main.py:14-15`) is the `Cons` constructor itself.
- Python's recursion limit, which is what actually stops `render_doc`, becomes `fuel` and the `Exhausted` outcome.
- Lines.SplitLines splits on `"\n"` only. Python's `splitlines` also splits on `"\r"`, `"\x0b"`, `"\u2028"` and other separators. The model assumes String texts contain none of them.
- Identity and aliasing are modelled by unique `id`s and `WellFormed`: a tree that shares a node between two places is outside the model.
- Two sibling Groups of which only the first breaks are covered in general by `Fitting.FrontierExact`, not by a worked example.

## Findings

| source | as written | input that shows it | evidently intended | confidence | as-written member | corrected member |
|---|---|---|---|---|---|---|
| main.py:66-72 | `Nest.render` inserts `level` spaces after every newline each time it renders, so a second `render_doc` on the same tree indents again | `Group(Nest(1, String("aa") * Line() * String("b")))`, `render_doc(doc, 3)` twice: `"aa\n b"`, then `"aa\n  b"` | each newline is followed by exactly its Nest depth, however often the tree is rendered | not executed | Scenarios.IndentingSecondCallDiffers | Corrected.RenderToWidthIdempotent |
| main.py:164-173 | once every Group is non-flat and every Line broken, a too-wide text makes `render_doc` recurse until the recursion limit | `render_doc(String("abcd"), 3)` | return the fully broken text as a best effort | not executed | Fitting.RenderDocWithoutLines | Corrected.RenderToWidthFloor |
| main.py:166 | an empty rendering makes `max([])` raise `ValueError` | `render_doc(String(""), 5)` | an empty text is zero columns wide and fits | not executed | Scenarios.EmptyTextRaises | Corrected.RenderToWidthFits |
