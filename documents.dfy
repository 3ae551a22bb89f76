/**
 * The document tree of main.py: String, Line, Cons (also built by `*`), Nest and
 * Group. The tree's shape never changes once built. The two fields the engine
 * mutates, `Line.render_char` and `Group.flat`, live outside the tree in maps
 * keyed by the node's identity (`id`), see module Traversal.
 */
module Documents {
  import opened Wrappers
  import opened Lines

  /** The node classes that `isinstance` tests tell apart. */
  datatype Kind = StringKind | LineKind | ConsKind | NestKind | GroupKind

  datatype Doc =
    | String(text: string)
    | Line(id: nat)
    | Cons(left: Doc, right: Doc)
    | Nest(level: int, internals: Doc)
    | Group(id: nat, internals: Doc)

  function KindOf(d: Doc): Kind
  {
    match d
    case String(_) => StringKind
    case Line(_) => LineKind
    case Cons(_, _) => ConsKind
    case Nest(_, _) => NestKind
    case Group(_, _) => GroupKind
  }

  /** Number of nodes; the measure that recursion over the tree decreases. */
  function Size(d: Doc): (n: nat)
    ensures n >= 1
  {
    match d
    case String(_) => 1
    case Line(_) => 1
    case Cons(l, r) => 1 + Size(l) + Size(r)
    case Nest(_, c) => 1 + Size(c)
    case Group(_, c) => 1 + Size(c)
  }

  /** Identities of the Line nodes in `d`. */
  function LineIds(d: Doc): set<nat>
  {
    match d
    case String(_) => {}
    case Line(id) => {id}
    case Cons(l, r) => LineIds(l) + LineIds(r)
    case Nest(_, c) => LineIds(c)
    case Group(_, c) => LineIds(c)
  }

  /** Identities of the Group nodes in `d`. */
  function GroupIds(d: Doc): set<nat>
  {
    match d
    case String(_) => {}
    case Line(_) => {}
    case Cons(l, r) => GroupIds(l) + GroupIds(r)
    case Nest(_, c) => GroupIds(c)
    case Group(id, c) => {id} + GroupIds(c)
  }

  function Ids(d: Doc): set<nat>
  {
    LineIds(d) + GroupIds(d)
  }

  /**
   * Each node owns its children exclusively: no Line or Group object occurs
   * twice, so every identity names exactly one node.
   */
  predicate WellFormed(d: Doc)
  {
    match d
    case String(_) => true
    case Line(_) => true
    case Cons(l, r) => WellFormed(l) && WellFormed(r) && Ids(l) !! Ids(r)
    case Nest(_, c) => WellFormed(c)
    case Group(id, c) => WellFormed(c) && id !in Ids(c)
  }

  /**
   * `Doc.children()`: a leaf answers `[None]`, which every traversal skips;
   * the other nodes answer their sub-documents, left before right.
   */
  function Children(d: Doc): (cs: seq<Option<Doc>>)
    ensures |cs| >= 1
    ensures (d.String? || d.Line?) <==> cs == [None]
    ensures d.Cons? ==> cs == [Some(d.left), Some(d.right)]
    ensures (d.Nest? || d.Group?) ==> cs == [Some(d.internals)]
    ensures forall i :: 0 <= i < |cs| && cs[i].Some? ==>
              Size(cs[i].value) < Size(d) && LineIds(cs[i].value) <= LineIds(d) && GroupIds(cs[i].value) <= GroupIds(d)
  {
    match d
    case String(_) => [None]
    case Line(_) => [None]
    case Cons(l, r) => [Some(l), Some(r)]
    case Nest(_, c) => [Some(c)]
    case Group(_, c) => [Some(c)]
  }

  /** Sum of the (non-negative parts of the) Nest levels around Line `id`. */
  function Depth(d: Doc, id: nat): nat
  {
    match d
    case String(_) => 0
    case Line(_) => 0
    case Cons(l, r) => if id in LineIds(l) then Depth(l, id) else Depth(r, id)
    case Nest(level, c) => Pad(level) + Depth(c, id)
    case Group(_, c) => Depth(c, id)
  }

  /** Identities of the Groups strictly enclosing node `id`. */
  function Enclosing(d: Doc, id: nat): (r: set<nat>)
    ensures r <= GroupIds(d)
  {
    match d
    case String(_) => {}
    case Line(_) => {}
    case Cons(l, r) => if id in Ids(l) then Enclosing(l, id) else Enclosing(r, id)
    case Nest(_, c) => Enclosing(c, id)
    case Group(g, c) => if id == g then {} else {g} + Enclosing(c, id)
  }
}
