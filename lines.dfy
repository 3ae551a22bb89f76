/**
 * Text helpers used by the renderer and the fitting driver: the padding that
 * `str.replace("\n", "\n" + " " * level)` inserts, and the longest-line measure
 * `max(len(line) for line in text.splitlines())`.
 *
 * Line boundaries are '\n' only: the model assumes the text contains none of the
 * other separators Python's `splitlines` also honours.
 */
module Lines {
  import opened Wrappers

  /** `" " * n` for a non-negative count. */
  function Spaces(n: nat): (r: string)
    ensures |r| == n
    ensures forall i :: 0 <= i < n ==> r[i] == ' '
  {
    seq(n, _ => ' ')
  }

  /** Python's `" " * level` yields the empty string for a negative level. */
  function Pad(level: int): (r: nat)
    ensures level <= 0 ==> r == 0
    ensures level >= 0 ==> r == level
  {
    if level > 0 then level else 0
  }

  /** `s.replace("\n", "\n" + pad)`: every newline of `s` is followed by `pad`. */
  function ReplaceNewlines(s: string, pad: string): (r: string)
    ensures '\n' !in s ==> r == s
  {
    if s == [] then []
    else (if s[0] == '\n' then "\n" + pad else [s[0]]) + ReplaceNewlines(s[1..], pad)
  }

  /** The number of newlines in `s`. */
  function Count(s: string): nat
  {
    if s == [] then 0 else (if s[0] == '\n' then 1 else 0) + Count(s[1..])
  }

  /** The replacement grows the text by one pad per newline. */
  lemma {:induction false} ReplaceLength(s: string, pad: string)
    ensures |ReplaceNewlines(s, pad)| == |s| + Count(s) * |pad|
  {
    if s != [] {
      var rest := s[1..];
      ReplaceLength(rest, pad);
      var c := if s[0] == '\n' then 1 else 0;
      assert (c + Count(rest)) * |pad| == c * |pad| + Count(rest) * |pad|;
    }
  }

  /** Indenting by `n` columns: each newline is followed by `n` spaces. */
  function Shift(s: string, n: nat): string
  {
    ReplaceNewlines(s, Spaces(n))
  }

  lemma {:induction false} ReplaceEmptyPad(s: string)
    ensures ReplaceNewlines(s, "") == s
  {
    if s != [] {
      ReplaceEmptyPad(s[1..]);
    }
  }

  lemma {:induction false} ReplaceConcat(a: string, b: string, pad: string)
    ensures ReplaceNewlines(a + b, pad) == ReplaceNewlines(a, pad) + ReplaceNewlines(b, pad)
  {
    if a == [] {
      assert a + b == b;
    } else {
      var head := if a[0] == '\n' then "\n" + pad else [a[0]];
      calc {
        ReplaceNewlines(a + b, pad);
        { assert (a + b)[0] == a[0]; assert (a + b)[1..] == a[1..] + b; }
        head + ReplaceNewlines(a[1..] + b, pad);
        { ReplaceConcat(a[1..], b, pad); }
        head + (ReplaceNewlines(a[1..], pad) + ReplaceNewlines(b, pad));
        (head + ReplaceNewlines(a[1..], pad)) + ReplaceNewlines(b, pad);
      }
    }
  }

  /** Replacing twice inserts both paddings, the later one first. */
  lemma {:induction false} ReplaceTwice(s: string, p: string, q: string)
    requires '\n' !in p
    ensures ReplaceNewlines(ReplaceNewlines(s, p), q) == ReplaceNewlines(s, q + p)
  {
    if s != [] {
      var head := if s[0] == '\n' then "\n" + p else [s[0]];
      ReplaceConcat(head, ReplaceNewlines(s[1..], p), q);
      if s[0] == '\n' {
        ReplaceConcat("\n", p, q);
        assert ReplaceNewlines("\n", q) == "\n" + q by {
          assert "\n"[1..] == [];
        }
        assert ReplaceNewlines(head, q) == "\n" + q + p;
      } else {
        assert ReplaceNewlines(head, q) == head by {
          assert head[1..] == [];
        }
      }
      ReplaceTwice(s[1..], p, q);
    }
  }

  /** Indenting by `a` and then by `b` is indenting by `n`, their sum. */
  lemma ShiftTwice(s: string, a: nat, b: nat, n: nat)
    requires n == a + b
    ensures Shift(Shift(s, a), b) == Shift(s, n)
  {
    var pad := Spaces(n);
    assert Spaces(b) + Spaces(a) == pad;
    assert '\n' !in Spaces(a);
    ReplaceTwice(s, Spaces(a), Spaces(b));
  }

  lemma ShiftDouble(s: string, n: nat)
    ensures Shift(Shift(s, n), n) == Shift(s, 2 * n)
  {
    ShiftTwice(s, n, n, 2 * n);
  }

  /** Indenting by zero columns changes nothing. */
  lemma ShiftZero(s: string)
    ensures Shift(s, 0) == s
  {
    assert Spaces(0) == "";
    ReplaceEmptyPad(s);
  }

  /** Index of the first newline of `s`, or `|s|` when there is none. */
  function FirstNewline(s: string): (i: nat)
    ensures i <= |s|
    ensures forall j :: 0 <= j < i ==> s[j] != '\n'
    ensures i < |s| ==> s[i] == '\n'
  {
    if s == [] then 0
    else if s[0] == '\n' then 0
    else 1 + FirstNewline(s[1..])
  }

  /**
   * `s.splitlines()` for '\n' boundaries: no piece holds a newline, and a
   * final newline does not open an empty last line.
   */
  function SplitLines(s: string): (r: seq<string>)
    ensures r == [] <==> s == []
    ensures forall i :: 0 <= i < |r| ==> '\n' !in r[i]
    decreases |s|
  {
    if s == [] then []
    else
      var i := FirstNewline(s);
      if i == |s| then [s] else [s[..i]] + SplitLines(s[i + 1..])
  }

  /** `"\n".join(ls)`. */
  function JoinLines(ls: seq<string>): string
  {
    if ls == [] then ""
    else if |ls| == 1 then ls[0]
    else ls[0] + "\n" + JoinLines(ls[1..])
  }

  /** Joining the pieces restores the text, up to one trailing newline. */
  lemma {:induction false} SplitJoin(s: string)
    requires s != []
    ensures s == JoinLines(SplitLines(s)) + (if s[|s| - 1] == '\n' then "\n" else "")
    decreases |s|
  {
    var i := FirstNewline(s);
    if i < |s| {
      var head, rest := s[..i], s[i + 1..];
      SplitAround(s, i);
      if rest == [] {
        assert SplitLines(s) == [head];
      } else {
        SplitJoin(rest);
        SplitJoinStep(s, head, rest);
      }
    }
  }

  /** The step of `SplitJoin` past the first newline, once `rest` is known to rejoin. */
  lemma SplitJoinStep(s: string, head: string, rest: string)
    requires s != [] && rest != [] && FirstNewline(s) == |head| < |s|
    requires head == s[..|head|] && rest == s[|head| + 1..]
    requires rest == JoinLines(SplitLines(rest)) + (if rest[|rest| - 1] == '\n' then "\n" else "")
    ensures s == JoinLines(SplitLines(s)) + (if s[|s| - 1] == '\n' then "\n" else "")
  {
    var ls := SplitLines(rest);
    var tail := if rest[|rest| - 1] == '\n' then "\n" else "";
    SplitAround(s, |head|);
    assert SplitLines(s) == [head] + ls;
    JoinFront(head, ls);
    assert s[|s| - 1] == rest[|rest| - 1];
    ConcatAssoc(head + "\n", JoinLines(ls), tail);
  }

  lemma SplitAround(s: string, i: nat)
    requires i < |s| && s[i] == '\n'
    ensures s == s[..i] + "\n" + s[i + 1..]
  {
  }

  lemma ConcatAssoc(a: string, b: string, c: string)
    ensures a + (b + c) == (a + b) + c
  {
  }

  lemma JoinFront(head: string, ls: seq<string>)
    requires ls != []
    ensures JoinLines([head] + ls) == head + "\n" + JoinLines(ls)
  {
    assert ([head] + ls)[1..] == ls;
  }

  /** The longest of a non-empty list of lines (`max(len(l) for l in ls)`). */
  function MaxLength(ls: seq<string>): (m: nat)
    requires ls != []
    ensures forall i :: 0 <= i < |ls| ==> |ls[i]| <= m
    ensures exists i :: 0 <= i < |ls| && |ls[i]| == m
  {
    if |ls| == 1 then |ls[0]|
    else
      var rest := MaxLength(ls[1..]);
      assert forall i :: 1 <= i < |ls| ==> ls[i] == ls[1..][i - 1];
      if |ls[0]| >= rest then |ls[0]| else rest
  }

  /**
   * `max([len(line) for line in text.splitlines()])`: `None` stands for the
   * `ValueError` that `max` raises on the empty list, i.e. on empty text.
   */
  function LongestLine(text: string): (r: Option<nat>)
    ensures r.None? <==> text == []
    ensures r.Some? ==> forall l :: l in SplitLines(text) ==> |l| <= r.value
    ensures r.Some? ==> exists l :: l in SplitLines(text) && |l| == r.value
  {
    var ls := SplitLines(text);
    if ls == [] then None else Some(MaxLength(ls))
  }

  /**
   * Width used by the corrected driver: the length of the longest line, and
   * zero columns for empty text.
   */
  function Width(text: string): (w: nat)
    ensures forall l :: l in SplitLines(text) ==> |l| <= w
    ensures text != [] ==> exists l :: l in SplitLines(text) && |l| == w
    ensures text == [] ==> w == 0
    ensures text != [] ==> LongestLine(text) == Some(w)
  {
    match LongestLine(text)
    case None => 0
    case Some(w) => w
  }

  /** A text without newlines is one line, as wide as it is long. */
  lemma WidthOfLine(s: string)
    requires s != [] && '\n' !in s
    ensures Width(s) == |s|
  {
    assert SplitLines(s) == [s];
  }

  /** Two lines joined by a newline are as wide as the wider of them. */
  lemma WidthOfTwoLines(a: string, b: string)
    requires '\n' !in a && '\n' !in b && b != []
    ensures Width(a + "\n" + b) == if |a| >= |b| then |a| else |b|
  {
    var s := a + "\n" + b;
    var i := FirstNewline(s);
    assert s[|a|] == '\n';
    assert i == |a|;
    assert s[..i] == a && s[i + 1..] == b;
    WidthOfLine(b);
    assert SplitLines(b) == [b];
    assert SplitLines(s) == [a, b];
  }
}
