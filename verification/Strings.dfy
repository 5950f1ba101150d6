/** The string builtins both text operations lean on: searching, splitting and joining. */
module Strings {
  import opened Options
  import opened Unicode

  predicate MatchAt(t: Text, needle: Text, i: nat) {
    i + |needle| <= |t| && t[i..i + |needle|] == needle
  }

  /** `t.indexOf(needle, from)`. */
  function IndexOf(t: Text, needle: Text, from: nat): (r: Option<nat>)
    requires from <= |t|
    ensures r.Some? ==> from <= r.value && r.value + |needle| <= |t| && MatchAt(t, needle, r.value)
    decreases |t| - from
  {
    if MatchAt(t, needle, from) then Some(from)
    else if from == |t| then None
    else IndexOf(t, needle, from + 1)
  }

  lemma {:induction false} IndexOfIsFirst(t: Text, needle: Text, from: nat, j: nat)
    requires from <= j && from <= |t| && MatchAt(t, needle, j)
    ensures IndexOf(t, needle, from).Some? && IndexOf(t, needle, from).value <= j
    decreases |t| - from
  {
    if !MatchAt(t, needle, from) && from < |t| { IndexOfIsFirst(t, needle, from + 1, j); }
  }

  /** `t.slice(from).split(sep)`. */
  function SplitFrom(t: Text, sep: Text, from: nat): (pieces: seq<Text>)
    requires sep != [] && from <= |t|
    ensures pieces != []
    decreases |t| - from
  {
    match IndexOf(t, sep, from)
    case None => [t[from..]]
    case Some(i) => [t[from..i]] + SplitFrom(t, sep, i + |sep|)
  }

  function Split(t: Text, sep: Text): (pieces: seq<Text>)
    requires sep != []
    ensures pieces != []
  {
    SplitFrom(t, sep, 0)
  }

  function Join<T>(pieces: seq<seq<T>>, glue: seq<T>): seq<T> {
    if pieces == [] then []
    else if |pieces| == 1 then pieces[0]
    else pieces[0] + glue + Join(pieces[1..], glue)
  }

  function Concat(pieces: seq<Text>): Text {
    if pieces == [] then [] else Concat(pieces[..|pieces| - 1]) + pieces[|pieces| - 1]
  }

  lemma JoinCons<T>(piece: seq<T>, rest: seq<seq<T>>, glue: seq<T>)
    requires rest != []
    ensures Join([piece] + rest, glue) == piece + glue + Join(rest, glue)
  {
    assert ([piece] + rest)[1..] == rest;
  }

  lemma {:induction false} JoinSplitFrom(t: Text, sep: Text, from: nat)
    requires sep != [] && from <= |t|
    ensures Join(SplitFrom(t, sep, from), sep) == t[from..]
    decreases |t| - from
  {
    SplitOnce(t, sep, from);
    var next := IndexOf(t, sep, from);
    hide SplitFrom, IndexOf, MatchAt, Join;
    if next.Some? {
      var i := next.value;
      JoinSplitFrom(t, sep, i + |sep|);
      JoinParts(t, sep, from, i, SplitFrom(t, sep, i + |sep|));
    } else {
      JoinOne(t[from..], sep);
    }
  }

  lemma ThreeParts<T>(t: seq<T>, from: nat, i: nat, j: nat)
    requires from <= i <= j <= |t|
    ensures t[from..] == t[from..i] + t[i..j] + t[j..]
  {
  }

  lemma JoinParts<T>(t: seq<T>, sep: seq<T>, from: nat, i: nat, rest: seq<seq<T>>)
    requires from <= i && i + |sep| <= |t| && t[i..i + |sep|] == sep && rest != [] && Join(rest, sep) == t[i + |sep|..]
    ensures Join([t[from..i]] + rest, sep) == t[from..]
  {
    hide Join;
    JoinCons(t[from..i], rest, sep);
    ThreeParts(t, from, i, i + |sep|);
  }

  lemma JoinOne<T>(piece: seq<T>, glue: seq<T>)
    ensures Join([piece], glue) == piece
  {
  }

  /** The first piece, and the split of the rest. */
  lemma SplitOnce(t: Text, sep: Text, from: nat)
    requires sep != [] && from <= |t|
    ensures match IndexOf(t, sep, from)
            case None => SplitFrom(t, sep, from) == [t[from..]]
            case Some(i) =>
              t[i..i + |sep|] == sep && SplitFrom(t, sep, from) == [t[from..i]] + SplitFrom(t, sep, i + |sep|)
  {
  }

  /** Joining the pieces with the separator they were split at gives back the text. */
  lemma JoinSplit(t: Text, sep: Text)
    requires sep != []
    ensures Join(Split(t, sep), sep) == t
  {
    JoinSplitFrom(t, sep, 0);
    assert t[0..] == t;
  }

  lemma SliceOfSlice(t: Text, from: nat, end: nat, i: nat, j: nat)
    requires from <= end <= |t| && i <= j <= end - from
    ensures t[from..end][i..j] == t[from + i..from + j]
  {
    var s := t[from..end];
    assert forall k :: 0 <= k < j - i ==> s[i..j][k] == s[i + k] == t[from + i + k];
  }

  lemma {:induction false} PiecesFree(t: Text, sep: Text, from: nat, k: nat, j: nat)
    requires sep != [] && from <= |t| && k < |SplitFrom(t, sep, from)|
    ensures !MatchAt(SplitFrom(t, sep, from)[k], sep, j)
    decreases |t| - from
  {
    SplitOnce(t, sep, from);
    var next := IndexOf(t, sep, from);
    hide IndexOf, SplitFrom, MatchAt;
    if next.Some? && k > 0 {
      Later(t[from..next.value], SplitFrom(t, sep, next.value + |sep|), k);
      PiecesFree(t, sep, next.value + |sep|, k - 1, j);
    } else {
      assert t[from..] == t[from..|t|];
      FirstPieceFree(t, sep, from, j);
    }
  }

  lemma Later<T>(first: T, rest: seq<T>, k: nat)
    requires 0 < k <= |rest|
    ensures ([first] + rest)[k] == rest[k - 1]
  {
  }

  lemma FirstPieceFree(t: Text, sep: Text, from: nat, j: nat)
    requires sep != [] && from <= |t|
    ensures var next := IndexOf(t, sep, from);
            !MatchAt(t[from..if next.Some? then next.value else |t|], sep, j)
  {
    var next := IndexOf(t, sep, from);
    var end := if next.Some? then next.value else |t|;
    var piece := t[from..end];
    hide IndexOf;
    if j + |sep| <= |piece| && piece[j..j + |sep|] == sep {
      SliceOfSlice(t, from, end, j, j + |sep|);
      IndexOfIsFirst(t, sep, from, from + j);
    }
  }

  /** Positions of occurrences of `needle` that do not overlap, in order, none before `from`. */
  ghost predicate Disjoint(t: Text, needle: Text, from: nat, at: seq<nat>) {
    && (forall k :: 0 <= k < |at| ==> from <= at[k] && MatchAt(t, needle, at[k]))
    && (forall k :: 0 < k < |at| ==> at[k - 1] + |needle| <= at[k])
  }

  lemma {:induction false} DisjointRest(t: Text, needle: Text, from: nat, at: seq<nat>, k: nat)
    requires Disjoint(t, needle, from, at) && 0 < k < |at|
    ensures at[0] + |needle| <= at[k]
  {
    if k > 1 { DisjointRest(t, needle, from, at, k - 1); }
  }

  /** No choice of non-overlapping occurrences has more members than the leftmost one. */
  lemma {:induction false} LeftmostIsMost(t: Text, needle: Text, from: nat, at: seq<nat>)
    requires needle != [] && from <= |t| && Disjoint(t, needle, from, at)
    ensures |at| < |SplitFrom(t, needle, from)|
    decreases |t| - from
  {
    if at != [] {
      IndexOfIsFirst(t, needle, from, at[0]);
      var i := IndexOf(t, needle, from).value;
      var rest := at[1..];
      forall k | 0 <= k < |rest| ensures i + |needle| <= rest[k] && MatchAt(t, needle, rest[k]) {
        DisjointRest(t, needle, from, at, k + 1);
      }
      LeftmostIsMost(t, needle, i + |needle|, rest);
    }
  }
}
