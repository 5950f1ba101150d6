/** Editing a file by replacing text: the surrogate guard, counting and replacing occurrences, and the
    size of the result projected before it is built. */
module TextEdit {
  import opened Options
  import opened Unicode
  import opened Strings

  const REPLACE_FLUSH_PIECES := 1024
  const DEFAULT_FILE_MODE := 0x1A4 // 0o644

  datatype EditRequest = EditRequest(oldString: Text, newString: Text, replaceAll: bool)

  datatype EditOutcome =
    | Ok(replacements: nat, size: nat)
    | NotFound
    | IsDirectory
    | Binary
    | NoMatch
    | NotUnique(count: nat)
    | TooLarge
    | LoneSurrogate

  datatype Entry = Missing | Directory | File(bytes: Bytes, mode: nat)

  // ── The loops ──────────────────────────────────────────────────────────────

  method HasLoneSurrogate(s: Text) returns (r: bool)
    ensures r <==> !WellFormed(s)
  {
    var i := 0;
    while i < |s|
      invariant 0 <= i <= |s|
      invariant forall j :: 0 <= j < i && High(s[j]) ==> j + 1 < i && Low(s[j + 1])
      invariant forall j :: 0 <= j < i && Low(s[j]) ==> j > 0 && High(s[j - 1])
    {
      if High(s[i]) {
        if !(i + 1 < |s| && Low(s[i + 1])) { return true; }
        i := i + 1;
      } else if Low(s[i]) {
        assert !(i > 0 && High(s[i - 1]));
        return true;
      }
      i := i + 1;
    }
    return false;
  }

  method CountOccurrences(haystack: Text, needle: Text) returns (count: nat)
    requires needle != []
    ensures count == |Split(haystack, needle)| - 1
  {
    hide IndexOf, MatchAt;
    count := 0;
    ghost var from := 0;
    var idx := IndexOf(haystack, needle, 0);
    while idx.Some?
      invariant from <= |haystack| && idx == IndexOf(haystack, needle, from)
      invariant count + |SplitFrom(haystack, needle, from)| == |Split(haystack, needle)|
      decreases |haystack| - from
    {
      count := count + 1;
      from := idx.value + |needle|;
      idx := IndexOf(haystack, needle, idx.value + |needle|);
    }
  }

  /** The text cut at its first match only. */
  function SplitOnce(t: Text, needle: Text): (pieces: seq<Text>)
    ensures 1 <= |pieces| <= 2
  {
    match IndexOf(t, needle, 0)
    case None => [t]
    case Some(i) => [t[..i], t[i + |needle|..]]
  }

  function Pieces(t: Text, needle: Text, all: bool): (pieces: seq<Text>)
    requires needle != []
    ensures pieces != []
  {
    if all then Split(t, needle) else SplitOnce(t, needle)
  }

  /** What is still to be emitted once everything before `from` has been. */
  function Rest(t: Text, needle: Text, replacement: Text, all: bool, from: nat): Text
    requires needle != [] && from <= |t|
  {
    if all || from == 0 then Join(if all then SplitFrom(t, needle, from) else SplitOnce(t, needle), replacement)
        else t[from..]
  }

  lemma RestStep(t: Text, needle: Text, replacement: Text, all: bool, from: nat)
    requires needle != [] && from <= |t| && (all || from == 0)
    ensures match IndexOf(t, needle, from)
            case None => Rest(t, needle, replacement, all, from) == t[from..]
            case Some(i) => Rest(t, needle, replacement, all, from) ==
                            t[from..i] + replacement + Rest(t, needle, replacement, all, i + |needle|)
  {
    var next := IndexOf(t, needle, from);
    hide Join, MatchAt;
    if next.Some? {
      var end := next.value + |needle|;
      var rest := if all then SplitFrom(t, needle, end) else [t[end..]];
      JoinCons(t[from..next.value], rest, replacement);
      if !all {
        assert SplitOnce(t, needle) == [t[from..next.value]] + rest;
        JoinOne(t[end..], replacement);
      }
    } else {
      JoinOne(t[from..], replacement);
    }
  }

  lemma JoinOne(piece: Text, glue: Text)
    ensures Join([piece], glue) == piece
  {
  }

  lemma ConcatPush(pieces: seq<Text>, a: Text, b: Text)
    ensures Concat(pieces + [a]) == Concat(pieces) + a && Concat(pieces + [a, b]) == Concat(pieces) + a + b
  {
    var one, two := pieces + [a], pieces + [a, b];
    assert one[..|pieces|] == pieces && two[..|pieces| + 1] == one;
  }

  method ReplaceOccurrences(text: Text, needle: Text, replacement: Text, all: bool) returns (r: Text)
    requires needle != []
    ensures r == Join(Pieces(text, needle, all), replacement)
  {
    hide IndexOf, MatchAt, Concat, Rest, SplitFrom, Split, SplitOnce, Join, OnTrack, Emitted;
    var out, pending: seq<Text>, from := [], [], 0;
    var idx := IndexOf(text, needle, 0);
    TrackStart(text, needle, replacement, all);
    while idx.Some?
      invariant from <= |text| && idx == IndexOf(text, needle, from) && (all || from == 0)
      invariant |pending| < REPLACE_FLUSH_PIECES
      invariant OnTrack(text, needle, replacement, all, from, Emitted(out, pending))
      decreases |text| - from
    {
      var piece := text[from..idx.value];
      TrackStep(text, needle, replacement, all, from, out, pending);
      pending := pending + [piece, replacement];
      if |pending| >= REPLACE_FLUSH_PIECES {
        Flushed(out, pending);
        out := out + Concat(pending);
        pending := [];
      }
      from := idx.value + |needle|;
      if !all { break; }
      idx := IndexOf(text, needle, from);
    }
    TrackEnd(text, needle, replacement, all, from, out, pending);
    pending := pending + [text[from..]];
    r := out + Concat(pending);
  }

  function Emitted(out: Text, pending: seq<Text>): Text {
    out + Concat(pending)
  }

  lemma Flushed(out: Text, pending: seq<Text>)
    ensures Emitted(out + Concat(pending), []) == Emitted(out, pending)
  {
  }

  /** What has been emitted and what is left make up the result. */
  predicate OnTrack(t: Text, needle: Text, replacement: Text, all: bool, from: nat, done: Text)
    requires needle != [] && from <= |t|
  {
    done + Rest(t, needle, replacement, all, from) == Rest(t, needle, replacement, all, 0)
  }

  lemma TrackStart(t: Text, needle: Text, replacement: Text, all: bool)
    requires needle != []
    ensures OnTrack(t, needle, replacement, all, 0, Emitted([], []))
  {
    hide Rest;
    assert Emitted([], []) == [];
  }

  lemma TrackStep(t: Text, needle: Text, replacement: Text, all: bool, from: nat, out: Text, pending: seq<Text>)
    requires needle != [] && from <= |t| && (all || from == 0) && IndexOf(t, needle, from).Some?
    requires OnTrack(t, needle, replacement, all, from, Emitted(out, pending))
    ensures var i := IndexOf(t, needle, from).value;
            OnTrack(t, needle, replacement, all, i + |needle|, Emitted(out, pending + [t[from..i], replacement]))
  {
    hide Rest, IndexOf, MatchAt;
    var i := IndexOf(t, needle, from).value;
    RestStep(t, needle, replacement, all, from);
    ConcatPush(pending, t[from..i], replacement);
    hide Concat;
    Regroup(out, Concat(pending), t[from..i], replacement, Rest(t, needle, replacement, all, i + |needle|));
  }

  lemma Regroup(out: Text, a: Text, b: Text, c: Text, rest: Text)
    ensures out + a + (b + c + rest) == out + (a + b + c) + rest
  {
  }

  lemma Associates(a: Text, b: Text, c: Text)
    ensures a + b + c == a + (b + c)
  {
  }

  lemma TrackEnd(t: Text, needle: Text, replacement: Text, all: bool, from: nat, out: Text, pending: seq<Text>)
    requires needle != [] && from <= |t| && ((all || from == 0) ==> IndexOf(t, needle, from).None?)
    requires OnTrack(t, needle, replacement, all, from, Emitted(out, pending))
    ensures out + Concat(pending + [t[from..]]) == Join(Pieces(t, needle, all), replacement)
  {
    hide Rest, IndexOf, MatchAt, Concat, Join, Pieces, SplitFrom, Split, SplitOnce;
    RestEnd(t, needle, replacement, all, from);
    ConcatPush(pending, t[from..], []);
    RestStart(t, needle, replacement, all);
    Associates(out, Concat(pending), t[from..]);
  }

  lemma RestEnd(t: Text, needle: Text, replacement: Text, all: bool, from: nat)
    requires needle != [] && from <= |t| && ((all || from == 0) ==> IndexOf(t, needle, from).None?)
    ensures Rest(t, needle, replacement, all, from) == t[from..]
  {
    if all || from == 0 { RestStep(t, needle, replacement, all, from); }
  }

  lemma RestStart(t: Text, needle: Text, replacement: Text, all: bool)
    requires needle != []
    ensures Rest(t, needle, replacement, all, 0) == Join(Pieces(t, needle, all), replacement)
  {
  }

  // ── What replacing does to the bytes ───────────────────────────────────────

  ghost predicate AllWellFormed(pieces: seq<Text>) {
    forall k :: 0 <= k < |pieces| ==> WellFormed(pieces[k])
  }

  /** A match of a needle without lone surrogates never starts or ends inside a pair. */
  lemma MatchKeepsPairs(t: Text, needle: Text, i: nat)
    requires needle != [] && WellFormed(needle) && MatchAt(t, needle, i)
    ensures Between(t, i) && Between(t, i + |needle|)
  {
    var last := |needle| - 1;
    assert needle[0] == t[i] && needle[last] == t[i + last];
    assert !Low(needle[0]) && !High(needle[last]);
  }

  lemma CutOut(t: Text, from: nat, i: nat)
    requires WellFormed(t) && from <= i <= |t| && Between(t, from) && Between(t, i)
    ensures WellFormed(t[from..i]) && WellFormed(t[from..])
  {
    CutWellFormed(t, i);
    var front := t[..i];
    if 0 < from < i { assert front[from] == t[from] && front[from - 1] == t[from - 1]; }
    CutWellFormed(front, from);
    CutWellFormed(t, from);
    assert front[from..] == t[from..i];
  }

  lemma AllCons(piece: Text, rest: seq<Text>)
    requires WellFormed(piece) && AllWellFormed(rest)
    ensures AllWellFormed([piece]) && AllWellFormed([piece] + rest)
  {
    hide WellFormed;
  }

  lemma SplitStep(t: Text, sep: Text, from: nat)
    requires sep != [] && from <= |t|
    ensures SplitFrom(t, sep, from) ==
            match IndexOf(t, sep, from) case None => [t[from..]] case Some(i) =>
                [t[from..i]] + SplitFrom(t, sep, i + |sep|)
  {
    hide IndexOf, MatchAt;
  }

  lemma {:induction false} SplitWellFormed(t: Text, needle: Text, from: nat)
    requires WellFormed(t) && needle != [] && WellFormed(needle) && from <= |t| && Between(t, from)
    ensures AllWellFormed(SplitFrom(t, needle, from))
    decreases |t| - from
  {
    hide WellFormed, Between, MatchAt, AllWellFormed, IndexOf, SplitFrom;
    var next := IndexOf(t, needle, from);
    SplitStep(t, needle, from);
    AllNone();
    if next.Some? {
      var i := next.value;
      MatchKeepsPairs(t, needle, i);
      CutOut(t, from, i);
      SplitWellFormed(t, needle, i + |needle|);
      AllCons(t[from..i], SplitFrom(t, needle, i + |needle|));
    } else {
      CutOut(t, from, from);
      AllCons(t[from..], []);
    }
  }

  lemma AllNone()
    ensures AllWellFormed([])
  {
  }

  lemma PiecesWellFormed(t: Text, needle: Text, all: bool)
    requires WellFormed(t) && needle != [] && WellFormed(needle)
    ensures AllWellFormed(Pieces(t, needle, all))
  {
    SplitWellFormed(t, needle, 0);
    var first := IndexOf(t, needle, 0);
    if !all && first.Some? {
      MatchKeepsPairs(t, needle, first.value);
      CutWellFormed(t, first.value);
      CutWellFormed(t, first.value + |needle|);
    }
  }

  function EncodeAll(pieces: seq<Text>): (r: seq<Bytes>)
    ensures |r| == |pieces| && forall k :: 0 <= k < |r| ==> r[k] == Encode(pieces[k])
  {
    if pieces == [] then [] else [Encode(pieces[0])] + EncodeAll(pieces[1..])
  }

  lemma EncodeWellFormedConcat(a: Text, b: Text)
    requires WellFormed(a) && WellFormed(b)
    ensures Encode(a + b) == Encode(a) + Encode(b)
  {
    assert a != [] ==> !High(a[|a| - 1]);
    EncodeConcat(a, b);
  }

  lemma {:induction false} EncodeJoin(pieces: seq<Text>, glue: Text)
    requires AllWellFormed(pieces) && WellFormed(glue)
    ensures WellFormed(Join(pieces, glue)) && Encode(Join(pieces, glue)) == Join(EncodeAll(pieces), Encode(glue))
  {
    hide Encode, WellFormed;
    if pieces == [] {
      EmptyText();
    } else if |pieces| > 1 {
      var rest := pieces[1..];
      EncodeJoin(rest, glue);
      WellFormedConcat(pieces[0], glue);
      WellFormedConcat(pieces[0] + glue, Join(rest, glue));
      EncodeWellFormedConcat(pieces[0], glue);
      EncodeWellFormedConcat(pieces[0] + glue, Join(rest, glue));
      assert EncodeAll(pieces)[1..] == EncodeAll(rest);
    }
  }

  lemma EmptyText()
    ensures WellFormed([]) && Encode([]) == []
  {
  }

  function Total(pieces: seq<Bytes>): nat {
    if pieces == [] then 0 else |pieces[0]| + Total(pieces[1..])
  }

  lemma {:induction false} JoinSize(pieces: seq<Bytes>, glue: Bytes)
    requires pieces != []
    ensures |Join(pieces, glue)| == Total(pieces) + (|pieces| - 1) * |glue|
  {
    if |pieces| > 1 { JoinSize(pieces[1..], glue); }
  }

  lemma JoinSplitOnce(t: Text, needle: Text)
    ensures Join(SplitOnce(t, needle), needle) == t
  {
    var first := IndexOf(t, needle, 0);
    if first.Some? { assert t == t[..first.value] + needle + t[first.value + |needle|..]; }
  }

  /** Replacing swaps the matched bytes and leaves every other byte as it was: one list of byte
      strings, joined by the old string's bytes, is the file, and joined by the new one's, the result.
      The result has no lone surrogate, and the projected size is its size. */
  lemma ReplacementIsExact(bytes: Bytes, t: Text, old_: Text, new_: Text, all: bool)
    requires DecodeText(bytes) == Some(t) && old_ != [] && WellFormed(old_) && WellFormed(new_)
    ensures var pieces := Pieces(t, old_, all);
            var updated := Join(pieces, new_);
            && bytes == Join(EncodeAll(pieces), Encode(old_))
            && Encode(updated) == Join(EncodeAll(pieces), Encode(new_))
            && DecodeText(Encode(updated)) == Some(updated)
            && |Encode(updated)| == |bytes| + (|pieces| - 1) * (|Encode(new_)| - |Encode(old_)|)
  {
    PiecesOfFile(bytes, t, old_, all);
    hide Encode, WellFormed, Pieces, DecodeText, AllWellFormed, Join;
    SwapGlue(Pieces(t, old_, all), old_, new_);
  }

  lemma PiecesOfFile(bytes: Bytes, t: Text, needle: Text, all: bool)
    requires DecodeText(bytes) == Some(t) && needle != [] && WellFormed(needle)
    ensures AllWellFormed(Pieces(t, needle, all)) && Encode(Join(Pieces(t, needle, all), needle)) == bytes
  {
    EncodeDecode(bytes, t);
    PiecesWellFormed(t, needle, all);
    hide Encode, WellFormed, DecodeText, AllWellFormed, Join, Split, SplitOnce;
    if all { JoinSplit(t, needle); } else { JoinSplitOnce(t, needle); }
  }

  lemma SwapGlue(pieces: seq<Text>, old_: Text, new_: Text)
    requires pieces != [] && AllWellFormed(pieces) && WellFormed(old_) && WellFormed(new_)
    ensures var updated := Join(pieces, new_);
            && Encode(Join(pieces, old_)) == Join(EncodeAll(pieces), Encode(old_))
            && Encode(updated) == Join(EncodeAll(pieces), Encode(new_))
            && DecodeText(Encode(updated)) == Some(updated)
            && |Encode(updated)| == |Encode(Join(pieces, old_))| + (|pieces| - 1) * (|Encode(new_)| - |Encode(old_)|)
  {
    hide Encode, WellFormed, DecodeText, AllWellFormed, Join;
    EncodeJoin(pieces, old_);
    EncodeJoin(pieces, new_);
    DecodeEncode(Join(pieces, new_));
    SizeDelta(EncodeAll(pieces), Encode(old_), Encode(new_));
  }

  lemma SizeDelta(pieces: seq<Bytes>, a: Bytes, b: Bytes)
    requires pieces != []
    ensures |Join(pieces, b)| == |Join(pieces, a)| + (|pieces| - 1) * (|b| - |a|)
  {
    JoinSize(pieces, a);
    JoinSize(pieces, b);
    var n := |pieces| - 1;
    assert n * |b| - n * |a| == n * (|b| - |a|);
  }

  /** Without the surrogate guard the projection is wrong: half of a pair matches, and the other half
      comes back as the three bytes of U+FFFD. */
  lemma HalfPairBreaksProjection()
    ensures var t: Text, half: Text := [0xD83D, 0xDE00], [0xD83D];
            && WellFormed(t) && !WellFormed(half)
            && Pieces(t, half, true) == [[], [0xDE00]]
            && Encode(Join(Pieces(t, half, true), [])) == [0xEF, 0xBF, 0xBD]
            && |Encode(t)| + 1 * (0 - |Encode(half)|) == 1
  {
    var t: Text, half: Text, low: Text := [0xD83D, 0xDE00], [0xD83D], [0xDE00];
    HalfPairPieces();
    HalfPairBytes();
    hide Pieces, Encode;
    assert Join([[], low], []) == low;
    assert High(half[0]);
  }

  lemma HalfPairBytes()
    ensures WellFormed([0xD83D, 0xDE00]) && |Encode([0xD83D, 0xDE00])| == 4
    ensures |Encode([0xD83D])| == 3 && Encode([0xDE00]) == [0xEF, 0xBF, 0xBD]
  {
    SizeOfOne([0xDE00]);
    SizeOfOne([0xD83D]);
    SizeOfOne([0xD83D, 0xDE00]);
    hide Encode;
  }

  lemma HalfPairPieces()
    ensures Pieces([0xD83D, 0xDE00], [0xD83D], true) == [[], [0xDE00]]
  {
    var t: Text, half: Text := [0xD83D, 0xDE00], [0xD83D];
    assert t[0..1] == half;
    assert IndexOf(t, half, 0) == Some(0);
    assert t[1..2] == [t[1]];
    assert IndexOf(t, half, 2) == None;
    assert IndexOf(t, half, 1) == None;
    assert SplitFrom(t, half, 1) == [t[1..]];
  }

  lemma SizeOfOne(t: Text)
    requires t != [] && Width(t) == |t|
    ensures Encode(t) == Octets(Front(t))
  {
    assert Scalars(t[|t|..]) == [];
    assert Scalars(t) == [Front(t)];
    assert Utf8([Front(t)]) == Octets(Front(t)) + Utf8([]);
  }

  // ── The edit ───────────────────────────────────────────────────────────────

  /** What an edit promises: the outcome and the entry it leaves, with no projection in it. */
  ghost function Promise(entry: Entry, req: EditRequest, maxBytes: nat): (EditOutcome, Entry)
    requires req.oldString != []
  {
    if !WellFormed(req.oldString) || !WellFormed(req.newString) then (LoneSurrogate, entry)
    else if entry.Missing? then (NotFound, entry)
    else if entry.Directory? then (IsDirectory, entry)
    else if |entry.bytes| > maxBytes then (TooLarge, entry)
    else
      match DecodeText(entry.bytes)
      case None => (Binary, entry)
      case Some(text) =>
        var pieces := Split(text, req.oldString);
        if 0 in text then (Binary, entry)
        else if |pieces| == 1 then (NoMatch, entry)
        else if |pieces| > 2 && !req.replaceAll then (NotUnique(|pieces| - 1), entry)
        else
          var encoded := Encode(Join(pieces, req.newString));
          if |encoded| > maxBytes then (TooLarge, entry)
          else (Ok(|pieces| - 1, |encoded|), entry.(bytes := encoded))
  }

  /** A single match is the same edit with and without `replaceAll`. */
  lemma SingleMatch(t: Text, needle: Text)
    requires needle != [] && |Split(t, needle)| == 2
    ensures SplitOnce(t, needle) == Split(t, needle)
  {
    var i := IndexOf(t, needle, 0).value;
    assert |SplitFrom(t, needle, i + |needle|)| == 1;
  }

  method ApplyEdit(entry: Entry, req: EditRequest, maxBytes: nat) returns (outcome: EditOutcome, after: Entry)
    requires req.oldString != []
    ensures (outcome, after) == Promise(entry, req, maxBytes)
  {
    after := entry;
    var oldLone := HasLoneSurrogate(req.oldString);
    var newLone := HasLoneSurrogate(req.newString);
    hide WellFormed, Encode, DecodeText, Split, SplitOnce;
    if oldLone || newLone { return LoneSurrogate, after; }
    if entry.Missing? { return NotFound, after; }
    if entry.Directory? { return IsDirectory, after; }
    if |entry.bytes| > maxBytes { return TooLarge, after; }
    var decoded := DecodeText(entry.bytes);
    if decoded.None? { return Binary, after; }
    var text := decoded.value;
    if 0 in text { return Binary, after; }
    var count := CountOccurrences(text, req.oldString);
    if count == 0 { return NoMatch, after; }
    if count > 1 && !req.replaceAll { return NotUnique(count), after; }
    var replacements := if req.replaceAll then count else 1;
    if !req.replaceAll { SingleMatch(text, req.oldString); }
    ReplacementIsExact(entry.bytes, text, req.oldString, req.newString, req.replaceAll);
    var delta := |Encode(req.newString)| - |Encode(req.oldString)|;
    if |entry.bytes| + replacements * delta > maxBytes { return TooLarge, after; }
    var updated := ReplaceOccurrences(text, req.oldString, req.newString, req.replaceAll);
    var encoded := Encode(updated);
    if |encoded| > maxBytes { return TooLarge, after; }
    after := File(encoded, DEFAULT_FILE_MODE);
    if entry.mode != DEFAULT_FILE_MODE { after := after.(mode := entry.mode); }
    outcome := Ok(replacements, |encoded|);
  }
}
