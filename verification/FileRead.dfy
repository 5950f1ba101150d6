/** Reading a file in pages: choosing lines, cutting pages to a byte budget on code point boundaries,
    and resuming where a page was cut. */
module FileRead {
  import opened Options
  import opened Unicode
  import opened Strings
  import opened TextEdit

  const NL: Text := [0x0A]

  // ── Lines ──────────────────────────────────────────────────────────────────

  function Lines(t: Text): seq<Text> {
    if t == [] then [] else Split(t, NL)
  }

  method CountLines(text: Text) returns (count: nat)
    ensures count == |Lines(text)|
  {
    hide IndexOf, MatchAt;
    if |text| == 0 { return 0; }
    count := 1;
    ghost var from := 0;
    var idx := IndexOf(text, NL, 0);
    while idx.Some?
      invariant from <= |text| && idx == IndexOf(text, NL, from)
      invariant count - 1 + |SplitFrom(text, NL, from)| == |Split(text, NL)|
      decreases |text| - from
    {
      count := count + 1;
      from := idx.value + 1;
      idx := IndexOf(text, NL, idx.value + 1);
    }
  }

  /** Where the `n`-th line after the one at `from` starts, or the end of the text. */
  function StartAfter(t: Text, from: nat, n: nat): (r: nat)
    requires from <= |t|
    ensures from <= r <= |t|
    decreases n
  {
    if n == 0 then from else
    match IndexOf(t, NL, from) case None => |t| case Some(i) => StartAfter(t, i + 1, n - 1)
  }

  method LineStartOffset(text: Text, n: int) returns (r: nat)
    ensures r == StartAfter(text, 0, if n <= 1 then 0 else n - 1)
  {
    hide IndexOf, MatchAt;
    if n <= 1 { return 0; }
    var idx: nat := 0;
    var seen := 1;
    while seen < n
      invariant 1 <= seen <= n && idx <= |text|
      invariant StartAfter(text, idx, n - seen) == StartAfter(text, 0, n - 1)
    {
      var nl := IndexOf(text, NL, idx);
      if nl.None? { return |text|; }
      idx := nl.value + 1;
      seen := seen + 1;
    }
    return idx;
  }

  /** Lines from where a line starts: skipping `n` of them leaves the text from the `n`-th start on. */
  lemma {:induction false} SkipLines(t: Text, from: nat, n: nat)
    requires from <= |t| && n < |SplitFrom(t, NL, from)|
    ensures SplitFrom(t, NL, StartAfter(t, from, n)) == SplitFrom(t, NL, from)[n..]
    decreases n
  {
    hide IndexOf, MatchAt;
    if n > 0 {
      var i := IndexOf(t, NL, from).value;
      SkipLines(t, i + 1, n - 1);
    }
  }

  lemma {:induction false} PastLastLine(t: Text, from: nat, n: nat)
    requires from <= |t| && n >= |SplitFrom(t, NL, from)|
    ensures StartAfter(t, from, n) == |t|
    decreases n
  {
    hide IndexOf, MatchAt;
    var next := IndexOf(t, NL, from);
    if next.Some? { PastLastLine(t, next.value + 1, n - 1); }
  }

  lemma {:induction false} TakeLines(t: Text, from: nat, n: nat)
    requires from <= |t| && 0 < n < |SplitFrom(t, NL, from)|
    ensures from < StartAfter(t, from, n)
    ensures Join(SplitFrom(t, NL, from)[..n], NL) == t[from..StartAfter(t, from, n) - 1]
    decreases n
  {
    hide IndexOf, MatchAt;
    var i := IndexOf(t, NL, from).value;
    var lines, rest := SplitFrom(t, NL, from), SplitFrom(t, NL, i + 1);
    if n == 1 {
      assert lines[..1] == [t[from..i]];
    } else {
      TakeLines(t, i + 1, n - 1);
      JoinCons(t[from..i], rest[..n - 1], NL);
      assert lines[..n] == [t[from..i]] + rest[..n - 1];
      var end := StartAfter(t, i + 1, n - 1) - 1;
      NewlineAt(t, i);
      assert t[from..end] == t[from..i] + t[i..i + 1] + t[i + 1..end];
    }
  }

  lemma NewlineAt(t: Text, i: nat)
    requires MatchAt(t, NL, i)
    ensures i < |t| && t[i..i + 1] == NL
  {
  }

  lemma {:induction false} StartAfterSum(t: Text, from: nat, m: nat, n: nat)
    requires from <= |t|
    ensures StartAfter(t, from, m + n) == StartAfter(t, StartAfter(t, from, m), n)
    decreases m
  {
    hide IndexOf, MatchAt;
    if m > 0 {
      var next := IndexOf(t, NL, from);
      if next.Some? {
        StartAfterSum(t, next.value + 1, m - 1, n);
      } else {
        AtEnd(t, n);
      }
    }
  }

  lemma AtEnd(t: Text, n: nat)
    ensures StartAfter(t, |t|, n) == |t|
  {
    if n > 0 { assert IndexOf(t, NL, |t|).None?; }
  }

  /** A line starts at either end of the text or right after a newline. */
  lemma {:induction false} StartIsAfterNewline(t: Text, from: nat, n: nat)
    requires from <= |t|
    ensures var r := StartAfter(t, from, n); r == from || r == |t| || (r > 0 && t[r - 1] == 0x0A)
    decreases n
  {
    hide IndexOf;
    if n > 0 {
      var next := IndexOf(t, NL, from);
      if next.Some? {
        StartIsAfterNewline(t, next.value + 1, n - 1);
        NewlineAt(t, next.value);
        assert t[next.value] == t[next.value..next.value + 1][0];
      }
    }
  }

  function FirstLine(offset: Option<nat>): nat {
    match offset case None => 1 case Some(n) => n
  }

  /** `lines.slice(first - 1, first - 1 + limit)`. */
  function Chosen(lines: seq<Text>, first: nat, limit: Option<nat>): seq<Text>
    requires first >= 1
  {
    var lo := if first - 1 <= |lines| then first - 1 else |lines|;
    if limit.None? || |lines| - lo <= limit.value then lines[lo..] else lines[lo..lo + limit.value]
  }

  /** Where a selection of lines ends: the end of the text, or the newline before the next line. */
  function EndOf(t: Text, first: nat, limit: Option<nat>): int
    requires first >= 1
  {
    if limit.Some? && first + limit.value <= |Lines(t)| then StartAfter(t, 0, first - 1 + limit.value) - 1 else |t|
  }

  lemma LinesWithin(t: Text, k: nat, n: nat)
    requires 0 < n && k + n < |Split(t, NL)|
    ensures var from := StartAfter(t, 0, k);
            && from < StartAfter(t, 0, k + n)
            && Join(Split(t, NL)[k..k + n], NL) == t[from..StartAfter(t, 0, k + n) - 1]
  {
    hide IndexOf, MatchAt, StartAfter, SplitFrom, Join;
    SkipLines(t, 0, k);
    StartAfterSum(t, 0, k, n);
    var from := StartAfter(t, 0, k);
    TakeLines(t, from, n);
    assert Split(t, NL)[k..][..n] == Split(t, NL)[k..k + n];
  }

  lemma LinesOnward(t: Text, k: nat)
    requires k < |Split(t, NL)|
    ensures Join(Split(t, NL)[k..], NL) == t[StartAfter(t, 0, k)..]
  {
    hide IndexOf, MatchAt, StartAfter, SplitFrom, Join;
    SkipLines(t, 0, k);
    JoinSplitFrom(t, NL, StartAfter(t, 0, k));
  }

  /** The slice between the two offsets is what splitting, slicing and joining lines would give. */
  lemma SelectionIsSlice(t: Text, first: nat, limit: Option<nat>)
    requires first >= 1 && (limit.Some? ==> limit.value >= 1)
    ensures var from := StartAfter(t, 0, first - 1);
            && from <= EndOf(t, first, limit) <= |t|
            && t[from..EndOf(t, first, limit)] == Join(Chosen(Lines(t), first, limit), NL)
  {
    hide IndexOf, MatchAt, StartAfter, SplitFrom, Split, Join;
    var k, lines := first - 1, Lines(t);
    if t == [] || k >= |lines| {
      Nowhere(t, k);
      assert Chosen(lines, first, limit) == [];
      JoinNone();
    } else if limit.Some? && k + limit.value < |lines| {
      LinesWithin(t, k, limit.value);
    } else {
      LinesOnward(t, k);
      assert t[StartAfter(t, 0, k)..|t|] == t[StartAfter(t, 0, k)..];
    }
  }

  lemma JoinNone()
    ensures Join<Unit>([], NL) == []
  {
  }

  lemma Nowhere(t: Text, k: nat)
    requires t == [] || k >= |Split(t, NL)|
    ensures StartAfter(t, 0, k) == |t| && t[|t|..] == []
  {
    if t == [] { AtEnd(t, k); } else { PastLastLine(t, 0, k); }
  }

  /** The lines a request selects, as the text to return and where it starts. */
  method SelectLines(text: Text, offset: Option<nat>, limit: Option<nat>) returns (start: nat, selected: Text,
                     totalLines: nat)
    requires (offset.Some? ==> offset.value >= 1) && (limit.Some? ==> limit.value >= 1)
    ensures selected == Join(Chosen(Lines(text), FirstLine(offset), limit), NL)
    ensures start == StartAfter(text, 0, FirstLine(offset) - 1)
    ensures start + |selected| <= |text| && selected == text[start..start + |selected|]
    ensures offset.None? ==> start == 0 && (limit.None? ==> selected == text)
    ensures Between(text, start) && Between(text, start + |selected|)
    ensures totalLines == |Lines(text)|
  {
    hide IndexOf, MatchAt, StartAfter, SplitFrom, Split, Join, Chosen, Lines;
    var paging := offset.Some? || limit.Some?;
    totalLines := CountLines(text);
    var firstLine := FirstLine(offset);
    start := 0;
    if paging { start := LineStartOffset(text, firstLine); }
    var end := |text|;
    if paging && limit.Some? && firstLine + limit.value <= totalLines {
      var next := LineStartOffset(text, firstLine + limit.value);
      EndsOnNewline(text, firstLine, limit.value);
      end := next - 1;
    }
    StartZero(text);
    SelectionIsSlice(text, firstLine, limit);
    StartIsAfterNewline(text, 0, firstLine - 1);
    selected := if paging then text[start..end] else text;
    assert text[0..|text|] == text;
  }

  lemma StartZero(t: Text)
    ensures StartAfter(t, 0, 0) == 0
  {
  }

  lemma EndsOnNewline(t: Text, first: nat, limit: nat)
    requires first >= 1 && limit >= 1 && first + limit <= |Lines(t)|
    ensures var r := StartAfter(t, 0, first + limit - 1); r > 0 && t[r - 1] == 0x0A
  {
    var k := first + limit - 1;
    LineExists(t, 0, k);
  }

  lemma {:induction false} LineExists(t: Text, from: nat, n: nat)
    requires from <= |t| && 0 < n < |SplitFrom(t, NL, from)|
    ensures var r := StartAfter(t, from, n); r > 0 && t[r - 1] == 0x0A
    decreases n
  {
    hide IndexOf;
    var i := IndexOf(t, NL, from).value;
    NewlineAt(t, i);
    if n == 1 { assert t[i] == t[i..i + 1][0]; } else { LineExists(t, i + 1, n - 1); }
  }

  // ── Bytes ──────────────────────────────────────────────────────────────────

  /** The selected bytes are the file's own, at the offset that is reported for them. */
  lemma SelectedBytes(bytes: Bytes, text: Text, start: nat, end: nat)
    requires DecodeText(bytes) == Some(text) && start <= end <= |text| && Between(text, start) && Between(text, end)
    ensures var base, sel := |Encode(text[..start])|, Encode(text[start..end]);
            && base + |sel| <= |bytes| && sel == bytes[base..base + |sel|]
            && DecodeText(sel) == Some(text[start..end]) && (start == 0 ==> base == 0)
  {
    EncodeDecode(bytes, text);
    hide DecodeText;
    var head, sel, tail := text[..start], text[start..end], text[end..];
    Rejoin(text, start, end);
    var front := text[..end];
    assert front == head + sel;
    EncodeConcat(front, tail);
    assert 0 < start < end ==> front[start] == text[start] && front[start - 1] == text[start - 1];
    EncodeConcat(head, sel);
    CutWellFormed(text, end);
    CutWellFormed(front, start);
    assert front[start..] == sel;
    DecodeEncode(sel);
    assert start == 0 ==> head == [] && Scalars([]) == [];
    hide Encode, WellFormed, Between;
  }

  lemma Rejoin(t: Text, start: nat, end: nat)
    requires start <= end <= |t|
    ensures t[..start] + t[start..end] == t[..end] && t[..end] + t[end..] == t
  {
  }

  function Clamp(offset: int, length: nat): (r: nat)
    ensures r <= length
  {
    if offset < 0 then 0 else if offset > length then length else offset
  }

  /** `r` is the last place at or before `i` where a code point starts, or the end of the bytes. */
  ghost predicate LastStart(b: Bytes, i: nat, r: nat)
    requires i <= |b|
  {
    r <= i && AtStart(b, r) && forall j :: r < j <= i ==> !AtStart(b, j)
  }

  method SnapToCodepointStart(bytes: Bytes, offset: int) returns (i: nat)
    ensures LastStart(bytes, Clamp(offset, |bytes|), i)
  {
    i := Clamp(offset, |bytes|);
    while i > 0 && i < |bytes| && Continuation(bytes[i])
      invariant i <= Clamp(offset, |bytes|)
      invariant forall j :: i < j <= Clamp(offset, |bytes|) ==> !AtStart(bytes, j)
    {
      i := i - 1;
    }
  }

  /** Every code point has at most four bytes, so the next one starts at most four bytes on. */
  lemma NextStart(b: Bytes, i: nat) returns (next: nat)
    requires Decode(b).Some? && i < |b| && AtStart(b, i)
    ensures i < next <= i + 4 && next <= |b| && AtStart(b, next)
  {
    DecodeCut(b, i);
    var rest := b[i..];
    var n := First(rest).value.1;
    next := i + n;
    if next < |b| {
      assert rest[n..][0] == b[next];
      assert First(rest[n..]).Some?;
    }
  }

  // ── Pages ──────────────────────────────────────────────────────────────────

  datatype Page = BudgetTooSmall | Page(start: nat, end: nat)

  /** `jsonSize(replyFor(cut))`, for the page from `start` to `cut`. */
  type Wire = (nat, nat) -> nat

  /** The budget is 35 bytes more than the reply without content, and no content byte costs more than
      seven, the most that escaping one twice can make of it. */
  ghost predicate Roomy(wire: Wire, budget: nat, start: nat) {
    exists envelope: nat :: Envelope(wire, envelope, start) && envelope + 35 <= budget
  }

  ghost predicate Envelope(wire: Wire, envelope: nat, start: nat) {
    forall cut: nat :: start <= cut ==> wire(start, cut) <= envelope + 7 * (cut - start)
  }

  /** The page shrinks in proportion to how far over the budget it is, rounding off by at most one. */
  ghost predicate Proportional(shrink: (nat, nat) -> nat, budget: nat) {
    forall n: nat, size: nat :: size > budget ==> shrink(n, size) + 1 >= n * budget / size
  }

  /** Where a request begins reading the selected bytes. */
  ghost predicate StartsAt(sel: Bytes, base: nat, byteOffset: Option<nat>, start: nat) {
    LastStart(sel, Clamp(if byteOffset.None? then 0 else byteOffset.value - base, |sel|), start)
  }

  /** What a page promises, wherever the request resumes. */
  ghost predicate Answers(sel: Bytes, base: nat, byteOffset: Option<nat>, page: Page) {
    page.Page? ==>
      && StartsAt(sel, base, byteOffset, page.start)
      && page.start <= page.end <= |sel| && AtStart(sel, page.end)
      && (page.end < |sel| ==> page.start < page.end)
  }

  lemma ShrinksAboveFive(n: nat, budget: nat, envelope: nat, size: nat)
    requires n > 5 && envelope + 35 <= budget < size <= envelope + 7 * n
    ensures n * budget / size >= 5
  {
    AboveFive(n, budget);
    DividesAbove(n * budget, size);
  }

  lemma AboveFive(n: nat, budget: nat)
    requires n > 5 && budget >= 35
    ensures n * budget >= 5 * (budget - 35) + 35 * n
  {
    var m, c := n - 5, budget - 35;
    assert m * c >= 0;
    assert (m + 5) * (c + 35) == m * c + 35 * m + 5 * c + 175;
  }

  lemma DividesAbove(x: nat, size: nat)
    requires size > 0 && x >= 5 * size
    ensures x / size >= 5
  {
    var q := x / size;
    assert x == q * size + x % size;
    assert q <= 4 ==> q * size <= 4 * size;
  }

  lemma Proposal(wire: Wire, shrink: (nat, nat) -> nat, budget: nat, start: nat, end: nat)
    requires Roomy(wire, budget, start) && Proportional(shrink, budget) && start < end && wire(start, end) > budget
    ensures start + 4 < end && shrink(end - start, wire(start, end)) >= 4
  {
    var envelope: nat :| Envelope(wire, envelope, start) && envelope + 35 <= budget;
    ShrinksAboveFive(end - start, budget, envelope, wire(start, end));
  }

  lemma FitsEmpty(wire: Wire, budget: nat, start: nat)
    requires Roomy(wire, budget, start)
    ensures wire(start, start) <= budget && budget >= 35
  {
  }

  /** Cuts one page. Whatever the size of replies and however the shrinking rounds, the loop ends and a
      page that is returned fits and makes progress; with room for one code point it is returned. */
  method CutPage(sel: Bytes, base: nat, byteOffset: Option<nat>, budget: nat, wire: Wire, shrink: (nat, nat) -> nat)
    returns (page: Page)
    requires Decode(sel).Some?
    ensures Answers(sel, base, byteOffset, page)
    ensures page.Page? ==> wire(page.start, page.end) <= budget && page.end - page.start <= budget
    ensures page.BudgetTooSmall? && Proportional(shrink, budget) ==>
            exists start :: StartsAt(sel, base, byteOffset, start) && !Roomy(wire, budget, start)
  {
    var start := SnapToCodepointStart(sel, if byteOffset.None? then 0 else byteOffset.value - base);
    var want := if start + budget < |sel| then start + budget else |sel|;
    var end := SnapToCodepointStart(sel, want);
    assert start <= end;
    ghost var generous := Roomy(wire, budget, start) && Proportional(shrink, budget);
    ghost var next := start;
    if generous { FitsEmpty(wire, budget, start); }
    if start < |sel| { next := NextStart(sel, start); }
    if wire(start, start) > budget { return BudgetTooSmall; }
    while end > start && wire(start, end) > budget
      invariant start <= end <= want && AtStart(sel, end)
      invariant generous ==> next <= end
    {
      if generous { Proposal(wire, shrink, budget, start, end); }
      var fit := shrink(end - start, wire(start, end));
      var proposed := start + if fit < 1 then 1 else fit;
      end := SnapToCodepointStart(sel, if proposed < end - 1 then proposed else end - 1);
    }
    if end == start && start < |sel| { return BudgetTooSmall; }
    page := Page(start, end);
  }

  // ── Following nextByteOffset ───────────────────────────────────────────────

  /** The byte offset the `k`-th request passes. */
  function Resume(base: nat, pages: seq<Page>, k: nat): Option<nat>
    requires k < |pages|
  {
    if k == 0 then None else match pages[k - 1] case Page(_, end) => Some(base + end) case BudgetTooSmall => None
  }

  /** The replies a caller collects: the first request names no byte offset, every later one passes the
      previous reply's `nextByteOffset`, and only the last reply may be complete. */
  ghost predicate Follows(sel: Bytes, base: nat, pages: seq<Page>) {
    && (forall k :: 0 <= k < |pages| ==> pages[k].Page?)
    && (forall k :: 0 <= k < |pages| ==> Answers(sel, base, Resume(base, pages, k), pages[k]))
    && (forall k :: 0 <= k < |pages| - 1 ==> pages[k].end < |sel|)
  }

  function Contents(sel: Bytes, pages: seq<Page>): Bytes {
    if pages == [] then [] else
    var last := pages[|pages| - 1];
    Contents(sel, pages[..|pages| - 1]) + if last.Page?
        && last.start <= last.end <= |sel| then sel[last.start..last.end] else []
  }

  function Texts(sel: Bytes, pages: seq<Page>): Text {
    if pages == [] then [] else
    var last := pages[|pages| - 1];
    Texts(sel, pages[..|pages| - 1]) +
    if last.Page? && last.start <= last.end <= |sel| then DecodeText(sel[last.start..last.end]).GetOr([]) else []
  }

  /** A resumed request begins exactly where the previous page was cut. */
  lemma ResumesAtCut(sel: Bytes, base: nat, cut: nat, start: nat)
    requires cut <= |sel| && AtStart(sel, cut) && StartsAt(sel, base, Some(base + cut), start)
    ensures start == cut
  {
    assert Clamp(base + cut - base, |sel|) == cut;
  }

  lemma {:induction false} PrefixSoFar(sel: Bytes, base: nat, pages: seq<Page>)
    requires Decode(sel).Some? && Follows(sel, base, pages) && pages != []
    ensures var last := pages[|pages| - 1];
            && last.start <= last.end <= |sel| && AtStart(sel, last.end)
            && (last.end < |sel| ==> |pages| <= last.end) && |pages| <= last.start + 1
            && Contents(sel, pages) == sel[..last.end]
            && DecodeText(sel[..last.end]) == Some(Texts(sel, pages))
    decreases |pages|
  {
    var k := |pages| - 1;
    var last, front := pages[k], pages[..k];
    assert Answers(sel, base, Resume(base, pages, k), pages[k]);
    if |pages| == 1 {
      NoTextYet(sel);
    } else {
      var prior := front[|front| - 1];
      FollowsFront(sel, base, pages);
      PrefixSoFar(sel, base, front);
      assert prior == pages[|pages| - 2];
      ResumesAtCut(sel, base, prior.end, last.start);
    }
    hide Decode, DecodeText;
    OneMore(sel, last.start, last.end);
  }

  lemma FollowsFront(sel: Bytes, base: nat, pages: seq<Page>)
    requires Follows(sel, base, pages) && |pages| > 1
    ensures Follows(sel, base, pages[..|pages| - 1])
  {
    var front := pages[..|pages| - 1];
    forall k | 0 <= k < |front|
      ensures front[k].Page? && Answers(sel, base, Resume(base, front, k), front[k])
    {
      assert Answers(sel, base, Resume(base, pages, k), pages[k]);
    }
  }

  lemma NoTextYet(sel: Bytes)
    ensures sel[..0] == [] && DecodeText([]) == Some([])
  {
  }

  /** Text up to one cut and text from there to the next make up the text to the next. */
  lemma OneMore(sel: Bytes, start: nat, end: nat)
    requires Decode(sel).Some? && start <= end <= |sel| && AtStart(sel, start) && AtStart(sel, end)
    ensures DecodeText(sel[..start]).Some? && DecodeText(sel[start..end]).Some?
    ensures DecodeText(sel[..end]) == Some(DecodeText(sel[..start]).value + DecodeText(sel[start..end]).value)
    ensures sel[..start] + sel[start..end] == sel[..end]
  {
    DecodeTwice(sel, start, end);
    hide Decode;
    Utf16Concat(Decode(sel[..start]).value, Decode(sel[start..end]).value);
  }

  lemma DecodeTwice(sel: Bytes, start: nat, end: nat)
    requires Decode(sel).Some? && start <= end <= |sel| && AtStart(sel, start) && AtStart(sel, end)
    ensures Decode(sel[..start]).Some? && Decode(sel[start..end]).Some? && sel[..start] + sel[start..end] == sel[..end]
    ensures Decode(sel[..end]) == Some(Decode(sel[..start]).value + Decode(sel[start..end]).value)
  {
    hide Decode;
    DecodeCut(sel, end);
    var front := sel[..end];
    assert start < end ==> front[start] == sel[start];
    DecodeCut(front, start);
    assert front[..start] == sel[..start] && front[start..] == sel[start..end];
  }

  lemma {:induction false} Utf16Concat(a: seq<Scalar>, b: seq<Scalar>)
    ensures Utf16(a + b) == Utf16(a) + Utf16(b)
  {
    if a == [] {
      assert a + b == b;
    } else {
      hide Units;
      assert (a + b)[0] == a[0] && (a + b)[1..] == a[1..] + b;
      Utf16Concat(a[1..], b);
    }
  }

  /** Following `nextByteOffset` to a complete reply yields the selection, byte for byte and, page by
      page, as text; and no caller that keeps following can be sent round for ever. */
  lemma PagingIsLossless(sel: Bytes, base: nat, pages: seq<Page>)
    requires Decode(sel).Some? && Follows(sel, base, pages) && pages != []
    ensures |pages| <= |sel| + 1
    ensures pages[|pages| - 1].end == |sel| ==>
            Contents(sel, pages) == sel && DecodeText(sel) == Some(Texts(sel, pages))
  {
    PrefixSoFar(sel, base, pages);
    assert sel[..|sel|] == sel;
  }

  /** A resume that does not repeat the line range begins at the same byte of the file. */
  lemma ResumeWithoutLines(bytes: Bytes, base: nat, sel: Bytes, cut: nat, start: nat)
    requires base + |sel| <= |bytes| && sel == bytes[base..base + |sel|] && 0 < cut < |sel| && AtStart(sel, cut)
    requires StartsAt(bytes, 0, Some(base + cut), start)
    ensures start == base + cut
  {
    assert bytes[base + cut] == sel[cut];
    ResumesAtCut(bytes, 0, base + cut, start);
  }

  // ── The request ────────────────────────────────────────────────────────────

  datatype ReadRequest = ReadRequest(offset: Option<nat>, limit: Option<nat>, byteOffset: Option<nat>)

  datatype Reply = Reply(content: Text, size: nat, totalLines: nat, firstLine: nat, truncated: bool,
      nextByteOffset: Option<nat>)

  datatype ReadOutcome =
    | NoFile
    | ReadsDirectory
    | FileTooLarge(size: nat)
    | NotText
    | NoPage
    | Read(reply: Reply)

  ghost predicate Acceptable(req: ReadRequest) {
    (req.offset.Some? ==> req.offset.value >= 1) && (req.limit.Some? ==> req.limit.value >= 1)
  }

  function Selection(text: Text, req: ReadRequest): Text
    requires FirstLine(req.offset) >= 1
  {
    Join(Chosen(Lines(text), FirstLine(req.offset), req.limit), NL)
  }

  /** The byte of the file at which the selected lines start. */
  function Base(text: Text, req: ReadRequest): nat
    requires FirstLine(req.offset) >= 1
  {
    |Encode(text[..StartAfter(text, 0, FirstLine(req.offset) - 1)])|
  }

  ghost predicate Carries(bytes: Bytes, text: Text, req: ReadRequest, page: Page, reply: Reply)
    requires FirstLine(req.offset) >= 1
  {
    var sel, base := Encode(Selection(text, req)), Base(text, req);
    && page.Page? && Answers(sel, base, req.byteOffset, page)
    && DecodeText(sel[page.start..page.end]) == Some(reply.content)
    && reply.size == |bytes| && reply.totalLines == |Lines(text)| && reply.firstLine == FirstLine(req.offset)
    && reply.truncated == (page.end < |sel|)
    && reply.nextByteOffset == (if reply.truncated then Some(base + page.end) else None)
  }

  /** The selected lines are a stretch of the file that starts at `Base`. */
  lemma SelectionInFile(bytes: Bytes, text: Text, req: ReadRequest, start: nat)
    requires Acceptable(req) && DecodeText(bytes) == Some(text)
    requires start == StartAfter(text, 0, FirstLine(req.offset) - 1) && start + |Selection(text, req)| <= |text|
    requires Selection(text, req) == text[start..start + |Selection(text, req)|]
    requires Between(text, start) && Between(text, start + |Selection(text, req)|)
    ensures var base, sel := Base(text, req), Encode(Selection(text, req));
            && base + |sel| <= |bytes| && sel == bytes[base..base + |sel|] && (start == 0 ==> base == 0)
            && Decode(sel).Some? && DecodeText(sel) == Some(Selection(text, req))
  {
    hide Selection, Encode, Decode, StartAfter, Between;
    SelectedBytes(bytes, text, start, start + |Selection(text, req)|);
  }

  method ReadFile(entry: Entry, req: ReadRequest, maxFile: nat, budget: nat, wire: Wire, shrink: (nat, nat) -> nat)
    returns (r: ReadOutcome)
    requires Acceptable(req)
    ensures r.NoFile? <==> entry.Missing?
    ensures r.ReadsDirectory? <==> entry.Directory?
    ensures r.FileTooLarge? <==> entry.File? && |entry.bytes| > maxFile
    ensures r.NotText? <==> entry.File? && |entry.bytes| <= maxFile && DecodeText(entry.bytes).None?
    ensures r.Read? ==> exists page :: Carries(entry.bytes, DecodeText(entry.bytes).value, req, page, r.reply)
                                       && wire(page.start, page.end) <= budget
    ensures r.NoPage? ==> entry.File? && DecodeText(entry.bytes).Some?
    ensures r.NoPage? && Proportional(shrink, budget) ==>
              var text := DecodeText(entry.bytes).value;
              exists start :: && StartsAt(Encode(Selection(text, req)), Base(text, req), req.byteOffset, start)
                              && !Roomy(wire, budget, start)
  {
    hide DecodeText, Decode, Encode, Selection, StartAfter, Lines, Join, Chosen;
    if entry.Missing? { return NoFile; }
    if entry.Directory? { return ReadsDirectory; }
    var bytes := entry.bytes;
    if |bytes| > maxFile { return FileTooLarge(|bytes|); }
    var decoded := DecodeText(bytes);
    if decoded.None? { return NotText; }
    var text := decoded.value;
    var startChar, selected, totalLines := SelectLines(text, req.offset, req.limit);
    IsSelection(text, req);
    SelectionInFile(bytes, text, req, startChar);
    var base := if startChar == 0 then 0 else |Encode(text[..startChar])|;
    var sel := Encode(selected);
    var page := CutPage(sel, base, req.byteOffset, budget, wire, shrink);
    if page.BudgetTooSmall? { return NoPage; }
    OneMore(sel, page.start, page.end);
    var truncated := page.end < |sel|;
    var content := DecodeText(sel[page.start..page.end]).value;
    var reply := Reply(content, |bytes|, totalLines, FirstLine(req.offset), truncated,
                       if truncated then Some(base + page.end) else None);
    assert Carries(bytes, text, req, page, reply);
    r := Read(reply);
  }

  lemma IsSelection(text: Text, req: ReadRequest)
    requires FirstLine(req.offset) >= 1
    ensures Selection(text, req) == Join(Chosen(Lines(text), FirstLine(req.offset), req.limit), NL)
  {
  }
}
