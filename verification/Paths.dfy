/** Path strings: normalisation, and what the string tests on normalised paths mean by components. */
module Paths {
  import Tables

  type Path = Tables.Path

  /** `s.split("/")`. */
  function Split(s: string): (parts: seq<string>)
    ensures parts != []
  {
    if '/' !in s then [s] else var i := IndexOf(s, '/'); [s[..i]] + Split(s[i + 1..])
  }

  function IndexOf(s: string, c: char): (i: nat)
    requires c in s
    ensures i < |s| && s[i] == c && c !in s[..i]
  {
    if s[0] == c then 0 else 1 + IndexOf(s[1..], c)
  }

  /** `filter((seg) => seg && seg !== ".")`. */
  function Meaningful(parts: seq<string>): seq<string> {
    if parts == [] then []
    else (if parts[0] == "" || parts[0] == "." then [] else [parts[0]]) + Meaningful(parts[1..])
  }

  function Push(stack: Path, part: string): Path {
    if part == ".." then (if stack == [] then [] else stack[..|stack| - 1]) else stack + [part]
  }

  function Stack(parts: seq<string>): Path {
    if parts == [] then [] else Push(Stack(parts[..|parts| - 1]), parts[|parts| - 1])
  }

  /** The path a string names, by components. */
  function Components(p: string): Path {
    Stack(Meaningful(Split(p)))
  }

  function Joined(p: Path): string {
    if p == [] then "" else "/" + p[0] + Joined(p[1..])
  }

  function Render(p: Path): string {
    if p == [] then "/" else Joined(p)
  }

  predicate CleanName(c: string) {
    c != "" && c != "." && c != ".." && '/' !in c
  }

  /** A path as normalisation leaves it. */
  predicate Clean(p: Path) {
    forall i :: 0 <= i < |p| ==> CleanName(p[i])
  }

  method Join(parts: Path) returns (s: string)
    requires parts != []
    ensures "/" + s == Joined(parts)
  {
    s := parts[0];
    assert Joined(parts[..1]) == "/" + parts[0];
    for i := 1 to |parts|
      invariant "/" + s == Joined(parts[..i])
    {
      assert parts[..i + 1] == parts[..i] + [parts[i]];
      JoinedConcat(parts[..i], [parts[i]]);
      assert Joined([parts[i]]) == "/" + parts[i];
      s := s + "/" + parts[i];
    }
    assert parts[..|parts|] == parts;
  }

  method FoldStack(parts: seq<string>) returns (stack: Path)
    ensures stack == Stack(parts)
  {
    stack := [];
    for i := 0 to |parts|
      invariant stack == Stack(parts[..i])
    {
      assert parts[..i + 1][..i] == parts[..i];
      if parts[i] == ".." {
        if stack != [] { stack := stack[..|stack| - 1]; }
      } else {
        stack := stack + [parts[i]];
      }
    }
    assert parts[..|parts|] == parts;
  }

  method NormalizeFsPath(p: string) returns (r: string)
    ensures r == Render(Components(p)) && Clean(Components(p))
    ensures Components(r) == Components(p)
  {
    hide Split, Meaningful, Joined, Clean, Stack;
    ComponentsClean(p);
    ComponentsRender(Components(p));
    if p == "" || p == "/" {
      EmptyComponents();
      return "/";
    }
    var s := if p[0] == '/' then p else "/" + p;
    LeadingSlash(p);
    var stack := FoldStack(Meaningful(Split(s)));
    if stack == [] { return "/"; }
    var joined := Join(stack);
    return "/" + joined;
  }

  lemma LeadingSlash(p: string)
    ensures Split("/" + p) == [""] + Split(p)
    ensures Meaningful(Split("/" + p)) == Meaningful(Split(p))
  {
    assert ("/" + p)[0] == '/' && ("/" + p)[1..] == p;
    assert ("/" + p)[..0] == "";
    assert ([""] + Split(p))[1..] == Split(p);
  }

  // ── Normalised paths are the clean ones ────────────────────────────────────

  lemma {:induction false} SplitNames(s: string)
    ensures forall i :: 0 <= i < |Split(s)| ==> '/' !in Split(s)[i]
    decreases |s|
  {
    if '/' in s { SplitNames(s[IndexOf(s, '/') + 1..]); }
  }

  lemma {:induction false} MeaningfulNames(parts: seq<string>)
    requires forall i :: 0 <= i < |parts| ==> '/' !in parts[i]
    ensures forall i :: 0 <= i < |Meaningful(parts)| ==>
              Meaningful(parts)[i] != "" && Meaningful(parts)[i] != "." && '/' !in Meaningful(parts)[i]
  {
    if parts != [] { MeaningfulNames(parts[1..]); }
  }

  lemma {:induction false} StackClean(parts: seq<string>)
    requires forall i :: 0 <= i < |parts| ==> parts[i] != "" && parts[i] != "." && '/' !in parts[i]
    ensures Clean(Stack(parts))
  {
    if parts != [] { StackClean(parts[..|parts| - 1]); }
  }

  lemma ComponentsClean(p: string)
    ensures Clean(Components(p))
  {
    SplitNames(p);
    MeaningfulNames(Split(p));
    StackClean(Meaningful(Split(p)));
  }

  lemma SplitAt(s: string, i: nat)
    requires i < |s| && s[i] == '/' && '/' !in s[..i]
    ensures Split(s) == [s[..i]] + Split(s[i + 1..])
  {
    IndexFirst(s, i);
    hide IndexOf;
    assert s[i] in s;
  }

  lemma SplitWhole(s: string)
    requires '/' !in s
    ensures Split(s) == [s]
  {
  }

  /** Splitting around a separator. */
  lemma {:induction false} SplitConcat(s: string, rest: string)
    ensures Split(s + "/" + rest) == Split(s) + Split(rest)
    decreases |s|
  {
    hide Split;
    if '/' !in s {
      CutAt(s, rest, |s|);
      assert s[..|s|] == s;
      SplitAt(s + "/" + rest, |s|);
      SplitWhole(s);
    } else {
      var i := IndexOf(s, '/');
      hide IndexOf;
      CutAt(s, rest, i);
      SplitAt(s, i);
      SplitAt(s + "/" + rest, i);
      SplitConcat(s[i + 1..], rest);
      Assoc([s[..i]], Split(s[i + 1..]), Split(rest));
    }
  }

  lemma CutAt(s: string, rest: string, i: nat)
    requires i <= |s| && (i < |s| ==> s[i] == '/')
    ensures var t := s + "/" + rest;
            t[..i] == s[..i] && t[i] == '/' && t[i + 1..] == if i < |s| then s[i + 1..] + "/" + rest else rest
  {
  }

  lemma Assoc<T>(a: seq<T>, b: seq<T>, c: seq<T>)
    ensures a + b + c == a + (b + c)
  {
  }

  lemma {:induction false} IndexFirst(s: string, i: nat)
    requires i < |s| && s[i] == '/' && '/' !in s[..i]
    ensures IndexOf(s, '/') == i
  {
    if i > 0 {
      assert s[0] == s[..i][0];
      assert s[1..][..i - 1] == s[..i][1..];
      IndexFirst(s[1..], i - 1);
    }
  }

  lemma {:induction false} SplitJoined(c: string, p: Path)
    requires '/' !in c && Clean(p)
    ensures Split(c + Joined(p)) == [c] + p
    decreases |p|
  {
    hide Split;
    if p == [] {
      assert c + Joined(p) == c;
      SplitWhole(c);
    } else {
      assert CleanName(p[0]);
      var rest := p[0] + Joined(p[1..]);
      Assoc("/", p[0], Joined(p[1..]));
      Assoc(c, "/", rest);
      SplitConcat(c, rest);
      SplitWhole(c);
      SplitJoined(p[0], p[1..]);
      assert [p[0]] + p[1..] == p;
    }
  }

  lemma CleanStays(p: Path)
    requires Clean(p)
    ensures Meaningful(p) == p && Stack(p) == p
  {
    MeaningfulStays(p);
    StackStays(p);
  }

  lemma {:induction false} StackStays(p: Path)
    requires Clean(p)
    ensures Stack(p) == p
  {
    if p != [] {
      assert CleanName(p[|p| - 1]);
      StackStays(p[..|p| - 1]);
    }
  }

  lemma {:induction false} MeaningfulStays(p: Path)
    requires Clean(p)
    ensures Meaningful(p) == p
  {
    if p != [] { assert CleanName(p[0]); MeaningfulStays(p[1..]); }
  }

  /** Rendering a clean path and reading it back is the identity, so normalising twice changes
      nothing and different clean paths have different strings. */
  lemma ComponentsRender(p: Path)
    requires Clean(p)
    ensures Components(Render(p)) == p
  {
    hide Split;
    if p == [] {
      EmptyComponents();
    } else {
      SplitJoined("", p);
      assert "" + Joined(p) == Joined(p);
      assert ([""] + p)[0] == "" && ([""] + p)[1..] == p;
      assert Meaningful([""] + p) == Meaningful(p);
      hide Meaningful, Stack, Joined;
      CleanStays(p);
    }
  }

  lemma EmptyComponents()
    ensures Components("") == [] && Components("/") == []
  {
    LeadingSlash("");
    assert "/" + "" == "/";
    SplitWhole("");
    assert Meaningful([""]) == [];
  }

  lemma {:induction false} JoinedConcat(a: Path, b: Path)
    ensures Joined(a + b) == Joined(a) + Joined(b)
    decreases |a|
  {
    if a == [] { assert a + b == b; } else {
      assert (a + b)[1..] == a[1..] + b;
      JoinedConcat(a[1..], b);
    }
  }

  // ── What the names of a string do ──────────────────────────────────────────

  /** From a directory, one name on. */
  function Step(p: Path, name: string): Path {
    if name == "" || name == "." then p
    else if name == ".." then Tables.ParentOf(p)
    else p + [name]
  }

  /** From a directory, one name after another. */
  function Walked(p: Path, names: seq<string>): Path
    decreases |names|
  {
    if names == [] then p else Walked(Step(p, names[0]), names[1..])
  }

  lemma {:induction false} MeaningfulConcat(a: seq<string>, b: seq<string>)
    ensures Meaningful(a + b) == Meaningful(a) + Meaningful(b)
  {
    if a == [] { assert a + b == b; } else {
      assert (a + b)[1..] == a[1..] + b;
      MeaningfulConcat(a[1..], b);
    }
  }

  lemma StackMore(parts: seq<string>, names: seq<string>)
    requires names != []
    ensures Stack(parts + Meaningful([names[0]])) == Step(Stack(parts), names[0])
  {
    var one := Meaningful([names[0]]);
    assert [names[0]][1..] == [];
    if one == [] { assert parts + one == parts; } else { assert (parts + one)[..|parts|] == parts; }
  }

  lemma {:induction false} StackWalks(parts: seq<string>, names: seq<string>)
    ensures Stack(parts + Meaningful(names)) == Walked(Stack(parts), names)
    decreases |names|
  {
    if names == [] {
      assert parts + Meaningful(names) == parts;
    } else {
      assert names == [names[0]] + names[1..];
      MeaningfulConcat([names[0]], names[1..]);
      StackMore(parts, names);
      Assoc(parts, Meaningful([names[0]]), Meaningful(names[1..]));
      StackWalks(parts + Meaningful([names[0]]), names[1..]);
    }
  }

  /** The path a string names is reached from the root by walking its names in order: empty ones and "." stay,
      ".." goes up one if it can, any other goes down. */
  lemma ComponentsWalk(s: string)
    ensures Components(s) == Walked([], Split(s))
  {
    StackWalks([], Split(s));
    assert [] + Meaningful(Split(s)) == Meaningful(Split(s));
  }

  /** Appended to a clean path, a string is walked from there. */
  lemma ComponentsBelow(base: Path, s: string)
    requires Clean(base)
    ensures Components(if base == [] then "/" + s else Render(base) + "/" + s) == Walked(base, Split(s))
  {
    if base == [] {
      LeadingSlash(s);
      ComponentsWalk(s);
    } else {
      SplitConcat(Render(base), s);
      MeaningfulConcat(Split(Render(base)), Split(s));
      ComponentsRender(base);
      StackWalks(Meaningful(Split(Render(base))), Split(s));
    }
  }

  lemma {:induction false} WalkedClean(p: Path, names: Path)
    requires Clean(names)
    ensures Walked(p, names) == p + names
    decreases |names|
  {
    if names == [] {
      assert p + names == p;
    } else {
      assert CleanName(names[0]);
      WalkedClean(Step(p, names[0]), names[1..]);
      assert p + [names[0]] + names[1..] == p + names;
    }
  }

  lemma {:induction false} WalkedConcat(p: Path, a: seq<string>, b: seq<string>)
    ensures Walked(p, a + b) == Walked(Walked(p, a), b)
    decreases |a|
  {
    if a == [] { assert a + b == b; } else {
      assert (a + b)[1..] == a[1..] + b;
      WalkedConcat(Step(p, a[0]), a[1..], b);
    }
  }

  // ── The string tests ───────────────────────────────────────────────────────

  /** The overlap test of the reservations. */
  predicate Overlaps(a: string, b: string) {
    a == b || a == "/" || b == "/" || b + "/" <= a || a + "/" <= b
  }

  /** `startsWith(dir + "/")` is "strictly below `dir`" by components, and not merely a longer name. */
  lemma StartsWithIsBelow(dir: Path, p: Path)
    requires Clean(dir) && Clean(p) && dir != []
    ensures Render(dir) + "/" <= Render(p) <==> dir <= p && dir != p
  {
    if Render(dir) + "/" <= Render(p) { BelowIfStarts(dir, p); }
    if dir <= p && dir != p { StartsIfBelow(dir, p); }
  }

  lemma BelowIfStarts(dir: Path, p: Path)
    requires Clean(dir) && Clean(p) && dir != [] && Render(dir) + "/" <= Render(p)
    ensures dir <= p && dir != p
  {
    hide Split;
    var a, b := Joined(dir), Render(p);
    assert p != [] by { assert |b| > |a| && |a| > 0; }
    var rest := b[|a| + 1..];
    assert b == a + "/" + rest;
    SplitConcat(a, rest);
    SplitJoined("", dir);
    assert "" + a == a;
    SplitJoined("", p);
    assert "" + b == b;
    hide Joined, Clean, Render;
    Assoc([""], dir, Split(rest));
    assert p == ([""] + p)[1..] == ([""] + (dir + Split(rest)))[1..] == dir + Split(rest);
    assert |dir + Split(rest)| > |dir|;
  }

  lemma StartsIfBelow(dir: Path, p: Path)
    requires dir != [] && dir <= p && dir != p
    ensures Render(dir) + "/" <= Render(p)
  {
    var z := p[|dir|..];
    assert p == dir + z && z != [];
    JoinedConcat(dir, z);
    assert Joined(z)[0] == '/';
  }

  /** On normalised paths the test is exactly "the same path, or one above the other". */
  lemma OverlapIsPrefix(a: Path, b: Path)
    requires Clean(a) && Clean(b)
    ensures Overlaps(Render(a), Render(b)) <==> a <= b || b <= a
  {
    ComponentsRender(a);
    ComponentsRender(b);
    ComponentsRender([]);
    if a != [] && b != [] {
      StartsWithIsBelow(a, b);
      StartsWithIsBelow(b, a);
    }
  }

  function LastIndexOf(s: string, c: char): (i: nat)
    requires c in s
    ensures i < |s| && s[i] == c && c !in s[i + 1..]
  {
    if s[|s| - 1] == c then |s| - 1 else LastIndexOf(s[..|s| - 1], c)
  }

  function ParentOf(path: string): string
    requires '/' in path
  {
    if LastIndexOf(path, '/') == 0 then "/" else path[..LastIndexOf(path, '/')]
  }

  function NameOf(path: string): string
    requires '/' in path
  {
    path[LastIndexOf(path, '/') + 1..]
  }

  lemma {:induction false} LastIndexIs(s: string, i: nat)
    requires i < |s| && s[i] == '/' && '/' !in s[i + 1..]
    ensures LastIndexOf(s, '/') == i
    decreases |s|
  {
    if i < |s| - 1 {
      assert s[|s| - 1] == s[i + 1..][|s| - 2 - i];
      assert s[..|s| - 1][i + 1..] == s[i + 1..][..|s| - 2 - i];
      LastIndexIs(s[..|s| - 1], i);
    }
  }

  /** Cutting the string at its last slash is dropping the last component. */
  lemma ParentAndName(p: Path)
    requires Clean(p)
    ensures '/' in Render(p)
    ensures ParentOf(Render(p)) == Render(Tables.ParentOf(p)) && NameOf(Render(p)) == Tables.NameOf(p)
  {
    var s := Render(p);
    if p == [] {
      LastIndexIs(s, 0);
    } else {
      var init, c := p[..|p| - 1], p[|p| - 1];
      assert p == init + [c] && CleanName(c);
      JoinedConcat(init, [c]);
      assert Joined([c]) == "/" + c + Joined([]);
      assert s == Joined(init) + "/" + c;
      assert s[|Joined(init)|] == '/' && s[|Joined(init)| + 1..] == c;
      LastIndexIs(s, |Joined(init)|);
    }
  }
}
