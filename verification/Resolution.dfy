/** Path resolution over the cached tree: symbolic links in any component, a shared budget of forty
    hops, and the virtual device. */
module Resolution {
  import opened Options
  import opened Tables
  import opened View
  import Paths

  const MAX_HOPS := 40
  const DEV_NULL: Path := ["dev", "null"]

  datatype Outcome = Found(path: Path, entry: Entry) | Device | ENOENT | ENOTDIR | ELOOP

  /** What the walk along one target meets first. */
  datatype Scan = Plain | LinkAt(index: nat) | Missing | NotDirectory

  function ScanFrom(v: PathView, target: Path, i: nat): (r: Scan)
    requires i <= |target| && target[..i] in v
    ensures r.Plain? ==> target in v
    ensures r.LinkAt? ==>
            i <= r.index < |target| && target[..r.index + 1] in v && v[target[..r.index + 1]].meta.kind == Symlink
    decreases |target| - i
  {
    if i == |target| then assert target[..i] == target; Plain
    else if v[target[..i]].meta.kind != Directory then NotDirectory
    else if target[..i + 1] !in v then Missing
    else if v[target[..i + 1]].meta.kind == Symlink then LinkAt(i)
    else ScanFrom(v, target, i + 1)
  }

  /** `resolvePath`. */
  function ResolvePath(base: Path, link: string): Path {
    if link != "" && link[0] == '/' then Paths.Components(link)
    else Paths.Components(if base == [] then "/" + link else Paths.Render(base) + "/" + link)
  }

  function LinkText(v: PathView, target: Path, i: nat): Option<string>
    requires i < |target| && target[..i + 1] in v
  {
    v[target[..i + 1]].meta.target
  }

  /** The target after the first link in it was replaced by what it points to. */
  function Expanded(target: Path, i: nat, link: string): Path
    requires i < |target|
  {
    var resolved := ResolvePath(target[..i], link);
    if i + 1 < |target| then ResolvePath(resolved, Paths.Joined(target[i + 1..])[1..]) else resolved
  }

  /** The recursive meaning of `walk`; `hops` links were already followed. */
  function Resolve(v: PathView, target: Path, hops: nat): Outcome
    requires hops <= MAX_HOPS
    decreases MAX_HOPS - hops
  {
    if target == DEV_NULL then Device
    else if DEV_NULL <= target then ENOTDIR
    else if [] !in v then ENOENT
    else match ScanFrom(v, target, 0)
      case Plain => Found(target, v[target])
      case Missing => ENOENT
      case NotDirectory => ENOTDIR
      case LinkAt(i) =>
        if hops == MAX_HOPS then ELOOP
        else if LinkText(v, target, i).None? then ENOENT
        else Resolve(v, Expanded(target, i, LinkText(v, target, i).value), hops + 1)
  }

  /** The walk over the components of one target. */
  method ScanTarget(v: PathView, target: Path) returns (r: Scan)
    requires [] in v
    ensures r == ScanFrom(v, target, 0)
  {
    var current := [];
    assert target[..0] == [];
    for i := 0 to |target|
      invariant current == target[..i] && current in v
      invariant ScanFrom(v, target, 0) == ScanFrom(v, target, i)
    {
      if v[current].meta.kind != Directory { return NotDirectory; }
      var candidate := current + [target[i]];
      assert candidate == target[..i + 1];
      if candidate !in v { return Missing; }
      if v[candidate].meta.kind == Symlink { return LinkAt(i); }
      current := candidate;
    }
    return Plain;
  }

  /** The source's form: the walk restarts on the rewritten target until no link is met. */
  method ResolveCached(v: PathView, path: Path) returns (r: Outcome)
    ensures r == Resolve(v, path, 0)
  {
    hide Expanded, ScanFrom;
    var hops, target := 0, path;
    while true
      invariant hops <= MAX_HOPS && Resolve(v, path, 0) == Resolve(v, target, hops)
      decreases MAX_HOPS - hops
    {
      if target == DEV_NULL { return Device; }
      if DEV_NULL <= target { return ENOTDIR; }
      if [] !in v { return ENOENT; }
      var scan := ScanTarget(v, target);
      match scan
      case Plain => return Found(target, v[target]);
      case Missing => return ENOENT;
      case NotDirectory => return ENOTDIR;
      case LinkAt(i) =>
        if hops == MAX_HOPS { return ELOOP; }
        var text := LinkText(v, target, i);
        if text.None? { return ENOENT; }
        hops, target := hops + 1, Expanded(target, i, text.value);
    }
  }

  // ── What a result is ───────────────────────────────────────────────────────

  /** Every proper prefix is a cached directory. */
  ghost predicate Rooted(v: PathView, p: Path) {
    forall n :: 0 <= n < |p| ==> p[..n] in v && v[p[..n]].meta.kind == Directory
  }

  lemma {:induction false} PlainIs(v: PathView, target: Path, i: nat)
    requires i <= |target| && target[..i] in v
    requires forall n :: 0 <= n < i ==> target[..n] in v && v[target[..n]].meta.kind == Directory
    requires i > 0 ==> v[target[..i]].meta.kind != Symlink
    ensures ScanFrom(v, target, i).Plain? <==>
              target in v && Rooted(v, target) && (|target| > i ==> v[target].meta.kind != Symlink)
    decreases |target| - i
  {
    if i == |target| {
      assert target[..i] == target;
    } else {
      if v[target[..i]].meta.kind == Directory && target[..i + 1] in v {
        if v[target[..i + 1]].meta.kind != Symlink {
          PlainIs(v, target, i + 1);
          if i + 1 == |target| { assert target[..i + 1] == target; }
        } else if i + 1 == |target| {
          assert target[..i + 1] == target;
        }
      }
      if Rooted(v, target) && target in v {
        assert target[..i] in v;
        if i + 1 < |target| { assert target[..i + 1] in v; } else { assert target[..i + 1] == target; }
      }
    }
  }

  lemma PlainFromRoot(v: PathView, target: Path)
    requires [] in v && v[[]].meta.kind == Directory
    ensures ScanFrom(v, target, 0).Plain? <==> target in v && Rooted(v, target) && v[target].meta.kind != Symlink
  {
    assert target[..0] == [];
    PlainIs(v, target, 0);
  }

  /** Resolution only ever returns a cached entry that is no link, below cached directories. */
  lemma {:induction false} ResolvedIsReal(v: PathView, target: Path, hops: nat)
    requires hops <= MAX_HOPS && ([] in v ==> v[[]].meta.kind == Directory)
    ensures var r := Resolve(v, target, hops);
            r.Found? ==>
              && r.path in v && r.entry == v[r.path] && r.entry.meta.kind != Symlink && Rooted(v, r.path)
              && !(DEV_NULL <= r.path)
    decreases MAX_HOPS - hops
  {
    hide Expanded;
    if [] in v && !(DEV_NULL <= target) {
      PlainFromRoot(v, target);
      match ScanFrom(v, target, 0)
      case LinkAt(i) =>
        if hops < MAX_HOPS && LinkText(v, target, i).Some? {
          ResolvedIsReal(v, Expanded(target, i, LinkText(v, target, i).value), hops + 1);
        }
      case _ =>
    }
  }

  /** Resolving a result again gives the same result, whatever is left of the budget. */
  lemma ResolveIdempotent(v: PathView, target: Path, hops: nat, again: nat)
    requires hops <= MAX_HOPS && again <= MAX_HOPS && ([] in v ==> v[[]].meta.kind == Directory)
    ensures var r := Resolve(v, target, hops);
            && (r.Found? ==> Resolve(v, r.path, again) == r)
            && (r.Device? ==> Resolve(v, DEV_NULL, again) == r)
  {
    ResolvedIsReal(v, target, hops);
    var r := Resolve(v, target, hops);
    if r.Found? { PlainFromRoot(v, r.path); }
  }

  // ── When resolution gives up ───────────────────────────────────────────────

  /** One link followed: the next target, if this one stops at a link that has a target. */
  function Follow(v: PathView, target: Path): Option<Path> {
    if DEV_NULL <= target || [] !in v then None else
    match ScanFrom(v, target, 0)
    case LinkAt(i) =>
      (match LinkText(v, target, i) case None => None case Some(link) => Some(Expanded(target, i, link)))
    case _ => None
  }

  predicate AtLink(v: PathView, target: Path) {
    !(DEV_NULL <= target) && [] in v && ScanFrom(v, target, 0).LinkAt?
  }

  function FollowN(v: PathView, target: Path, n: nat): Option<Path>
    decreases n
  {
    if n == 0 then Some(target) else
    match Follow(v, target) case None => None case Some(t) => FollowN(v, t, n - 1)
  }

  /** ELOOP is returned exactly when, the budget spent, the target still stops at a link: never for a
      chain that ends within it, always for a cycle. */
  lemma {:induction false} LoopExactly(v: PathView, target: Path, hops: nat)
    requires hops <= MAX_HOPS
    ensures Resolve(v, target, hops).ELOOP? <==>
              var last := FollowN(v, target, MAX_HOPS - hops); last.Some? && AtLink(v, last.value)
    decreases MAX_HOPS - hops
  {
    if hops < MAX_HOPS && Follow(v, target).Some? {
      LoopExactly(v, Follow(v, target).value, hops + 1);
    }
  }

  lemma FollowResolves(v: PathView, target: Path, hops: nat)
    requires hops < MAX_HOPS && Follow(v, target).Some?
    ensures Resolve(v, target, hops) == Resolve(v, Follow(v, target).value, hops + 1)
  {
    hide Expanded;
  }

  lemma NoFollow(v: PathView, target: Path, hops: nat, p: Path)
    requires hops <= MAX_HOPS && (Follow(v, target).None? || hops == MAX_HOPS)
    ensures Resolve(v, target, hops).Found? && Resolve(v, target, hops).path == p <==> Ends(v, target, 0, p)
  {
    hide Expanded;
  }

  lemma EndsNext(v: PathView, target: Path, n: nat, p: Path)
    requires n > 0
    ensures Ends(v, target, n, p) <==> Follow(v, target).Some? && Ends(v, Follow(v, target).value, n - 1, p)
  {
  }

  lemma EndsHere(v: PathView, target: Path, p: Path)
    requires Ends(v, target, 0, p)
    ensures Follow(v, target).None?
  {
  }

  /** A path is found exactly when following at most the budget's links ends at a plain target. */
  lemma {:induction false} FoundExactly(v: PathView, target: Path, hops: nat, p: Path)
    requires hops <= MAX_HOPS
    ensures Resolve(v, target, hops).Found? && Resolve(v, target, hops).path == p <==>
              exists n :: 0 <= n <= MAX_HOPS - hops && Ends(v, target, n, p)
    decreases MAX_HOPS - hops
  {
    hide Ends, Follow, Resolve;
    if hops < MAX_HOPS && Follow(v, target).Some? {
      var next := Follow(v, target).value;
      FollowResolves(v, target, hops);
      FoundExactly(v, next, hops + 1, p);
      forall n | 0 <= n <= MAX_HOPS - hops - 1 ensures Ends(v, next, n, p) == Ends(v, target, n + 1, p) {
        EndsNext(v, target, n + 1, p);
      }
      forall n | 0 <= n <= MAX_HOPS - hops && Ends(v, target, n, p) ensures n > 0 && Ends(v, next, n - 1, p) {
        if n == 0 { EndsHere(v, target, p); } else { EndsNext(v, target, n, p); }
      }
    } else {
      NoFollow(v, target, hops, p);
      forall n | 0 <= n <= MAX_HOPS - hops && Ends(v, target, n, p) ensures n == 0 {
        if n > 0 { EndsNext(v, target, n, p); }
      }
    }
  }

  predicate Ends(v: PathView, target: Path, n: nat, p: Path) {
    FollowN(v, target, n) == Some(p) && !(DEV_NULL <= p) && [] in v && ScanFrom(v, p, 0).Plain?
  }

  // ── The rewritten target ───────────────────────────────────────────────────

  /** A relative remainder is appended component by component: nothing of it is lost or re-read. */
  lemma SuffixAppends(base: Path, rest: Path)
    requires Paths.Clean(base) && Paths.Clean(rest) && rest != []
    ensures ResolvePath(base, Paths.Joined(rest)[1..]) == base + rest
  {
    var suffix := Paths.Joined(rest)[1..];
    SuffixStart(rest);
    assert Paths.Clean(base + rest);
    hide Paths.Clean, Paths.Joined, Paths.Components;
    Paths.JoinedConcat(base, rest);
    Paths.ComponentsRender(base + rest);
    if base == [] {
      assert base + rest == rest;
    } else {
      Paths.Assoc(Paths.Render(base), "/", suffix);
      assert Paths.Render(base + rest) == Paths.Joined(base + rest);
    }
  }

  /** The walk along the target meets a link first, below cached directories, as its component `i`. */
  ghost predicate StopsAt(v: PathView, target: Path, i: nat) {
    && i < |target| && !(DEV_NULL <= target)
    && (forall n :: 0 <= n <= i ==> target[..n] in v && v[target[..n]].meta.kind == Directory)
    && target[..i + 1] in v && v[target[..i + 1]].meta.kind == Symlink
  }

  lemma {:induction false} ScanPasses(v: PathView, target: Path, n: nat, i: nat)
    requires n <= i <= |target|
    requires forall m :: 0 <= m <= i ==> target[..m] in v && (m < i ==> v[target[..m]].meta.kind == Directory)
    requires i > 0 ==> v[target[..i]].meta.kind != Symlink
    ensures ScanFrom(v, target, n) == ScanFrom(v, target, i)
    decreases i - n
  {
    if n < i { ScanPasses(v, target, n + 1, i); }
  }

  /** What the walk meets when everything above component `i` is a cached directory. */
  lemma ScanStops(v: PathView, target: Path, i: nat)
    requires i < |target| && forall m :: 0 <= m <= i ==>
             target[..m] in v && (m < i ==> v[target[..m]].meta.kind == Directory)
    requires i > 0 ==> v[target[..i]].meta.kind != Symlink
    ensures target[..0] == []
    ensures ScanFrom(v, target, 0) ==
            if v[target[..i]].meta.kind != Directory then NotDirectory
            else if target[..i + 1] !in v then Missing
            else if v[target[..i + 1]].meta.kind == Symlink then LinkAt(i)
            else ScanFrom(v, target, i + 1)
  {
    assert target[..0] == [];
    ScanPasses(v, target, 0, i);
  }

  /** Stopped at a link, resolution goes on at the path that the names of the link's text lead to, from the directory
      the link lies in or, for a text that begins with a slash, from the root; and then along what was left of the
      target. Without a text there is nothing there, and with the budget spent it gives up. */
  lemma LinkContinues(v: PathView, target: Path, i: nat, hops: nat)
    requires Paths.Clean(target) && StopsAt(v, target, i) && hops <= MAX_HOPS
    ensures var text := v[target[..i + 1]].meta.target;
            Resolve(v, target, hops) ==
            if hops == MAX_HOPS then ELOOP
            else if text.None? then ENOENT
            else
              var from := if text.value != "" && text.value[0] == '/' then [] else target[..i];
              Resolve(v, Paths.Walked(from, Paths.Split(text.value)) + target[i + 1..], hops + 1)
  {
    ScanStops(v, target, i);
    var text := v[target[..i + 1]].meta.target;
    if hops < MAX_HOPS && text.Some? {
      ExpandedIs(target, i, text.value);
      hide Expanded, ScanFrom;
    }
  }

  lemma ExpandedIs(target: Path, i: nat, link: string)
    requires Paths.Clean(target) && i < |target|
    ensures var from := if link != "" && link[0] == '/' then [] else target[..i];
            Expanded(target, i, link) == Paths.Walked(from, Paths.Split(link)) + target[i + 1..]
  {
    var absolute := link != "" && link[0] == '/';
    var resolved := ResolvePath(target[..i], link);
    if absolute {
      Paths.ComponentsWalk(link);
      Paths.ComponentsClean(link);
    } else {
      var s := if target[..i] == [] then "/" + link else Paths.Render(target[..i]) + "/" + link;
      Paths.ComponentsBelow(target[..i], link);
      Paths.ComponentsClean(s);
    }
    hide Paths.Walked, Paths.Components, Paths.Joined, Paths.Split;
    if i + 1 < |target| {
      SuffixAppends(resolved, target[i + 1..]);
    } else {
      assert target[i + 1..] == [];
    }
  }

  /** A relative text of plain names goes on below the link's directory. */
  lemma RelativeLink(v: PathView, target: Path, i: nat, parts: Path, hops: nat)
    requires Paths.Clean(target) && StopsAt(v, target, i) && hops < MAX_HOPS && Paths.Clean(parts) && parts != []
    requires v[target[..i + 1]].meta.target == Some(Paths.Joined(parts)[1..])
    ensures Resolve(v, target, hops) == Resolve(v, target[..i] + parts + target[i + 1..], hops + 1)
  {
    LinkContinues(v, target, i, hops);
    SuffixStart(parts);
    NamesOf(parts);
    hide Resolve;
    Paths.WalkedClean(target[..i], parts);
  }

  /** An absolute text ignores where the link lies. */
  lemma AbsoluteLink(v: PathView, target: Path, i: nat, link: string, hops: nat)
    requires Paths.Clean(target) && StopsAt(v, target, i) && hops < MAX_HOPS && link != "" && link[0] == '/'
    requires v[target[..i + 1]].meta.target == Some(link)
    ensures Resolve(v, target, hops) == Resolve(v, Paths.Components(link) + target[i + 1..], hops + 1)
  {
    LinkContinues(v, target, i, hops);
    Paths.ComponentsWalk(link);
    hide Resolve;
  }

  /** A text that begins with ".." goes on above the link's directory; at the root it stays there. */
  lemma UpwardLink(v: PathView, target: Path, i: nat, parts: Path, hops: nat)
    requires Paths.Clean(target) && StopsAt(v, target, i) && hops < MAX_HOPS && Paths.Clean(parts)
    requires v[target[..i + 1]].meta.target == Some(".." + Paths.Joined(parts))
    ensures Resolve(v, target, hops) ==
            Resolve(v, (if i == 0 then [] else target[..i - 1]) + parts + target[i + 1..], hops + 1)
  {
    LinkContinues(v, target, i, hops);
    Paths.SplitJoined("..", parts);
    var names := [".."] + parts;
    assert names[1..] == parts;
    hide Resolve;
    Paths.WalkedClean(Paths.Step(target[..i], ".."), parts);
    if i > 0 { assert ParentOf(target[..i]) == target[..i - 1]; }
  }

  lemma NamesOf(parts: Path)
    requires Paths.Clean(parts) && parts != []
    ensures Paths.Split(Paths.Joined(parts)[1..]) == parts
  {
    assert Paths.CleanName(parts[0]);
    JoinedTail(parts);
    Paths.SplitJoined(parts[0], parts[1..]);
    hide Paths.Split, Paths.Joined;
    assert [parts[0]] + parts[1..] == parts;
  }

  lemma JoinedTail(parts: Path)
    requires parts != []
    ensures Paths.Joined(parts)[1..] == parts[0] + Paths.Joined(parts[1..])
  {
    assert Paths.Joined(parts) == "/" + (parts[0] + Paths.Joined(parts[1..]));
  }

  /** Without a link in the way: a missing component is ENOENT, one below something that is no directory ENOTDIR, and
      the device has nothing below it. */
  lemma RefusedExactly(v: PathView, target: Path, hops: nat, i: nat)
    requires hops <= MAX_HOPS && i < |target| && !(DEV_NULL <= target)
    requires forall m :: 0 <= m <= i ==> target[..m] in v && (m < i ==> v[target[..m]].meta.kind == Directory)
    requires v[target[..i]].meta.kind != Symlink
    ensures v[target[..i]].meta.kind != Directory ==> Resolve(v, target, hops) == ENOTDIR
    ensures v[target[..i]].meta.kind == Directory && target[..i + 1] !in v ==> Resolve(v, target, hops) == ENOENT
  {
    ScanStops(v, target, i);
  }

  lemma DeviceExactly(v: PathView, target: Path, hops: nat)
    requires hops <= MAX_HOPS
    ensures target == ["dev", "null"] ==> Resolve(v, target, hops) == Device
    ensures ["dev", "null"] < target ==> Resolve(v, target, hops) == ENOTDIR
  {
  }

  const HERE: PathView :=
    map[[] := Entry(1, Meta(Directory, 493, 0, None, None)), ["d"] := Entry(2, Meta(Directory, 493, 0, None, None)),
        ["d", "f"] := Entry(3, Meta(File, 420, 0, None, None)), ["d", "l"] :=
            Entry(4, Meta(Symlink, 511, 1, None, Some("f")))]

  /** `/d/l` with the text "f" is `/d/f`. */
  lemma LinkBesideFile()
    ensures Resolve(HERE, ["d", "l"], 0) == Found(["d", "f"], HERE[["d", "f"]])
  {
    var t := ["d", "l"];
    assert t[..0] == [] && t[..1] == ["d"] && t[..2] == t && t[2..] == [] && t[0] == "d";
    assert ["d"] in HERE && t in HERE && ["d", "f"] in HERE;
    assert Paths.Joined(["f"]) == "/" + "f" + Paths.Joined([]);
    assert Paths.Joined(["f"])[1..] == "f";
    assert Paths.CleanName("d") && Paths.CleanName("l") && Paths.CleanName("f");
    RelativeLink(HERE, t, 1, ["f"], 0);
    assert ["d"] + ["f"] + [] == ["d", "f"];
    PlainFromRoot(HERE, ["d", "f"]);
    var p := ["d", "f"];
    assert p[..0] == [] && p[..1] == ["d"] && p[0] == "d";
  }

  lemma SuffixStart(rest: Path)
    requires Paths.Clean(rest) && rest != []
    ensures Paths.Joined(rest) != "" && "/" + Paths.Joined(rest)[1..] == Paths.Joined(rest)
    ensures Paths.Joined(rest)[1..] != "" && Paths.Joined(rest)[1..][0] != '/'
  {
    assert Paths.CleanName(rest[0]);
    assert Paths.Joined(rest) == "/" + (rest[0] + Paths.Joined(rest[1..]));
    assert rest[0][0] in rest[0];
  }
}
