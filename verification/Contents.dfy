/** The content cache of a session: bytes by inode id, filled by writes, by reads that fetch a blob and
    by a background prewarm, while views are installed, published and renamed underneath. The hash is a
    parameter: everything holds for every hash function. */
module Contents {
  import opened Options
  import opened Tables
  import opened View
  import opened Commands
  import opened CommandLaw

  type Bytes = seq<int>
  type Sha = Bytes -> Digest
  type Ref = nat

  /** An entry object: entries are immutable, and compared by identity. */
  datatype Obj = Obj(ref: Ref, entry: Entry)
  type ObjView = map<Path, Obj>

  datatype Prewarm = Prewarm(generation: nat, captured: map<Id, (Path, Obj)>)
  datatype Fetch = Fetch(generation: nat, path: Path, obj: Obj)

  /** Every entry object ever made, with the generation it was made in. */
  datatype Born = Born(generation: nat, entry: Entry)

  datatype State = State(view: ObjView, cache: map<Id, Bytes>, generation: nat, prewarm: Option<Prewarm>, queued: bool,
                         fetches: map<nat, Fetch>, heap: map<Ref, Born>)

  // ── The operations ─────────────────────────────────────────────────────────

  predicate Same(v: ObjView, p: Path, o: Obj) {
    p in v && v[p].ref == o.ref
  }

  /** `#contentEntryIsCurrent`: the entry is at its path, or is what a link at that path leads to. */
  predicate Current(v: ObjView, p: Path, o: Obj) {
    Same(v, p, o) || (p in v && v[p].entry.meta.kind == Symlink && exists q :: q in v && v[q].ref == o.ref)
  }

  predicate Accepts(v: ObjView, generation: nat, pre: Prewarm, sha: Sha, id: Id, data: Bytes) {
    && pre.generation == generation && id in pre.captured && data != []
    && pre.captured[id].1.entry.meta.sha == Some(sha(data))
    && Same(v, pre.captured[id].0, pre.captured[id].1)
  }

  /** What a prewarm leaves in the cache. */
  function Prewarmed(cache: map<Id, Bytes>, v: ObjView, generation: nat, pre: Prewarm, sha: Sha,
                     blobs: seq<(Id, Bytes)>): map<Id, Bytes> {
    if blobs == [] then cache else
    var b := blobs[|blobs| - 1];
    var before := Prewarmed(cache, v, generation, pre, sha, blobs[..|blobs| - 1]);
    if Accepts(v, generation, pre, sha, b.0, b.1) then before[b.0 := b.1] else before
  }

  function Filled(cache: map<Id, Bytes>, v: ObjView, generation: nat, f: Fetch, bytes: Bytes): map<Id, Bytes> {
    if f.generation == generation && Current(v, f.path, f.obj)
        && bytes != [] then cache[f.obj.entry.id := bytes] else cache
  }

  function RemappedId(ids: map<Id, Id>, id: Id): Id {
    if id in ids then ids[id] else id
  }

  /** The cache with its keys renamed. */
  ghost predicate Renames(cache: map<Id, Bytes>, ids: map<Id, Id>, after: map<Id, Bytes>) {
    && (forall id :: id in cache ==> RemappedId(ids, id) in after && after[RemappedId(ids, id)] == cache[id])
    && (forall r :: r in after ==> exists id :: id in cache && RemappedId(ids, id) == r)
  }

  /** Provisional ids are negative, real ones are not, and no two share a real id. */
  ghost predicate GoodRemap(ids: map<Id, Id>) {
    && (forall a :: a in ids ==> a < 0 && ids[a] > 0)
    && (forall a, b :: a in ids && b in ids && ids[a] == ids[b] ==> a == b)
  }

  /** Nothing is cached yet under the real ids. */
  ghost predicate Vacant(ids: map<Id, Id>, cache: map<Id, Bytes>) {
    forall a :: a in ids ==> ids[a] !in cache
  }

  /** The part of a renaming that has been done. */
  ghost predicate Part(ids: map<Id, Id>, done: map<Id, Id>) {
    done.Keys <= ids.Keys && forall a :: a in done ==> done[a] == ids[a]
  }

  class FileContents {
    var entries: ObjView
    var contentCache: map<Id, Bytes>
    var contentGeneration: nat
    var prewarm: Option<Prewarm>
    var prewarmQueued: bool

    constructor ()
      ensures entries == map[] && contentCache == map[] && contentGeneration == 0 && prewarm == None && !prewarmQueued
    {
      entries, contentCache, contentGeneration, prewarm, prewarmQueued := map[], map[], 0, None, false;
    }

    method StartPrewarm(queueIfRunning: bool, captured: map<Id, (Path, Obj)>)
      modifies this`prewarm, this`prewarmQueued
      ensures prewarm == if old(prewarm).Some? then old(prewarm) else Some(Prewarm(contentGeneration, captured))
      ensures prewarmQueued == (old(prewarmQueued) || (old(prewarm).Some? && queueIfRunning))
    {
      if prewarm.Some? {
        if queueIfRunning { prewarmQueued := true; }
        return;
      }
      prewarm := Some(Prewarm(contentGeneration, captured));
    }

    method InstallView(view: ObjView, captured: map<Id, (Path, Obj)>)
      modifies this
      ensures entries == view && contentCache == map[] && contentGeneration == old(contentGeneration) + 1
      ensures prewarm == if old(prewarm).Some? then old(prewarm) else Some(Prewarm(contentGeneration, captured))
      ensures prewarmQueued == (old(prewarmQueued) || old(prewarm).Some?)
    {
      entries := view;
      contentGeneration := contentGeneration + 1;
      contentCache := map[];
      StartPrewarm(true, captured);
    }

    /** The loop over the blobs that came back, then the next prewarm if a view was installed meanwhile. */
    method FinishPrewarm(sha: Sha, blobs: seq<(Id, Bytes)>, captured: map<Id, (Path, Obj)>)
      requires prewarm.Some?
      modifies this
      ensures entries == old(entries) && contentGeneration == old(contentGeneration) && !prewarmQueued
      ensures contentCache == Prewarmed(old(contentCache), entries, contentGeneration, old(prewarm).value, sha, blobs)
      ensures prewarm == if old(prewarmQueued) then Some(Prewarm(contentGeneration, captured)) else None
    {
      var pre := prewarm.value;
      for n := 0 to |blobs|
        invariant entries == old(entries) && contentGeneration == old(contentGeneration)
        invariant prewarm == old(prewarm) && prewarmQueued == old(prewarmQueued)
        invariant contentCache == Prewarmed(old(contentCache), entries, contentGeneration, pre, sha, blobs[..n])
      {
        assert blobs[..n + 1][..n] == blobs[..n];
        var id, data := blobs[n].0, blobs[n].1;
        if pre.generation == contentGeneration && id in pre.captured {
          var path, entry := pre.captured[id].0, pre.captured[id].1;
          if entry.entry.meta.sha == Some(sha(data)) && path in entries && entries[path].ref == entry.ref
              && data != [] {
            contentCache := contentCache[id := data];
          }
        }
      }
      assert blobs[..|blobs|] == blobs;
      prewarm := None;
      if prewarmQueued {
        prewarmQueued := false;
        StartPrewarm(false, captured);
      }
    }

    /** The end of `read`: the blob is back. */
    method FinishRead(f: Fetch, data: Option<Bytes>) returns (bytes: Bytes)
      modifies this`contentCache
      ensures bytes == if data.Some? then data.value else []
      ensures contentCache == Filled(old(contentCache), entries, contentGeneration, f, bytes)
    {
      bytes := if data.Some? then data.value else [];
      if f.generation == contentGeneration && Current(entries, f.path, f.obj) && bytes != [] {
        contentCache := contentCache[f.obj.entry.id := bytes];
      }
    }

    /** Moves what is cached under a provisional id to its real id, pair by pair; `order` is the order
        in which the renaming iterates. */
    method Remap(ids: map<Id, Id>, order: seq<Id>)
      requires GoodRemap(ids) && Vacant(ids, contentCache)
      requires (forall a :: a in ids <==> a in order) && (forall i, j :: 0 <= i < j < |order| ==> order[i] != order[j])
      modifies this`contentCache
      ensures Renames(old(contentCache), ids, contentCache)
    {
      hide Renames, GoodRemap, Vacant, Part;
      ghost var done: map<Id, Id> := map[];
      RenamesNothing(contentCache);
      PartGrows(ids, done);
      for n := 0 to |order|
        invariant Part(ids, done) && forall a :: a in done <==> a in order[..n]
        invariant Renames(old(contentCache), done, contentCache)
      {
        var provisional := order[n];
        assert provisional in order && order[..n + 1] == order[..n] + [provisional];
        RemapOne(old(contentCache), ids, done, contentCache, provisional);
        var bytes := if provisional in contentCache then Some(contentCache[provisional]) else None;
        contentCache := contentCache - {provisional};
        if bytes.Some? { contentCache := contentCache[ids[provisional] := bytes.value]; }
        PartGrows(ids, done);
        done := done[provisional := ids[provisional]];
      }
      assert order[..|order|] == order;
      AllDone(old(contentCache), ids, done, contentCache);
    }
  }

  lemma PartGrows(ids: map<Id, Id>, done: map<Id, Id>)
    ensures Part(ids, map[])
    ensures Part(ids, done) ==> forall a :: a in ids ==> Part(ids, done[a := ids[a]])
  {
  }

  lemma AllDone(cache: map<Id, Bytes>, ids: map<Id, Id>, done: map<Id, Id>, after: map<Id, Bytes>)
    requires Part(ids, done) && (forall a :: a in ids ==> a in done) && Renames(cache, done, after)
    ensures Renames(cache, ids, after)
  {
    forall id ensures RemappedId(done, id) == RemappedId(ids, id) {}
    forall r | r in after ensures exists id :: id in cache && RemappedId(ids, id) == r {
      var id :| id in cache && RemappedId(done, id) == r;
      assert RemappedId(ids, id) == r;
    }
  }

  lemma RenamesNothing(cache: map<Id, Bytes>)
    ensures Renames(cache, map[], cache)
  {
    forall r | r in cache ensures exists id :: id in cache && RemappedId(map[], id) == r {
      assert RemappedId(map[], r) == r;
    }
  }

  lemma RemapOne(cache: map<Id, Bytes>, ids: map<Id, Id>, done: map<Id, Id>, after: map<Id, Bytes>, a: Id)
    requires GoodRemap(ids) && Vacant(ids, cache)
    requires a in ids && a !in done && Part(ids, done)
    requires Renames(cache, done, after)
    ensures Renames(cache, done[a := ids[a]], if a in after then (after - {a})[ids[a] := after[a]] else after - {a})
  {
    var next, goal := done[a := ids[a]], if a in after then (after - {a})[ids[a] := after[a]] else after - {a};
    forall id | id in cache ensures RemappedId(done, id) == a <==> id == a { Elsewhere(cache, ids, done, a, id); }
    assert a in after ==> a in cache;
    forall id | id in cache ensures RemappedId(next, id) in goal && goal[RemappedId(next, id)] == cache[id] {
      Elsewhere(cache, ids, done, a, id);
      assert RemappedId(done, id) in after && after[RemappedId(done, id)] == cache[id];
    }
    hide GoodRemap;
    forall r | r in goal ensures exists id :: id in cache && RemappedId(next, id) == r {
      if a in after && r == ids[a] {
        assert RemappedId(next, a) == r;
      } else {
        var id :| id in cache && RemappedId(done, id) == r;
        assert RemappedId(next, id) == r;
      }
    }
  }

  /** No other id goes where `a` is or is going. */
  lemma Elsewhere(cache: map<Id, Bytes>, ids: map<Id, Id>, done: map<Id, Id>, a: Id, id: Id)
    requires GoodRemap(ids) && Vacant(ids, cache) && id in cache
    requires a in ids && a !in done && Part(ids, done)
    ensures id != a ==>
            RemappedId(done, id) != a && RemappedId(done, id) != ids[a]
                && RemappedId(done[a := ids[a]], id) == RemappedId(done, id)
    ensures id == a ==> RemappedId(done, id) == a && RemappedId(done[a := ids[a]], id) == ids[a]
  {
    if id in done { assert id in ids; }
  }

  // ── The run ────────────────────────────────────────────────────────────────

  datatype Event =
    | Installs(rows: ObjView, captured: map<Id, (Path, Obj)>)
    | Publishes(w: ObjView, evicted: set<Id>, stored: Option<(Id, Bytes)>)
    | Remaps(renamed: ObjView, ids: map<Id, Id>, kept: map<Id, Bytes>)
    | Forgets(id: Id)
    | StartsRead(k: nat, path: Path, obj: Obj)
    | Fetched(fetch: nat, data: Option<Bytes>)
    | PrewarmEnds(blobs: seq<(Id, Bytes)>, again: map<Id, (Path, Obj)>)

  /** Objects put into a view are ones it held before, or new. */
  ghost predicate Objects(s: State, w: ObjView) {
    && (forall p :: p in w ==>
       w[p].ref !in s.heap || (s.heap[w[p].ref].entry == w[p].entry && s.heap[w[p].ref].generation == s.generation))
    && Unambiguous(w)
  }

  ghost function Refs(w: ObjView): set<Ref> {
    set p | p in w :: w[p].ref
  }

  ghost function Made(w: ObjView, r: Ref): Entry
    requires r in Refs(w)
  {
    var p :| p in w && w[p].ref == r; w[p].entry
  }

  /** The heap once the objects of `w` exist. */
  ghost function Grown(s: State, generation: nat, w: ObjView): map<Ref, Born> {
    map r | r in s.heap.Keys + Refs(w) :: if r in s.heap then s.heap[r] else Born(generation, Made(w, r))
  }

  /** What is known of an inode's content in this generation. */
  ghost predicate Known(s: State, id: Id, sha: Option<Digest>) {
    exists r :: r in s.heap && s.heap[r].generation == s.generation && s.heap[r].entry.id == id
        && s.heap[r].entry.meta.sha == sha
  }

  ghost predicate Unknown(s: State, id: Id) {
    id !in s.cache && forall r :: r in s.heap && s.heap[r].generation == s.generation ==> s.heap[r].entry.id != id
  }

  /** A publication never changes what an id stands for: new objects repeat an id with its hash, or
      carry an id never seen before, the same for all of them. */
  ghost predicate Honest(s: State, w: ObjView) {
    && (forall p :: p in w && w[p].ref !in s.heap ==>
       Known(s, w[p].entry.id, w[p].entry.meta.sha) || Unknown(s, w[p].entry.id))
    && (forall p, q :: p in w && q in w && w[p].entry.id == w[q].entry.id ==>
       w[p].entry.meta.sha == w[q].entry.meta.sha)
  }

  /** Each captured object stands at its path, under its own id. */
  ghost predicate Captures(w: ObjView, captured: map<Id, (Path, Obj)>) {
    forall id :: id in captured ==>
        captured[id].0 in w && w[captured[id].0] == captured[id].1 && captured[id].1.entry.id == id
  }

  ghost predicate RenamedView(v: ObjView, ids: map<Id, Id>, w: ObjView) {
    && w.Keys == v.Keys
    && (forall p :: p in v && v[p].entry.id !in ids ==> w[p] == v[p])
    && (forall p :: p in v && v[p].entry.id in ids ==> w[p].entry == v[p].entry.(id := ids[v[p].entry.id]))
  }

  ghost predicate Enabled(s: State, sha: Sha, e: Event) {
    match e
    // A load makes new objects, and the rows of one snapshot agree about every inode.
    case Installs(rows, captured) =>
      && (forall p :: p in rows ==> rows[p].ref !in s.heap) && Unambiguous(rows)
      && (forall p, q :: p in rows && q in rows && rows[p].entry.id == rows[q].entry.id ==>
         rows[p].entry.meta.sha == rows[q].entry.meta.sha)
      && Captures(rows, captured)
    case Publishes(w, _, stored) =>
      && Objects(s, w) && Honest(s, w)
      && (stored.Some? ==> Stores(s, sha, w, stored.value))
    case Remaps(w, ids, kept) =>
      && Objects(s, w) && RenamedView(s.view, ids, w) && GoodRemap(ids) && (forall a :: a in ids ==> Unknown(s, ids[a]))
      && (forall p :: p in s.view && s.view[p].entry.id in ids ==> w[p].ref !in s.heap)
      && Renames(s.cache, ids, kept)
    case Forgets(_) => true
    case StartsRead(k, _, obj) =>
      k !in s.fetches && obj.ref in s.heap && s.heap[obj.ref].entry == obj.entry && obj.entry.meta.sha.Some?
    // Blobs are stored under their hash.
    case Fetched(k, data) =>
      k in s.fetches && (data.Some? ==> s.fetches[k].obj.entry.meta.sha == Some(sha(data.value)))
    case PrewarmEnds(_, again) => s.prewarm.Some? && Captures(s.view, again)
  }

  ghost function Next(s: State, sha: Sha, e: Event): State
    requires e.Fetched? ==> e.fetch in s.fetches
    requires e.PrewarmEnds? ==> s.prewarm.Some?
  {
    match e
    case Installs(rows, captured) =>
      s.(view := rows, cache := map[], generation := s.generation + 1, heap := Grown(s, s.generation + 1, rows),
         prewarm := if s.prewarm.Some? then s.prewarm else Some(Prewarm(s.generation + 1, captured)),
         queued := s.queued || s.prewarm.Some?)
    case Publishes(w, evicted, stored) =>
      var left := s.cache - evicted;
      s.(view := w, heap := Grown(s, s.generation, w), cache := if stored.Some?
          then left[stored.value.0 := stored.value.1] else left)
    case Remaps(w, _, kept) => s.(view := w, heap := Grown(s, s.generation, w), cache := kept)
    case Forgets(id) => s.(cache := s.cache - {id})
    case StartsRead(k, path, obj) => s.(fetches := s.fetches[k := Fetch(s.generation, path, obj)])
    case Fetched(k, data) =>
      s.(fetches := s.fetches - {k},
         cache := Filled(s.cache, s.view, s.generation, s.fetches[k], if data.Some? then data.value else []))
    case PrewarmEnds(blobs, again) =>
      s.(cache := Prewarmed(s.cache, s.view, s.generation, s.prewarm.value, sha, blobs),
         prewarm := if s.queued then Some(Prewarm(s.generation, again)) else None, queued := false)
  }

  // ── When something is cached ───────────────────────────────────────────────

  /** A read that has fetched its blob caches it if and only if no view was installed since it began and its entry is
      still at its path, or behind a link there; and then under that entry's inode. */
  lemma FillExactly(s: State, sha: Sha, k: nat, data: Option<Bytes>)
    requires Enabled(s, sha, Fetched(k, data))
    ensures var n, f := Next(s, sha, Fetched(k, data)), s.fetches[k];
            var current := f.generation == s.generation && f.path in s.view
                           && (s.view[f.path].ref == f.obj.ref
                               || (s.view[f.path].entry.meta.kind == Symlink
                                   && exists q :: q in s.view && s.view[q].ref == f.obj.ref));
            && n == s.(fetches := s.fetches - {k}, cache := n.cache)
            && (current && data.Some? && data.value != [] ==> n.cache == s.cache[f.obj.entry.id := data.value])
            && (!current || data.None? || data.value == [] ==> n.cache == s.cache)
  {
  }

  /** A blob that came back for an inode is one the prewarm takes: no view was installed since it began, the object it
      captured is still at its path, and the blob is that object's content. */
  ghost predicate Wanted(s: State, sha: Sha, id: Id, data: Bytes)
    requires s.prewarm.Some?
  {
    var pre := s.prewarm.value;
    && pre.generation == s.generation && id in pre.captured && data != []
    && pre.captured[id].0 in s.view && s.view[pre.captured[id].0].ref == pre.captured[id].1.ref
    && pre.captured[id].1.entry.meta.sha == Some(sha(data))
  }

  lemma {:induction false} PrewarmedAt(s: State, sha: Sha, blobs: seq<(Id, Bytes)>, id: Id)
    requires s.prewarm.Some?
    ensures var c := Prewarmed(s.cache, s.view, s.generation, s.prewarm.value, sha, blobs);
            if exists i :: 0 <= i < |blobs| && blobs[i].0 == id && Wanted(s, sha, id, blobs[i].1)
            then id in c && Wanted(s, sha, id, c[id])
            else (id in c <==> id in s.cache) && (id in s.cache ==> c[id] == s.cache[id])
  {
    if blobs != [] {
      var n := |blobs| - 1;
      PrewarmedAt(s, sha, blobs[..n], id);
      assert forall i :: 0 <= i < n ==> blobs[..n][i] == blobs[i];
      if i :| 0 <= i < n && blobs[i].0 == id && Wanted(s, sha, id, blobs[i].1) {
        assert blobs[..n][i].0 == id && Wanted(s, sha, id, blobs[..n][i].1);
      }
    }
  }

  /** When a prewarm ends, the cache has the content of every inode it wanted a blob for and got it, and is otherwise
      what it was; the next prewarm begins if and only if one was asked for meanwhile. */
  lemma PrewarmExactly(s: State, sha: Sha, blobs: seq<(Id, Bytes)>, again: map<Id, (Path, Obj)>)
    requires Enabled(s, sha, PrewarmEnds(blobs, again))
    ensures var n := Next(s, sha, PrewarmEnds(blobs, again));
            && n == s.(cache := n.cache, prewarm := if s.queued then Some(Prewarm(s.generation, again)) else None,
                       queued := false)
            && (forall i :: 0 <= i < |blobs| && Wanted(s, sha, blobs[i].0, blobs[i].1) ==>
                  blobs[i].0 in n.cache && Wanted(s, sha, blobs[i].0, n.cache[blobs[i].0]))
            && (forall id :: (forall i :: 0 <= i < |blobs| && blobs[i].0 == id ==> !Wanted(s, sha, id, blobs[i].1)) ==>
                  (id in n.cache <==> id in s.cache) && (id in s.cache ==> n.cache[id] == s.cache[id]))
  {
    hide Wanted, Prewarmed;
    var n := Next(s, sha, PrewarmEnds(blobs, again));
    forall i | 0 <= i < |blobs| && Wanted(s, sha, blobs[i].0, blobs[i].1)
      ensures blobs[i].0 in n.cache && Wanted(s, sha, blobs[i].0, n.cache[blobs[i].0])
    {
      PrewarmedAt(s, sha, blobs, blobs[i].0);
    }
    forall id | forall i :: 0 <= i < |blobs| && blobs[i].0 == id ==> !Wanted(s, sha, id, blobs[i].1)
      ensures (id in n.cache <==> id in s.cache) && (id in s.cache ==> n.cache[id] == s.cache[id])
    {
      PrewarmedAt(s, sha, blobs, id);
    }
  }

  // ── What every run keeps ───────────────────────────────────────────────────

  ghost predicate Alive(s: State, o: Obj) {
    o.ref in s.heap && s.heap[o.ref].entry == o.entry
  }

  ghost predicate HeapOk(s: State) {
    && (forall p :: p in s.view ==> Alive(s, s.view[p]) && s.heap[s.view[p].ref].generation == s.generation)
    && (forall k :: k in s.fetches ==> Alive(s, s.fetches[k].obj))
    && (s.prewarm.Some? ==> forall id :: id in s.prewarm.value.captured ==>
          Alive(s, s.prewarm.value.captured[id].1) && s.prewarm.value.captured[id].1.entry.id == id)
    && (forall r :: r in s.heap ==> s.heap[r].generation <= s.generation)
  }

  ghost predicate Agree(s: State, a: Ref, b: Ref)
    requires a in s.heap && b in s.heap
  {
    s.heap[a].generation == s.heap[b].generation == s.generation && s.heap[a].entry.id == s.heap[b].entry.id ==>
      s.heap[a].entry.meta.sha == s.heap[b].entry.meta.sha
  }

  /** In one generation an inode id stands for one content. */
  ghost predicate OneContent(s: State) {
    forall a, b :: a in s.heap && b in s.heap ==> Agree(s, a, b)
  }

  /** What is cached for an object has that object's hash. */
  ghost predicate Right(s: State, sha: Sha, r: Ref)
    requires r in s.heap
  {
    s.heap[r].generation == s.generation && s.heap[r].entry.id in s.cache ==>
      s.heap[r].entry.meta.sha == Some(sha(s.cache[s.heap[r].entry.id]))
  }

  ghost predicate CacheOk(s: State, sha: Sha) {
    forall r :: r in s.heap ==> Right(s, sha, r)
  }

  /** A running prewarm of an older view has its successor queued. */
  ghost predicate QueueOk(s: State) {
    && (s.queued ==> s.prewarm.Some?)
    && (s.prewarm.Some? && s.prewarm.value.generation != s.generation ==> s.queued)
  }

  ghost predicate Inv(s: State, sha: Sha) {
    HeapOk(s) && OneContent(s) && CacheOk(s, sha) && QueueOk(s)
  }

  ghost predicate Unambiguous(w: ObjView) {
    forall p, q :: p in w && q in w && w[p].ref == w[q].ref ==> w[p] == w[q]
  }

  /** `h` has the objects of before and those of `w`, and no other. */
  ghost predicate Extends(s: State, generation: nat, w: ObjView, h: map<Ref, Born>) {
    && (forall r :: r in s.heap ==> r in h && h[r] == s.heap[r])
    && (forall p :: p in w ==> w[p].ref in h)
    && (forall p :: p in w && w[p].ref !in s.heap ==> h[w[p].ref] == Born(generation, w[p].entry))
    && (forall r :: r in h && r !in s.heap ==> r in Refs(w))
  }

  lemma GrownBy(s: State, generation: nat, w: ObjView)
    requires Unambiguous(w)
    ensures Extends(s, generation, w, Grown(s, generation, w))
  {
    var h := Grown(s, generation, w);
    forall p | p in w ensures w[p].ref in h && (w[p].ref !in s.heap ==> h[w[p].ref] == Born(generation, w[p].entry)) {
      assert w[p].ref in Refs(w);
    }
  }

  lemma MadeFrom(w: ObjView, r: Ref) returns (p: Path)
    requires r in Refs(w)
    ensures p in w && w[p].ref == r
  {
    p :| p in w && w[p].ref == r;
  }

  lemma InstallKeeps(s: State, sha: Sha, e: Event)
    requires Inv(s, sha) && Enabled(s, sha, e) && e.Installs?
    ensures Inv(Next(s, sha, e), sha)
  {
    hide Grown, Refs, CacheOk, OneContent;
    var n := Next(s, sha, e);
    GrownBy(s, s.generation + 1, e.rows);
    InstallHeap(s, e, n);
    forall a, b | a in n.heap && b in n.heap ensures Agree(n, a, b) { InstallAgree(s, e, n, a, b); }
    assert OneContent(n) by { OneContentIs(n); }
    assert CacheOk(n, sha) by { EmptyCache(n, sha); }
  }

  lemma OneContentIs(n: State)
    requires forall a, b :: a in n.heap && b in n.heap ==> Agree(n, a, b)
    ensures OneContent(n)
  {
  }

  lemma EmptyCache(n: State, sha: Sha)
    requires n.cache == map[]
    ensures CacheOk(n, sha)
  {
  }

  lemma InstallHeap(s: State, e: Event, n: State)
    requires HeapOk(s) && QueueOk(s) && e.Installs? && Captures(e.rows, e.captured)
    requires (forall p :: p in e.rows ==> e.rows[p].ref !in s.heap)
    requires Extends(s, s.generation + 1, e.rows, n.heap) && n.generation == s.generation + 1 && n.view == e.rows
             && n.fetches == s.fetches
    requires n.prewarm == (if s.prewarm.Some? then s.prewarm else Some(Prewarm(s.generation + 1, e.captured)))
             && n.queued == (s.queued || s.prewarm.Some?)
    ensures HeapOk(n) && QueueOk(n)
  {
    forall r | r in n.heap ensures n.heap[r].generation <= n.generation {
      if r !in s.heap { var p := MadeFrom(e.rows, r); }
    }
    hide Refs;
  }

  lemma InstallAgree(s: State, e: Event, n: State, a: Ref, b: Ref)
    requires HeapOk(s) && e.Installs? && Extends(s, s.generation + 1, e.rows, n.heap)
             && n.generation == s.generation + 1
    requires forall p, q :: p in e.rows && q in e.rows && e.rows[p].entry.id == e.rows[q].entry.id ==>
             e.rows[p].entry.meta.sha == e.rows[q].entry.meta.sha
    requires a in n.heap && b in n.heap
    ensures Agree(n, a, b)
  {
    if a !in s.heap && b !in s.heap {
      var p := MadeFrom(e.rows, a);
      var q := MadeFrom(e.rows, b);
    }
  }

  /** New objects say nothing new about ids that are known. */
  lemma PublishKnown(s: State, w: ObjView, heap: map<Ref, Born>, r: Ref)
    requires Honest(s, w) && Extends(s, s.generation, w, heap) && r in heap && r !in s.heap
    ensures Known(s, heap[r].entry.id, heap[r].entry.meta.sha) || Unknown(s, heap[r].entry.id)
    ensures heap[r].generation == s.generation
    ensures forall q :: q in w && w[q].entry.id == heap[r].entry.id ==> w[q].entry.meta.sha == heap[r].entry.meta.sha
  {
    var p := MadeFrom(w, r);
    hide Known, Unknown, Refs;
  }

  lemma GrownAgree(s: State, w: ObjView, n: State, a: Ref, b: Ref)
    requires OneContent(s) && Honest(s, w) && Extends(s, s.generation, w, n.heap) && n.generation == s.generation
    requires a in n.heap && b in n.heap
    ensures Agree(n, a, b)
  {
    hide Known, Unknown, Refs;
    if a in s.heap && b in s.heap {
      assert Agree(s, a, b);
    } else if a in s.heap {
      PublishKnown(s, w, n.heap, b);
      OldAndNew(s, n, a, b);
    } else if b in s.heap {
      PublishKnown(s, w, n.heap, a);
      OldAndNew(s, n, b, a);
    } else {
      PublishKnown(s, w, n.heap, a);
      var q := MadeFrom(w, b);
    }
  }

  lemma OldAndNew(s: State, n: State, before: Ref, after: Ref)
    requires OneContent(s) && before in s.heap && after !in s.heap && after in n.heap && n.generation == s.generation
    requires before in n.heap && n.heap[before] == s.heap[before] && n.heap[after].generation == s.generation
    requires Known(s, n.heap[after].entry.id, n.heap[after].entry.meta.sha) || Unknown(s, n.heap[after].entry.id)
    ensures Agree(n, before, after) && Agree(n, after, before)
  {
    if Known(s, n.heap[after].entry.id, n.heap[after].entry.meta.sha) {
      var r :| r in s.heap && s.heap[r].generation == s.generation && s.heap[r].entry.id == n.heap[after].entry.id
               && s.heap[r].entry.meta.sha == n.heap[after].entry.meta.sha;
      assert Agree(s, r, before);
    }
  }

  lemma PublishHeap(s: State, w: ObjView, n: State)
    requires HeapOk(s) && QueueOk(s) && Objects(s, w) && Extends(s, s.generation, w, n.heap)
             && n.generation == s.generation
    requires n.view == w && n.fetches == s.fetches && n.prewarm == s.prewarm && n.queued == s.queued
    ensures HeapOk(n) && QueueOk(n)
  {
    forall r | r in n.heap ensures n.heap[r].generation <= n.generation {
      if r !in s.heap { var p := MadeFrom(w, r); }
    }
    hide Refs;
  }

  lemma PublishKeeps(s: State, sha: Sha, e: Event)
    requires Inv(s, sha) && Enabled(s, sha, e) && e.Publishes?
    ensures Inv(Next(s, sha, e), sha)
  {
    hide Grown, Refs, OneContent, CacheOk, Honest, Unambiguous, HeapOk, QueueOk;
    var n := Next(s, sha, e);
    GrownBy(s, s.generation, e.w);
    PublishHeap(s, e.w, n);
    hide Objects;
    forall a, b | a in n.heap && b in n.heap ensures Agree(n, a, b) { GrownAgree(s, e.w, n, a, b); }
    OneContentIs(n);
    forall r | r in n.heap ensures Right(n, sha, r) { PublishRight(s, sha, e.w, e.evicted, e.stored, n, r); }
    CacheOkIs(n, sha);
  }

  lemma CacheOkIs(n: State, sha: Sha)
    requires forall r :: r in n.heap ==> Right(n, sha, r)
    ensures CacheOk(n, sha)
  {
  }

  ghost predicate Stores(s: State, sha: Sha, w: ObjView, stored: (Id, Bytes)) {
    exists p :: p in w && w[p].ref !in s.heap && w[p].entry.id == stored.0 && w[p].entry.meta.sha == Some(sha(stored.1))
  }

  lemma PublishRight(s: State, sha: Sha, w: ObjView, evicted: set<Id>, stored: Option<(Id, Bytes)>, n: State, r: Ref)
    requires CacheOk(s, sha) && Honest(s, w) && Extends(s, s.generation, w, n.heap) && n.generation == s.generation
    requires n.cache == (if stored.Some? then (s.cache - evicted)[stored.value.0 := stored.value.1]
             else s.cache - evicted)
    requires stored.Some? ==> Stores(s, sha, w, stored.value)
    requires OneContent(n) && r in n.heap
    ensures Right(n, sha, r)
  {
    hide Refs;
    var id := n.heap[r].entry.id;
    if n.heap[r].generation == n.generation && id in n.cache {
      if stored.Some? && stored.value.0 == id {
        var p :| p in w && w[p].ref !in s.heap && w[p].entry.id == id
            && w[p].entry.meta.sha == Some(sha(stored.value.1));
        assert Agree(n, r, w[p].ref);
      } else if r in s.heap {
        assert Right(s, sha, r);
      } else {
        PublishKnown(s, w, n.heap, r);
        var q :| q in s.heap && s.heap[q].generation == s.generation && s.heap[q].entry.id == id
            && s.heap[q].entry.meta.sha == n.heap[r].entry.meta.sha;
        assert Right(s, sha, q);
      }
    }
  }

  // ── Renaming ───────────────────────────────────────────────────────────────

  /** The object `r` is what the renaming made of the entry at `p`. */
  ghost predicate RenamedAt(s: State, ids: map<Id, Id>, heap: map<Ref, Born>, r: Ref, p: Path) {
    && p in s.view && s.view[p].entry.id in ids && r in heap && s.view[p].ref in s.heap
    && s.heap[s.view[p].ref] == Born(s.generation, s.view[p].entry)
    && heap[r] == Born(s.generation, s.view[p].entry.(id := ids[s.view[p].entry.id]))
  }

  lemma RenamedFrom(s: State, ids: map<Id, Id>, w: ObjView, heap: map<Ref, Born>, r: Ref) returns (p: Path)
    requires HeapOk(s) && RenamedView(s.view, ids, w) && Extends(s, s.generation, w, heap) && r in heap && r !in s.heap
    ensures RenamedAt(s, ids, heap, r, p)
  {
    p := MadeFrom(w, r);
    hide Refs;
    assert p in s.view && Alive(s, s.view[p]);
  }

  lemma RemapAgree(s: State, ids: map<Id, Id>, w: ObjView, n: State, a: Ref, b: Ref)
    requires HeapOk(s) && OneContent(s) && RenamedView(s.view, ids, w) && GoodRemap(ids)
             && (forall x :: x in ids ==> Unknown(s, ids[x]))
    requires Extends(s, s.generation, w, n.heap) && n.generation == s.generation && a in n.heap && b in n.heap
    ensures Agree(n, a, b)
  {
    hide HeapOk, RenamedView;
    if a in s.heap && b in s.heap {
      assert Agree(s, a, b);
    } else if a in s.heap {
      var q := RenamedFrom(s, ids, w, n.heap, b);
      assert Unknown(s, n.heap[b].entry.id);
    } else if b in s.heap {
      var p := RenamedFrom(s, ids, w, n.heap, a);
      assert Unknown(s, n.heap[a].entry.id);
    } else {
      var p := RenamedFrom(s, ids, w, n.heap, a);
      var q := RenamedFrom(s, ids, w, n.heap, b);
      assert Agree(s, s.view[p].ref, s.view[q].ref);
    }
  }

  lemma RemapRight(s: State, sha: Sha, ids: map<Id, Id>, w: ObjView, n: State, r: Ref)
    requires HeapOk(s) && CacheOk(s, sha) && RenamedView(s.view, ids, w) && GoodRemap(ids)
             && (forall x :: x in ids ==> Unknown(s, ids[x]))
    requires Extends(s, s.generation, w, n.heap) && n.generation == s.generation && Renames(s.cache, ids, n.cache)
             && r in n.heap
    ensures Right(n, sha, r)
  {
    hide HeapOk, RenamedView, Refs;
    var id := n.heap[r].entry.id;
    if n.heap[r].generation == n.generation && id in n.cache {
      var prior :| prior in s.cache && RemappedId(ids, prior) == id;
      if r in s.heap {
        assert Right(s, sha, r);
        assert prior !in ids;
      } else {
        var p := RenamedFrom(s, ids, w, n.heap, r);
        assert Unknown(s, id);
        assert prior == s.view[p].entry.id;
        assert Right(s, sha, s.view[p].ref);
      }
    }
  }

  lemma RemapKeeps(s: State, sha: Sha, e: Event)
    requires Inv(s, sha) && Enabled(s, sha, e) && e.Remaps?
    ensures Inv(Next(s, sha, e), sha)
  {
    hide Grown, Refs, OneContent, CacheOk, Unambiguous, HeapOk, QueueOk, RenamedView, GoodRemap, Renames, Unknown;
    var n := Next(s, sha, e);
    GrownBy(s, s.generation, e.renamed);
    PublishHeap(s, e.renamed, n);
    hide Objects;
    forall a, b | a in n.heap && b in n.heap ensures Agree(n, a, b) { RemapAgree(s, e.ids, e.renamed, n, a, b); }
    OneContentIs(n);
    forall r | r in n.heap ensures Right(n, sha, r) { RemapRight(s, sha, e.ids, e.renamed, n, r); }
    CacheOkIs(n, sha);
  }

  // ── Fills ──────────────────────────────────────────────────────────────────

  /** Bytes that may be cached for `id`: the hash of an object that the view holds now. */
  ghost predicate Fits(s: State, sha: Sha, id: Id, bytes: Bytes) {
    exists p :: p in s.view && s.view[p].entry.id == id && s.view[p].entry.meta.sha == Some(sha(bytes))
  }

  lemma FitsKeeps(s: State, sha: Sha, id: Id, bytes: Bytes)
    requires HeapOk(s) && OneContent(s) && CacheOk(s, sha) && Fits(s, sha, id, bytes)
    ensures CacheOk(s.(cache := s.cache[id := bytes]), sha)
  {
    var n := s.(cache := s.cache[id := bytes]);
    var p :| p in s.view && s.view[p].entry.id == id && s.view[p].entry.meta.sha == Some(sha(bytes));
    forall r | r in n.heap ensures Right(n, sha, r) {
      assert Right(s, sha, r);
      assert Agree(s, r, s.view[p].ref);
    }
  }

  /** A prewarm accepts only bytes of an entry that the view holds now, in its own generation. */
  lemma AcceptedFits(s: State, sha: Sha, id: Id, data: Bytes)
    requires HeapOk(s) && s.prewarm.Some? && Accepts(s.view, s.generation, s.prewarm.value, sha, id, data)
    ensures Fits(s, sha, id, data) && s.prewarm.value.generation == s.generation
  {
    var c := s.prewarm.value.captured[id];
    assert Alive(s, c.1) && Alive(s, s.view[c.0]);
    assert s.view[c.0].entry == c.1.entry;
  }

  lemma {:induction false} PrewarmFills(s: State, sha: Sha, blobs: seq<(Id, Bytes)>)
    requires HeapOk(s) && OneContent(s) && CacheOk(s, sha) && s.prewarm.Some?
    ensures var c := Prewarmed(s.cache, s.view, s.generation, s.prewarm.value, sha, blobs);
            && CacheOk(s.(cache := c), sha)
            && forall id :: id in c && (id !in s.cache || s.cache[id] != c[id]) ==>
               Fits(s, sha, id, c[id]) && s.prewarm.value.generation == s.generation
  {
    if blobs != [] {
      var init, b := blobs[..|blobs| - 1], blobs[|blobs| - 1];
      PrewarmFills(s, sha, init);
      hide CacheOk, OneContent, HeapOk;
      if Accepts(s.view, s.generation, s.prewarm.value, sha, b.0, b.1) {
        AcceptedFits(s, sha, b.0, b.1);
        var m := s.(cache := Prewarmed(s.cache, s.view, s.generation, s.prewarm.value, sha, init));
        SameHeap(s, m);
        FitsKeeps(m, sha, b.0, b.1);
      }
    }
  }

  lemma SameHeap(a: State, b: State)
    requires HeapOk(a) && OneContent(a) && b == a.(cache := b.cache)
    ensures HeapOk(b) && OneContent(b)
    ensures forall sha, id, bytes :: Fits(a, sha, id, bytes) ==> Fits(b, sha, id, bytes)
  {
    forall x, y | x in b.heap && y in b.heap ensures Agree(b, x, y) { assert Agree(a, x, y); }
  }

  /** So does a fetch. */
  lemma FetchFits(s: State, sha: Sha, k: nat, bytes: Bytes)
    requires HeapOk(s) && k in s.fetches && s.fetches[k].obj.entry.meta.sha == Some(sha(bytes))
    requires Current(s.view, s.fetches[k].path, s.fetches[k].obj)
    ensures Fits(s, sha, s.fetches[k].obj.entry.id, bytes)
  {
    var o := s.fetches[k].obj;
    var q :| q in s.view && s.view[q].ref == o.ref;
    assert Alive(s, o) && Alive(s, s.view[q]);
  }

  lemma FillFits(s: State, sha: Sha, e: Event, id: Id)
    requires Inv(s, sha) && Enabled(s, sha, e) && (e.Fetched? || e.PrewarmEnds?)
    requires var n := Next(s, sha, e); id in n.cache && (id !in s.cache || n.cache[id] != s.cache[id])
    ensures Fits(s, sha, id, Next(s, sha, e).cache[id])
    ensures s.generation == if e.Fetched? then s.fetches[e.fetch].generation else s.prewarm.value.generation
  {
    if e.Fetched? { FetchFits(s, sha, e.fetch, e.data.value); } else { PrewarmFills(s, sha, e.blobs); }
  }

  lemma FetchKeeps(s: State, sha: Sha, e: Event)
    requires Inv(s, sha) && Enabled(s, sha, e) && e.Fetched?
    ensures Inv(Next(s, sha, e), sha)
  {
    hide Fits, CacheOk, OneContent;
    var n := Next(s, sha, e);
    var f, bytes := s.fetches[e.fetch], if e.data.Some? then e.data.value else [];
    if f.generation == s.generation && Current(s.view, f.path, f.obj) && bytes != [] {
      FetchFits(s, sha, e.fetch, bytes);
      FitsKeeps(s, sha, f.obj.entry.id, bytes);
    }
    hide HeapOk;
    OtherFields(s, s.(cache := n.cache), sha);
    OtherFields(s.(cache := n.cache), n, sha);
    FetchHeap(s, n, e.fetch);
  }

  lemma FetchHeap(s: State, n: State, k: nat)
    requires HeapOk(s) && QueueOk(s) && n == s.(fetches := s.fetches - {k}, cache := n.cache)
    ensures HeapOk(n) && QueueOk(n)
  {
  }

  lemma PrewarmKeeps(s: State, sha: Sha, e: Event)
    requires Inv(s, sha) && Enabled(s, sha, e) && e.PrewarmEnds?
    ensures Inv(Next(s, sha, e), sha)
  {
    hide Fits, CacheOk, OneContent, HeapOk, Prewarmed, QueueOk;
    var n := Next(s, sha, e);
    PrewarmFills(s, sha, e.blobs);
    OtherFields(s, s.(cache := n.cache), sha);
    OtherFields(s.(cache := n.cache), n, sha);
    PrewarmHeap(s, n, e.again);
  }

  lemma PrewarmHeap(s: State, n: State, again: map<Id, (Path, Obj)>)
    requires HeapOk(s) && QueueOk(s) && Captures(s.view, again)
    requires n == s.(cache := n.cache, prewarm := if s.queued then Some(Prewarm(s.generation, again)) else None,
             queued := false)
    ensures HeapOk(n) && QueueOk(n)
  {
  }

  /** What does not mention the heap, the generation or the cache has no say in what is cached. */
  lemma OtherFields(a: State, b: State, sha: Sha)
    requires b.heap == a.heap && b.generation == a.generation
    ensures OneContent(a) ==> OneContent(b)
    ensures b.cache == a.cache && CacheOk(a, sha) ==> CacheOk(b, sha)
  {
    if b.cache == a.cache && CacheOk(a, sha) {
      forall r | r in b.heap ensures Right(b, sha, r) { assert Right(a, sha, r); }
    }
    if OneContent(a) {
      forall x, y | x in b.heap && y in b.heap ensures Agree(b, x, y) { assert Agree(a, x, y); }
    }
  }

  lemma InvNext(s: State, sha: Sha, e: Event)
    requires Inv(s, sha) && Enabled(s, sha, e)
    ensures Inv(Next(s, sha, e), sha)
  {
    match e
    case Installs(_, _) => InstallKeeps(s, sha, e);
    case Publishes(_, _, _) => PublishKeeps(s, sha, e);
    case Remaps(_, _, _) => RemapKeeps(s, sha, e);
    case Fetched(_, _) => FetchKeeps(s, sha, e);
    case PrewarmEnds(_, _) => PrewarmKeeps(s, sha, e);
    case Forgets(id) =>
      var n := Next(s, sha, e);
      forall r | r in n.heap ensures Right(n, sha, r) { assert Right(s, sha, r); }
      forall x, y | x in n.heap && y in n.heap ensures Agree(n, x, y) { assert Agree(s, x, y); }
    case StartsRead(_, _, _) => OtherFields(s, Next(s, sha, e), sha);
  }

  // ── Whole runs ─────────────────────────────────────────────────────────────

  const START := State(map[], map[], 0, None, false, map[], map[])

  ghost predicate Behaviour(states: seq<State>, events: seq<Event>, sha: Sha) {
    && |states| == |events| + 1 && states[0] == START
    && forall n :: 0 <= n < |events| ==>
       Enabled(states[n], sha, events[n]) && states[n + 1] == Next(states[n], sha, events[n])
  }

  lemma {:induction false} RunInv(states: seq<State>, events: seq<Event>, sha: Sha, n: nat)
    requires Behaviour(states, events, sha) && n < |states|
    ensures Inv(states[n], sha)
    decreases n
  {
    if n > 0 {
      RunInv(states, events, sha, n - 1);
      hide Enabled, Next, Inv;
      InvNext(states[n - 1], sha, events[n - 1]);
    }
  }

  /** In every run: a cache hit for any entry object of the current generation, be it current or
      superseded, yields bytes of that entry's hash. */
  lemma HitIsRight(states: seq<State>, events: seq<Event>, sha: Sha, n: nat, o: Obj)
    requires Behaviour(states, events, sha) && n < |states|
    requires o.ref in states[n].heap && states[n].heap[o.ref] == Born(states[n].generation, o.entry)
             && o.entry.id in states[n].cache
    ensures o.entry.meta.sha == Some(sha(states[n].cache[o.entry.id]))
  {
    RunInv(states, events, sha, n);
    assert Right(states[n], sha, o.ref);
  }

  /** No asynchronous fill is stale: in every run, whatever happened since it began, what a fetch or a
      prewarm puts in the cache has the hash of an entry that is in the view at that moment, in the
      generation the fill began in. */
  lemma FillIsCurrent(states: seq<State>, events: seq<Event>, sha: Sha, n: nat, id: Id)
    requires Behaviour(states, events, sha) && n < |events| && (events[n].Fetched? || events[n].PrewarmEnds?)
    requires id in states[n + 1].cache && (id !in states[n].cache || states[n + 1].cache[id] != states[n].cache[id])
    ensures Fits(states[n], sha, id, states[n + 1].cache[id]) && states[n + 1].view == states[n].view
    ensures states[n].generation == if events[n].Fetched? then states[n].fetches[events[n].fetch].generation
                                    else states[n].prewarm.value.generation
  {
    RunInv(states, events, sha, n);
    FillFits(states[n], sha, events[n], id);
  }

  /** A view installed while a prewarm runs is not forgotten: its prewarm is running or queued. */
  lemma PrewarmNotLost(states: seq<State>, events: seq<Event>, sha: Sha, n: nat, again: map<Id, (Path, Obj)>)
    requires Behaviour(states, events, sha) && n < |states|
    requires states[n].prewarm.Some? && states[n].prewarm.value.generation != states[n].generation
    ensures Next(states[n], sha, PrewarmEnds([], again)).prewarm == Some(Prewarm(states[n].generation, again))
  {
    RunInv(states, events, sha, n);
  }

  // ── The commands publish honestly ──────────────────────────────────────────

  ghost predicate Repeats(v: PathView, e: Entry, ids: seq<Id>) {
    e.id in ids || exists q :: q in v && v[q].id == e.id && v[q].meta.sha == e.meta.sha
  }

  lemma {:induction false} ChangesRepeat(v: PathView, cs: seq<Change>, ids: seq<Id>, p: Path)
    requires forall i :: 0 <= i < |cs| && cs[i].Put? ==> Repeats(v, cs[i].entry, ids)
    ensures p in ApplyChanges(v, cs) ==> Repeats(v, ApplyChanges(v, cs)[p], ids)
  {
    if cs != [] { ChangesRepeat(v, cs[..|cs| - 1], ids, p); }
  }

  /** Whatever a namespace command publishes, every entry either keeps an id with its content or has an
      id that was minted for it. */
  lemma CommandPublishesHonestly(v: PathView, cmd: Cmd, ids: seq<Id>, p: Path)
    requires Valid(v, cmd) && PlanOf(v, cmd).Does? && |ids| == Mints(PlanOf(v, cmd).op)
    ensures p in Publish(v, cmd, ids) ==> Repeats(v, Publish(v, cmd, ids)[p], ids)
  {
    hide Repeats, ApplyChanges;
    var cs := Changes(v, cmd, ids);
    forall i | 0 <= i < |cs| && cs[i].Put? ensures Repeats(v, cs[i].entry, ids) { PutRepeats(v, cmd, ids, i); }
    ChangesRepeat(v, cs, ids, p);
  }

  lemma PutRepeats(v: PathView, cmd: Cmd, ids: seq<Id>, i: nat)
    requires Valid(v, cmd) && PlanOf(v, cmd).Does? && |ids| == Mints(PlanOf(v, cmd).op)
    requires i < |Changes(v, cmd, ids)| && Changes(v, cmd, ids)[i].Put?
    ensures Repeats(v, Changes(v, cmd, ids)[i].entry, ids)
  {
    match cmd
    case Mv(_, _, _, _) => MovePutRepeats(v, cmd, ids, i);
    case HardLink(existing, _) =>
    case Rm(_, _, _) => assert false;
    case ChangeMode(_, _) => assert false;
    case _ => assert Changes(v, cmd, ids)[i].entry.id == ids[i];
  }

  lemma MovePutRepeats(v: PathView, cmd: Cmd, ids: seq<Id>, i: nat)
    requires cmd.Mv? && Valid(v, cmd) && PlanOf(v, cmd).Does? && |ids| == Mints(PlanOf(v, cmd).op)
    requires i < |Changes(v, cmd, ids)| && Changes(v, cmd, ids)[i].Put?
    ensures Repeats(v, Changes(v, cmd, ids)[i].entry, ids)
  {
    hide PlanOf;
    forall j | 0 <= j < |cmd.order| ensures cmd.order[j] in v && cmd.src <= cmd.order[j] {
      assert cmd.order[j] in cmd.order;
    }
    MovePutsShape(v, cmd.src, cmd.dest, cmd.order);
    hide MovePuts;
    var j := i - |cmd.order| - |cmd.hidden|;
    assert j >= 0 && Changes(v, cmd, ids)[i] == MovePuts(v, cmd.src, cmd.dest, cmd.order)[j];
  }
}
