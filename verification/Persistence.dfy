/** The write side of a session: the scope, its journal with caps and provisional ids, and the flush. */
module Persistence {
  import opened Options
  import opened Tables
  import opened Commands
  import opened Renaming
  import opened Replay
  import opened Coalescing

  datatype Caps = Caps(maxOps: nat, maxBytes: nat)
  datatype Db = Db(tree: Tree, version: nat)

  datatype Settlement =
    | Unchanged
    | Committed(epoch: nat, remap: Remap)
    | Failed(reloadRequired: bool)

  /** How the flush transaction fares: whether it opens, the statement before which the owner's lease
      is found lost, and what becomes of its COMMIT. */
  datatype Reply = Acknowledged | ReplyLost | RolledBack
  datatype Fate = Fate(opens: bool, leaseLostAt: nat, reply: Reply)

  function SumBytes(journal: seq<Buffered>): nat {
    if journal == [] then 0 else SumBytes(journal[..|journal| - 1]) + journal[|journal| - 1].bytes
  }

  /** The entry count and the byte count that recording `b` would lead to. */
  function Charged(journal: seq<Buffered>, bytes: nat, b: Buffered): (nat, int) {
    if Superseding(journal, b.op) then (|journal|, bytes + b.bytes - journal[|journal| - 1].bytes)
    else (|journal| + 1, bytes + b.bytes)
  }

  predicate Fits(journal: seq<Buffered>, bytes: nat, b: Buffered, caps: Caps) {
    Charged(journal, bytes, b).0 <= caps.maxOps && Charged(journal, bytes, b).1 <= caps.maxBytes
  }

  /** The byte counter stays the sum over the kept entries. */
  lemma KeepCharges(journal: seq<Buffered>, b: Buffered)
    ensures |Keep(journal, b)| == Charged(journal, SumBytes(journal), b).0
    ensures SumBytes(Keep(journal, b)) == Charged(journal, SumBytes(journal), b).1
  {
    var k := Keep(journal, b);
    assert k[..|k| - 1] == if Superseding(journal, b.op) then journal[..|journal| - 1] else journal;
  }

  /** A mutation fits if and only if the journal that keeps it is within both caps. */
  lemma FitsExactly(journal: seq<Buffered>, b: Buffered, caps: Caps)
    ensures Fits(journal, SumBytes(journal), b, caps) <==>
            |Keep(journal, b)| <= caps.maxOps && SumBytes(Keep(journal, b)) <= caps.maxBytes
  {
    hide SumBytes, Keep;
    KeepCharges(journal, b);
  }

  /** Every provisional id in the journal was handed out before `next`. */
  ghost predicate MintedBefore(journal: seq<Buffered>, next: Id) {
    forall i :: 0 <= i < |journal| ==> Before(journal[i].minted, next)
  }

  ghost predicate Before(minted: seq<Id>, next: Id) {
    forall id :: id in minted ==> next < id < 0
  }

  lemma KeepMinted(journal: seq<Buffered>, b: Buffered, next: Id)
    requires MintedBefore(journal, next) && Before(b.minted, next)
    ensures MintedBefore(Keep(journal, b), next)
  {
    var k := Keep(journal, b);
    forall i | 0 <= i < |k| ensures Before(k[i].minted, next) {
      assert i < |k| - 1 ==> k[i] == k[..|k| - 1][i];
    }
  }

  function MintIds(next: Id, n: nat): (ids: seq<Id>)
    ensures |ids| == n
  {
    seq(n, i requires 0 <= i < n => next - i)
  }

  /** What the flush does to the database: everything or nothing. */
  function FlushDb(db: Db, authority: nat, journal: seq<Buffered>, stored: seq<seq<Id>>, fate: Fate): (Db, Settlement)
    requires |journal| == |stored|
  {
    if !fate.opens || db.version != authority || fate.leaseLostAt <= |journal| then (db, Failed(true)) else
    match ReplayAll(Tx(db.tree, db.version, 0), map[], journal, stored, authority)
    case None => (db, Failed(true))
    case Some(r) =>
      match fate.reply
      case Acknowledged => (Db(r.0.tree, r.0.version), Committed(r.0.version, r.1))
      case ReplyLost => (Db(r.0.tree, r.0.version), Failed(true))
      case RolledBack => (db, Failed(true))
  }

  /** What `finish` comes to. */
  function Finished(db: Db, authority: nat, lost: bool, journal: seq<Buffered>, stored: seq<seq<Id>>, fate: Fate): (Db,
                    Settlement)
    requires |journal| == |stored|
  {
    if lost then (db, Failed(journal != []))
    else if journal == [] then (db, Unchanged)
    else FlushDb(db, authority, journal, stored, fate)
  }

  class Database {
    var state: Db

    constructor (db: Db)
      ensures state == db
    {
      state := db;
    }
  }

  class ScriptPersistence {
    const caps: Caps
    var scope: bool
    var generation: nat
    var lost: bool
    var mutations: seq<Buffered>
    var mutationBytes: nat
    var idRemap: Remap
    var nextProvisional: Id

    ghost predicate Valid()
      reads this
    {
      && mutationBytes == SumBytes(mutations)
      && |mutations| <= caps.maxOps && mutationBytes <= caps.maxBytes
      && nextProvisional < 0
      && MintedBefore(mutations, nextProvisional)
      && idRemap == map[] && (!scope ==> mutations == [])
    }

    constructor (limits: Caps)
      ensures Valid() && caps == limits && !scope && !lost && nextProvisional == -1 && generation == 0
    {
      caps := limits;
      scope, generation, lost := false, 0, false;
      mutations, mutationBytes, idRemap, nextProvisional := [], 0, map[], -1;
    }

    /** Opens a scope with an empty journal. Provisional ids go on counting where they were. */
    method Begin() returns (ok: bool)
      requires Valid()
      modifies this
      ensures Valid() && ok == !old(scope)
      ensures ok ==> scope && !lost && mutations == [] && generation == old(generation) + 1
      ensures nextProvisional == old(nextProvisional)
      ensures !ok ==> scope && lost == old(lost) && mutations == old(mutations) && generation == old(generation)
    {
      if scope { return false; }
      lost := false;
      mutations, mutationBytes, idRemap := [], 0, map[];
      generation := generation + 1;
      scope := true;
      return true;
    }

    /** `assertGeneration`: what was captured when a mutation began, nothing outside a scope, must still be
        the state of things, and the scope must not be lost. Mutations ask before and after they record. */
    method AssertGeneration(captured: Option<nat>) returns (ok: bool)
      ensures ok <==> if scope then captured == Some(generation) && !lost else captured.None?
    {
      if captured.None? && scope { return false; }
      if captured.Some? && (!scope || captured.value != generation) { return false; }
      return !(scope && lost);
    }

    /** `mutate` inside a buffered scope: mint, then record or overflow. */
    method Mutate(op: Op, bytes: nat) returns (minted: Option<seq<Id>>)
      requires Valid() && scope
      modifies this
      ensures Valid() && scope && generation == old(generation)
      ensures var b := Buffered(op, MintIds(old(nextProvisional), Mints(op)), bytes);
              if old(lost) then minted == None && lost && mutations == old(mutations)
                  && nextProvisional == old(nextProvisional)
              else && nextProvisional == old(nextProvisional) - Mints(op)
                   && (minted.Some? <==> Fits(old(mutations), old(mutationBytes), b, caps))
                   && (minted.Some? ==> minted.value == b.minted && !lost && mutations == Keep(old(mutations), b))
                   && (minted.None? ==> lost && mutations == old(mutations))
    {
      if lost { return None; }
      var ids: seq<Id> := [];
      ghost var first := nextProvisional;
      for i := 0 to Mints(op)
        invariant nextProvisional == first - i && ids == MintIds(first, i)
        invariant Valid() && scope && !lost && mutations == old(mutations) && mutationBytes == old(mutationBytes)
        invariant generation == old(generation)
      {
        assert MintIds(first, i + 1) == MintIds(first, i) + [first - i];
        ids := ids + [nextProvisional];
        nextProvisional := nextProvisional - 1;
      }
      var ok := RecordMutation(Buffered(op, ids, bytes));
      return if ok then Some(ids) else None;
    }

    /** `#recordMutation`: a write that supersedes the last entry takes its place; past a cap the
        journal stays as it is and the scope is lost for good. */
    method RecordMutation(m: Buffered) returns (ok: bool)
      requires Valid() && scope
      requires Before(m.minted, nextProvisional)
      modifies this`mutations, this`mutationBytes, this`lost
      ensures Valid()
      ensures ok <==> Fits(old(mutations), old(mutationBytes), m, caps)
      ensures ok ==> mutations == Keep(old(mutations), m) && lost == old(lost)
      ensures !ok ==> mutations == old(mutations) && lost
    {
      hide MintedBefore, Before, SumBytes;
      var superseding := Superseding(mutations, m.op);
      var ops := |mutations| + if superseding then 0 else 1;
      var bytes := mutationBytes + m.bytes - if superseding then mutations[|mutations| - 1].bytes else 0;
      KeepCharges(mutations, m);
      if ops > caps.maxOps || bytes > caps.maxBytes {
        lost := true;
        return false;
      }
      var kept := Keep(mutations, m);
      KeepMinted(mutations, m, nextProvisional);
      mutations := kept;
      mutationBytes := bytes;
      return true;
    }

    /** The replay loop of `#flushMutations`, on the tables of its own transaction. */
    method ReplayMutations(tx: Tx, stored: seq<seq<Id>>, expected: nat, leaseLostAt: nat) returns (r: Option<Tx>)
      requires |stored| == |mutations| && idRemap == map[]
      modifies this`idRemap
      ensures r.Some? <==> leaseLostAt > |mutations| && ReplayAll(tx, map[], mutations, stored, expected).Some?
      ensures r.Some? ==> ReplayAll(tx, map[], mutations, stored, expected) == Some((r.value, idRemap))
    {
      var t := tx;
      for n := 0 to |mutations|
        invariant n <= leaseLostAt
        invariant ReplayAll(tx, map[], mutations[..n], stored[..n], expected) == Some((t, idRemap))
      {
        assert mutations[..n + 1][..n] == mutations[..n] && stored[..n + 1][..n] == stored[..n];
        ghost var upto := ReplayAll(tx, map[], mutations[..n + 1], stored[..n + 1], expected);
        if n == leaseLostAt { return None; }
        var m, ids := mutations[n], stored[n];
        if |ids| != |m.minted| || |ids| != Mints(m.op) || !Bound(idRemap, m.op) {
          assert upto.None?;
          ReplayStuck(tx, mutations, stored, expected, n + 1);
          return None;
        }
        var out := Run(RealOp(idRemap, m.op), t, ids, expected);
        if out.None? {
          assert upto.None?;
          ReplayStuck(tx, mutations, stored, expected, n + 1);
          return None;
        }
        BindMinted(m.minted, ids);
        t := out.value;
      }
      assert mutations[..|mutations|] == mutations && stored[..|stored|] == stored;
      if leaseLostAt == |mutations| { return None; }
      return Some(t);
    }

    method BindMinted(minted: seq<Id>, stored: seq<Id>)
      requires |minted| == |stored|
      modifies this`idRemap
      ensures idRemap == Bind(old(idRemap), minted, stored)
    {
      for i := 0 to |minted|
        invariant idRemap == Bind(old(idRemap), minted[..i], stored[..i])
      {
        assert minted[..i + 1][..i] == minted[..i] && stored[..i + 1][..i] == stored[..i];
        idRemap := idRemap[minted[i] := stored[i]];
      }
      assert minted[..|minted|] == minted && stored[..|stored|] == stored;
    }

    /** Ends the scope. Whatever happens, the journal is gone and the database took all or none of it. */
    method Finish(db: Database, authority: nat, stored: seq<seq<Id>>, fate: Fate) returns (s: Settlement)
      requires Valid() && |stored| == |mutations|
      modifies this, db
      ensures Valid() && !scope && generation == old(generation) && nextProvisional == old(nextProvisional)
      ensures (db.state, s) == if old(scope) then Finished(old(db.state), authority, old(lost), old(mutations), stored,
              fate)
                               else (old(db.state), Unchanged)
    {
      if !scope { return Unchanged; }
      scope := false;
      if lost {
        s := Failed(mutations != []);
      } else if mutations == [] {
        s := Unchanged;
      } else {
        s := Failed(true);
        var before := db.state;
        if fate.opens && before.version == authority {
          var t := ReplayMutations(Tx(before.tree, before.version, 0), stored, authority, fate.leaseLostAt);
          if t.Some? && fate.reply != RolledBack {
            db.state := Db(t.value.tree, t.value.version);
            if fate.reply == Acknowledged { s := Committed(t.value.version, idRemap); }
          }
        }
      }
      mutations, mutationBytes, idRemap := [], 0, map[];
    }

    method Abort() returns (reloadRequired: bool)
      requires Valid()
      modifies this
      ensures Valid() && !scope && generation == old(generation) && nextProvisional == old(nextProvisional)
      ensures reloadRequired <==> old(scope) && old(mutations) != []
    {
      if !scope { return false; }
      scope := false;
      reloadRequired := mutations != [];
      mutations, mutationBytes, idRemap := [], 0, map[];
    }
  }

  lemma {:induction false} ReplayStuck(tx: Tx, journal: seq<Buffered>, stored: seq<seq<Id>>, e: nat, n: nat)
    requires |journal| == |stored| && n <= |journal| && ReplayAll(tx, map[], journal[..n], stored[..n], e).None?
    ensures ReplayAll(tx, map[], journal, stored, e).None?
    decreases |journal|
  {
    hide ReplayOne;
    if n == |journal| {
      assert journal[..n] == journal && stored[..n] == stored;
    } else {
      var m := |journal| - 1;
      assert journal[..m][..n] == journal[..n] && stored[..m][..n] == stored[..n];
      ReplayStuck(tx, journal[..m], stored[..m], e, n);
    }
  }
}
