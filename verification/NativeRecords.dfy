/** The native projection of a scope, pointwise deltas between two projections, and the coordinator's record cache. */
module NativeRecords {
  import opened RedisServer

  /** The records of one scope, keyed as in the source's ordered maps. */
  type Records = map<EntityId, string>

  datatype Projection = Projection(scope: string, records: Records)

  datatype Delta = Delta(scope: string, upserts: Records, deletes: set<EntityId>, entityCount: nat)

  /** What the cache holds for a scope: its first projection, or nothing. */
  function Lookup(cache: seq<Projection>, scope: string): Records {
    if cache == [] then map[]
    else if cache[0].scope == scope then cache[0].records
    else Lookup(cache[1..], scope)
  }

  predicate HasScope(projections: seq<Projection>, scope: string) {
    exists i :: 0 <= i < |projections| && projections[i].scope == scope
  }

  predicate DistinctScopes(projections: seq<Projection>) {
    forall i, j :: 0 <= i < j < |projections| ==> projections[i].scope != projections[j].scope
  }

  function NativeDelta(previous: Records, current: Projection): Delta {
    Delta(current.scope,
          map id | id in current.records && (id !in previous || previous[id] != current.records[id]) ::
            current.records[id],
          set id | id in previous && id !in current.records,
          |current.records|)
  }

  function NativeDeltas(cache: seq<Projection>, current: seq<Projection>): seq<Delta> {
    seq(|current|, i requires 0 <= i < |current| => NativeDelta(Lookup(cache, current[i].scope), current[i]))
  }

  function Patch(records: Records, delta: Delta): Records {
    (records - delta.deletes) + delta.upserts
  }

  lemma PatchIsCurrent(previous: Records, current: Projection)
    ensures Patch(previous, NativeDelta(previous, current)) == current.records
  {
    var d := NativeDelta(previous, current);
    var patched := Patch(previous, d);
    forall id
      ensures id in patched <==> id in current.records
      ensures id in patched ==> patched[id] == current.records[id]
    {
      assert id in d.deletes <==> id in previous && id !in current.records;
    }
  }

  lemma DeltaIsExact(previous: Records, current: Projection, id: EntityId)
    ensures var d := NativeDelta(previous, current);
      && (id in d.upserts ==> id !in d.deletes)
      && (id in d.upserts || id in d.deletes <==>
          (id in previous) != (id in current.records) ||
          (id in previous && id in current.records && previous[id] != current.records[id]))
  {
  }

  /** A delta carries exactly what it takes to turn the previous records into the current ones, and nothing else. */
  lemma DeltaPatches(previous: Records, current: Projection)
    ensures var d := NativeDelta(previous, current);
      && Patch(previous, d) == current.records
      && d.upserts.Keys !! d.deletes
      && (forall id :: id in d.upserts || id in d.deletes <==>
           (id in previous) != (id in current.records) ||
           (id in previous && id in current.records && previous[id] != current.records[id]))
  {
    PatchIsCurrent(previous, current);
    forall id: EntityId {
      DeltaIsExact(previous, current, id);
    }
  }

  /** `apply_native_cache`: each projection replaces the cached one of its scope, or is added. */
  function Store(cache: seq<Projection>, p: Projection): seq<Projection> {
    if cache == [] then [p]
    else if cache[0].scope == p.scope then [p] + cache[1..]
    else [cache[0]] + Store(cache[1..], p)
  }

  function ApplyCache(cache: seq<Projection>, current: seq<Projection>): seq<Projection> {
    if current == [] then cache
    else Store(ApplyCache(cache, current[..|current| - 1]), current[|current| - 1])
  }

  lemma {:induction false} StoreLookup(cache: seq<Projection>, p: Projection, scope: string)
    ensures Lookup(Store(cache, p), scope) == if scope == p.scope then p.records else Lookup(cache, scope)
  {
    if cache != [] {
      if cache[0].scope == p.scope {
        assert Store(cache, p)[1..] == cache[1..];
      } else {
        StoreLookup(cache[1..], p, scope);
        assert Store(cache, p)[1..] == Store(cache[1..], p);
      }
    }
  }

  lemma {:induction false} LookupLast(current: seq<Projection>, scope: string)
    requires current != []
    ensures Lookup(current, scope) ==
      if HasScope(current[..|current| - 1], scope) then Lookup(current[..|current| - 1], scope)
      else if current[|current| - 1].scope == scope then current[|current| - 1].records else map[]
  {
    var front := current[..|current| - 1];
    if |current| > 1 && current[0].scope != scope {
      LookupLast(current[1..], scope);
      assert current[1..][..|current| - 2] == front[1..];
      if HasScope(front, scope) {
        var i :| 0 <= i < |front| && front[i].scope == scope;
        assert front[1..][i - 1].scope == scope;
      }
      if HasScope(front[1..], scope) {
        var i :| 0 <= i < |front[1..]| && front[1..][i].scope == scope;
        assert front[i + 1].scope == scope;
      }
    } else if |current| > 1 {
      assert front[0].scope == scope;
    }
  }

  /** After the update the cache answers for every scope just published and is unchanged for every other one. */
  lemma {:induction false} ApplyCacheLookup(cache: seq<Projection>, current: seq<Projection>, scope: string)
    requires DistinctScopes(current)
    ensures Lookup(ApplyCache(cache, current), scope) ==
            if HasScope(current, scope) then Lookup(current, scope) else Lookup(cache, scope)
  {
    if current != [] {
      var n := |current| - 1;
      var front, last := current[..n], current[n];
      ApplyCacheLookup(cache, front, scope);
      StoreLookup(ApplyCache(cache, front), last, scope);
      LookupLast(current, scope);
      assert HasScope(current, scope) <==> HasScope(front, scope) || last.scope == scope by {
        if HasScope(front, scope) {
          var i :| 0 <= i < |front| && front[i].scope == scope;
          assert current[i].scope == scope;
        }
        if last.scope == scope {
          assert current[n].scope == scope;
        }
        if HasScope(current, scope) && last.scope != scope {
          var i :| 0 <= i < |current| && current[i].scope == scope;
          assert front[i].scope == scope;
        }
      }
    }
  }

  lemma {:induction false} LookupIs(current: seq<Projection>, i: nat)
    requires DistinctScopes(current) && i < |current|
    ensures Lookup(current, current[i].scope) == current[i].records && HasScope(current, current[i].scope)
  {
    if i > 0 {
      assert DistinctScopes(current[1..]);
      LookupIs(current[1..], i - 1);
      assert current[0].scope != current[i].scope;
    }
  }

  lemma {:induction false} LookupAbsent(current: seq<Projection>, scope: string)
    requires !HasScope(current, scope)
    ensures Lookup(current, scope) == map[]
  {
    if current != [] {
      assert current[0].scope != scope;
      assert forall i :: 0 <= i < |current[1..]| ==> current[1..][i] == current[i + 1];
      LookupAbsent(current[1..], scope);
    }
  }

  lemma {:induction false} StoreAt(cache: seq<Projection>, i: nat, p: Projection)
    requires i <= |cache| && forall k :: 0 <= k < i ==> cache[k].scope != p.scope
    requires i < |cache| ==> cache[i].scope == p.scope
    ensures Store(cache, p) == if i < |cache| then cache[i := p] else cache + [p]
  {
    if i > 0 {
      StoreAt(cache[1..], i - 1, p);
      assert cache == [cache[0]] + cache[1..];
    }
  }

  /** The loop of `apply_native_cache`, which updates the cache in place. */
  class NativeCache {
    var projections: seq<Projection>

    constructor ()
      ensures projections == []
    {
      projections := [];
    }

    method Update(current: seq<Projection>)
      modifies this
      ensures projections == ApplyCache(old(projections), current)
    {
      for i := 0 to |current|
        invariant projections == ApplyCache(old(projections), current[..i])
      {
        assert current[..i + 1][..i] == current[..i];
        StoreOne(current[i]);
      }
      assert current[..|current|] == current;
    }

    method StoreOne(p: Projection)
      modifies this
      ensures projections == Store(old(projections), p)
    {
      var i := 0;
      while i < |projections| && projections[i].scope != p.scope
        invariant 0 <= i <= |projections|
        invariant projections == old(projections)
        invariant forall k :: 0 <= k < i ==> projections[k].scope != p.scope
      {
        i := i + 1;
      }
      StoreAt(projections, i, p);
      if i < |projections| {
        projections := projections[i := p];
      } else {
        projections := projections + [p];
      }
    }
  }
}
