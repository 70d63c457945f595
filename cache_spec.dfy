/**
 The value-level view of the stencil cache: a finite map from the exact
 script text to a compiled-artifact handle, with the lookup and the
 first-insert-wins store that `JSCache` performs under its mutex.
 */
module CacheSpec {

  datatype Option<T> = None | Some(value: T)

  /** An opaque, immutable handle to a compiled script (a `RefPtr<JS::Stencil>`). */
  datatype Handle = Stencil(id: nat)

  /** The cache contents: exact script text to handle; no hashing, no normalisation. */
  type Entries = map<string, Handle>

  /** `after` keeps every binding of `before`, with the same handle. */
  ghost predicate Extends(before: Entries, after: Entries)
  {
    forall k :: k in before ==> k in after && after[k] == before[k]
  }

  /** What `find` answers: the stored handle, or "absent" (a null `RefPtr`). */
  function Lookup(entries: Entries, key: string): (r: Option<Handle>)
    ensures r.None? <==> key !in entries
    ensures r.Some? ==> entries[key] == r.value
  {
    if key in entries then Some(entries[key]) else None
  }

  /**
   What `insert` leaves behind: `std::map::insert` stores the pair only when the
   key is absent, so the first handle stored under a key wins.
   */
  function Inserted(entries: Entries, key: string, val: Handle): (r: Entries)
    ensures Extends(entries, r)
    ensures r.Keys == entries.Keys + {key}
    ensures key in entries ==> r == entries
    ensures key !in entries ==> r[key] == val
    ensures forall k :: k in r && k != key ==> k in entries && r[k] == entries[k]
  {
    if key in entries then entries else entries[key := val]
  }

  /**
   Two jobs that both missed on the same script and both compiled it: whichever
   inserts second is discarded, and the cache holds exactly one entry for it.
   */
  lemma RacingInsertsKeepFirst(entries: Entries, key: string, first: Handle, second: Handle)
    requires key !in entries
    ensures Inserted(Inserted(entries, key, first), key, second) == entries[key := first]
    ensures |Inserted(Inserted(entries, key, first), key, second).Keys| == |entries.Keys| + 1
  {
    var once := Inserted(entries, key, first);
    assert once.Keys == entries.Keys + {key};
    assert key !in entries.Keys;
  }
}
