/**
 * The parts of the cache library the rendering manager relies on: a named
 * cache holding documents by key, and the process-wide cache manager that
 * hands out caches by name. Capacity eviction and expiry are not modelled:
 * the cache behaves as an unbounded map.
 */
module Ehcache {
  import opened Wrappers
  import opened RenderCache

  /** A named document cache (net.sf.ehcache.Cache) as its settings and entries. */
  class DocumentCache {
    const name: string
    const maxEntries: nat
    const overflowToDisk: bool
    const eternal: bool
    const timeToLiveSeconds: nat
    const timeToIdleSeconds: nat
    var entries: Cache

    constructor (name: string, maxEntries: nat, overflowToDisk: bool, eternal: bool,
                 timeToLiveSeconds: nat, timeToIdleSeconds: nat)
      ensures this.name == name && this.maxEntries == maxEntries
      ensures this.overflowToDisk == overflowToDisk && this.eternal == eternal
      ensures this.timeToLiveSeconds == timeToLiveSeconds && this.timeToIdleSeconds == timeToIdleSeconds
      ensures entries == map[]
    {
      this.name := name;
      this.maxEntries := maxEntries;
      this.overflowToDisk := overflowToDisk;
      this.eternal := eternal;
      this.timeToLiveSeconds := timeToLiveSeconds;
      this.timeToIdleSeconds := timeToIdleSeconds;
      entries := map[];
    }

    /** The document stored under `key`, or None (Java's null) when there is none. */
    function Get(key: string): (r: Option<WikiDocument>)
      reads this
      ensures r.Some? <==> key in entries
      ensures r.Some? ==> r.value == entries[key]
    {
      if key in entries then Some(entries[key]) else None
    }

    method Put(key: string, doc: WikiDocument)
      modifies this
      ensures entries == old(entries)[key := doc]
    {
      entries := entries[key := doc];
    }

    /** Removing a key that is not there is harmless. */
    method Remove(key: string)
      modifies this
      ensures entries == old(entries) - {key}
    {
      entries := entries - {key};
    }
  }

  /** The process-wide cache manager (CacheManager.getInstance()). */
  class CacheManager {
    var caches: map<string, DocumentCache>

    constructor ()
      ensures caches == map[]
    {
      caches := map[];
    }

    predicate CacheExists(name: string)
      reads this
    {
      name in caches
    }

    method AddCache(cache: DocumentCache)
      requires !CacheExists(cache.name)
      modifies this
      ensures caches == old(caches)[cache.name := cache]
    {
      caches := caches[cache.name := cache];
    }
  }
}
