/**
 * internal/module/cache.go: the module cache, a thin wrapper over a Redis
 * key space mapping module names to module bytes. Keys never expire: the
 * SET is issued with expiration 0.
 */
module Caching {
  import opened Base

  /**
   * The Redis key space as the module cache sees it: the stored entries,
   * and the keys on which a GET, resp. a SET, fails with an error other
   * than "key absent" (a connection or protocol failure).
   */
  datatype Store = Store(entries: map<string, Bytes>, unreadable: set<string>, unwritable: set<string>)

  /** GetModule on a Store. */
  function Get(st: Store, name: string): Result<Bytes> {
    if name in st.unreadable then Failure(CacheGetFailed)
    else if name !in st.entries then Failure(CacheMiss)
    else Success(st.entries[name])
  }

  /** CacheModule on a Store: the new key space, or the SET's error. */
  function Set(st: Store, name: string, bytes: Bytes): Result<Store> {
    if name in st.unwritable then Failure(CacheSetFailed)
    else Success(st.(entries := st.entries[name := bytes]))
  }

  /** An absent key is reported as a miss, distinct from every other failure. */
  lemma GetMissIsDistinct(st: Store, name: string)
    ensures Get(st, name) == Failure(CacheMiss) <==> name !in st.entries && name !in st.unreadable
    ensures Get(st, name) == Failure(CacheGetFailed) <==> name in st.unreadable
    ensures Get(st, name).Success? <==> name in st.entries && name !in st.unreadable
  {
  }

  /** A successful GET returns the stored bytes unchanged. */
  lemma GetReturnsStored(st: Store, name: string)
    requires Get(st, name).Success?
    ensures name in st.entries && Get(st, name).value == st.entries[name]
  {
  }

  /** After a successful SET of `bytes` under `name`, GET of `name` returns `bytes`. */
  lemma SetThenGet(st: Store, name: string, bytes: Bytes)
    requires Set(st, name, bytes).Success? && name !in st.unreadable
    ensures Get(Set(st, name, bytes).value, name) == Success(bytes)
  {
  }

  /** A SET touches key `name` only; a failed SET changes nothing and reports an error. */
  lemma SetFrame(st: Store, name: string, bytes: Bytes, other: string)
    requires other != name
    ensures Set(st, name, bytes).Success? ==> Get(Set(st, name, bytes).value, other) == Get(st, other)
    ensures Set(st, name, bytes).Success? <==> name !in st.unwritable
    ensures Set(st, name, bytes).Success? ==>
      var st' := Set(st, name, bytes).value;
      st'.entries.Keys == st.entries.Keys + {name} && st'.unreadable == st.unreadable && st'.unwritable == st.unwritable
  {
  }

  class ModuleCache {
    var entries: map<string, Bytes>
    var unreadable: set<string>
    var unwritable: set<string>

    function State(): Store
      reads this
    {
      Store(entries, unreadable, unwritable)
    }

    /** NewModuleCache over a connected Redis client whose key space is `st`. */
    constructor (st: Store)
      ensures State() == st
    {
      entries, unreadable, unwritable := st.entries, st.unreadable, st.unwritable;
    }

    method GetModule(name: string) returns (r: Result<Bytes>)
      ensures r == Get(State(), name)
      ensures r.Success? ==> name in entries && r.value == entries[name]
      ensures r == Failure(CacheMiss) <==> name !in entries && name !in unreadable
    {
      if name in unreadable {
        return Failure(CacheGetFailed);
      }
      if name !in entries {
        return Failure(CacheMiss);
      }
      return Success(entries[name]);
    }

    method CacheModule(name: string, bytes: Bytes) returns (err: Option<Error>)
      modifies this`entries
      ensures err.None? <==> name !in old(unwritable)
      ensures err.Some? ==> err.value == CacheSetFailed && State() == old(State())
      ensures err.None? ==> State() == Set(old(State()), name, bytes).value
    {
      if name in unwritable {
        return Some(CacheSetFailed);
      }
      entries := entries[name := bytes];
      return None;
    }
  }
}
