/** The flyweight cache: a `Cache` holding the shared fingerprint-to-value dictionary, and the
    `Flywrench` instances whose attribute reads and writes are routed through it.

    Python's implicit attribute interception becomes the explicit pair `Get`/`Set`; the class-level
    `cache` attribute becomes a reference each instance is built with, so several instances (and
    several classes) share one `Cache` object. */
module Flywrench {
  import opened CacheTable

  datatype Option<T> = None | Some(value: T)

  datatype Result<T, E> = Ok(value: T) | Err(error: E)

  /** The exception an attribute read can raise: the instance has no attribute of that name. A
      lookup of a stored fingerprint cannot fail, because `Flywrench.Valid` keeps every stored
      fingerprint in the cache's dictionary. */
  datatype Error = AttributeError(name: string)

  /** What an instance physically stores under an attribute name. */
  datatype Slot<V, H> =
    | Direct(value: V)        // a blacklisted attribute: the value itself
    | Hashed(fingerprint: H)  // any other attribute: only the value's fingerprint

  /** What reading an attribute yields. */
  datatype Attr<V, H> =
    | CacheRef(cache: Cache<V, H>)  // the instance's cache, never looked up in it
    | Method(name: string)          // a method member, returned unrouted
    | Value(value: V)               // a data attribute's logical value

  /** The name of the attribute holding an instance's cache. */
  const CACHE_NAME: string := "cache"

  /** The shared content cache: the dictionary `d`, the blacklisted attribute names and the
      fingerprint function. */
  class Cache<V, H(==)> {
    var d: map<H, V>
    const blacklist: seq<string>
    const makeHash: V -> H
    /** Every value stored into `d`, in order. */
    ghost var log: seq<V>

    ghost predicate Valid()
      reads this
    {
      d == Table(log, makeHash)
    }

    /** `defaultHash` stands for the built-in fingerprint (md5 over the pickled value), which is
        used when no `hashAlgorithm` is given. */
    constructor (blacklist: Option<seq<string>>, hashAlgorithm: Option<V -> H>, defaultHash: V -> H)
      ensures Valid()
      ensures d == map[] && log == []
      ensures this.blacklist == (if blacklist.Some? then blacklist.value else [])
      ensures makeHash == (if hashAlgorithm.Some? then hashAlgorithm.value else defaultHash)
    {
      d := map[];
      log := [];
      this.blacklist := if blacklist.Some? then blacklist.value else [];
      if hashAlgorithm.Some? {
        makeHash := hashAlgorithm.value;
      } else {
        makeHash := defaultHash;
      }
    }
  }

  /** Deduplication: the keys of a valid cache's dictionary are exactly the fingerprints of the
      values stored into it. */
  lemma CacheKeys<V, H>(c: Cache<V, H>)
    requires c.Valid()
    ensures c.d.Keys == set v | v in c.log :: c.makeHash(v)
  {
    TableKeys(c.log, c.makeHash);
  }

  /** Isolation across instances: when a write through another instance stores `v` under `h` in
      the shared cache (as `Flywrench.Set` does for a name that is not blacklisted), an instance `g`
      that was not written stays valid, and a read of `j` on it changes only when its slot holds
      that same fingerprint, in which case it now reads `v`. */
  twostate lemma OtherInstanceIsolated<V, H>(g: Flywrench<V, H>, j: string, v: V)
    requires old(g.Valid()) && unchanged(g)
    requires g.cache.d == old(g.cache.d)[g.cache.makeHash(v) := v]
    requires g.cache.log == old(g.cache.log) + [v]
    ensures g.Valid()
    ensures j in g.attrs && g.attrs[j] == Hashed(g.cache.makeHash(v)) ==> g.Get(j) == Ok(Value(v))
    ensures !(j in g.attrs && g.attrs[j] == Hashed(g.cache.makeHash(v))) ==> g.Get(j) == old(g.Get(j))
  {
    Store(old(g.cache.log), v, g.cache.makeHash);
  }

  /** An instance of a flyweight class. `methods` are the names of the methods its class defines. */
  class Flywrench<V, H(==)> {
    const cache: Cache<V, H>
    const methods: set<string>
    var attrs: map<string, Slot<V, H>>

    /** The cache reference is never overwritten, a slot is direct exactly when its name is
        blacklisted, and every stored fingerprint resolves in the cache. */
    ghost predicate Valid()
      reads this, cache
    {
      && cache.Valid()
      && CACHE_NAME !in attrs
      && (forall k :: k in attrs ==> (attrs[k].Direct? <==> k in cache.blacklist))
      && (forall k :: k in attrs && attrs[k].Hashed? ==> attrs[k].fingerprint in cache.d)
    }

    constructor (cache: Cache<V, H>, methods: set<string>)
      requires cache.Valid()
      ensures Valid()
      ensures this.cache == cache && this.methods == methods && attrs == map[]
    {
      this.cache := cache;
      this.methods := methods;
      attrs := map[];
    }

    /** Attribute read (`__getattribute__`). */
    function Get(k: string): (r: Result<Attr<V, H>, Error>)
      reads this, cache
      requires Valid()
      ensures k == CACHE_NAME ==> r == Ok(CacheRef(cache))
      ensures r.Err? <==> k != CACHE_NAME && k !in attrs && k !in methods
      ensures r.Err? ==> r.error == AttributeError(k)
      ensures k != CACHE_NAME && k !in attrs && k in methods ==> r == Ok(Method(k))
      ensures k != CACHE_NAME && k in attrs && attrs[k].Direct? ==> r == Ok(Value(attrs[k].value))
      ensures k != CACHE_NAME && k in attrs && attrs[k].Hashed? ==>
                r == Ok(Value(cache.d[attrs[k].fingerprint]))
    {
      if k == CACHE_NAME then
        Ok(CacheRef(cache))
      else if k in cache.blacklist then
        if k in attrs then Ok(Value(attrs[k].value))
        else if k in methods then Ok(Method(k))
        else Err(AttributeError(k))
      else if k !in attrs then
        if k in methods then Ok(Method(k))
        else Err(AttributeError(k))
      else
        Ok(Value(cache.d[attrs[k].fingerprint]))
    }

    /** Attribute write (`__setattr__`). */
    method Set(k: string, v: V)
      requires Valid()
      requires k != CACHE_NAME
      modifies this, cache
      ensures Valid()
      ensures k in cache.blacklist ==>
                && attrs == old(attrs)[k := Direct(v)]
                && cache.d == old(cache.d)
                && cache.log == old(cache.log)
      ensures k !in cache.blacklist ==>
                && attrs == old(attrs)[k := Hashed(cache.makeHash(v))]
                && cache.d == old(cache.d)[cache.makeHash(v) := v]
                && cache.log == old(cache.log) + [v]
      ensures Get(k) == Ok(Value(v))
      ensures k !in cache.blacklist ==>
                forall j :: j in attrs && attrs[j] == Hashed(cache.makeHash(v)) ==> Get(j) == Ok(Value(v))
      ensures forall j :: j != k && (j !in attrs || attrs[j] != Hashed(cache.makeHash(v))) ==>
                Get(j) == old(Get(j))
    {
      if k in cache.blacklist {
        attrs := attrs[k := Direct(v)];
      } else {
        var h := cache.makeHash(v);
        attrs := attrs[k := Hashed(h)];
        Store(cache.log, v, cache.makeHash);
        cache.d := cache.d[h := v];
        cache.log := cache.log + [v];
      }
    }
  }
}
