/** Client scenarios built on the doctests of flywrench.py and the tests of tests/test_flywrench.py,
    plus extra scenarios for collisions across instances and for the blacklist. Postconditions
    include the asserted outcomes and some the tests do not check, such as the number of entries in
    the cache. `md5` stands for the built-in fingerprint, about which nothing is assumed. */
module FlywrenchTests {
  import opened Flywrench

  /** The Cache doctest: a given blacklist is kept as it is, an absent one is empty. */
  method BlacklistKept(md5: int -> string) returns (given: seq<string>, absent: seq<string>, entries: nat)
    ensures given == ["aaa", "bbb", "ccc"]
    ensures absent == []
    ensures entries == 0
  {
    var c := new Cache<int, string>(Some(["aaa", "bbb", "ccc"]), None, md5);
    var e := new Cache<int, string>(None, None, md5);
    given, absent, entries := c.blacklist, e.blacklist, |e.d|;
  }

  /** The Flywrench doctests: `f.cache` is the class's cache, and `f.test = 'hello'` reads back. */
  method CacheAndHello(md5: string -> string) returns (isOwnCache: bool, test: string)
    ensures isOwnCache
    ensures test == "hello"
  {
    var cache := new Cache<string, string>(None, None, md5);
    var f := new Flywrench(cache, {});
    f.Set("test", "hello");
    var c := f.Get(CACHE_NAME);
    isOwnCache := c == Ok(CacheRef(cache));
    test := f.Get("test").value.value;
  }

  /** test_basic: `Example(5).test == 5`. */
  method Basic(md5: int -> string) returns (test: int)
    ensures test == 5
  {
    var cache := new Cache<int, string>(None, None, md5);
    var example := new Flywrench(cache, {});
    example.Set("test", 5);
    test := example.Get("test").value.value;
  }

  /** `[Example2(value) for i in range(n)]`: `n` new instances, each of whose constructor writes
      `value` to `test`. */
  method NewExamples<V, H(==)>(cache: Cache<V, H>, methods: set<string>, value: V, n: nat)
    returns (examples: seq<Flywrench<V, H>>)
    requires cache.Valid() && "test" !in cache.blacklist
    modifies cache
    ensures cache.Valid()
    ensures cache.d == if n == 0 then old(cache.d) else old(cache.d)[cache.makeHash(value) := value]
    ensures |examples| == n
    ensures forall j :: 0 <= j < n ==>
              && fresh(examples[j])
              && examples[j].cache == cache
              && examples[j].methods == methods
              && examples[j].attrs == map["test" := Hashed(cache.makeHash(value))]
    ensures forall j, j' :: 0 <= j < j' < n ==> examples[j] != examples[j']
  {
    examples := [];
    var i := 0;
    while i < n
      invariant 0 <= i <= n && |examples| == i
      invariant cache.Valid()
      invariant cache.d == if i == 0 then old(cache.d) else old(cache.d)[cache.makeHash(value) := value]
      invariant forall j :: 0 <= j < i ==>
                  && fresh(examples[j])
                  && examples[j].cache == cache
                  && examples[j].methods == methods
                  && examples[j].attrs == map["test" := Hashed(cache.makeHash(value))]
      invariant forall j, j' :: 0 <= j < j' < i ==> examples[j] != examples[j']
    {
      var example := new Flywrench(cache, methods);
      example.Set("test", value);
      examples := examples + [example];
      i := i + 1;
    }
  }

  /** test_modify: a hundred instances built with 42 share one cache entry; setting 7 on the last
      one changes what the others read only if 7 and 42 collide; a fresh instance built with 42
      reads 42, and its method member is returned unrouted. */
  method Modify(md5: int -> string) returns (entries: nat, neighbour: int, newcomer: int, member: bool)
    ensures entries == 1
    ensures neighbour == if md5(7) == md5(42) then 7 else 42
    ensures newcomer == 42
    ensures member
  {
    var cache := new Cache<int, string>(None, None, md5);
    var methods := {"test_method"};
    var examples := NewExamples(cache, methods, 42, 100);
    entries := |cache.d|;

    examples[99].Set("test", 7);
    neighbour := examples[0].Get("test").value.value;

    var example := new Flywrench(cache, methods);
    example.Set("test", 42);
    newcomer := example.Get("test").value.value;
    member := example.Get("test_method") == Ok(Method("test_method"));
  }

  /** test_invalid: reading an attribute never written fails with AttributeError. */
  method Invalid(md5: int -> string) returns (error: Error)
    ensures error == AttributeError("fail")
  {
    var cache := new Cache<int, string>(None, None, md5);
    var example := new Flywrench(cache, {});
    example.Set("test", 2);
    error := example.Get("fail").error;
  }

  /** test_custom_algorithm: with the constant fingerprint 42 every write collides, so writing
      `other` changes what `test` reads. */
  method CustomAlgorithm(md5: int -> int) returns (first: int, second: int)
    ensures first == 5
    ensures second == 6
  {
    var cache := new Cache<int, int>(None, Some(x => 42), md5);
    var example := new Flywrench(cache, {});
    example.Set("test", 5);
    first := example.Get("test").value.value;
    example.Set("other", 6);
    second := example.Get("test").value.value;
  }

  /** Two instances sharing one cache: with a colliding fingerprint, the second instance's write
      replaces the value the first instance reads (last writer wins). */
  method SharedCollision(md5: int -> int) returns (first: int, second: int)
    ensures first == 5
    ensures second == 6
  {
    var cache := new Cache<int, int>(None, Some(x => 42), md5);
    var f := new Flywrench(cache, {});
    var g := new Flywrench(cache, {});
    f.Set("test", 5);
    first := f.Get("test").value.value;
    g.Set("other", 6);
    second := f.Get("test").value.value;
  }

  /** A blacklisted attribute is stored on the instance: the cache stays empty and the value reads
      back. */
  method BlacklistBypass(md5: int -> string) returns (entries: nat, name: int)
    ensures entries == 0
    ensures name == 3
  {
    var cache := new Cache<int, string>(Some(["name"]), None, md5);
    var f := new Flywrench(cache, {});
    f.Set("name", 3);
    entries, name := |cache.d|, f.Get("name").value.value;
  }
}
