# flywrench: a verified model of the flyweight cache

flywrench deduplicates attribute values. A `Cache` holds a dictionary `d` from fingerprints to
values, a blacklist of attribute names, and a fingerprint function `makeHash`. Instances of
classes built on `Flywrench` intercept their attribute accesses:

- A write of a blacklisted name stores the value on the instance.
- A write of any other name stores only `makeHash(v)` on the instance and assigns
  `cache.d[makeHash(v)] = v`. Equal values written by many instances end up as one entry.
- A read of `cache` returns the cache itself.
- A read of a blacklisted name or of a method returns the member directly.
- A read of any other name looks the stored fingerprint up in `cache.d`.

The model has three modules:

- `CacheTable` (cache_table.dfy) is pure. `Table(log, hash)` is the dictionary left by storing the
  values of `log`, in order, into an empty one. Lemmas say which keys it has, which value each key
  holds (the last one written with that fingerprint), and that repeated writes of one value add at
  most one entry.
- `Flywrench` (flywrench.dfy) has two classes.
  - `Cache` has the mutable field `d`. The constant fields `blacklist` and `makeHash` are fixed by
    its constructor. A ghost field `log` records every value stored. `Cache.Valid()` states
    `d == Table(log, makeHash)`.
  - `Flywrench` is one instance. It holds a reference to a shared `Cache`, its attribute store
    `attrs`, and the set `methods` of its class's method names. `Get` models `__getattribute__`;
    `Set` models `__setattr__`. `Flywrench.Valid()` states four things: the cache is valid, the
    instance never stores `cache` itself, a slot holds a value directly exactly when its name is
    blacklisted, and every stored fingerprint is a key of `cache.d`.
- `FlywrenchTests` (flywrench_tests.dfy) holds client scenarios built on the doctests and the unit
  tests, plus extra scenarios for collisions across instances and for the blacklist. Their
  postconditions include outcomes the tests do not assert, such as the number of entries in `d`.

The fingerprint function is a parameter of type `V -> H`, so it is deterministic by construction.
The built-in md5-over-pickle fingerprint is passed to the `Cache` constructor as `defaultHash`.

Three points the code settles:

- A store under an existing fingerprint overwrites: flywrench.py:69 assigns `d[h] = v`
  unconditionally, so the last writer wins.
- The blacklist is a list (`seq<string>`), kept exactly as given (flywrench.py:14).
- A missing fingerprint at the lookup (flywrench.py:59) cannot occur in the model, because
  `Flywrench.Valid` keeps every stored fingerprint in `d`. Every `Set` keeps it, including writes
  through other instances that share the cache, because `d` only ever gains or overwrites entries.

## Model

| member | source | states |
|---|---|---|
| `Flywrench.Cache.constructor` | flywrench.py:7-17 | `d` starts empty. The blacklist is the given list, or `[]` when none is given. `makeHash` is the given hash algorithm, or else the built-in fingerprint. |
| `Flywrench.Flywrench.constructor` | flywrench.py:30-37 | A new instance holds no attributes and refers to the shared cache it was built with. |
| `Flywrench.Flywrench.Get` | flywrench.py:39-59 | Reading `cache` returns the cache reference. A read fails exactly when the name is neither stored nor a method, and it then fails with AttributeError for that name, never at the cache lookup. A stored name yields its direct value, or `cache.d` at its stored fingerprint. An unstored method name yields the method. |
| `Flywrench.Flywrench.Set` | flywrench.py:61-69 | A blacklisted write stores the value directly and leaves `d` unchanged. Any other write stores `makeHash(v)` in the slot and sets `d[makeHash(v)] := v`, changing no other slot or key. Afterwards the name reads `v`. Every slot holding the same fingerprint also reads `v` (last writer wins). Every other name reads as before. |
| `Flywrench.CacheKeys` | flywrench.py:67-69 | For a valid cache, the keys of `d` are exactly the fingerprints of the values stored into it. |
| `Flywrench.OtherInstanceIsolated` | flywrench.py:58-69 | After a write through another instance stores `v` in the shared cache, an untouched instance stays valid; a read of one of its names changes only if that name's slot holds the same fingerprint, and then reads `v`. |
| `CacheTable.TableKeys` | flywrench.py:67-69 | The keys of `d` are exactly the fingerprints of the values written to non-blacklisted names. |
| `CacheTable.TableLastWriter` | flywrench.py:69 | The entry under a fingerprint is the last value written with that fingerprint. |
| `CacheTable.TableEntries` | flywrench.py:67-69 | Every entry of `d` is a value that was written, filed under its own fingerprint. |
| `CacheTable.StoreRepeated` | flywrench.py:67-69 | Any number of writes of one value add at most one key and leave every other entry unchanged (deduplication). |
| `CacheTable.StoreIdempotent` | flywrench.py:69 | Writing a value that is already the entry under its fingerprint leaves `d` unchanged. |
| `FlywrenchTests.BlacklistKept` | flywrench.py:8-15 | `Cache(blacklist=['aaa','bbb','ccc']).blacklist` is that list. With no blacklist it is `[]`, and `d` starts empty. |
| `FlywrenchTests.CacheAndHello` | flywrench.py:31-44 | `f.cache` is the instance's own cache, and `f.test = 'hello'` reads back `'hello'`. |
| `FlywrenchTests.Basic` | tests/test_flywrench.py:43-50 | `Example(5).test == 5`. |
| `FlywrenchTests.NewExamples` | tests/test_flywrench.py:62 | `n` new instances, each built with `value` over one cache, are distinct and each stores only the fingerprint of `value`. The cache gains at most the one entry for `value`. |
| `FlywrenchTests.Modify` | tests/test_flywrench.py:53-68 | A hundred instances built with 42 leave one entry in `d`. After the last one is set to 7, the first reads 42 unless 7 and 42 share a fingerprint, in which case it reads 7. A new instance built with 42 reads 42, and its method member is returned unrouted. |
| `FlywrenchTests.Invalid` | tests/test_flywrench.py:70-79 | Reading `fail`, which was never written, fails with AttributeError. |
| `FlywrenchTests.CustomAlgorithm` | tests/test_flywrench.py:95-104 | With the constant fingerprint 42, `test = 5` reads 5. After `other = 6`, `test` reads 6. |
| `FlywrenchTests.SharedCollision` | flywrench.py:65-69 | Two instances share a cache whose fingerprint is constant. After the second instance writes 6, the first instance's field reads 6. |
| `FlywrenchTests.BlacklistBypass` | flywrench.py:62-64 | A blacklisted write leaves the cache empty and reads back the value. |

## Left out

- The built-in fingerprint, md5 over the pickled value (flywrench.py:24-27), is a foreign library
  call over Python's serialisation format. It is a parameter. The tests expect that it yields 32
  hex characters and that `n` and `n + 1` get different fingerprints. Those are assumptions about
  md5 and are not proved.
- `Flywrench.Flywrench.Set` requires that the name is not `cache`. In the source, when `cache` is
  not blacklisted, the write stores the fingerprint at flywrench.py:68; line 69 then reads
  `self.cache`, which now resolves to that fingerprint, so the write itself raises AttributeError
  and `d` is not updated. A later read of `cache` returns the fingerprint. When `cache` is
  blacklisted, the write stores the value directly (line 64) and the instance's cache reference
  silently becomes that value. Neither path is modelled.
- `Flywrench.Flywrench.Set` assumes the fingerprint function is total and returns a hashable key.
  In the source the write raises, changing nothing, when the fingerprint call raises (`pickle.dumps`
  on an unpicklable value at flywrench.py:24, or any exception from a custom `hash_algorithm` at
  line 67). It raises TypeError at line 69 when the fingerprint is unhashable, after line 68 has
  already stored it, which leaves the instance holding a fingerprint that is not in `d`. These
  raising paths are not modelled.
- `Flywrench.Flywrench.Get` has no KeyError path for the raw lookup `cache.d[h]` (flywrench.py:59).
  The invariant proves every stored fingerprint is present, so that path cannot be reached here.
- The `types.MethodType` check (flywrench.py:53) becomes membership in the declared set `methods`.
  Method bodies, such as `test_method` returning `self.test + 5`, are not modelled. Class attributes
  that are neither methods nor `cache` are not modelled either. The source would find them and
  look them up in `d`.
- The blacklist and the fingerprint function are constants. The source keeps the caller's list by
  reference and never changes it itself. Changes made to that list from outside are not modelled.
- Python truthiness (flywrench.py:14, 17) becomes `Option`. Falsy values other than `None` and the
  empty list are not modelled.
- The class attribute `Flywrench.cache = Cache()` (flywrench.py:37) is a constructor argument of
  each instance. The default cache shared by every subclass that does not set its own is not
  modelled as a global.
- Values have value semantics. The source shares one stored Python object among all owners of a
  fingerprint. Object identity and aliasing of mutable values are not modelled.
- Floating-point inputs, driver.py, setup.py and the test harness wiring in tests.py are not part
  of this model.
