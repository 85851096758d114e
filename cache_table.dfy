/** The contents of a flyweight cache's dictionary as a function of the values stored into it.

    Every non-blacklisted attribute write performs `d[makeHash(v)] := v`, unconditionally, so the
    dictionary after a run of writes is determined by the sequence of values written and the
    fingerprint function alone. `Table` is that dictionary; the lemmas below say what it holds. */
module CacheTable {

  /** `n` copies of `v`: the values stored when `n` instances each write `v`. */
  function Repeat<V>(v: V, n: nat): (s: seq<V>)
    ensures |s| == n
    ensures forall i :: 0 <= i < n ==> s[i] == v
  {
    if n == 0 then [] else Repeat(v, n - 1) + [v]
  }

  /** The dictionary obtained by storing each value of `log`, in order, into an empty one. */
  function Table<V, H>(log: seq<V>, hash: V -> H): map<H, V>
  {
    if log == [] then map[]
    else Table(log[..|log| - 1], hash)[hash(log[|log| - 1]) := log[|log| - 1]]
  }

  /** Storing one more value overwrites, or adds, the single entry under its fingerprint. */
  lemma Store<V, H>(log: seq<V>, v: V, hash: V -> H)
    ensures Table(log + [v], hash) == Table(log, hash)[hash(v) := v]
  {
    assert (log + [v])[..|log|] == log;
  }

  /** The keys of the dictionary are exactly the fingerprints of the values stored. */
  lemma {:induction false} TableKeys<V, H>(log: seq<V>, hash: V -> H)
    ensures Table(log, hash).Keys == set v | v in log :: hash(v)
  {
    if log != [] {
      var init, last := log[..|log| - 1], log[|log| - 1];
      TableKeys(init, hash);
      assert log == init + [last];
      assert (set v | v in log :: hash(v)) == (set v | v in init :: hash(v)) + {hash(last)};
    }
  }

  /** Last writer wins: the entry under a fingerprint is the last value stored with that fingerprint. */
  lemma {:induction false} TableLastWriter<V, H>(log: seq<V>, hash: V -> H, i: nat)
    requires i < |log|
    requires forall j :: i < j < |log| ==> hash(log[j]) != hash(log[i])
    ensures hash(log[i]) in Table(log, hash)
    ensures Table(log, hash)[hash(log[i])] == log[i]
  {
    if i < |log| - 1 {
      var init := log[..|log| - 1];
      assert forall j :: i < j < |init| ==> init[j] == log[j];
      TableLastWriter(init, hash, i);
    }
  }

  /** Every entry of the dictionary is a value that was stored, filed under its own fingerprint. */
  lemma {:induction false} TableEntries<V, H>(log: seq<V>, hash: V -> H, h: H)
    requires h in Table(log, hash)
    ensures Table(log, hash)[h] in log
    ensures hash(Table(log, hash)[h]) == h
  {
    var init, last := log[..|log| - 1], log[|log| - 1];
    assert log == init + [last];
    if hash(last) != h {
      TableEntries(init, hash, h);
    }
  }

  /** Deduplication: any number of stores of one value add at most one entry, the one under its
      fingerprint, and leave every other entry as it was. */
  lemma {:induction false} StoreRepeated<V, H>(log: seq<V>, v: V, n: nat, hash: V -> H)
    requires n > 0
    ensures Table(log + Repeat(v, n), hash) == Table(log, hash)[hash(v) := v]
    ensures |Table(log + Repeat(v, n), hash).Keys| <= |Table(log, hash).Keys| + 1
  {
    if n == 1 {
      assert Repeat(v, 1) == [v];
      Store(log, v, hash);
    } else {
      StoreRepeated(log, v, n - 1, hash);
      assert log + Repeat(v, n) == (log + Repeat(v, n - 1)) + [v];
      Store(log + Repeat(v, n - 1), v, hash);
    }
    var before := Table(log, hash);
    assert Table(log + Repeat(v, n), hash).Keys == before.Keys + {hash(v)};
  }

  /** Storing a value that is already the entry under its fingerprint changes nothing. */
  lemma StoreIdempotent<V, H>(log: seq<V>, v: V, hash: V -> H)
    requires hash(v) in Table(log, hash) && Table(log, hash)[hash(v)] == v
    ensures Table(log + [v], hash) == Table(log, hash)
  {
    Store(log, v, hash);
  }
}
