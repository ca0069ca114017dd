/** Python's `collections.Counter` and `defaultdict(int)`: a tally per
    string key, kept in first-insertion order. A missing key reads as 0. */
module Counter {

  datatype Count = Count(key: string, n: int)

  type Tallies = seq<Count>

  /** `c[key]`: the count under `key`, 0 when the key was never added. */
  function Get(c: Tallies, key: string): int
    decreases |c|
  {
    if c == [] then 0
    else (if c[0].key == key then c[0].n else 0) + Get(c[1..], key)
  }

  /** The sum of all counts, `sum(c.values())`. */
  function Total(c: Tallies): int
    decreases |c|
  {
    if c == [] then 0 else c[0].n + Total(c[1..])
  }

  function KeysOf(c: Tallies): (ks: set<string>)
    decreases |c|
  {
    if c == [] then {} else {c[0].key} + KeysOf(c[1..])
  }

  /** A key that was never added reads as zero. */
  lemma {:induction false} GetAbsent(c: Tallies, key: string)
    requires key !in KeysOf(c)
    ensures Get(c, key) == 0
    decreases |c|
  {
    if c != [] {
      GetAbsent(c[1..], key);
    }
  }

  /** `c[key] += d`: an existing key is updated in place, a new key is
      appended. Only that key's count changes, by exactly d. */
  function Add(c: Tallies, key: string, d: int): (r: Tallies)
    ensures Get(r, key) == Get(c, key) + d
    ensures forall k | k != key :: Get(r, k) == Get(c, k)
    ensures Total(r) == Total(c) + d
    ensures KeysOf(r) == KeysOf(c) + {key}
    decreases |c|
  {
    if c == [] then
      assert forall k | k != key :: Get([Count(key, d)], k) == 0;
      [Count(key, d)]
    else if c[0].key == key then
      var r := [Count(key, c[0].n + d)] + c[1..];
      assert r[1..] == c[1..];
      r
    else
      var rest := Add(c[1..], key, d);
      var r := [c[0]] + rest;
      assert r[1..] == rest;
      r
  }

  /** `counter.update(other)`: adds every count of `other`, in its order. */
  function Update(c: Tallies, other: Tallies): (r: Tallies)
    ensures forall k :: Get(r, k) == Get(c, k) + Get(other, k)
    ensures Total(r) == Total(c) + Total(other)
    decreases |other|
  {
    if other == [] then c
    else Update(Add(c, other[0].key, other[0].n), other[1..])
  }

  /** How often `key` occurs in `keys`. */
  function Occurrences(keys: seq<string>, key: string): (n: nat)
    ensures n == multiset(keys)[key]
    decreases |keys|
  {
    if keys == [] then 0
    else
      assert keys == [keys[0]] + keys[1..];
      (if keys[0] == key then 1 else 0) + Occurrences(keys[1..], key)
  }

  /** Counting in a sequence with one more key in front. */
  lemma OccurrencesCons(x: string, keys: seq<string>, key: string)
    ensures Occurrences([x] + keys, key) == (if x == key then 1 else 0) + Occurrences(keys, key)
  {
    assert ([x] + keys)[1..] == keys;
  }

  /** Adding 1 for each key in turn. */
  function Tally(c: Tallies, keys: seq<string>): (r: Tallies)
    decreases |keys|
  {
    if keys == [] then c else Tally(Add(c, keys[0], 1), keys[1..])
  }

  /** A tally of keys counts each key's occurrences, and counts them all. */
  lemma {:induction false} TallyCounts(c: Tallies, keys: seq<string>, k: string)
    ensures Get(Tally(c, keys), k) == Get(c, k) + Occurrences(keys, k)
    ensures Total(Tally(c, keys)) == Total(c) + |keys|
    decreases |keys|
  {
    if keys != [] {
      TallyCounts(Add(c, keys[0], 1), keys[1..], k);
    }
  }

  /** A tally adds exactly the tallied keys to the key set. */
  lemma {:induction false} TallyKeys(c: Tallies, keys: seq<string>)
    ensures forall k :: k in KeysOf(Tally(c, keys)) <==> k in KeysOf(c) || k in keys
    decreases |keys|
  {
    if keys != [] {
      TallyKeys(Add(c, keys[0], 1), keys[1..]);
      assert forall k | k in keys :: k == keys[0] || k in keys[1..];
    }
  }

  /** Tallying two runs of keys one after the other is tallying the
      concatenation. */
  lemma {:induction false} TallyAppend(c: Tallies, a: seq<string>, b: seq<string>)
    ensures Tally(Tally(c, a), b) == Tally(c, a + b)
    decreases |a|
  {
    if a != [] {
      TallyAppend(Add(c, a[0], 1), a[1..], b);
      assert (a + b)[1..] == a[1..] + b;
    } else {
      assert a + b == b;
    }
  }
}
