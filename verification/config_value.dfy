/** Configuration values as YAML and JSON load them: scalars, lists and
    string-keyed dictionaries. A dictionary is an association list in
    insertion order, the way a Python `dict` iterates. */
module ConfigValue {
  import opened Wrappers

  datatype Value =
    | Null
    | Bool(b: bool)
    | Int(i: int)
    | Num(n: real)
    | Str(s: string)
    | List(items: seq<Value>)
    | Dict(entries: seq<Entry>)

  datatype Entry = Entry(key: string, value: Value)

  /** Python truthiness. */
  predicate Truthy(v: Value)
  {
    match v
    case Null => false
    case Bool(b) => b
    case Int(i) => i != 0
    case Num(n) => n != 0.0
    case Str(s) => s != ""
    case List(items) => items != []
    case Dict(entries) => entries != []
  }

  function Keys(es: seq<Entry>): (ks: set<string>)
    ensures forall i | 0 <= i < |es| :: es[i].key in ks
    decreases |es|
  {
    if es == [] then {}
    else
      var rest := Keys(es[1..]);
      assert forall i | 1 <= i < |es| :: es[i] == es[1..][i - 1];
      {es[0].key} + rest
  }

  /** Appending an entry adds its key. */
  lemma {:induction false} KeysAppend(es: seq<Entry>, e: Entry)
    ensures Keys(es + [e]) == Keys(es) + {e.key}
    decreases |es|
  {
    if es != [] {
      KeysAppend(es[1..], e);
      assert (es + [e])[1..] == es[1..] + [e];
    }
  }

  /** Each key occurs once, as in a Python dict. */
  predicate UniqueKeys(es: seq<Entry>)
    decreases |es|
  {
    es == [] || (es[0].key !in Keys(es[1..]) && UniqueKeys(es[1..]))
  }

  /** `d.get(key)`: the value stored under `key`, if any. */
  function Lookup(es: seq<Entry>, key: string): (r: Option<Value>)
    ensures r.Some? <==> key in Keys(es)
    ensures r.Some? ==> Entry(key, r.value) in es
    decreases |es|
  {
    if es == [] then None
    else if es[0].key == key then Some(es[0].value)
    else Lookup(es[1..], key)
  }

  /** Entries ahead of the key's own do not affect the lookup. */
  lemma {:induction false} LookupSkip(es: seq<Entry>, n: nat, key: string)
    requires n <= |es|
    requires forall i | 0 <= i < n :: es[i].key != key
    ensures Lookup(es, key) == Lookup(es[n..], key)
    decreases n
  {
    if n > 0 {
      LookupSkip(es[1..], n - 1, key);
      assert es[1..][n - 1..] == es[n..];
    }
  }

  /** The first entry under the key is the one a lookup finds. */
  lemma {:induction false} LookupFound(es: seq<Entry>, n: nat, key: string)
    requires n < |es| && es[n].key == key
    requires forall i | 0 <= i < n :: es[i].key != key
    ensures Lookup(es, key) == Some(es[n].value)
    decreases n
  {
    if n > 0 {
      LookupFound(es[1..], n - 1, key);
    }
  }

  /** Entries ahead that hold other keys do not affect a lookup. */
  lemma {:induction false} LookupPast(head: seq<Entry>, tail: seq<Entry>, key: string)
    requires forall i | 0 <= i < |head| :: head[i].key != key
    ensures Lookup(head + tail, key) == Lookup(tail, key)
    decreases |head|
  {
    if head != [] {
      LookupPast(head[1..], tail, key);
      assert (head + tail)[1..] == head[1..] + tail;
    } else {
      assert head + tail == tail;
    }
  }

  /** `d[key] = value`: an existing key keeps its place, a new key goes to
      the end. */
  function Set(es: seq<Entry>, key: string, value: Value): (r: seq<Entry>)
    ensures Keys(r) == Keys(es) + {key}
    ensures key in Keys(es) ==> |r| == |es|
    decreases |es|
  {
    if es == [] then [Entry(key, value)]
    else if es[0].key == key then
      var r := [Entry(key, value)] + es[1..];
      assert r[1..] == es[1..];
      r
    else
      var rest := Set(es[1..], key, value);
      var r := [es[0]] + rest;
      assert r[1..] == rest;
      r
  }

  /** Assigning a new key appends it. */
  lemma {:induction false} SetNewKey(es: seq<Entry>, key: string, value: Value)
    requires key !in Keys(es)
    ensures Set(es, key, value) == es + [Entry(key, value)]
    decreases |es|
  {
    if es != [] {
      var tail := es[1..];
      SetNewKey(tail, key, value);
      assert Set(es, key, value) == [es[0]] + Set(tail, key, value);
      assert es == [es[0]] + tail;
    }
  }

  /** An assignment keeps a dictionary's keys unique. */
  lemma {:induction false} SetUnique(es: seq<Entry>, key: string, value: Value)
    requires UniqueKeys(es)
    ensures UniqueKeys(Set(es, key, value))
    decreases |es|
  {
    if es != [] && es[0].key != key {
      SetUnique(es[1..], key, value);
      assert Set(es, key, value)[1..] == Set(es[1..], key, value);
    } else if es != [] {
      assert Set(es, key, value)[1..] == es[1..];
    }
  }

  /** After an assignment the key reads back the value, and every other key
      reads back what it did before. */
  lemma {:induction false} SetLookup(es: seq<Entry>, key: string, value: Value, other: string)
    ensures Lookup(Set(es, key, value), key) == Some(value)
    ensures other != key ==> Lookup(Set(es, key, value), other) == Lookup(es, other)
    decreases |es|
  {
    if es != [] && es[0].key != key {
      SetLookup(es[1..], key, value, other);
    }
  }
}
