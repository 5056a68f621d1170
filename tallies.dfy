/** A JavaScript object used as a counter (`m[k] = (m[k] || 0) + 1`), kept as its list of
    properties in insertion order. `Object.keys` reports that order for keys that are not
    array indices; keys such as "2" it lists first, in ascending numeric order. */
module Tallies {

  /** One `key: count` property of the counter object. */
  datatype Entry = Entry(key: string, count: nat)

  type Tally = seq<Entry>

  /** `m[k] || 0` */
  function Get(t: Tally, k: string): nat {
    if t == [] then 0 else if t[0].key == k then t[0].count else Get(t[1..], k)
  }

  /** `Object.keys(m)` */
  function Keys(t: Tally): seq<string> {
    if t == [] then [] else [t[0].key] + Keys(t[1..])
  }

  /** The sum of all counts. */
  function Total(t: Tally): nat {
    if t == [] then 0 else t[0].count + Total(t[1..])
  }

  predicate Distinct(s: seq<string>) {
    forall i, j :: 0 <= i < j < |s| ==> s[i] != s[j]
  }

  /** `m[k] = (m[k] || 0) + 1`: bumps an existing property in place, or appends a new one. */
  function Bump(t: Tally, k: string): (r: Tally)
    ensures forall j :: Get(r, j) == Get(t, j) + (if j == k then 1 else 0)
    ensures Total(r) == Total(t) + 1
    ensures k in Keys(t) ==> Keys(r) == Keys(t)
    ensures k !in Keys(t) ==> Keys(r) == Keys(t) + [k]
  {
    if t == [] then [Entry(k, 1)]
    else if t[0].key == k then [Entry(k, t[0].count + 1)] + t[1..]
    else [t[0]] + Bump(t[1..], k)
  }

  /** `Object.keys` lists the properties in their order. */
  lemma {:induction false} KeysAt(t: Tally)
    ensures |Keys(t)| == |t|
    ensures forall i :: 0 <= i < |t| ==> Keys(t)[i] == t[i].key
  {
    if t != [] {
      KeysAt(t[1..]);
    }
  }

  /** A counter whose properties are all zero reads zero everywhere and adds up to zero. */
  lemma {:induction false} AllZero(t: Tally, k: string)
    requires forall i :: 0 <= i < |t| ==> t[i].count == 0
    ensures Get(t, k) == 0 && Total(t) == 0
  {
    if t != [] {
      AllZero(t[1..], k);
    }
  }

  /** How many of `keys` equal `k`. */
  function Count(keys: seq<string>, k: string): nat {
    if keys == [] then 0
    else Count(keys[..|keys| - 1], k) + (if keys[|keys| - 1] == k then 1 else 0)
  }

  /** `keys.forEach(k => m[k] = (m[k] || 0) + 1)` starting from the object `init`. */
  function TallyFrom(init: Tally, keys: seq<string>): Tally {
    if keys == [] then init else Bump(TallyFrom(init, keys[..|keys| - 1]), keys[|keys| - 1])
  }

  /** The same, starting from the empty object `{}`. */
  function TallyOf(keys: seq<string>): Tally {
    TallyFrom([], keys)
  }

  /** Every key's count is its initial count plus its number of occurrences. */
  lemma {:induction false} TallyFromGet(init: Tally, keys: seq<string>, k: string)
    ensures Get(TallyFrom(init, keys), k) == Get(init, k) + Count(keys, k)
  {
    if keys != [] {
      TallyFromGet(init, keys[..|keys| - 1], k);
    }
  }

  /** The counts add up to the initial total plus the number of keys counted. */
  lemma {:induction false} TallyFromTotal(init: Tally, keys: seq<string>)
    ensures Total(TallyFrom(init, keys)) == Total(init) + |keys|
  {
    if keys != [] {
      TallyFromTotal(init, keys[..|keys| - 1]);
    }
  }

  /** Counting keys that are all present already adds no property and keeps the order. */
  lemma {:induction false} TallyFromKeepsKeys(init: Tally, keys: seq<string>)
    requires forall i :: 0 <= i < |keys| ==> keys[i] in Keys(init)
    ensures Keys(TallyFrom(init, keys)) == Keys(init)
  {
    if keys != [] {
      TallyFromKeepsKeys(init, keys[..|keys| - 1]);
    }
  }

  /** Counting never creates a duplicate property. */
  lemma {:induction false} TallyFromDistinct(init: Tally, keys: seq<string>)
    requires Distinct(Keys(init))
    ensures Distinct(Keys(TallyFrom(init, keys)))
  {
    if keys != [] {
      TallyFromDistinct(init, keys[..|keys| - 1]);
    }
  }

  /** A key has a property in the tally of `keys` exactly when it occurs in `keys`. */
  lemma {:induction false} TallyOfKeys(keys: seq<string>, k: string)
    ensures k in Keys(TallyOf(keys)) <==> k in keys
  {
    if keys != [] {
      var front := keys[..|keys| - 1];
      TallyOfKeys(front, k);
      assert keys == front + [keys[|keys| - 1]];
    }
  }

  /** The whole content of a tally of `keys` built from `{}`: distinct keys, each with its
      number of occurrences, adding up to `|keys|`. */
  lemma TallyOfSpec(keys: seq<string>)
    ensures Distinct(Keys(TallyOf(keys)))
    ensures Total(TallyOf(keys)) == |keys|
    ensures forall k :: Get(TallyOf(keys), k) == Count(keys, k)
    ensures forall k :: k in Keys(TallyOf(keys)) <==> k in keys
  {
    TallyFromDistinct([], keys);
    TallyFromTotal([], keys);
    forall k ensures Get(TallyOf(keys), k) == Count(keys, k) && (k in Keys(TallyOf(keys)) <==> k in keys) {
      TallyFromGet([], keys, k);
      TallyOfKeys(keys, k);
    }
  }
}
