/**
 * `BoundedLru` of tenantKey.service.ts: a Map whose iteration order, oldest first, is the recency
 * order. The store is the Map's entries in that order.
 */
module BoundedLru {
  import opened Wrappers

  // ---------------------------------------------------------------------------
  // The Map operations and the two methods as functions of the store
  // ---------------------------------------------------------------------------

  function Lookup<K(==), V>(store: seq<(K, V)>, key: K): (found: Option<V>)
    ensures found.Some? ==> exists i :: 0 <= i < |store| && store[i] == (key, found.value)
    ensures found.None? ==> forall i :: 0 <= i < |store| ==> store[i].0 != key
  {
    if store == [] then None
    else if store[|store| - 1].0 == key then Some(store[|store| - 1].1)
    else Lookup(store[..|store| - 1], key)
  }

  function Without<K(==), V>(store: seq<(K, V)>, key: K): (rest: seq<(K, V)>)
    ensures forall i :: 0 <= i < |rest| ==> rest[i] in store && rest[i].0 != key
  {
    if store == [] then []
    else
      var last := store[|store| - 1];
      var rest := Without(store[..|store| - 1], key);
      if last.0 == key then rest else rest + [last]
  }

  function Touch<K(==), V>(store: seq<(K, V)>, key: K, value: V): seq<(K, V)> {
    Without(store, key) + [(key, value)]
  }

  function AfterGet<K(==), V>(store: seq<(K, V)>, key: K): seq<(K, V)> {
    match Lookup(store, key)
    case None => store
    case Some(value) => Touch(store, key, value)
  }

  function AfterSet<K(==), V>(store: seq<(K, V)>, maxSize: nat, key: K, value: V): seq<(K, V)> {
    var touched := Touch(store, key, value);
    if |touched| > maxSize then touched[1..] else touched
  }

  function KeysOf<K, V>(store: seq<(K, V)>): seq<K> {
    seq(|store|, i requires 0 <= i < |store| => store[i].0)
  }

  ghost predicate Distinct<K>(keys: seq<K>) {
    keys == [] || (keys[|keys| - 1] !in keys[..|keys| - 1] && Distinct(keys[..|keys| - 1]))
  }

  lemma {:induction false} DistinctAt<K>(keys: seq<K>, i: nat, j: nat)
    requires Distinct(keys) && i < |keys| && j < |keys| && keys[i] == keys[j]
    ensures i == j
  {
    var n := |keys| - 1;
    assert i < n ==> keys[..n][i] in keys[..n];
    assert j < n ==> keys[..n][j] in keys[..n];
    if i < n && j < n {
      DistinctAt(keys[..n], i, j);
    }
  }

  lemma DistinctSnoc<K>(keys: seq<K>, key: K)
    ensures Distinct(keys + [key]) <==> Distinct(keys) && key !in keys
  {
    assert (keys + [key])[..|keys|] == keys;
  }

  lemma {:induction false} DistinctSplit<K>(a: seq<K>, b: seq<K>)
    requires Distinct(a + b)
    ensures Distinct(a) && Distinct(b) && forall k :: k in a ==> k !in b
  {
    if b == [] {
      assert a + b == a;
    } else {
      assert (a + b)[..|a + b| - 1] == a + b[..|b| - 1];
      DistinctSplit(a, b[..|b| - 1]);
      forall k | k in a
        ensures k != b[|b| - 1] && k in (a + b)[..|a + b| - 1]
      {
      }
    }
  }

  class Lru<K(==, !new), V> {
    var store: seq<(K, V)>
    const maxSize: nat

    ghost predicate Valid()
      reads this
    {
      Distinct(KeysOf(store)) && |store| <= maxSize
    }

    constructor (maxSize: nat)
      ensures Valid() && store == [] && this.maxSize == maxSize
    {
      store := [];
      this.maxSize := maxSize;
    }

    method Get(key: K) returns (value: Option<V>)
      requires Valid()
      modifies this`store
      ensures Valid() && value == Lookup(old(store), key) && store == AfterGet(old(store), key)
      ensures forall k :: k in KeysOf(store) <==> k in KeysOf(old(store))
      ensures value.Some? ==>
                |store| > 0 && store[|store| - 1] == (key, value.value) && (key, value.value) in old(store)
      ensures value.None? ==> store == old(store) && forall i :: 0 <= i < |store| ==> store[i].0 != key
    {
      value := Lookup(store, key);
      if value.None? {
        return;
      }
      TouchKeys(store, key, value.value);
      store := Without(store, key);
      store := store + [(key, value.value)];
    }

    method Set(key: K, value: V)
      requires Valid()
      modifies this`store
      ensures Valid() && store == AfterSet(old(store), maxSize, key, value)
      ensures maxSize > 0 ==> |store| > 0 && store[|store| - 1] == (key, value)
    {
      SetKeepsBounded(store, maxSize, key, value);
      store := Without(store, key);
      store := store + [(key, value)];
      if |store| > maxSize {
        store := store[1..];
      }
    }
  }

  // ---------------------------------------------------------------------------
  // Keys under removal
  // ---------------------------------------------------------------------------

  function Remove<K(==, !new)>(keys: seq<K>, key: K): (rest: seq<K>)
    ensures forall k :: k in rest <==> k in keys && k != key
  {
    if keys == [] then []
    else
      var last := keys[|keys| - 1];
      assert forall k :: k in keys <==> k in keys[..|keys| - 1] || k == last;
      var rest := Remove(keys[..|keys| - 1], key);
      if last == key then rest else rest + [last]
  }

  lemma {:induction false} RemoveMissing<K(!new)>(keys: seq<K>, key: K)
    requires key !in keys
    ensures Remove(keys, key) == keys
  {
    if keys != [] {
      RemoveMissing(keys[..|keys| - 1], key);
    }
  }

  lemma {:induction false} RemoveAppend<K(!new)>(a: seq<K>, b: seq<K>, key: K)
    ensures Remove(a + b, key) == Remove(a, key) + Remove(b, key)
  {
    if b == [] {
      assert a + b == a;
    } else {
      assert (a + b)[..|a + b| - 1] == a + b[..|b| - 1];
      RemoveAppend(a, b[..|b| - 1], key);
    }
  }

  lemma {:induction false} RemoveDistinct<K(!new)>(keys: seq<K>, key: K)
    requires Distinct(keys)
    ensures Distinct(Remove(keys, key)) && |Remove(keys, key)| == |keys| - (if key in keys then 1 else 0)
  {
    if keys != [] {
      var init, last := keys[..|keys| - 1], keys[|keys| - 1];
      RemoveDistinct(init, key);
      assert keys == init + [last];
      DistinctSnoc(Remove(init, key), last);
      assert key in keys <==> key in init || key == last;
    }
  }

  lemma {:induction false} WithoutKeys<K(!new), V>(store: seq<(K, V)>, key: K)
    ensures KeysOf(Without(store, key)) == Remove(KeysOf(store), key)
  {
    if store != [] {
      var init := store[..|store| - 1];
      WithoutKeys(init, key);
      assert KeysOf(store)[..|store| - 1] == KeysOf(init);
    }
  }

  lemma HitIsKey<K(!new), V>(store: seq<(K, V)>, key: K)
    ensures Lookup(store, key).Some? <==> key in KeysOf(store)
  {
    if i :| 0 <= i < |store| && store[i].0 == key {
      assert KeysOf(store)[i] == key;
    }
  }

  lemma TouchKeys<K(!new), V>(store: seq<(K, V)>, key: K, value: V)
    requires Distinct(KeysOf(store))
    ensures KeysOf(Touch(store, key, value)) == Remove(KeysOf(store), key) + [key]
    ensures Distinct(KeysOf(Touch(store, key, value)))
    ensures |Touch(store, key, value)| == |store| + (if Lookup(store, key).Some? then 0 else 1)
    ensures Lookup(store, key).Some? <==> key in KeysOf(store)
  {
    WithoutKeys(store, key);
    RemoveDistinct(KeysOf(store), key);
    DistinctSnoc(Remove(KeysOf(store), key), key);
    HitIsKey(store, key);
    assert |KeysOf(Without(store, key))| == |Without(store, key)|;
  }

  lemma SetKeepsBounded<K(!new), V>(store: seq<(K, V)>, maxSize: nat, key: K, value: V)
    requires Distinct(KeysOf(store)) && |store| <= maxSize
    ensures var after := AfterSet(store, maxSize, key, value); Distinct(KeysOf(after)) && |after| <= maxSize
  {
    TouchKeys(store, key, value);
    TrimmedKeys(Touch(store, key, value), maxSize);
  }

  // ---------------------------------------------------------------------------
  // What a lookup finds afterwards
  // ---------------------------------------------------------------------------

  lemma {:induction false} LookupWithout<K, V>(store: seq<(K, V)>, key: K, q: K)
    ensures Lookup(Without(store, key), q) == if q == key then None else Lookup(store, q)
  {
    if store != [] {
      var rest := Without(store[..|store| - 1], key);
      LookupWithout(store[..|store| - 1], key, q);
      assert (rest + [store[|store| - 1]])[..|rest|] == rest;
    }
  }

  lemma LookupTouch<K, V>(store: seq<(K, V)>, key: K, value: V, q: K)
    ensures Lookup(Touch(store, key, value), q) == if q == key then Some(value) else Lookup(store, q)
  {
    LookupWithout(store, key, q);
    assert Touch(store, key, value)[..|Touch(store, key, value)| - 1] == Without(store, key);
  }

  /** A get changes no answer. */
  lemma LookupAfterGet<K, V>(store: seq<(K, V)>, key: K, q: K)
    ensures Lookup(AfterGet(store, key), q) == Lookup(store, q)
  {
    if Lookup(store, key).Some? {
      LookupTouch(store, key, Lookup(store, key).value, q);
    }
  }

  lemma {:induction false} LookupTail<K, V>(store: seq<(K, V)>, q: K)
    requires store != []
    ensures Lookup(store[1..], q).Some? ==> Lookup(store[1..], q) == Lookup(store, q)
    ensures |store| > 1 && store[|store| - 1].0 == q ==> Lookup(store[1..], q).Some?
  {
    var init := store[..|store| - 1];
    if init != [] {
      LookupTail(init, q);
      assert store[1..][..|store[1..]| - 1] == init[1..];
    }
  }

  /** A set changes the answer for its key and may lose one other. */
  lemma LookupAfterSet<K, V>(store: seq<(K, V)>, maxSize: nat, key: K, value: V, q: K)
    ensures var found := Lookup(AfterSet(store, maxSize, key, value), q);
            && (found.Some? ==> found == if q == key then Some(value) else Lookup(store, q))
            && (q == key && maxSize > 0 ==> found == Some(value))
  {
    LookupTouch(store, key, value, q);
    LookupTail(Touch(store, key, value), q);
  }

  // ---------------------------------------------------------------------------
  // Runs of calls
  // ---------------------------------------------------------------------------

  datatype Call<K, V> = GetCall(key: K) | SetCall(key: K, value: V)

  function Apply<K(==), V>(store: seq<(K, V)>, maxSize: nat, call: Call<K, V>): seq<(K, V)> {
    match call
    case GetCall(key) => AfterGet(store, key)
    case SetCall(key, value) => AfterSet(store, maxSize, key, value)
  }

  function Run<K(==), V>(maxSize: nat, calls: seq<Call<K, V>>): seq<(K, V)> {
    if calls == [] then [] else Apply(Run(maxSize, calls[..|calls| - 1]), maxSize, calls[|calls| - 1])
  }

  /** The keys touched, in order of time: every set, and every get that hits. */
  function Touches<K(==), V>(maxSize: nat, calls: seq<Call<K, V>>): seq<K> {
    if calls == [] then []
    else
      var n := |calls| - 1;
      var before := Touches(maxSize, calls[..n]);
      if calls[n].SetCall? || Lookup(Run(maxSize, calls[..n]), calls[n].key).Some? then before + [calls[n].key]
        else before
  }

  /** The touched keys, each once, by last touch. */
  function Recency<K(==, !new)>(touches: seq<K>): seq<K> {
    if touches == [] then []
    else Remove(Recency(touches[..|touches| - 1]), touches[|touches| - 1]) + [touches[|touches| - 1]]
  }

  function LastIndex<K(==)>(touches: seq<K>, key: K): int {
    if touches == [] then -1
    else if touches[|touches| - 1] == key then |touches| - 1
    else LastIndex(touches[..|touches| - 1], key)
  }

  lemma {:induction false} RecencyMembers<K(!new)>(touches: seq<K>)
    ensures Distinct(Recency(touches)) && forall k :: k in Recency(touches) <==> k in touches
  {
    if touches != [] {
      var init, last := touches[..|touches| - 1], touches[|touches| - 1];
      RecencyMembers(init);
      RemoveDistinct(Recency(init), last);
      DistinctSnoc(Remove(Recency(init), last), last);
      assert touches == init + [last];
    }
  }

  ghost predicate OrderedByLastTouch<K>(touches: seq<K>, keys: seq<K>) {
    forall i, j :: 0 <= i < j < |keys| ==> LastIndex(touches, keys[i]) < LastIndex(touches, keys[j])
  }

  lemma {:induction false} LastIndexRange<K>(touches: seq<K>, key: K)
    ensures -1 <= LastIndex(touches, key) < |touches|
    ensures LastIndex(touches, key) >= 0 ==> touches[LastIndex(touches, key)] == key
  {
    if touches != [] {
      LastIndexRange(touches[..|touches| - 1], key);
    }
  }

  /** Recency lists exactly the touched keys, once each, ordered by the time of their last touch. */
  lemma {:induction false} RecencyMeaning<K(!new)>(touches: seq<K>)
    ensures var r := Recency(touches);
            Distinct(r) && (forall k :: k in r <==> k in touches) && OrderedByLastTouch(touches, r)
  {
    RecencyMembers(touches);
    if touches != [] {
      var init, last := touches[..|touches| - 1], touches[|touches| - 1];
      RecencyMeaning(init);
      var rest := Remove(Recency(init), last);
      RemoveOrdered(init, Recency(init), last);
      forall i | 0 <= i < |rest|
        ensures LastIndex(touches, rest[i]) == LastIndex(init, rest[i]) < |touches| - 1
      {
        assert rest[i] in rest;
        LastIndexRange(init, rest[i]);
      }
    }
  }

  lemma {:induction false} RemoveOrdered<K(!new)>(touches: seq<K>, keys: seq<K>, key: K)
    requires OrderedByLastTouch(touches, keys)
    ensures OrderedByLastTouch(touches, Remove(keys, key))
  {
    if keys != [] {
      var init := keys[..|keys| - 1];
      RemoveOrdered(touches, init, key);
      forall k | k in init
        ensures LastIndex(touches, k) < LastIndex(touches, keys[|keys| - 1])
      {
        var i :| 0 <= i < |init| && init[i] == k;
        assert keys[i] == k;
      }
      assert forall i :: 0 <= i < |Remove(init, key)| ==> Remove(init, key)[i] in init;
    }
  }

  function LastValue<K(==), V>(calls: seq<Call<K, V>>, key: K): Option<V> {
    if calls == [] then None
    else
      var last := calls[|calls| - 1];
      if last.SetCall? && last.key == key then Some(last.value) else LastValue(calls[..|calls| - 1], key)
  }

  function Newest<K>(keys: seq<K>, n: nat): seq<K> {
    if |keys| <= n then keys else keys[|keys| - n..]
  }

  lemma NewestOfAppend<K>(a: seq<K>, b: seq<K>, n: nat)
    requires n <= |b| || a == []
    ensures Newest(a + b, n) == Newest(b, n)
  {
    assert a == [] ==> a + b == b;
  }

  /** Moving a key to the end and trimming commutes with taking the newest keys. */
  lemma NewestAfterTouch<K(!new)>(keys: seq<K>, n: nat, key: K)
    requires Distinct(keys)
    ensures Newest(Remove(keys, key) + [key], n) == Newest(Remove(Newest(keys, n), key) + [key], n)
  {
    if |keys| > n {
      var older, kept := keys[..|keys| - n], keys[|keys| - n..];
      assert older + kept == keys;
      NewestOfTouched(older, kept, n, key);
    }
  }

  lemma NewestOfTouched<K(!new)>(older: seq<K>, kept: seq<K>, n: nat, key: K)
    requires Distinct(older + kept) && (|kept| == n || older == [])
    ensures Newest(Remove(older + kept, key) + [key], n) == Newest(Remove(kept, key) + [key], n)
  {
    var tail := Remove(kept, key) + [key];
    RemoveAppend(older, kept, key);
    assert Remove(older + kept, key) + [key] == Remove(older, key) + tail;
    DistinctSplit(older, kept);
    RemoveDistinct(kept, key);
    NewestOfAppend(Remove(older, key), tail, n);
  }

  ghost predicate ValuesCurrent<K, V>(store: seq<(K, V)>, calls: seq<Call<K, V>>) {
    forall entry :: entry in store ==> LastValue(calls, entry.0) == Some(entry.1)
  }

  /** The `maxSize` most recently touched keys (all of them if fewer), in recency order, with their last values. */
  ghost predicate MostRecent<K(!new), V(!new)>(maxSize: nat, calls: seq<Call<K, V>>, store: seq<(K, V)>) {
    && KeysOf(store) == Newest(Recency(Touches(maxSize, calls)), maxSize)
    && ValuesCurrent(store, calls)
    && Distinct(KeysOf(store))
  }

  /** After any calls the cache holds exactly the most recently touched keys. */
  lemma {:induction false} HoldsTheMostRecent<K(!new), V(!new)>(maxSize: nat, calls: seq<Call<K, V>>)
    ensures MostRecent(maxSize, calls, Run(maxSize, calls))
  {
    if calls != [] {
      var n := |calls| - 1;
      HoldsTheMostRecent(maxSize, calls[..n]);
      CallKeepsMostRecent(maxSize, calls[..n], Run(maxSize, calls[..n]), calls[n]);
      assert calls[..n] + [calls[n]] == calls;
    }
  }

  lemma CallKeepsMostRecent<K(!new), V(!new)>(maxSize: nat, calls: seq<Call<K, V>>, before: seq<(K, V)>,
                                              call: Call<K, V>)
    requires before == Run(maxSize, calls) && MostRecent(maxSize, calls, before)
    ensures MostRecent(maxSize, calls + [call], Apply(before, maxSize, call))
  {
    match call
    case GetCall(key) => GetKeepsMostRecent(maxSize, calls, before, key);
    case SetCall(key, value) => SetKeepsMostRecent(maxSize, calls, before, key, value);
  }

  lemma GetKeepsMostRecent<K(!new), V(!new)>(maxSize: nat, calls: seq<Call<K, V>>, before: seq<(K, V)>, key: K)
    requires before == Run(maxSize, calls) && MostRecent(maxSize, calls, before)
    ensures MostRecent(maxSize, calls + [GetCall(key)], AfterGet(before, key))
  {
    var now := calls + [GetCall(key)];
    assert now[..|calls|] == calls && now[|calls|] == GetCall(key);
    TouchKeepsValues(calls, before, GetCall(key));
    var found := Lookup(before, key);
    if found.Some? {
      TouchedKeys(Touches(maxSize, calls), before, maxSize, key, found.value);
    }
  }

  lemma SetKeepsMostRecent<K(!new), V(!new)>(maxSize: nat, calls: seq<Call<K, V>>, before: seq<(K, V)>, key: K,
                                             value: V)
    requires before == Run(maxSize, calls) && MostRecent(maxSize, calls, before)
    ensures MostRecent(maxSize, calls + [SetCall(key, value)], AfterSet(before, maxSize, key, value))
  {
    var now := calls + [SetCall(key, value)];
    assert now[..|calls|] == calls && now[|calls|] == SetCall(key, value);
    TouchKeepsValues(calls, before, SetCall(key, value));
    TouchedKeys(Touches(maxSize, calls), before, maxSize, key, value);
    var touched := Touch(before, key, value);
    assert |touched| > maxSize ==> forall entry :: entry in touched[1..] ==> entry in touched;
  }

  lemma TouchedKeys<K(!new), V>(touches: seq<K>, before: seq<(K, V)>, maxSize: nat, key: K, value: V)
    requires Distinct(KeysOf(before)) && KeysOf(before) == Newest(Recency(touches), maxSize)
    ensures var touched := Touch(before, key, value);
            var store := if |touched| > maxSize then touched[1..] else touched;
            KeysOf(store) == Newest(Recency(touches + [key]), maxSize) && Distinct(KeysOf(store))
    ensures Lookup(before, key).Some? ==> |Touch(before, key, value)| <= maxSize
  {
    RecencyMembers(touches);
    NewestAfterTouch(Recency(touches), maxSize, key);
    TouchKeys(before, key, value);
    assert |KeysOf(before)| <= maxSize;
    TrimmedKeys(Touch(before, key, value), maxSize);
    assert (touches + [key])[..|touches|] == touches;
  }

  lemma TouchKeepsValues<K, V>(calls: seq<Call<K, V>>, before: seq<(K, V)>, call: Call<K, V>)
    requires ValuesCurrent(before, calls)
    ensures call.GetCall? ==> ValuesCurrent(AfterGet(before, call.key), calls + [call])
    ensures call.SetCall? ==> ValuesCurrent(Touch(before, call.key, call.value), calls + [call])
  {
    assert (calls + [call])[..|calls|] == calls;
    if call.GetCall? && Lookup(before, call.key).Some? {
      assert (call.key, Lookup(before, call.key).value) in before;
    }
  }

  lemma TrimmedKeys<K(!new), V>(store: seq<(K, V)>, maxSize: nat)
    requires |store| <= maxSize + 1 && Distinct(KeysOf(store))
    ensures var trimmed := if |store| > maxSize then store[1..] else store;
            KeysOf(trimmed) == Newest(KeysOf(store), maxSize) && Distinct(KeysOf(trimmed))
  {
    if |store| > maxSize {
      assert KeysOf(store) == [store[0].0] + KeysOf(store[1..]);
      DistinctSplit([store[0].0], KeysOf(store[1..]));
    }
  }

  // ---------------------------------------------------------------------------
  // A smaller and a larger cache
  // ---------------------------------------------------------------------------

  ghost predicate Subsequence<T(!new)>(a: seq<T>, b: seq<T>) {
    || a == []
    || (b != [] && a[|a| - 1] == b[|b| - 1] && Subsequence(a[..|a| - 1], b[..|b| - 1]))
    || (b != [] && Subsequence(a, b[..|b| - 1]))
  }

  lemma {:induction false} SubsequenceMembers<T(!new)>(a: seq<T>, b: seq<T>)
    requires Subsequence(a, b)
    ensures forall x :: x in a ==> x in b
  {
    if a != [] {
      if a[|a| - 1] == b[|b| - 1] && Subsequence(a[..|a| - 1], b[..|b| - 1]) {
        SubsequenceMembers(a[..|a| - 1], b[..|b| - 1]);
        assert a == a[..|a| - 1] + [a[|a| - 1]];
      } else {
        SubsequenceMembers(a, b[..|b| - 1]);
      }
    }
  }

  lemma {:induction false} SubsequenceSelf<T(!new)>(a: seq<T>)
    ensures Subsequence(a, a)
  {
    if a != [] {
      SubsequenceSelf(a[..|a| - 1]);
    }
  }

  lemma {:induction false} SubsequenceWithout<K(!new), V(!new)>(a: seq<(K, V)>, b: seq<(K, V)>, key: K)
    requires Subsequence(a, b)
    ensures Subsequence(Without(a, key), Without(b, key))
  {
    if a != [] {
      if a[|a| - 1] == b[|b| - 1] && Subsequence(a[..|a| - 1], b[..|b| - 1]) {
        SubsequenceWithout(a[..|a| - 1], b[..|b| - 1], key);
        if a[|a| - 1].0 != key {
          SubsequenceAppend(Without(a[..|a| - 1], key), Without(b[..|b| - 1], key), a[|a| - 1]);
        }
      } else {
        SubsequenceWithout(a, b[..|b| - 1], key);
        if b[|b| - 1].0 != key {
          SubsequenceSkip(Without(a, key), Without(b[..|b| - 1], key), b[|b| - 1]);
        }
      }
    }
  }

  lemma SubsequenceAppend<T(!new)>(a: seq<T>, b: seq<T>, x: T)
    requires Subsequence(a, b)
    ensures Subsequence(a + [x], b + [x])
  {
    assert (a + [x])[..|a|] == a && (b + [x])[..|b|] == b;
  }

  lemma SubsequenceSkip<T(!new)>(a: seq<T>, b: seq<T>, x: T)
    requires Subsequence(a, b)
    ensures Subsequence(a, b + [x])
  {
    assert (b + [x])[..|b|] == b;
  }

  /** Dropping the oldest entry of both, or of the smaller alone. */
  lemma {:induction false} SubsequenceTail<T(!new)>(a: seq<T>, b: seq<T>)
    requires Subsequence(a, b) && a != []
    ensures b != [] && Subsequence(a[1..], b[1..]) && Subsequence(a[1..], b)
  {
    var a', b' := a[..|a| - 1], b[..|b| - 1];
    if a[|a| - 1] == b[|b| - 1] && Subsequence(a', b') {
      if a' != [] {
        SubsequenceTail(a', b');
        assert a[1..] == a'[1..] + [a[|a| - 1]] && b[1..] == b'[1..] + [b[|b| - 1]] && b == b' + [b[|b| - 1]];
        SubsequenceAppend(a'[1..], b'[1..], a[|a| - 1]);
        SubsequenceAppend(a'[1..], b', a[|a| - 1]);
      }
    } else {
      SubsequenceTail(a, b');
      assert b[1..] == b'[1..] + [b[|b| - 1]] && b == b' + [b[|b| - 1]];
      SubsequenceSkip(a[1..], b'[1..], b[|b| - 1]);
      SubsequenceSkip(a[1..], b', b[|b| - 1]);
    }
  }

  /** How a smaller and a larger cache fed the same calls stay related: equal until the smaller first fills up. */
  ghost predicate Nested<K(!new), V(!new)>(small: seq<(K, V)>, large: seq<(K, V)>, maxSmall: nat) {
    Subsequence(small, large) && (small == large || |small| == maxSmall)
  }

  ghost predicate Bounded<K(!new), V>(store: seq<(K, V)>, maxSize: nat) {
    Distinct(KeysOf(store)) && |store| <= maxSize
  }

  lemma SameHit<K(!new), V(!new)>(small: seq<(K, V)>, large: seq<(K, V)>, key: K)
    requires Subsequence(small, large) && Distinct(KeysOf(large))
    ensures Lookup(small, key).Some? ==> Lookup(large, key) == Lookup(small, key)
  {
    SubsequenceMembers(small, large);
    if Lookup(small, key).Some? {
      assert (key, Lookup(small, key).value) in small;
      var i :| 0 <= i < |large| && large[i] == (key, Lookup(small, key).value);
      assert KeysOf(large)[i] == key;
      var j :| 0 <= j < |large| && large[j] == (key, Lookup(large, key).value);
      assert KeysOf(large)[j] == key;
      DistinctAt(KeysOf(large), i, j);
    }
  }

  lemma {:induction false} WithoutMissing<K, V>(store: seq<(K, V)>, key: K)
    requires Lookup(store, key).None?
    ensures Without(store, key) == store
  {
    if store != [] {
      WithoutMissing(store[..|store| - 1], key);
    }
  }

  lemma CallKeepsNested<K(!new), V(!new)>(small: seq<(K, V)>, large: seq<(K, V)>, maxSmall: nat, maxLarge: nat,
                                          call: Call<K, V>)
    requires Nested(small, large, maxSmall) && Bounded(small, maxSmall) && Bounded(large, maxLarge)
    requires maxSmall <= maxLarge
    ensures Nested(Apply(small, maxSmall, call), Apply(large, maxLarge, call), maxSmall)
  {
    match call
    case GetCall(key) => GetKeepsNested(small, large, maxSmall, key);
    case SetCall(key, value) => SetKeepsNested(small, large, maxSmall, maxLarge, key, value);
  }

  lemma GetKeepsNested<K(!new), V(!new)>(small: seq<(K, V)>, large: seq<(K, V)>, maxSmall: nat, key: K)
    requires Nested(small, large, maxSmall) && Distinct(KeysOf(small)) && Distinct(KeysOf(large))
    ensures Nested(AfterGet(small, key), AfterGet(large, key), maxSmall)
  {
    SameHit(small, large, key);
    SubsequenceWithout(small, large, key);
    var hit := Lookup(large, key);
    if hit.Some? {
      TouchKeys(small, key, hit.value);
      if Lookup(small, key).Some? {
        SubsequenceAppend(Without(small, key), Without(large, key), (key, hit.value));
      } else {
        WithoutMissing(small, key);
        SubsequenceSkip(small, Without(large, key), (key, hit.value));
      }
    }
  }

  lemma SetKeepsNested<K(!new), V(!new)>(small: seq<(K, V)>, large: seq<(K, V)>, maxSmall: nat, maxLarge: nat, key: K,
                                         value: V)
    requires Nested(small, large, maxSmall) && Bounded(small, maxSmall) && Bounded(large, maxLarge)
    requires maxSmall <= maxLarge
    ensures Nested(AfterSet(small, maxSmall, key, value), AfterSet(large, maxLarge, key, value), maxSmall)
  {
    SameHit(small, large, key);
    SubsequenceWithout(small, large, key);
    TouchKeys(small, key, value);
    TouchKeys(large, key, value);
    SubsequenceAppend(Without(small, key), Without(large, key), (key, value));
    SubsequenceTail(Touch(small, key, value), Touch(large, key, value));
  }

  /** The smaller cache's entries are, in the same order, among the larger's. */
  lemma {:induction false} LargerCacheHoldsMore<K(!new), V(!new)>(maxSmall: nat, maxLarge: nat, calls: seq<Call<K, V>>)
    requires maxSmall <= maxLarge
    ensures Nested(Run(maxSmall, calls), Run(maxLarge, calls), maxSmall)
  {
    if calls != [] {
      var init := calls[..|calls| - 1];
      LargerCacheHoldsMore(maxSmall, maxLarge, init);
      HoldsTheMostRecent(maxSmall, init);
      HoldsTheMostRecent(maxLarge, init);
      CallKeepsNested(Run(maxSmall, init), Run(maxLarge, init), maxSmall, maxLarge, calls[|calls| - 1]);
    }
  }
}
