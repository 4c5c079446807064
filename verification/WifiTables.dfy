/** The two bounded tables of the Wi-Fi HAL (hal/wifi_hal/common.cpp) as sequences: registration
    appends, removal takes out the first match. */
module WifiTables {
  import opened Base

  datatype Entry<K, V> = Entry(key: K, value: V)

  type Table<K, V> = seq<Entry<K, V>>

  /** What a handler is registered for; plain handlers leave the vendor fields 0. */
  datatype HandlerKey = HandlerKey(nlCmd: int, vendor: int, subcmd: int)

  /** The value of the Linux nl80211 interface; the repository's nl80211_copy.h is not part of
      this model. */
  const NL80211_CMD_VENDOR: int := 103

  const GOOGLE_OUI: int := 0x001A11

  function PlainKey(cmd: int): HandlerKey { HandlerKey(cmd, 0, 0) }

  function VendorKey(id: int, subcmd: int): HandlerKey { HandlerKey(NL80211_CMD_VENDOR, id, subcmd) }

  function Add<K, V>(t: Table<K, V>, cap: nat, k: K, v: V): Table<K, V> {
    if |t| < cap then t + [Entry(k, v)] else t
  }

  /** The first position holding key k, or |t|. */
  function First<K(==), V>(t: Table<K, V>, k: K): (i: nat)
    ensures i <= |t|
    ensures i < |t| ==> t[i].key == k
    ensures forall j :: 0 <= j < i ==> t[j].key != k
  {
    if t == [] || t[0].key == k then 0 else First(t[1..], k) + 1
  }

  function Without<E>(s: seq<E>, i: nat): seq<E> {
    if i < |s| then s[..i] + s[i + 1..] else s
  }

  function Drop<K(==), V>(t: Table<K, V>, k: K): Table<K, V> { Without(t, First(t, k)) }

  function Lookup<K(==), V>(t: Table<K, V>, k: K): Option<V> {
    var i := First(t, k);
    if i < |t| then Some(t[i].value) else None
  }

  predicate Has<K(==), V>(t: Table<K, V>, k: K) { First(t, k) < |t| }

  /** The values under one key, oldest first. */
  function Queue<K(==), V>(t: Table<K, V>, k: K): seq<V> {
    if t == [] then []
    else if t[0].key == k then [t[0].value] + Queue(t[1..], k)
    else Queue(t[1..], k)
  }

  // ----- laws: each key is a FIFO queue, and operations on one key leave the others alone -----

  lemma {:induction false} AddQueue<K, V>(t: Table<K, V>, cap: nat, k: K, v: V, other: K)
    ensures Queue(Add(t, cap, k, v), other) ==
            Queue(t, other) + if |t| < cap && other == k then [v] else []
  {
    if t != [] && |t| < cap {
      AddQueue(t[1..], cap - 1, k, v, other);
      assert Add(t, cap, k, v)[1..] == Add(t[1..], cap - 1, k, v);
    }
  }

  lemma {:induction false} DropQueue<K, V>(t: Table<K, V>, k: K, other: K)
    ensures Has(t, k) <==> Queue(t, k) != []
    ensures Has(t, k) ==> Lookup(t, k) == Some(Queue(t, k)[0])
    ensures Queue(Drop(t, k), other) ==
            if other == k && Has(t, k) then Queue(t, k)[1..] else Queue(t, other)
  {
    if t != [] && t[0].key == k {
      assert Drop(t, k) == t[1..];
    } else if t != [] {
      DropQueue(t[1..], k, other);
      DropStep(t, k);
    }
  }

  lemma {:induction false} QueueMember<K, V>(t: Table<K, V>, k: K, v: V)
    ensures v in Queue(t, k) <==> Entry(k, v) in t
  {
    if t != [] { QueueMember(t[1..], k, v); }
  }

  lemma DropStep<K, V>(t: Table<K, V>, k: K)
    requires t != [] && t[0].key != k
    ensures Drop(t, k) == [t[0]] + Drop(t[1..], k)
    ensures Drop(t, k)[1..] == Drop(t[1..], k)
  {
  }

  /** Removal in a concatenation works on the left part when the key occurs there. */
  lemma {:induction false} DropOfConcat<K, V>(t: Table<K, V>, u: Table<K, V>, k: K)
    ensures Drop(t + u, k) == if Has(t, k) then Drop(t, k) + u else t + Drop(u, k)
  {
    if t == [] {
      assert t + u == u;
    } else if t[0].key == k {
      assert Drop(t + u, k) == t[1..] + u;
    } else {
      assert (t + u)[1..] == t[1..] + u;
      DropStep(t + u, k);
      DropStep(t, k);
      DropOfConcat(t[1..], u, k);
      assert Has(t, k) <==> Has(t[1..], k);
    }
  }

  // ----- tables of distinct keys, as sets of entries -----

  ghost predicate DistinctKeys<K, V>(t: Table<K, V>) { forall i, j :: 0 <= i < j < |t| ==> t[i].key != t[j].key }

  lemma LookupMember<K, V>(t: Table<K, V>, k: K)
    ensures Has(t, k) ==> Entry(k, Lookup(t, k).value) in t
    ensures forall v :: Entry(k, v) in t ==> Has(t, k)
    ensures DistinctKeys(t) ==> forall v :: Entry(k, v) in t ==> Lookup(t, k) == Some(v)
  {
  }

  lemma AddMembers<K, V>(t: Table<K, V>, cap: nat, k: K, v: V)
    ensures forall e :: e in Add(t, cap, k, v) <==> e in t || (|t| < cap && e == Entry(k, v))
    ensures DistinctKeys(t) && !Has(t, k) ==> DistinctKeys(Add(t, cap, k, v))
  {
  }

  lemma DropMembers<K, V>(t: Table<K, V>, k: K)
    requires DistinctKeys(t)
    ensures forall e :: e in Drop(t, k) <==> e in t && e.key != k
    ensures DistinctKeys(Drop(t, k))
  {
    var i := First(t, k);
    forall e | e in t && e.key != k ensures e in Drop(t, k) {
      var j :| 0 <= j < |t| && t[j] == e;
      if i < |t| { assert Drop(t, k)[if j < i then j else j - 1] == e; }
    }
  }
}
