/**
 * What the two ingestion collections share: job ids, the job metadata whose
 * start time orders them, the two orders `oldestFirst` and `newestFirst`
 * sort by, and the enumeration of a hash map's keys.
 */
module IngestionOrders {
  import opened Wrappers
  import S = Sorting

  /** A `java.util.UUID`. */
  type Uuid = nat

  /** A `java.time.Instant`, as a count of its smallest unit since the epoch. */
  type Instant = int

  /** `IngestionMetadata(startTime, source, application, applicationVersion)`. */
  datatype IngestionMetadata = IngestionMetadata(startTime: Instant, source: string, application: string, applicationVersion: string)

  /** The `UUID.fromString` failure: the text is not a UUID. */
  datatype UuidError = InvalidUuid(text: string)

  /** `it.metadata?.startTime`. */
  function StartTime(metadata: Option<IngestionMetadata>): Option<Instant>
  {
    if metadata.Some? then Some(metadata.value.startTime) else None
  }

  /** `compareBy(nullsLast()) { start }`, as "compares at most": ascending, nulls after every time. */
  predicate NullsLastLe(a: Option<Instant>, b: Option<Instant>)
  {
    match (a, b)
    case (Some(x), Some(y)) => x <= y
    case (Some(_), None) => true
    case (None, None) => true
    case (None, Some(_)) => false
  }

  /** `compareByDescending(nullsLast()) { start }`: the same comparator reversed, so nulls come first. */
  predicate DescendingLe(a: Option<Instant>, b: Option<Instant>)
  {
    NullsLastLe(b, a)
  }

  function StartLe(newest: bool, a: Option<Instant>, b: Option<Instant>): bool
  {
    if newest then DescendingLe(a, b) else NullsLastLe(a, b)
  }

  /** The start time stored under a key; none for a key that is absent. */
  function StartOf<V>(m: map<Uuid, V>, start: V -> Option<Instant>, k: Uuid): Option<Instant>
  {
    if k in m then start(m[k]) else None
  }

  /** The comparator of the sort, lifted to the keys of the map. */
  function KeyLe<V>(m: map<Uuid, V>, start: V -> Option<Instant>, newest: bool): (Uuid, Uuid) -> bool
  {
    (a: Uuid, b: Uuid) => StartLe(newest, StartOf(m, start, a), StartOf(m, start, b))
  }

  /** Both comparators are total preorders, as `sortedWith` requires. */
  lemma StartLeIsTotalPreorder(newest: bool, a: Option<Instant>, b: Option<Instant>, c: Option<Instant>)
    ensures StartLe(newest, a, b) || StartLe(newest, b, a)
    ensures StartLe(newest, a, b) && StartLe(newest, b, c) ==> StartLe(newest, a, c)
  {
  }

  lemma KeyLeIsTotalPreorder<V>(m: map<Uuid, V>, start: V -> Option<Instant>, newest: bool)
    ensures S.TotalPreorder(KeyLe(m, start, newest))
  {
    var le := KeyLe(m, start, newest);
    forall a, b ensures le(a, b) || le(b, a) {
      StartLeIsTotalPreorder(newest, StartOf(m, start, a), StartOf(m, start, b), None);
    }
    forall a, b, c | le(a, b) && le(b, c) ensures le(a, c) {
      StartLeIsTotalPreorder(newest, StartOf(m, start, a), StartOf(m, start, b), StartOf(m, start, c));
    }
  }

  /**
   * Ascending order puts every job with a start time before every job
   * without; descending order puts them after.
   */
  lemma NullsPlacement(a: Instant)
    ensures NullsLastLe(Some(a), None) && !NullsLastLe(None, Some(a))
    ensures DescendingLe(None, Some(a)) && !DescendingLe(Some(a), None)
  {
  }

  /**
   * `mutableMapOf()` is a `LinkedHashMap`, which iterates in insertion order:
   * `order` is that list, naming each key of the map exactly once.
   */
  predicate Enumerates<V>(order: seq<Uuid>, m: map<Uuid, V>)
  {
    (forall k :: k in order ==> k in m) && multiset(order) == multiset(m.Keys) && |order| == |m|
  }

  /** The order names exactly the map's keys, and is empty exactly when the map is. */
  lemma EnumeratedKeys<V>(order: seq<Uuid>, m: map<Uuid, V>)
    requires Enumerates(order, m)
    ensures forall k :: k in order <==> k in m
    ensures m == map[] <==> order == []
  {
    forall k | k in m ensures k in order {
      assert k in multiset(m.Keys);
    }
  }

  /** `put(k, v)` keeps a present key in its place and appends a new one. */
  function OrderAfterPut<V>(order: seq<Uuid>, m: map<Uuid, V>, k: Uuid): seq<Uuid>
  {
    if k in m then order else order + [k]
  }

  /** `remove(k)` unlinks the key and keeps the others in order. */
  function Without(order: seq<Uuid>, k: Uuid): (r: seq<Uuid>)
    ensures forall x :: x in r <==> x in order && x != k
  {
    if order == [] then []
    else if order[0] == k then Without(order[1..], k)
    else [order[0]] + Without(order[1..], k)
  }

  lemma {:induction false} WithoutCounts(order: seq<Uuid>, k: Uuid)
    ensures multiset(Without(order, k)) == multiset(order)[k := 0]
  {
    if order != [] {
      WithoutCounts(order[1..], k);
      assert order == [order[0]] + order[1..];
    }
  }

  /** After a `put`, the order still lists each key once, the new key last. */
  lemma PutKeepsEnumeration<V>(order: seq<Uuid>, m: map<Uuid, V>, k: Uuid, v: V)
    requires Enumerates(order, m)
    ensures Enumerates(OrderAfterPut(order, m, k), m[k := v])
  {
    if k !in m {
      assert m[k := v].Keys == m.Keys + {k};
    }
  }

  /** After a `remove`, the order still lists each remaining key once. */
  lemma RemoveKeepsEnumeration<V>(order: seq<Uuid>, m: map<Uuid, V>, k: Uuid)
    requires Enumerates(order, m)
    ensures Enumerates(Without(order, k), m - {k})
  {
    WithoutCounts(order, k);
    assert multiset((m - {k}).Keys) == multiset(m.Keys)[k := 0] by {
      forall x ensures multiset((m - {k}).Keys)[x] == multiset(m.Keys)[k := 0][x] {
        assert x in (m - {k}).Keys <==> x in m.Keys && x != k;
      }
    }
  }

  /** An enumeration of a key set repeats no key. */
  lemma EnumerationIsDistinct(s: seq<Uuid>, keys: set<Uuid>)
    requires multiset(s) == multiset(keys)
    ensures forall i, j :: 0 <= i < j < |s| ==> s[i] != s[j]
  {
    forall i, j | 0 <= i < j < |s| ensures s[i] != s[j] {
      assert s == s[..j] + s[j..];
      assert s[..j][i] == s[i] && s[j..][0] == s[j];
      assert multiset(s[..j])[s[i]] >= 1 && multiset(s[j..])[s[j]] >= 1;
      assert multiset(s)[s[i]] == multiset(s[..j])[s[i]] + multiset(s[j..])[s[i]];
      assert multiset(keys)[s[i]] <= 1;
    }
  }

  /** The values under the keys, in the order of the keys. */
  function InKeyOrder<V>(m: map<Uuid, V>, keys: seq<Uuid>): (r: seq<V>)
    requires forall k :: k in keys ==> k in m
    ensures |r| == |keys|
    ensures forall i :: 0 <= i < |keys| ==> r[i] == m[keys[i]]
  {
    seq(|keys|, i requires 0 <= i < |keys| => m[keys[i]])
  }

  /** The keys in the order of their values' start times: a stable sort of the iteration order. */
  function SortedKeys<V>(m: map<Uuid, V>, order: seq<Uuid>, start: V -> Option<Instant>, newest: bool): (keys: seq<Uuid>)
    requires Enumerates(order, m)
    ensures multiset(keys) == multiset(m.Keys)
    ensures |keys| == |m|
    ensures forall k :: k in keys ==> k in m
  {
    S.SortBySortsAndPermutes(order, KeyLe(m, start, newest));
    var keys := S.SortBy(order, KeyLe(m, start, newest));
    assert forall k :: k in keys ==> k in multiset(m.Keys);
    assert |keys| == |multiset(m.Keys)| == |m.Keys|;
    keys
  }

  /** Selects the keys whose value starts at `t`. */
  function KeyStartsAt<V>(m: map<Uuid, V>, start: V -> Option<Instant>, t: Option<Instant>): Uuid -> bool
  {
    (k: Uuid) => StartOf(m, start, k) == t
  }

  /** Selects the values that start at `t`. */
  function StartsAt<V>(start: V -> Option<Instant>, t: Option<Instant>): V -> bool
  {
    (v: V) => start(v) == t
  }

  /**
   * Each two keys of the sorted order are in the order of their start times,
   * no key repeats, and keys with the same start time keep their insertion
   * order (`sortedWith` is stable).
   */
  lemma SortedKeysSpec<V>(m: map<Uuid, V>, order: seq<Uuid>, start: V -> Option<Instant>, newest: bool)
    requires Enumerates(order, m)
    ensures var keys := SortedKeys(m, order, start, newest);
      (forall i, j :: 0 <= i < j < |keys| ==> keys[i] != keys[j]) &&
      (forall i, j :: 0 <= i < j < |keys| ==> StartLe(newest, start(m[keys[i]]), start(m[keys[j]]))) &&
      (forall t :: S.Filter(keys, KeyStartsAt(m, start, t)) == S.Filter(order, KeyStartsAt(m, start, t)))
  {
    var le := KeyLe(m, start, newest);
    KeyLeIsTotalPreorder(m, start, newest);
    S.SortBySortsAndPermutes(order, le);
    var keys := SortedKeys(m, order, start, newest);
    EnumerationIsDistinct(keys, m.Keys);
    forall i, j | 0 <= i < j < |keys| ensures StartLe(newest, start(m[keys[i]]), start(m[keys[j]])) {
      assert le(keys[i], keys[j]);
    }
    forall t ensures S.Filter(keys, KeyStartsAt(m, start, t)) == S.Filter(order, KeyStartsAt(m, start, t)) {
      StartLeIsTotalPreorder(newest, t, t, t);
      S.SortByIsStable(order, le, KeyStartsAt(m, start, t));
    }
  }

  /**
   * `values.sortedWith(comparator)`: the values in the sorted order of
   * their keys.
   */
  function SortedValues<V>(m: map<Uuid, V>, order: seq<Uuid>, start: V -> Option<Instant>, newest: bool): seq<V>
    requires Enumerates(order, m)
  {
    InKeyOrder(m, SortedKeys(m, order, start, newest))
  }

  /** The values of an enumeration of the keys are exactly the map's values. */
  lemma InKeyOrderHasEveryValue<V>(m: map<Uuid, V>, keys: seq<Uuid>)
    requires multiset(keys) == multiset(m.Keys)
    ensures forall k :: k in keys ==> k in m
    ensures forall v :: v in InKeyOrder(m, keys) <==> v in m.Values
  {
    assert forall k :: k in keys <==> k in multiset(m.Keys);
    var r := InKeyOrder(m, keys);
    forall v | v in m.Values ensures v in r {
      var k :| k in m && m[k] == v;
      assert k in multiset(keys);
      var i :| 0 <= i < |keys| && keys[i] == k;
      assert r[i] == v;
    }
  }

  lemma InKeyOrderCons<V>(m: map<Uuid, V>, k: Uuid, keys: seq<Uuid>)
    requires k in m && forall j :: j in keys ==> j in m
    ensures InKeyOrder(m, [k] + keys) == [m[k]] + InKeyOrder(m, keys)
  {
  }

  /** Selecting values by start time commutes with looking up the keys. */
  lemma {:induction false} InKeyOrderSelects<V>(m: map<Uuid, V>, keys: seq<Uuid>, start: V -> Option<Instant>, t: Option<Instant>)
    requires forall k :: k in keys ==> k in m
    ensures S.Filter(InKeyOrder(m, keys), StartsAt(start, t)) == InKeyOrder(m, S.Filter(keys, KeyStartsAt(m, start, t)))
  {
    if keys != [] {
      var k, tail := keys[0], keys[1..];
      var keep, keepKey := StartsAt(start, t), KeyStartsAt(m, start, t);
      assert keys == [k] + tail;
      InKeyOrderSelects(m, tail, start, t);
      var rest := S.Filter(tail, keepKey);
      S.FilterSelects(tail, keepKey);
      assert keep(m[k]) == keepKey(k);
      InKeyOrderCons(m, k, tail);
      S.FilterCons(m[k], InKeyOrder(m, tail), keep);
      S.FilterCons(k, tail, keepKey);
      if keepKey(k) {
        InKeyOrderCons(m, k, rest);
      }
    }
  }

  /**
   * The sorted view lists every value of the map once, any two values are in
   * the order of their start times, and values with the same start time come
   * in the map's insertion order.
   */
  lemma SortedValuesSpec<V>(m: map<Uuid, V>, order: seq<Uuid>, start: V -> Option<Instant>, newest: bool)
    requires Enumerates(order, m)
    ensures var r := SortedValues(m, order, start, newest);
      |r| == |m| &&
      (forall v :: v in r <==> v in m.Values) &&
      (forall i, j :: 0 <= i < j < |r| ==> StartLe(newest, start(r[i]), start(r[j]))) &&
      (forall t :: S.Filter(r, StartsAt(start, t)) == S.Filter(InKeyOrder(m, order), StartsAt(start, t)))
  {
    var keys := SortedKeys(m, order, start, newest);
    SortedKeysSpec(m, order, start, newest);
    InKeyOrderHasEveryValue(m, keys);
    forall t ensures S.Filter(InKeyOrder(m, keys), StartsAt(start, t)) == S.Filter(InKeyOrder(m, order), StartsAt(start, t)) {
      InKeyOrderSelects(m, keys, start, t);
      InKeyOrderSelects(m, order, start, t);
    }
  }
}
