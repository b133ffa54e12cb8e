/** The queue that a response cache stands for: slots in the order of their last `Set`. */
module CacheQueue {
  import opened Common
  import opened Base64

  datatype Response = Response(status: int, headers: map<string, seq<string>>, body: seq<byte>)

  datatype Slot = Slot(key: string, resp: Response, expiry: Time)

  /** Keys are kept at most once. */
  predicate Distinct(q: seq<Slot>) {
    forall i, j :: 0 <= i < j < |q| ==> q[i].key != q[j].key
  }

  predicate Has(q: seq<Slot>, key: string) {
    exists i :: 0 <= i < |q| && q[i].key == key
  }

  function Find(q: seq<Slot>, key: string): Option<Slot> {
    if q == [] then None
    else if q[0].key == key then Some(q[0])
    else Find(q[1..], key)
  }

  /** The slots whose key passes, in their order. */
  function Keep(q: seq<Slot>, pass: string -> bool): seq<Slot> {
    if q == [] then []
    else if pass(q[0].key) then [q[0]] + Keep(q[1..], pass)
    else Keep(q[1..], pass)
  }

  function Without(q: seq<Slot>, key: string): seq<Slot> { Keep(q, k => k != key) }

  predicate At(s: string, part: string, i: int) {
    0 <= i <= |s| - |part| && s[i..i + |part|] == part
  }

  predicate Contains(s: string, part: string) {
    exists i :: 0 <= i <= |s| && At(s, part, i)
  }

  function Purged(q: seq<Slot>, path: string): seq<Slot> { Keep(q, k => !Contains(k, path)) }

  /** Eviction takes the head, but the empty key is never evicted. */
  function Evicted(q: seq<Slot>, maxEntries: int): seq<Slot> {
    if |q| >= maxEntries && q != [] && q[0].key != "" then q[1..] else q
  }

  function Stored(q: seq<Slot>, slot: Slot, maxEntries: int): seq<Slot> {
    (if Has(q, slot.key) then Without(q, slot.key) else Evicted(q, maxEntries)) + [slot]
  }

  /** The hit of a `Get` that reads the clock at `now`. */
  function Hit(q: seq<Slot>, key: string, now: Time): Option<Response> {
    var s := Find(q, key);
    if s.Some? && now <= s.value.expiry then Some(s.value.resp) else None
  }

  /** The second section of `Get`: an entry that is expired by now goes. */
  function Lapsed(q: seq<Slot>, key: string, now: Time): seq<Slot> {
    var s := Find(q, key);
    if s.Some? && now > s.value.expiry then Without(q, key) else q
  }

  function AfterGet(q: seq<Slot>, key: string, now: Time, later: Time): seq<Slot> {
    var s := Find(q, key);
    if s.Some? && now > s.value.expiry then Lapsed(q, key, later) else q
  }

  lemma {:induction false} FindAt(q: seq<Slot>, key: string)
    ensures Find(q, key).Some? <==> Has(q, key)
    ensures Find(q, key).Some? ==> Find(q, key).value in q && Find(q, key).value.key == key
    ensures Distinct(q) ==> forall i :: 0 <= i < |q| && q[i].key == key ==> Find(q, key) == Some(q[i])
  {
    if q != [] {
      FindAt(q[1..], key);
      if q[0].key != key && Has(q, key) {
        var i :| 0 <= i < |q| && q[i].key == key;
        assert q[1..][i - 1].key == key;
      }
      if q[0].key != key && Has(q[1..], key) {
        var i :| 0 <= i < |q[1..]| && q[1..][i].key == key;
        assert q[i + 1].key == key;
      }
      if Distinct(q) {
        forall i | 0 <= i < |q| && q[i].key == key ensures Find(q, key) == Some(q[i]) {
          if i > 0 {
            assert q[0].key != q[i].key && q[1..][i - 1] == q[i];
          }
        }
      }
    }
  }

  /** Filtering keeps exactly the passing slots and any order among them. */
  lemma {:induction false} KeepMembers(q: seq<Slot>, pass: string -> bool)
    ensures forall x :: x in Keep(q, pass) <==> x in q && pass(x.key)
    ensures |Keep(q, pass)| <= |q|
  {
    if q != [] {
      KeepMembers(q[1..], pass);
      assert q == [q[0]] + q[1..];
    }
  }

  lemma {:induction false} KeepDistinct(q: seq<Slot>, pass: string -> bool)
    requires Distinct(q)
    ensures Distinct(Keep(q, pass))
  {
    if q != [] {
      var rest := q[1..];
      assert forall i :: 0 <= i < |rest| ==> rest[i] == q[i + 1];
      KeepDistinct(rest, pass);
      KeepMembers(rest, pass);
      assert forall x :: x in Keep(rest, pass) ==> x.key != q[0].key;
    }
  }

  lemma {:induction false} KeepOrder(q: seq<Slot>, pass: string -> bool, rank: Slot -> int)
    requires forall i, j :: 0 <= i < j < |q| ==> rank(q[i]) <= rank(q[j])
    ensures forall i, j :: 0 <= i < j < |Keep(q, pass)| ==> rank(Keep(q, pass)[i]) <= rank(Keep(q, pass)[j])
  {
    if q != [] {
      var rest := q[1..];
      assert forall i :: 0 <= i < |rest| ==> rest[i] == q[i + 1];
      KeepOrder(rest, pass, rank);
      KeepMembers(rest, pass);
      assert forall x :: x in Keep(rest, pass) ==> rank(q[0]) <= rank(x);
    }
  }
}

/** The cache itself: a map of entries that carry insertion indices, refining the queue. */
module ResponseCache {
  import opened Common
  import opened CacheQueue

  datatype Entry = Entry(resp: Response, expiry: Time, insertIdx: int)

  /** The map and the queue hold the same entries, and the queue is ordered by insertion index. */
  ghost predicate Represents(items: map<string, Entry>, q: seq<Slot>)
    decreases |q|
  {
    if q == [] then items == map[]
    else
      var key := q[0].key;
      && key in items && items[key].resp == q[0].resp && items[key].expiry == q[0].expiry
      && (forall k :: k in items && k != key ==> items[key].insertIdx < items[k].insertIdx)
      && Represents(items - {key}, q[1..])
  }

  ghost predicate IndicesBelow(items: map<string, Entry>, nextIdx: int) {
    0 <= nextIdx && forall k :: k in items ==> 0 <= items[k].insertIdx < nextIdx
  }

  lemma {:induction false} FindRepresents(items: map<string, Entry>, q: seq<Slot>, key: string)
    requires Represents(items, q)
    ensures Find(q, key) == if key in items then Some(Slot(key, items[key].resp, items[key].expiry)) else None
    ensures |items| == |q|
    decreases |q|
  {
    if q != [] {
      FindRepresents(items - {q[0].key}, q[1..], key);
      assert items.Keys == (items - {q[0].key}).Keys + {q[0].key};
    }
  }

  lemma {:induction false} RepresentsIsDistinct(items: map<string, Entry>, q: seq<Slot>)
    requires Represents(items, q)
    ensures Distinct(q) && forall i :: 0 <= i < |q| ==> q[i].key in items
    decreases |q|
  {
    if q != [] {
      RepresentsIsDistinct(items - {q[0].key}, q[1..]);
      assert forall i :: 0 < i < |q| ==> q[i] == q[1..][i - 1];
    }
  }

  function Restricted(items: map<string, Entry>, pass: string -> bool): map<string, Entry> {
    map k | k in items && pass(k) :: items[k]
  }

  lemma {:induction false} KeepRepresents(items: map<string, Entry>, q: seq<Slot>, pass: string -> bool)
    requires Represents(items, q)
    ensures Represents(Restricted(items, pass), Keep(q, pass))
    decreases |q|
  {
    if q != [] {
      var key := q[0].key;
      KeepRepresents(items - {key}, q[1..], pass);
      if pass(key) {
        assert Restricted(items, pass) - {key} == Restricted(items - {key}, pass);
        assert Keep(q, pass)[1..] == Keep(q[1..], pass);
      } else {
        assert Restricted(items, pass) == Restricted(items - {key}, pass);
      }
    }
  }

  /** Putting an entry with a larger index at the end of a queue without its key. */
  lemma {:induction false} AppendRepresents(items: map<string, Entry>, q: seq<Slot>, key: string, e: Entry)
    requires Represents(items, q) && key !in items
    requires forall k :: k in items ==> items[k].insertIdx < e.insertIdx
    ensures Represents(items[key := e], q + [Slot(key, e.resp, e.expiry)])
    decreases |q|
  {
    var r := q + [Slot(key, e.resp, e.expiry)];
    if q == [] {
      assert items[key := e] - {key} == map[];
      assert r[1..] == [];
    } else {
      AppendRepresents(items - {q[0].key}, q[1..], key, e);
      assert items[key := e] - {q[0].key} == (items - {q[0].key})[key := e];
      assert r[1..] == q[1..] + [Slot(key, e.resp, e.expiry)];
    }
  }

  /** Setting a key again moves its slot to the end. */
  lemma ReplaceRepresents(items: map<string, Entry>, q: seq<Slot>, key: string, e: Entry)
    requires Represents(items, q)
    requires forall k :: k in items ==> items[k].insertIdx < e.insertIdx
    ensures Represents(items[key := e], Without(q, key) + [Slot(key, e.resp, e.expiry)])
  {
    var others := Restricted(items, k => k != key);
    KeepRepresents(items, q, k => k != key);
    AppendRepresents(others, Without(q, key), key, e);
    assert items[key := e] == others[key := e];
  }

  /** The queue after a `Set` of a key that is there. */
  lemma SetPresent(items: map<string, Entry>, q: seq<Slot>, key: string, e: Entry, maxEntries: int)
    requires IndicesBelow(items, e.insertIdx) && Represents(items, q) && key in items
    ensures IndicesBelow(items[key := e], e.insertIdx + 1)
    ensures Represents(items[key := e], Stored(q, Slot(key, e.resp, e.expiry), maxEntries))
  {
    FindRepresents(items, q, key);
    FindAt(q, key);
    ReplaceRepresents(items, q, key, e);
  }

  /** The queue after the `Set` of a key that is not there, the oldest entry having been evicted if need be. */
  lemma SetAbsent(items: map<string, Entry>, q: seq<Slot>, rest: map<string, Entry>, key: string, e: Entry,
                  maxEntries: int)
    requires Represents(items, q) && key !in items && rest.Keys <= items.Keys
    requires IndicesBelow(rest, e.insertIdx) && Represents(rest, Evicted(q, maxEntries))
    ensures IndicesBelow(rest[key := e], e.insertIdx + 1)
    ensures Represents(rest[key := e], Stored(q, Slot(key, e.resp, e.expiry), maxEntries))
  {
    FindRepresents(items, q, key);
    FindAt(q, key);
    AppendRepresents(rest, Evicted(q, maxEntries), key, e);
  }

  /** What is left of the items when those in `rest` are still to be looked at. */
  function Sifted(items: map<string, Entry>, rest: set<string>, prefix: string): map<string, Entry> {
    map k | k in items && (k in rest || !Contains(k, prefix)) :: items[k]
  }

  lemma SiftOne(items: map<string, Entry>, rest: set<string>, prefix: string, key: string)
    requires key in rest
    ensures Sifted(items, rest - {key}, prefix) ==
            if Contains(key, prefix) then Sifted(items, rest, prefix) - {key} else Sifted(items, rest, prefix)
  {
  }

  class Cache {
    var items: map<string, Entry>
    var nextIdx: int
    const ttl: Time
    const maxEntries: int
    ghost var queue: seq<Slot>

    ghost predicate Valid() reads this { IndicesBelow(items, nextIdx) && Represents(items, queue) }

    constructor (ttl: Time, maxEntries: int)
      ensures Valid() && queue == [] && this.ttl == ttl && this.maxEntries == maxEntries
    {
      items, nextIdx, queue := map[], 0, [];
      this.ttl, this.maxEntries := ttl, maxEntries;
    }

    /** The first section of `Get`, under the read lock. */
    method Peek(key: string) returns (r: Option<Entry>)
      requires Valid()
      ensures r.Some? <==> Has(queue, key)
      ensures r.Some? ==> Find(queue, key) == Some(Slot(key, r.value.resp, r.value.expiry))
    {
      FindRepresents(items, queue, key);
      FindAt(queue, key);
      if key in items {
        return Some(items[key]);
      }
      return None;
    }

    /** The second section of `Get`, after relocking, with its own reading of the clock. */
    method DropIfExpired(key: string, now: Time)
      requires Valid()
      modifies this
      ensures Valid() && queue == Lapsed(old(queue), key, now)
    {
      FindRepresents(items, queue, key);
      if key in items && now > items[key].expiry {
        KeepRepresents(items, queue, k => k != key);
        assert items - {key} == Restricted(items, k => k != key);
        items := items - {key};
        queue := Without(queue, key);
      }
    }

    method Get(key: string, now: Time, later: Time) returns (r: Option<Response>)
      requires Valid()
      modifies this
      ensures Valid() && queue == AfterGet(old(queue), key, now, later)
      ensures r == Hit(old(queue), key, now)
    {
      FindAt(queue, key);
      var e := Peek(key);
      if e.None? {
        return None;
      }
      if now > e.value.expiry {
        DropIfExpired(key, later);
        return None;
      }
      return Some(e.value.resp);
    }

    method Set(key: string, resp: Response, now: Time)
      requires Valid()
      modifies this
      ensures Valid() && queue == Stored(old(queue), Slot(key, resp, now + ttl), maxEntries)
    {
      var e := Entry(resp, now + ttl, nextIdx);
      FindRepresents(items, queue, key);
      if key in items {
        SetPresent(items, queue, key, e, maxEntries);
        items := items[key := e];
      } else {
        ghost var before := items;
        if |items| >= maxEntries {
          EvictOldest();
        }
        SetAbsent(before, old(queue), items, key, e, maxEntries);
        items := items[key := e];
      }
      nextIdx := nextIdx + 1;
      queue := Stored(old(queue), Slot(key, resp, now + ttl), maxEntries);
    }

    /** Removes the entry with the lowest index; the map is walked in an arbitrary order. */
    method EvictOldest()
      requires Valid()
      modifies this
      ensures Valid() && nextIdx == old(nextIdx) && items.Keys <= old(items).Keys
      ensures queue == if old(queue) != [] && old(queue)[0].key != "" then old(queue)[1..] else old(queue)
    {
      var oldestKey := "";
      var oldestIdx := -1;
      var rest := items.Keys;
      while rest != {}
        invariant rest <= items.Keys
        invariant oldestIdx == -1 ==> oldestKey == "" && rest == items.Keys
        invariant oldestIdx != -1 ==> oldestKey in items && items[oldestKey].insertIdx == oldestIdx
        invariant oldestIdx != -1 ==> forall k :: k in items && k !in rest ==> oldestIdx <= items[k].insertIdx
      {
        var key :| key in rest;
        rest := rest - {key};
        if oldestIdx == -1 || items[key].insertIdx < oldestIdx {
          oldestIdx := items[key].insertIdx;
          oldestKey := key;
        }
      }
      assert queue != [] ==> queue[0].key == oldestKey;
      if oldestKey != "" {
        items := items - {oldestKey};
        queue := queue[1..];
      }
    }

    method InvalidatePrefix(prefix: string)
      requires Valid()
      modifies this
      ensures Valid() && queue == Purged(old(queue), prefix)
    {
      KeepRepresents(items, queue, k => !Contains(k, prefix));
      var rest := items.Keys;
      assert items == Sifted(items, rest, prefix);
      while rest != {}
        invariant rest <= items.Keys && nextIdx == old(nextIdx) && queue == old(queue)
        invariant items == Sifted(old(items), rest, prefix)
      {
        var key :| key in rest;
        SiftOne(old(items), rest, prefix, key);
        rest := rest - {key};
        if Contains(key, prefix) {
          items := items - {key};
        }
      }
      assert items == Restricted(old(items), k => !Contains(k, prefix));
      queue := Purged(queue, prefix);
    }
  }
}
