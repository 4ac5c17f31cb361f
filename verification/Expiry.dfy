/**
 * Tables with expiring entries, at the grain of one lock section, against a plain map that is never swept.
 * Clock readings are taken inside the section, except the stale reading a double-checked eviction carries.
 */
module Expiry {
  import opened Options

  datatype Entry<V> = Entry(value: V, expiration: int)

  type Table<V> = map<string, Entry<V>>

  predicate Live<V>(e: Entry<V>, now: int)
  {
    now <= e.expiration
  }

  /** A lookup that checks expiry at read time. */
  function Lookup<V>(t: Table<V>, key: string, now: int): Option<V>
  {
    if key in t && Live(t[key], now) then Some(t[key].value) else None
  }

  function LiveKeys<V>(t: Table<V>, now: int): set<string>
  {
    set key | key in t && Live(t[key], now)
  }

  datatype Event<V> =
    | Put(key: string, entry: Entry<V>)
    | Drop(key: string)
    | Wipe
    | Sweep(now: int)
    | Evict(key: string, stale: int)

  /** What a section does to the table. */
  function Apply<V>(t: Table<V>, e: Event<V>): Table<V>
  {
    match e
    case Put(key, entry) => t[key := entry]
    case Drop(key) => t - {key}
    case Wipe => map[]
    case Sweep(now) => map key | key in t && Live(t[key], now) :: t[key]
    case Evict(key, stale) => if key in t && !Live(t[key], stale) then t - {key} else t
  }

  /** The plain map keeps the latest Put and is neither swept nor evicted from. */
  function Plain<V>(t: Table<V>, e: Event<V>): Table<V>
  {
    if e.Sweep? || e.Evict? then t else Apply(t, e)
  }

  datatype Timed<V> = At(time: int, event: Event<V>)

  /** The clock does not go back, and every reading used was taken no later than its section. */
  ghost predicate Timely<V(!new)>(h: seq<Timed<V>>)
  {
    && (forall i, j :: 0 <= i < j < |h| ==> h[i].time <= h[j].time)
    && (forall i :: 0 <= i < |h| && h[i].event.Sweep? ==> h[i].event.now <= h[i].time)
    && (forall i :: 0 <= i < |h| && h[i].event.Evict? ==> h[i].event.stale <= h[i].time)
  }

  function Real<V>(h: seq<Timed<V>>): Table<V>
  {
    if h == [] then map[] else Apply(Real(h[..|h|-1]), h[|h|-1].event)
  }

  function Ideal<V>(h: seq<Timed<V>>): Table<V>
  {
    if h == [] then map[] else Plain(Ideal(h[..|h|-1]), h[|h|-1].event)
  }

  /** The section writes this key: it puts, drops or wipes it. */
  predicate Writes<V>(e: Event<V>, key: string)
  {
    (e.Put? && e.key == key) || (e.Drop? && e.key == key) || e.Wipe?
  }

  /** The entry was put and the key not written since. */
  ghost predicate LatestPut<V(!new)>(h: seq<Timed<V>>, key: string, entry: Entry<V>)
  {
    exists i :: 0 <= i < |h| && h[i].event == Put(key, entry) && forall j :: i < j < |h| ==> !Writes(h[j].event, key)
  }

  lemma LatestSnoc<V(!new)>(h: seq<Timed<V>>, x: Timed<V>, key: string, entry: Entry<V>)
    ensures LatestPut(h + [x], key, entry) <==> if Writes(x.event, key) then x.event == Put(key, entry) else LatestPut(h, key, entry)
  {
    var all := h + [x];
    assert all[|h|] == x;
    if i :| 0 <= i < |all| && all[i].event == Put(key, entry) && forall j :: i < j < |all| ==> !Writes(all[j].event, key) {
      assert i < |h| ==> !Writes(all[|h|].event, key);
      assert i < |h| ==> h[i].event == Put(key, entry) && forall j :: i < j < |h| ==> h[j] == all[j];
    }
    if !Writes(x.event, key) && LatestPut(h, key, entry) {
      var i :| 0 <= i < |h| && h[i].event == Put(key, entry) && forall j :: i < j < |h| ==> !Writes(h[j].event, key);
      assert all[i].event == Put(key, entry);
    }
  }

  /** The plain map holds exactly the latest put of each key that was not dropped or wiped since. */
  lemma {:induction false} PlainIsLatestPut<V(!new)>(h: seq<Timed<V>>, key: string, entry: Entry<V>)
    ensures key in Ideal(h) && Ideal(h)[key] == entry <==> LatestPut(h, key, entry)
  {
    if h != [] {
      var front, x := h[..|h|-1], h[|h|-1];
      PlainIsLatestPut(front, key, entry);
      LatestSnoc(front, x, key, entry);
      assert front + [x] == h;
    }
  }

  /** The table is the plain map less some entries that have expired. */
  ghost predicate Covers<V(!new)>(kept: Table<V>, ideal: Table<V>, now: int)
  {
    && (forall key :: key in kept ==> key in ideal && ideal[key] == kept[key])
    && (forall key :: key in ideal && Live(ideal[key], now) ==> key in kept)
  }

  lemma {:induction false} RunCovers<V(!new)>(h: seq<Timed<V>>, now: int)
    requires Timely(h) && (forall i :: 0 <= i < |h| ==> h[i].time <= now)
    ensures Covers(Real(h), Ideal(h), now)
  {
    if h != [] {
      var head, last := h[..|h|-1], h[|h|-1];
      RunCovers(head, last.time);
      assert Covers(Apply(Real(head), last.event), Plain(Ideal(head), last.event), now);
    }
  }

  /**
   * Lookups agree with the plain map, whatever writes, deletions, sweeps and double-checked evictions came before
   * and however they interleaved.
   */
  lemma Transparent<V(!new)>(h: seq<Timed<V>>, key: string, now: int)
    requires Timely(h) && (forall i :: 0 <= i < |h| ==> h[i].time <= now)
    ensures Lookup(Real(h), key, now) == Lookup(Ideal(h), key, now)
  {
    RunCovers(h, now);
  }

  /**
   * The cache by its history alone: a lookup finds a value if and only if that was the latest put of its key, has not been
   * dropped or wiped since, and has not expired.
   */
  lemma HitIff<V(!new)>(h: seq<Timed<V>>, key: string, now: int, value: V)
    requires Timely(h) && (forall i :: 0 <= i < |h| ==> h[i].time <= now)
    ensures Lookup(Real(h), key, now) == Some(value) <==>
            exists expiration :: LatestPut(h, key, Entry(value, expiration)) && now <= expiration
  {
    Transparent(h, key, now);
    if key in Ideal(h) {
      PlainIsLatestPut(h, key, Ideal(h)[key]);
    }
    forall expiration | LatestPut(h, key, Entry(value, expiration))
      ensures key in Ideal(h) && Ideal(h)[key] == Entry(value, expiration)
    {
      PlainIsLatestPut(h, key, Entry(value, expiration));
    }
  }

  /** Sweeping at `now` leaves exactly the live entries of the plain map: their number is the size. */
  lemma SizeIsLive<V(!new)>(h: seq<Timed<V>>, now: int)
    requires Timely(h) && (forall i :: 0 <= i < |h| ==> h[i].time <= now)
    ensures Apply(Real(h), Sweep(now)).Keys == LiveKeys(Ideal(h), now)
    ensures |Apply(Real(h), Sweep(now))| == |LiveKeys(Ideal(h), now)|
  {
    RunCovers(h, now);
    var swept := Apply(Real(h), Sweep(now));
    assert swept.Keys == LiveKeys(Ideal(h), now);
    assert |swept| == |swept.Keys|;
  }

  /** Without the stale-reading bound the law fails: an eviction dated in the future removes a live entry. */
  lemma FutureReadingLoses()
    ensures exists h: seq<Timed<int>>, key, now ::
              (forall i :: 0 <= i < |h| ==> h[i].time <= now) && Lookup(Real(h), key, now) != Lookup(Ideal(h), key, now)
  {
    var h: seq<Timed<int>> := [At(0, Put("k", Entry(7, 5))), At(1, Evict("k", 9))];
    assert h[..1] == [h[0]];
    assert Real(h[..1]) == map["k" := Entry(7, 5)] == Ideal(h[..1]) by {
      assert h[..1][..0] == [];
    }
    assert Lookup(Real(h), "k", 2) == None && Lookup(Ideal(h), "k", 2) == Some(7);
  }
}

/** The generic TTL cache. */
module TtlCache {
  import opened Options
  import opened Expiry

  const MILLISECOND := 1_000_000
  const MINUTE := 60_000 * MILLISECOND

  /** What the read-locked section of Get concludes: an expired entry sends it on to the write lock. */
  datatype Found<V> = Hit(value: V) | Miss | Stale(now: int)

  /** Half the TTL, but not less than a millisecond or more than a minute. */
  function SweepInterval(ttl: int): (r: int)
    ensures MILLISECOND <= r <= MINUTE
    ensures 2 * MILLISECOND <= ttl <= 2 * MINUTE ==> 2 * r <= ttl <= 2 * r + 1
    ensures ttl < 2 * MILLISECOND ==> r == MILLISECOND
    ensures ttl > 2 * MINUTE ==> r == MINUTE
  {
    var half := if ttl < 0 then -(-ttl / 2) else ttl / 2;
    var floor := if half > MILLISECOND then half else MILLISECOND;
    if floor < MINUTE then floor else MINUTE
  }

  class Cache<V(!new)> {
    var items: Table<V>
    var nextSweep: int
    const ttl: int

    constructor (ttl: int)
      ensures this.ttl == ttl && items == map[] && nextSweep == 0
    {
      this.ttl := ttl;
      items := map[];
      nextSweep := 0;
    }

    /** Get, first section. */
    method Find(key: string, now: int) returns (r: Found<V>)
      ensures r.Hit? ==> Lookup(items, key, now) == Some(r.value)
      ensures !r.Hit? ==> Lookup(items, key, now) == None
      ensures r.Stale? <==> key in items && items[key].expiration < now
      ensures r.Stale? ==> r.now == now
    {
      if key !in items {
        return Miss;
      }
      var entry := items[key];
      if now <= entry.expiration {
        return Hit(entry.value);
      }
      return Stale(now);
    }

    /** Get, second section: others may have run in between, so the entry is looked up again. */
    method EvictIfStale(key: string, stale: int)
      modifies `items
      ensures items == Apply(old(items), Evict(key, stale))
      ensures key in items ==> stale <= items[key].expiration
    {
      if key in items && items[key].expiration < stale {
        items := items - {key};
      }
    }

    /** The sweep under the write lock. */
    method RemoveExpired(now: int)
      modifies `items
      ensures items == Apply(old(items), Sweep(now))
    {
      var left := items.Keys;
      while left != {}
        invariant left <= old(items).Keys
        invariant items == map key | key in old(items) && (key in left || Live(old(items)[key], now)) :: old(items)[key]
        decreases left
      {
        var key :| key in left;
        if items[key].expiration < now {
          items := items - {key};
        }
        left := left - {key};
      }
    }

    /** `later` is the second clock reading. */
    method SetWithTTL(key: string, value: V, ttl: int, now: int, later: int)
      requires now <= later
      modifies this
      ensures var swept := if old(nextSweep) <= now then Apply(old(items), Sweep(now)) else old(items);
              items == Apply(swept, Put(key, Entry(value, later + ttl)))
      ensures nextSweep == if old(nextSweep) <= now then now + SweepInterval(this.ttl) else old(nextSweep)
    {
      if now >= nextSweep {
        RemoveExpired(now);
        nextSweep := now + SweepInterval(this.ttl);
      }
      items := items[key := Entry(value, later + ttl)];
    }

    method Delete(key: string)
      modifies `items
      ensures items == Apply(old(items), Drop(key))
    {
      items := items - {key};
    }

    method Has(key: string, now: int) returns (r: bool)
      ensures r <==> Lookup(items, key, now).Some?
    {
      r := key in items && !(items[key].expiration < now);
    }

    method Size(now: int) returns (n: nat)
      modifies `items
      ensures items == Apply(old(items), Sweep(now))
      ensures n == |LiveKeys(old(items), now)|
    {
      RemoveExpired(now);
      n := |items|;
      assert items.Keys == LiveKeys(old(items), now);
      assert |items| == |items.Keys|;
    }

    method Clear()
      modifies `items
      ensures items == Apply(old(items), Wipe)
    {
      items := map[];
    }
  }
}

/** Offerings marked unavailable until a given time. */
module Offerings {
  import opened Options
  import opened Expiry

  function AsTable(offerings: map<string, int>): Table<()>
  {
    map id | id in offerings :: Entry((), offerings[id])
  }

  class UnavailableOfferings {
    var offerings: map<string, int>

    constructor ()
      ensures AsTable(offerings) == map[]
    {
      offerings := map[];
    }

    method Add(id: string, expiry: int)
      modifies this
      ensures AsTable(offerings) == Apply(old(AsTable(offerings)), Put(id, Entry((), expiry)))
    {
      offerings := offerings[id := expiry];
    }

    method Remove(id: string)
      modifies this
      ensures AsTable(offerings) == Apply(old(AsTable(offerings)), Drop(id))
    {
      offerings := offerings - {id};
    }

    /** IsUnavailable, first section: an answer, or an expired entry to evict under the write lock. */
    method Check(id: string, now: int) returns (unavailable: bool, stale: bool)
      ensures unavailable <==> Lookup(AsTable(offerings), id, now).Some?
      ensures stale <==> id in offerings && offerings[id] < now
    {
      if id !in offerings {
        return false, false;
      }
      if now <= offerings[id] {
        return true, false;
      }
      return false, true;
    }

    /** IsUnavailable, second section. */
    method EvictIfStale(id: string, stale: int)
      modifies this
      ensures AsTable(offerings) == Apply(old(AsTable(offerings)), Evict(id, stale))
      ensures id in offerings ==> stale <= offerings[id]
    {
      if id in offerings && offerings[id] < stale {
        offerings := offerings - {id};
      }
    }

    method Cleanup(now: int)
      modifies this
      ensures AsTable(offerings) == Apply(old(AsTable(offerings)), Sweep(now))
    {
      var left := offerings.Keys;
      while left != {}
        invariant left <= old(offerings).Keys
        invariant offerings == map id | id in old(offerings) && (id in left || now <= old(offerings)[id]) :: old(offerings)[id]
        decreases left
      {
        var id :| id in left;
        if offerings[id] < now {
          offerings := offerings - {id};
        }
        left := left - {id};
      }
    }
  }
}
