/** The worker listings of createAllocation, cleanup and TryDeleteEmptyPool. */
module IksWorkers {
  import opened Options
  import opened IksTypes

  /** The live workers of a pool, in listing order; a nil entry is None. */
  function Live(workers: seq<Option<Worker>>, pool: PoolId): (live: seq<Worker>)
    ensures forall w :: w in live ==> Some(w) in workers && w.pool == pool && !w.deleted
    ensures forall w: Worker :: Some(w) in workers && w.pool == pool && !w.deleted ==> w in live
  {
    if workers == [] then []
    else
      var tail := Live(workers[1..], pool);
      assert workers == [workers[0]] + workers[1..];
      if workers[0].None? || workers[0].value.pool != pool || workers[0].value.deleted then tail
      else [workers[0].value] + tail
  }

  lemma {:induction false} LiveSnoc(workers: seq<Option<Worker>>, w: Option<Worker>, pool: PoolId)
    ensures Live(workers + [w], pool) ==
            Live(workers, pool) + (if w.None? || w.value.pool != pool || w.value.deleted then [] else [w.value])
  {
    if workers == [] {
      assert [w][1..] == [];
    } else {
      assert (workers + [w])[1..] == workers[1..] + [w];
      LiveSnoc(workers[1..], w, pool);
    }
  }

  /** Dropping the last entries of a listing drops live workers only from the end. */
  lemma {:induction false} LivePrefix(workers: seq<Option<Worker>>, i: nat, pool: PoolId)
    requires i <= |workers|
    ensures |Live(workers[..i], pool)| <= |Live(workers, pool)|
    decreases |workers| - i
  {
    if i < |workers| {
      assert workers[..i+1] == workers[..i] + [workers[i]];
      LiveSnoc(workers[..i], workers[i], pool);
      LivePrefix(workers, i + 1, pool);
    } else {
      assert workers[..i] == workers;
    }
  }

  /** Entry i of a listing is a live worker of the pool. */
  predicate LiveAt(workers: seq<Option<Worker>>, pool: PoolId, i: int)
  {
    0 <= i < |workers| && workers[i].Some? && workers[i].value.pool == pool && !workers[i].value.deleted
  }

  lemma {:induction false} NoLiveEntry(workers: seq<Option<Worker>>, pool: PoolId)
    ensures Live(workers, pool) == [] <==> forall i :: !LiveAt(workers, pool, i)
  {
    var live := Live(workers, pool);
    if live != [] {
      assert Some(live[0]) in workers;
      var i :| 0 <= i < |workers| && workers[i] == Some(live[0]);
      assert LiveAt(workers, pool, i);
    }
    forall i | LiveAt(workers, pool, i) ensures workers[i].value in live {
      assert Some(workers[i].value) in workers;
    }
  }

  /** There is one live worker exactly when there is one live entry, and then it is that entry's. */
  lemma {:induction false} OneLiveEntry(workers: seq<Option<Worker>>, pool: PoolId, i: nat)
    requires LiveAt(workers, pool, i)
    ensures |Live(workers, pool)| == 1 <==> forall j :: LiveAt(workers, pool, j) ==> j == i
    ensures |Live(workers, pool)| == 1 ==> Live(workers, pool)[0] == workers[i].value
  {
    var rest := workers[1..];
    NoLiveEntry(rest, pool);
    assert forall j :: LiveAt(rest, pool, j) ==> LiveAt(workers, pool, j + 1);
    assert forall j :: 0 < j && LiveAt(workers, pool, j) ==> LiveAt(rest, pool, j - 1);
    if i > 0 {
      OneLiveEntry(rest, pool, i - 1);
      if LiveAt(workers, pool, 0) {
        assert LiveAt(rest, pool, i - 1);
        assert |Live(workers, pool)| == 1 + |Live(rest, pool)| > 1;
      } else {
        assert Live(workers, pool) == Live(rest, pool);
      }
    }
  }

  /** The subnet of the first primary interface, "" when there is none. */
  function PrimarySubnet(interfaces: seq<Interface>): string
  {
    if interfaces == [] then ""
    else if interfaces[0].primary then interfaces[0].subnet
    else PrimarySubnet(interfaces[1..])
  }

  method FindPrimary(interfaces: seq<Interface>) returns (subnet: string)
    ensures subnet == PrimarySubnet(interfaces)
  {
    subnet := "";
    for i := 0 to |interfaces|
      invariant subnet == ""
      invariant PrimarySubnet(interfaces) == PrimarySubnet(interfaces[i..])
    {
      if interfaces[i].primary {
        return interfaces[i].subnet;
      }
    }
  }

  /** The worker is in the reserved zone and subnet and has the reserved flavor. */
  predicate Matches(w: Worker, snap: Snapshot)
  {
    w.id != "" && w.location == snap.zone && w.flavor == snap.flavor &&
    PrimarySubnet(w.interfaces) != "" && PrimarySubnet(w.interfaces) == snap.subnet
  }

  /** The identity createAllocation binds: that of the only live worker, when it matches. */
  function Selected(workers: seq<Option<Worker>>, pool: PoolId, snap: Snapshot): Option<string>
  {
    var live := Live(workers, pool);
    if |live| == 1 && Matches(live[0], snap) then Some(live[0].id) else None
  }

  /** createAllocation's selection loop; every early return of the source is None here. */
  method SelectWorker(workers: seq<Option<Worker>>, pool: PoolId, snap: Snapshot) returns (id: Option<string>)
    ensures id == Selected(workers, pool, snap)
    ensures id.Some? ==> id.value != ""
  {
    var selected: Option<Worker> := None;
    var i := 0;
    while i < |workers|
      invariant 0 <= i <= |workers|
      invariant Live(workers[..i], pool) == (if selected.None? then [] else [selected.value])
      invariant selected.Some? ==> Matches(selected.value, snap)
    {
      LiveSnoc(workers[..i], workers[i], pool);
      assert workers[..i+1] == workers[..i] + [workers[i]];
      if workers[i].Some? && workers[i].value.pool == pool && !workers[i].value.deleted {
        var w := workers[i].value;
        if selected.Some? {
          LivePrefix(workers, i + 1, pool);
          return None;
        }
        var subnet := FindPrimary(w.interfaces);
        if w.id == "" || w.location != snap.zone || w.flavor != snap.flavor || subnet == "" || subnet != snap.subnet {
          FirstLive(workers, i + 1, pool);
          return None;
        }
        selected := Some(w);
      }
      i := i + 1;
    }
    assert workers[..i] == workers;
    id := if selected.None? then None else Some(selected.value.id);
  }

  /** The first live worker of a prefix is the first live worker of the whole listing. */
  lemma {:induction false} FirstLive(workers: seq<Option<Worker>>, i: nat, pool: PoolId)
    requires i <= |workers|
    requires Live(workers[..i], pool) != []
    ensures Live(workers, pool) != [] && Live(workers, pool)[0] == Live(workers[..i], pool)[0]
    decreases |workers| - i
  {
    if i < |workers| {
      assert workers[..i+1] == workers[..i] + [workers[i]];
      LiveSnoc(workers[..i], workers[i], pool);
      FirstLive(workers, i + 1, pool);
    } else {
      assert workers[..i] == workers;
    }
  }

  /** What cleanup demands before it deletes a pool: at most one live worker, and only its own. */
  predicate Removable(workers: seq<Option<Worker>>, pool: PoolId, worker: Option<string>)
  {
    var live := Live(workers, pool);
    |live| <= 1 && (worker.Some? ==> forall w :: w in live ==> w.id == worker.value)
  }

  /** cleanup's counting loop. */
  method CheckRemovable(workers: seq<Option<Worker>>, pool: PoolId, worker: Option<string>) returns (ok: bool)
    ensures ok == Removable(workers, pool, worker)
  {
    var count := 0;
    var i := 0;
    while i < |workers|
      invariant 0 <= i <= |workers|
      invariant count == |Live(workers[..i], pool)|
      invariant worker.Some? ==> forall w :: w in Live(workers[..i], pool) ==> w.id == worker.value
    {
      LiveSnoc(workers[..i], workers[i], pool);
      assert workers[..i+1] == workers[..i] + [workers[i]];
      if workers[i].Some? && workers[i].value.pool == pool && !workers[i].value.deleted {
        count := count + 1;
        if worker.Some? && workers[i].value.id != worker.value {
          assert workers[i].value in Live(workers, pool);
          return false;
        }
      }
      i := i + 1;
    }
    assert workers[..i] == workers;
    ok := count <= 1;
  }

  // ---- the same by the entries of a listing -----------------------------------------------------------

  /** The first primary interface is in this subnet, which has a name. */
  predicate PrimaryIn(interfaces: seq<Interface>, subnet: string)
  {
    subnet != "" && exists k :: 0 <= k < |interfaces| && interfaces[k] == Interface(true, subnet) &&
                                forall j :: 0 <= j < k ==> !interfaces[j].primary
  }

  /** The listing has one live worker of the pool: this one, in the zone, of the flavor and in the subnet ordered. */
  ghost predicate SoleWorker(workers: seq<Option<Worker>>, pool: PoolId, snap: Snapshot, id: string)
  {
    exists i :: LiveAt(workers, pool, i) && (forall j :: LiveAt(workers, pool, j) ==> j == i) &&
                var x := workers[i].value;
                x.id == id && id != "" && x.location == snap.zone && x.flavor == snap.flavor && PrimaryIn(x.interfaces, snap.subnet)
  }

  lemma {:induction false} PrimaryIff(interfaces: seq<Interface>, subnet: string)
    ensures PrimaryIn(interfaces, subnet) <==> subnet != "" && PrimarySubnet(interfaces) == subnet
  {
    if interfaces != [] {
      var rest := interfaces[1..];
      PrimaryIff(rest, subnet);
      if !interfaces[0].primary && subnet != "" {
        if k :| 0 <= k < |rest| && rest[k] == Interface(true, subnet) && forall j :: 0 <= j < k ==> !rest[j].primary {
          assert interfaces[k + 1] == rest[k];
          assert forall j :: 0 < j < k + 1 ==> interfaces[j] == rest[j - 1];
        }
        if k :| 0 <= k < |interfaces| && interfaces[k] == Interface(true, subnet) && forall j :: 0 <= j < k ==> !interfaces[j].primary {
          assert rest[k - 1] == interfaces[k];
          assert forall j :: 0 <= j < k - 1 ==> rest[j] == interfaces[j + 1];
        }
      }
    }
  }

  /** createAllocation binds a worker if and only if the listing is of that kind. */
  lemma SelectedIff(workers: seq<Option<Worker>>, pool: PoolId, snap: Snapshot, id: string)
    ensures Selected(workers, pool, snap) == Some(id) <==> SoleWorker(workers, pool, snap, id)
  {
    var live := Live(workers, pool);
    if |live| == 1 {
      var i :| 0 <= i < |workers| && workers[i] == Some(live[0]);
      assert LiveAt(workers, pool, i);
      OneLiveEntry(workers, pool, i);
      PrimaryIff(live[0].interfaces, snap.subnet);
    } else {
      forall i | LiveAt(workers, pool, i) ensures exists j :: LiveAt(workers, pool, j) && j != i {
        OneLiveEntry(workers, pool, i);
      }
    }
  }

  /** The listing shows at most one live worker of the pool, and if the allocation's is known, only that one. */
  ghost predicate OnlyOwn(listing: seq<Option<Worker>>, p: PoolId, worker: Option<string>)
  {
    && (forall i, j :: LiveAt(listing, p, i) && LiveAt(listing, p, j) ==> i == j)
    && (worker.Some? ==> forall i :: LiveAt(listing, p, i) ==> listing[i].value.id == worker.value)
  }

  /** cleanup goes on if and only if the listing is of that kind. */
  lemma OnlyOwnIff(listing: seq<Option<Worker>>, p: PoolId, worker: Option<string>)
    ensures OnlyOwn(listing, p, worker) <==> Removable(listing, p, worker)
  {
    NoLiveEntry(listing, p);
    var live := Live(listing, p);
    if i :| LiveAt(listing, p, i) {
      OneLiveEntry(listing, p, i);
    }
    forall i | LiveAt(listing, p, i) ensures listing[i].value in live {
      assert Some(listing[i].value) in listing;
    }
    forall x | x in live ensures exists i :: LiveAt(listing, p, i) && listing[i].value == x {
      var i :| 0 <= i < |listing| && listing[i] == Some(x);
      assert LiveAt(listing, p, i);
    }
  }
}
