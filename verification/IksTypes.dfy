/**
 * Data and pure decisions of the IKS allocation protocol.
 *
 * The model follows one NodeClaim and the one pool name derived from it. The three stores are the
 * NodeClaim, the reservation ConfigMap for that pool name, and the worker pools of that name.
 */
module IksTypes {
  import opened Options

  // Time is counted in nanoseconds, as in Go.
  const SECOND := 1_000_000_000
  const WINDOW := 900_000_000_000

  type PoolId = nat

  /** The immutable provisioning snapshot: everything in an allocation but the two learned identities. */
  datatype Snapshot = Snapshot(flavor: string, zone: string, subnet: string, rest: string)

  datatype Allocation = Allocation(snap: Snapshot, pool: Option<PoolId>, worker: Option<string>)

  datatype Phase = Reserved | Creating | Active | Rejected | Deleting

  /** An allocation's reservation; `started` is None when the stored start does not parse. */
  datatype Record = Record(version: nat, phase: Phase, pending: bool, started: Option<int>, alloc: Allocation)

  /** The ConfigMap of a pool name: this claim's record, or the empty-pool collector's tombstone. */
  datatype Reservation = Own(rec: Record) | Tombstone(version: nat, pool: PoolId)

  datatype Owner = OwnClaim | NoClaim | OtherClaim

  /**
   * A worker pool of the modelled name. `labelled` says that the managed, provider, cluster and
   * NodeClass labels are this cluster's. `start` is the recorded start of the create behind it.
   */
  datatype Pool = Pool(owner: Owner, labelled: bool, start: int, flavor: string, zones: seq<string>,
                       autoscale: bool, size: nat, actual: nat)

  datatype Interface = Interface(primary: bool, subnet: string)

  datatype Worker = Worker(id: string, pool: PoolId, deleted: bool, location: string, flavor: string,
                           interfaces: seq<Interface>)

  /** An RFC 3339 timestamp without a fraction keeps whole seconds only. */
  function Truncate(t: int): (s: int)
    ensures s <= t < s + SECOND
    ensures s % SECOND == 0
  {
    t - t % SECOND
  }

  /** reserve: the record of a reservation that has just been made. */
  function NewRecord(version: nat, a: Allocation): Record
  {
    Record(version, Reserved, false, None, a)
  }

  /** updateReservation: the record it stores for `a` in `phase` at clock reading `now`. */
  function Update(r: Record, a: Allocation, phase: Phase, now: int, version: nat): (u: Record)
    ensures u.alloc == a && u.phase == phase && u.version == version
    // A known pool is never left pending, whatever the phase.
    ensures a.pool.Some? ==> !u.pending
    ensures u.pending ==> r.pending || phase.Creating?
    ensures u.pending && !phase.Creating? ==> u.started == r.started
  {
    var started := if phase.Creating? then Some(Truncate(now)) else r.started;
    var pending := if phase.Active? || phase.Rejected? || a.pool.Some? then false
                   else if phase.Creating? then true else r.pending;
    Record(version, phase, pending, started, a)
  }

  /** creationUncertain: may an absent pool still appear from an accepted create? */
  predicate Uncertain(r: Record, now: int)
  {
    r.pending && (r.started.None? || now - r.started.value <= WINDOW)
  }

  /** restoreReservation: the allocation completed from the stored record, or None on a conflict. */
  function Restore(a: Allocation, r: Record): (res: Option<Allocation>)
    ensures res.Some? ==>
              && res.value.snap == a.snap == r.alloc.snap
              && (a.pool.Some? ==> res.value.pool == a.pool)
              && (r.alloc.pool.Some? ==> res.value.pool == r.alloc.pool)
              && (a.worker.Some? ==> res.value.worker == a.worker)
              && (r.alloc.worker.Some? ==> res.value.worker == r.alloc.worker)
  {
    if a.snap != r.alloc.snap then None
    else if a.pool.Some? && r.alloc.pool.Some? && a.pool != r.alloc.pool then None
    else if a.worker.Some? && r.alloc.worker.Some? && a.worker != r.alloc.worker then None
    else Some(Allocation(a.snap, if a.pool.None? then r.alloc.pool else a.pool,
                         if a.worker.None? then r.alloc.worker else a.worker))
  }

  /** validatePool: the pool is this allocation's isolated pool. */
  predicate ValidPool(p: Pool, id: PoolId, a: Allocation)
  {
    && !p.autoscale && p.size <= 1 && p.zones == [a.snap.zone] && p.flavor == a.snap.flavor
    && p.labelled && p.owner.OwnClaim?
    && (a.pool.None? || a.pool.value == id)
  }

  /** TryDeleteEmptyPool's test of a candidate: managed, of this class, and labelled with no claim. */
  predicate EmptyUnclaimed(p: Pool)
  {
    p.size == 0 && !p.autoscale && p.labelled && p.owner.NoClaim?
  }
}
