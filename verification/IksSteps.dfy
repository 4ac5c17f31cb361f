/**
 * The IKS allocation protocol as a state machine. Every Kubernetes or cloud call, and every clock
 * reading that matters, is one atomic step; a step returns None when it cannot happen. Any thread
 * may give up after any step (an error return) and the whole process may crash after any step.
 */
module IksSteps {
  import opened Options
  import opened CreateStatus
  import opened IksTypes
  import opened IksWorkers

  /**
   * What the environment guarantees. A create takes effect at most `delay` after the clock reading
   * recorded as its start, and at most `lag` passes between the answer to a pool lookup and the
   * clock reading that judges it.
   */
  datatype Env = Env(delay: nat, lag: nat)

  /** `version` is the resourceVersion; `bound` is the worker in the published provider ID. */
  datatype Claim = Gone | Claim(version: nat, deleting: bool, finalizer: bool,
                                alloc: Option<Allocation>, bound: Option<string>)

  datatype Caller = Cleanup | Collector

  /** A pool deletion, with the worker identity the caller knew and the worker listing it last read. */
  datatype Deletion = Deletion(caller: Caller, pool: PoolId, worker: Option<string>, workers: seq<Option<Worker>>)

  /**
   * Everything outside the controller process, and history variables that no step reads.
   * `pending` maps each create request that has neither taken effect nor been refused to its start.
   * `owners` remembers the claim label of every pool that ever existed.
   * History: `pinned` is the snapshot first checkpointed, `known` the pool identity first recorded,
   * `ending` says that "deleting" was recorded, `settled` that a cleanup released the reservation.
   */
  datatype Store = Store(now: int, rev: nat, claim: Claim, res: Option<Reservation>,
                         pools: map<PoolId, Pool>, owners: map<PoolId, Owner>, nextPool: PoolId,
                         pending: map<nat, int>, landed: map<nat, PoolId>, nextReq: nat,
                         pinned: Option<Snapshot>, known: Option<PoolId>, ending: bool, settled: bool,
                         deletions: seq<Deletion>)

  /** A claim as read by a cleanup thread; `release` marks the allocation controller. */
  datatype Read = Read(version: nat, alloc: Option<Allocation>, bound: Option<string>, release: bool)

  /** Which of createAllocation's three checkpoints is being written. */
  datatype Site = AtStart | AfterCreate(rec: Record) | AtEnd

  /**
   * The thread that holds the pool lock, with its local variables. C: createAllocation,
   * K: cleanup, G: ConfirmGone, T: TryDeleteEmptyPool.
   */
  datatype Holder =
    | Free
    | CLocked(a: Allocation)
    | COwner(a: Allocation, seenVersion: nat, site: Site)
    | CPinned(a: Allocation)
    | CNoRecord(a: Allocation)
    | CReserved(a: Allocation, r: Record)
    | CAbsent(a: Allocation, r: Record, seen: int)
    | CClear(a: Allocation, r: Record)
    | CStamped(a: Allocation, r: Record, start: int)
    | CRecorded(a: Allocation, r: Record, start: int)
    | CSent(a: Allocation, r: Record, req: nat)
    | CRefused(a: Allocation, r: Record)
    | CCreated(a: Allocation, r: Record)
    | CActivated(a: Allocation, r: Record)
    | CVerify(a: Allocation, r: Record)
    | CFound(a: Allocation, r: Record)
    | CBound(a: Allocation, r: Record)
    | CStored(a: Allocation, r: Record)
    | KLocked(a: Allocation, rd: Read)
    | KNoRecord(a: Allocation, rd: Read)
    | KReserved(a: Allocation, rd: Read, r: Record)
    | KMarked(a: Allocation, rd: Read, r: Record)
    | KAbsent(a: Allocation, rd: Read, r: Record, seen: int)
    | KClear(a: Allocation, rd: Read, r: Record)
    | KFound(a: Allocation, rd: Read, r: Record)
    | KRecorded(a: Allocation, rd: Read, r: Record)
    | KCounted(a: Allocation, rd: Read, r: Record, workers: seq<Option<Worker>>)
    | GLocked(a: Allocation, rd: Read)
    | GAbsent(a: Allocation, rd: Read)
    | GReserved(a: Allocation, rd: Read, r: Record)
    | TLocked(candidate: PoolId)
    | TScan(candidate: PoolId, tomb: Option<Reservation>)
    | TUnclaimed(candidate: PoolId, tomb: Option<Reservation>)
    | TEmpty(candidate: PoolId, tomb: Option<Reservation>)
    | TMarked(candidate: PoolId)
    | TReady(candidate: PoolId, workers: seq<Option<Worker>>)

  /**
   * `waiting` is the create attempt that has read its claim but not yet taken the lock, `cleaners` the
   * cleanup threads in the same position, `releases` the claim versions whose cleanup reported
   * absence, `tombs` the tombstones whose pool was seen absent, and `returned` the worker of a
   * create that succeeded and is not yet published.
   */
  datatype World = World(st: Store, holder: Holder, waiting: Option<Allocation>, cleaners: set<Read>,
                         releases: set<nat>, tombs: set<Reservation>, returned: Option<string>)

  predicate IsCreate(h: Holder)
  {
    h.CLocked? || h.COwner? || h.CPinned? || h.CNoRecord? || h.CReserved? || h.CAbsent? || h.CClear? ||
    h.CStamped? || h.CRecorded? || h.CSent? || h.CRefused? || h.CCreated? || h.CActivated? ||
    h.CVerify? || h.CFound? || h.CBound? || h.CStored?
  }

  function Put(st: Store, r: Record): Store
  {
    st.(res := Some(Own(r)), rev := st.rev + 1)
  }

  function PutClaim(st: Store, c: Claim): Store
    requires c.Claim?
  {
    st.(claim := c.(version := st.rev + 1), rev := st.rev + 1)
  }

  /** GetWorkerPool by name: some pool of the name, or not found when there is none. */
  predicate Lookup(st: Store, found: Option<PoolId>)
  {
    match found
    case None => st.pools == map[]
    case Some(p) => p in st.pools
  }

  // ---- createAllocation ---------------------------------------------------------------------

  datatype CreateStep =
    | Begin(snap: Snapshot)
    | Lock
    | ReadOwner
    | Checkpoint
    | Reserve
    | ReserveNew
    | FindPool(found: Option<PoolId>)
    | Judge
    | Stamp
    | RecordStart
    | Send
    | Answered
    | Refused(status: int)
    | RecordRefusal
    | Activate
    | VerifyPool
    | ListWorkers(workers: seq<Option<Worker>>)

  /** One create per claim is in flight: its controller never runs two reconciles of one object. */
  function Begin1(w: World, snap: Snapshot): Option<World>
  {
    var c := w.st.claim;
    if c.Claim? && !c.deleting && w.waiting.None? && !IsCreate(w.holder) then
      Some(w.(waiting := Some(if c.alloc.Some? then c.alloc.value else Allocation(snap, None, None)),
              returned := None))
    else None
  }

  function Lock1(w: World): Option<World>
  {
    if w.holder.Free? && w.waiting.Some? then
      Some(w.(holder := CLocked(w.waiting.value), waiting := None))
    else None
  }

  /** checkpoint re-reads the claim and refuses a terminating one. */
  function ReadOwner1(w: World): Option<World>
  {
    var c := w.st.claim;
    if !c.Claim? || c.deleting then None
    else match w.holder
      case CLocked(a) => Some(w.(holder := COwner(a, c.version, AtStart)))
      case CActivated(a, r) => Some(w.(holder := COwner(a, c.version, AfterCreate(r))))
      case CStored(a, r) => Some(w.(holder := COwner(a, c.version, AtEnd)))
      case _ => None
  }

  /** The claim with the allocation in its annotation, and the finalizer. */
  function Annotate(st: Store, a: Allocation): Store
    requires st.claim.Claim?
  {
    PutClaim(st, st.claim.(alloc := Some(a), finalizer := true)).(pinned := if st.pinned.None? then Some(a.snap) else st.pinned)
  }

  function Checkpoint1(w: World): Option<World>
  {
    if w.holder.COwner? && w.st.claim.Claim? && w.st.claim.version == w.holder.seenVersion then
      var a := w.holder.a;
      var st := Annotate(w.st, a);
      match w.holder.site
      case AtStart => Some(w.(st := st, holder := CPinned(a)))
      case AfterCreate(r) => Some(w.(st := st, holder := CVerify(a, r)))
      case AtEnd => Some(w.(st := st, holder := Free, returned := a.worker))
    else None
  }

  /** reserve, restoreReservation and the refusal of a terminating allocation. */
  function Reserve1(w: World): Option<World>
  {
    if !w.holder.CPinned? then None
    else match w.st.res
      case None => Some(w.(holder := CNoRecord(w.holder.a)))
      case Some(Tombstone(_, _)) => None
      case Some(Own(r)) =>
        var a := Restore(w.holder.a, r);
        if a.None? || r.phase.Deleting? then None
        else Some(w.(holder := CReserved(a.value, r)))
  }

  function ReserveNew1(w: World): Option<World>
  {
    if w.holder.CNoRecord? && w.st.res.None? then
      var r := NewRecord(w.st.rev + 1, w.holder.a);
      Some(w.(st := Put(w.st, r), holder := CReserved(w.holder.a, r)))
    else None
  }

  function FindPool1(w: World, found: Option<PoolId>): Option<World>
  {
    if !w.holder.CReserved? || !Lookup(w.st, found) then None
    else
      var a, r := w.holder.a, w.holder.r;
      match found
      case None => Some(w.(holder := CAbsent(a, r, w.st.now)))
      case Some(p) =>
        if ValidPool(w.st.pools[p], p, a) && w.st.pools[p].size == 1
        then Some(w.(holder := CFound(a.(pool := Some(p)), r)))
        else None
  }

  function Judge1(env: Env, w: World): Option<World>
  {
    if w.holder.CAbsent? && w.st.now <= w.holder.seen + env.lag &&
       !Uncertain(w.holder.r, w.st.now) && w.holder.a.pool.None?
    then Some(w.(holder := CClear(w.holder.a, w.holder.r)))
    else None
  }

  /** updateReservation reads the clock before it writes "creating". */
  function Stamp1(w: World): Option<World>
  {
    if w.holder.CClear? then Some(w.(holder := CStamped(w.holder.a, w.holder.r, w.st.now))) else None
  }

  function RecordStart1(w: World): Option<World>
  {
    if w.holder.CStamped? && w.st.res == Some(Own(w.holder.r)) then
      var r := Update(w.holder.r, w.holder.a, Creating, w.holder.start, w.st.rev + 1);
      Some(w.(st := Put(w.st, r), holder := CRecorded(w.holder.a, r, w.holder.start)))
    else None
  }

  /** CreateWorkerPool leaves the process. */
  function Send1(w: World): Option<World>
  {
    if w.holder.CRecorded? then
      var q := w.st.nextReq;
      Some(w.(st := w.st.(pending := w.st.pending[q := w.holder.start], nextReq := q + 1),
              holder := CSent(w.holder.a, w.holder.r, q)))
    else None
  }

  function Answered1(w: World): Option<World>
  {
    if w.holder.CSent? && w.holder.req in w.st.landed then
      Some(w.(holder := CCreated(w.holder.a.(pool := Some(w.st.landed[w.holder.req])), w.holder.r)))
    else None
  }

  /** A definite refusal: the request created nothing and never will. */
  function Refused1(w: World, status: int): Option<World>
  {
    if w.holder.CSent? && w.holder.req in w.st.pending && RejectedStatus(status) then
      Some(w.(st := w.st.(pending := w.st.pending - {w.holder.req}), holder := CRefused(w.holder.a, w.holder.r)))
    else None
  }

  function RecordRefusal1(w: World): Option<World>
  {
    if w.holder.CRefused? && w.st.res == Some(Own(w.holder.r)) then
      Some(w.(st := Put(w.st, Update(w.holder.r, w.holder.a, Rejected, w.st.now, w.st.rev + 1)), holder := Free))
    else None
  }

  function Activate1(w: World): Option<World>
  {
    if (w.holder.CCreated? || w.holder.CBound?) && w.st.res == Some(Own(w.holder.r)) then
      var a := w.holder.a;
      var r := Update(w.holder.r, a, Active, w.st.now, w.st.rev + 1);
      var st := Put(w.st, r).(known := if w.st.known.None? then a.pool else w.st.known);
      Some(w.(st := st, holder := if w.holder.CCreated? then CActivated(a, r) else CStored(a, r)))
    else None
  }

  /** The second lookup of a fresh create is by identity. */
  function VerifyPool1(w: World): Option<World>
  {
    if w.holder.CVerify? && w.holder.a.pool.Some? && w.holder.a.pool.value in w.st.pools &&
       ValidPool(w.st.pools[w.holder.a.pool.value], w.holder.a.pool.value, w.holder.a) &&
       w.st.pools[w.holder.a.pool.value].size == 1
    then Some(w.(holder := CFound(w.holder.a, w.holder.r)))
    else None
  }

  function ListWorkers1(w: World, workers: seq<Option<Worker>>): Option<World>
  {
    if w.holder.CFound? && w.holder.a.pool.Some? then
      var id := Selected(workers, w.holder.a.pool.value, w.holder.a.snap);
      if id.None? || (w.holder.a.worker.Some? && w.holder.a.worker != id) then None
      else Some(w.(holder := CBound(w.holder.a.(worker := id), w.holder.r)))
    else None
  }

  function CreateNext(env: Env, w: World, s: CreateStep): Option<World>
  {
    match s
    case Begin(snap) => Begin1(w, snap)
    case Lock => Lock1(w)
    case ReadOwner => ReadOwner1(w)
    case Checkpoint => Checkpoint1(w)
    case Reserve => Reserve1(w)
    case ReserveNew => ReserveNew1(w)
    case FindPool(found) => FindPool1(w, found)
    case Judge => Judge1(env, w)
    case Stamp => Stamp1(w)
    case RecordStart => RecordStart1(w)
    case Send => Send1(w)
    case Answered => Answered1(w)
    case Refused(status) => Refused1(w, status)
    case RecordRefusal => RecordRefusal1(w)
    case Activate => Activate1(w)
    case VerifyPool => VerifyPool1(w)
    case ListWorkers(workers) => ListWorkers1(w, workers)
  }

  // ---- cleanup and ConfirmGone --------------------------------------------------------------

  datatype CleanStep =
    | ReadClaim(release: bool)
    | NoAllocation(rd: Read)
    | LockCleanup(rd: Read)
    | CleanReserve
    | CleanReserveNew
    | Mark
    | CleanFind(found: Option<PoolId>)
    | CleanJudge
    | Settle
    | RecordPool
    | CountWorkers(workers: seq<Option<Worker>>)
    | DeletePool
    | LockGone(rd: Read)
    | GoneFind
    | GoneRead
    | Release(version: nat)

  /**
   * The allocation controller reads a terminating claim that has the finalizer. The deletion path
   * reads a claim whose provider ID names the worker of its allocation.
   */
  function ReadClaim1(w: World, release: bool): Option<World>
  {
    var c := w.st.claim;
    if !c.Claim? then None
    else if release then
      if c.deleting && c.finalizer then Some(w.(cleaners := w.cleaners + {Read(c.version, c.alloc, c.bound, true)})) else None
    else if c.alloc.Some? && c.alloc.value.worker.Some? && c.bound == c.alloc.value.worker then
      Some(w.(cleaners := w.cleaners + {Read(c.version, c.alloc, c.bound, false)}))
    else None
  }

  /** Cleanup of a claim without an allocation reports absence at once. */
  function NoAllocation1(w: World, rd: Read): Option<World>
  {
    if rd in w.cleaners && rd.release && rd.bound.None? && rd.alloc.None? then
      Some(w.(cleaners := w.cleaners - {rd}, releases := w.releases + {rd.version}))
    else None
  }

  function LockCleanup1(w: World, rd: Read): Option<World>
  {
    if w.holder.Free? && rd in w.cleaners && rd.alloc.Some? && (rd.release ==> rd.bound.None?) then
      Some(w.(holder := KLocked(rd.alloc.value, rd), cleaners := w.cleaners - {rd}))
    else None
  }

  function CleanReserve1(w: World): Option<World>
  {
    if !w.holder.KLocked? then None
    else match w.st.res
      case None => Some(w.(holder := KNoRecord(w.holder.a, w.holder.rd)))
      case Some(Tombstone(_, _)) => None
      case Some(Own(r)) =>
        var a := Restore(w.holder.a, r);
        if a.None? then None else Some(w.(holder := KReserved(a.value, w.holder.rd, r)))
  }

  function CleanReserveNew1(w: World): Option<World>
  {
    if w.holder.KNoRecord? && w.st.res.None? then
      var r := NewRecord(w.st.rev + 1, w.holder.a);
      Some(w.(st := Put(w.st, r), holder := KReserved(w.holder.a, w.holder.rd, r)))
    else None
  }

  function Mark1(w: World): Option<World>
  {
    if w.holder.KReserved? && w.st.res == Some(Own(w.holder.r)) then
      var r := Update(w.holder.r, w.holder.a, Deleting, w.st.now, w.st.rev + 1);
      Some(w.(st := Put(w.st, r).(ending := true), holder := KMarked(w.holder.a, w.holder.rd, r)))
    else None
  }

  function CleanFind1(w: World, found: Option<PoolId>): Option<World>
  {
    if !w.holder.KMarked? || !Lookup(w.st, found) then None
    else
      var a, rd, r := w.holder.a, w.holder.rd, w.holder.r;
      match found
      case None => Some(w.(holder := KAbsent(a, rd, r, w.st.now)))
      case Some(p) =>
        if ValidPool(w.st.pools[p], p, a) then Some(w.(holder := KFound(a.(pool := Some(p)), rd, r))) else None
  }

  /** The worker lookup that follows for a known worker can only end the attempt with an error. */
  function CleanJudge1(env: Env, w: World): Option<World>
  {
    if w.holder.KAbsent? && w.st.now <= w.holder.seen + env.lag &&
       !(Uncertain(w.holder.r, w.st.now) && w.holder.a.pool.None?)
    then Some(w.(holder := KClear(w.holder.a, w.holder.rd, w.holder.r)))
    else None
  }

  /** The reservation is deleted and absence reported; only the controller then releases the claim. */
  function Finish(w: World, rd: Read): World
  {
    w.(st := w.st.(res := None, rev := w.st.rev + 1, ending := true, settled := true), holder := Free,
       releases := if rd.release then w.releases + {rd.version} else w.releases)
  }

  function Settle1(w: World): Option<World>
  {
    if (w.holder.KClear? || w.holder.GReserved?) && w.st.res == Some(Own(w.holder.r)) then
      Some(Finish(w, w.holder.rd))
    else None
  }

  function RecordPool1(w: World): Option<World>
  {
    if w.holder.KFound? && w.st.res == Some(Own(w.holder.r)) then
      var a := w.holder.a;
      var r := Update(w.holder.r, a, Deleting, w.st.now, w.st.rev + 1);
      var st := Put(w.st, r).(known := if w.st.known.None? then a.pool else w.st.known);
      Some(w.(st := st, holder := KRecorded(a, w.holder.rd, r)))
    else None
  }

  function CountWorkers1(w: World, workers: seq<Option<Worker>>): Option<World>
  {
    if w.holder.KRecorded? && w.holder.a.pool.Some? &&
       Removable(workers, w.holder.a.pool.value, w.holder.a.worker)
    then Some(w.(holder := KCounted(w.holder.a, w.holder.rd, w.holder.r, workers)))
    else None
  }

  /** Deletion is asynchronous: the pool disappears in a later environment step. */
  function DeletePool1(w: World): Option<World>
  {
    if w.holder.KCounted? && w.holder.a.pool.Some? then
      var d := Deletion(Cleanup, w.holder.a.pool.value, w.holder.a.worker, w.holder.workers);
      Some(w.(st := w.st.(deletions := w.st.deletions + [d]), holder := Free))
    else None
  }

  /** ConfirmGone demands that the published provider ID is the allocation's worker. */
  function LockGone1(w: World, rd: Read): Option<World>
  {
    if w.holder.Free? && rd in w.cleaners && rd.release && rd.bound.Some? && rd.alloc.Some? && rd.alloc.value.worker == rd.bound then
      Some(w.(holder := GLocked(rd.alloc.value, rd), cleaners := w.cleaners - {rd}))
    else None
  }

  function GoneFind1(w: World): Option<World>
  {
    if w.holder.GLocked? && Lookup(w.st, None) then Some(w.(holder := GAbsent(w.holder.a, w.holder.rd))) else None
  }

  function GoneRead1(w: World): Option<World>
  {
    if !w.holder.GAbsent? then None
    else match w.st.res
      case None => Some(Finish(w, w.holder.rd))
      case Some(Tombstone(_, _)) => None
      case Some(Own(r)) => Some(w.(holder := GReserved(w.holder.a, w.holder.rd, r)))
  }

  /** Reconcile removes the finalizer, provided the claim is unchanged since it was read. */
  function Release1(w: World, version: nat): Option<World>
  {
    if version in w.releases && w.st.claim.Claim? && w.st.claim.version == version then
      Some(w.(st := PutClaim(w.st, w.st.claim.(finalizer := false)), releases := w.releases - {version}))
    else None
  }

  function CleanNext(env: Env, w: World, s: CleanStep): Option<World>
  {
    match s
    case ReadClaim(release) => ReadClaim1(w, release)
    case NoAllocation(rd) => NoAllocation1(w, rd)
    case LockCleanup(rd) => LockCleanup1(w, rd)
    case CleanReserve => CleanReserve1(w)
    case CleanReserveNew => CleanReserveNew1(w)
    case Mark => Mark1(w)
    case CleanFind(found) => CleanFind1(w, found)
    case CleanJudge => CleanJudge1(env, w)
    case Settle => Settle1(w)
    case RecordPool => RecordPool1(w)
    case CountWorkers(workers) => CountWorkers1(w, workers)
    case DeletePool => DeletePool1(w)
    case LockGone(rd) => LockGone1(w, rd)
    case GoneFind => GoneFind1(w)
    case GoneRead => GoneRead1(w)
    case Release(version) => Release1(w, version)
  }

  // ---- TryDeleteEmptyPool and releaseDeletedReservations ------------------------------------

  datatype CollectStep =
    | LockCandidate(candidate: PoolId)
    | ReadTombstone
    | ScanClaims
    | FirstLook(workers: seq<Option<Worker>>)
    | WriteTombstone
    | SecondLook(workers: seq<Option<Worker>>)
    | DeleteCandidate
    | SeeAbsent
    | DropTombstone(tomb: Reservation)

  function LockCandidate1(w: World, candidate: PoolId): Option<World>
  {
    if w.holder.Free? && candidate in w.st.owners then Some(w.(holder := TLocked(candidate))) else None
  }

  function ReadTombstone1(w: World): Option<World>
  {
    if w.holder.TLocked? && (w.st.res.None? || w.st.res.value.Tombstone?) then
      Some(w.(holder := TScan(w.holder.candidate, w.st.res)))
    else None
  }

  /** Any claim whose allocation names the pool keeps it. */
  function ScanClaims1(w: World): Option<World>
  {
    if w.holder.TScan? && !(w.st.claim.Claim? && w.st.claim.alloc.Some?) then
      Some(w.(holder := TUnclaimed(w.holder.candidate, w.holder.tomb)))
    else None
  }

  function FirstLook1(w: World, workers: seq<Option<Worker>>): Option<World>
  {
    if w.holder.TUnclaimed? && w.holder.candidate in w.st.pools &&
       EmptyUnclaimed(w.st.pools[w.holder.candidate]) && Live(workers, w.holder.candidate) == []
    then Some(w.(holder := TEmpty(w.holder.candidate, w.holder.tomb)))
    else None
  }

  function WriteTombstone1(w: World): Option<World>
  {
    if w.holder.TEmpty? && w.st.res == w.holder.tomb && (w.st.res.None? || w.st.res.value.Tombstone?) then
      var t := Tombstone(w.st.rev + 1, if w.st.res.None? then w.holder.candidate else w.st.res.value.pool);
      Some(w.(st := w.st.(res := Some(t), rev := w.st.rev + 1), holder := TMarked(w.holder.candidate)))
    else None
  }

  function SecondLook1(w: World, workers: seq<Option<Worker>>): Option<World>
  {
    if w.holder.TMarked? && w.holder.candidate in w.st.pools &&
       EmptyUnclaimed(w.st.pools[w.holder.candidate]) && w.st.pools[w.holder.candidate].actual == 0 &&
       Live(workers, w.holder.candidate) == []
    then Some(w.(holder := TReady(w.holder.candidate, workers)))
    else None
  }

  function DeleteCandidate1(w: World): Option<World>
  {
    if w.holder.TReady? then
      var d := Deletion(Collector, w.holder.candidate, None, w.holder.workers);
      Some(w.(st := w.st.(deletions := w.st.deletions + [d]), holder := Free))
    else None
  }

  /** releaseDeletedReservations works without the lock. */
  function SeeAbsent1(w: World): Option<World>
  {
    if w.st.res.Some? && w.st.res.value.Tombstone? && w.st.res.value.pool !in w.st.pools then
      Some(w.(tombs := w.tombs + {w.st.res.value}))
    else None
  }

  function DropTombstone1(w: World, tomb: Reservation): Option<World>
  {
    if tomb in w.tombs && tomb.Tombstone? && w.st.res == Some(tomb) then
      Some(w.(st := w.st.(res := None, rev := w.st.rev + 1)))
    else None
  }

  function CollectNext(w: World, s: CollectStep): Option<World>
  {
    match s
    case LockCandidate(candidate) => LockCandidate1(w, candidate)
    case ReadTombstone => ReadTombstone1(w)
    case ScanClaims => ScanClaims1(w)
    case FirstLook(workers) => FirstLook1(w, workers)
    case WriteTombstone => WriteTombstone1(w)
    case SecondLook(workers) => SecondLook1(w, workers)
    case DeleteCandidate => DeleteCandidate1(w)
    case SeeAbsent => SeeAbsent1(w)
    case DropTombstone(tomb) => DropTombstone1(w, tomb)
  }

  // ---- environment --------------------------------------------------------------------------

  datatype EnvStep =
    | Tick(span: nat)
    | Land(req: nat, shape: Pool)
    | Lose(req: nat)
    | Vanish(id: PoolId)
    | Foreign(pool: Pool)
    | Edit(id: PoolId, pool: Pool)
    | DeleteClaim
    | TouchClaim
    | Publish
    | CollectClaim
    | Abandon
    | Withdraw
    | Crash

  function Tick1(w: World, span: nat): Option<World>
  {
    Some(w.(st := w.st.(now := w.st.now + span)))
  }

  /** An accepted create takes effect; the cloud may also hold other pools of the name. */
  function Land1(env: Env, w: World, req: nat, shape: Pool): Option<World>
  {
    if req in w.st.pending && w.st.now <= w.st.pending[req] + env.delay then
      var id := w.st.nextPool;
      var p := shape.(owner := OwnClaim, labelled := true, start := w.st.pending[req]);
      Some(w.(st := w.st.(pools := w.st.pools[id := p], owners := w.st.owners[id := OwnClaim], nextPool := id + 1,
                          pending := w.st.pending - {req}, landed := w.st.landed[req := id])))
    else None
  }

  function Lose1(w: World, req: nat): Option<World>
  {
    if req in w.st.pending then Some(w.(st := w.st.(pending := w.st.pending - {req}))) else None
  }

  function Vanish1(w: World, pool: PoolId): Option<World>
  {
    if pool in w.st.pools then Some(w.(st := w.st.(pools := w.st.pools - {pool}))) else None
  }

  /** Somebody else's pool of the same name; nobody else labels a pool with this claim. */
  function Foreign1(w: World, pool: Pool): Option<World>
  {
    if !pool.owner.OwnClaim? then
      var id := w.st.nextPool;
      Some(w.(st := w.st.(pools := w.st.pools[id := pool], owners := w.st.owners[id := pool.owner], nextPool := id + 1)))
    else None
  }

  /** Resizing and the like: ownership labels do not change. */
  function Edit1(w: World, id: PoolId, pool: Pool): Option<World>
  {
    if id in w.st.pools && pool.owner == w.st.pools[id].owner && pool.start == w.st.pools[id].start then
      Some(w.(st := w.st.(pools := w.st.pools[id := pool])))
    else None
  }

  function DeleteClaim1(w: World): Option<World>
  {
    if w.st.claim.Claim? then Some(w.(st := PutClaim(w.st, w.st.claim.(deleting := true)))) else None
  }

  function TouchClaim1(w: World): Option<World>
  {
    if w.st.claim.Claim? then Some(w.(st := PutClaim(w.st, w.st.claim))) else None
  }

  /** The caller of a successful create publishes the provider ID. */
  function Publish1(w: World): Option<World>
  {
    if w.st.claim.Claim? && w.returned.Some? then
      Some(w.(st := PutClaim(w.st, w.st.claim.(bound := w.returned)), returned := None))
    else None
  }

  function CollectClaim1(w: World): Option<World>
  {
    if w.st.claim.Claim? && w.st.claim.deleting && !w.st.claim.finalizer then
      Some(w.(st := w.st.(claim := Gone)))
    else None
  }

  /** The lock holder returns early, after an error or a refusal. */
  function Abandon1(w: World): Option<World>
  {
    Some(w.(holder := Free))
  }

  /** A create that never got the lock returns early. */
  function Withdraw1(w: World): Option<World>
  {
    Some(w.(waiting := None))
  }

  function Crash1(w: World): Option<World>
  {
    Some(World(w.st, Free, None, {}, {}, {}, None))
  }

  function EnvNext(env: Env, w: World, s: EnvStep): Option<World>
  {
    match s
    case Tick(span) => Tick1(w, span)
    case Land(req, shape) => Land1(env, w, req, shape)
    case Lose(req) => Lose1(w, req)
    case Vanish(id) => Vanish1(w, id)
    case Foreign(pool) => Foreign1(w, pool)
    case Edit(id, pool) => Edit1(w, id, pool)
    case DeleteClaim => DeleteClaim1(w)
    case TouchClaim => TouchClaim1(w)
    case Publish => Publish1(w)
    case CollectClaim => CollectClaim1(w)
    case Abandon => Abandon1(w)
    case Withdraw => Withdraw1(w)
    case Crash => Crash1(w)
  }

  // ---- runs ---------------------------------------------------------------------------------

  datatype Step = C(c: CreateStep) | K(k: CleanStep) | T(t: CollectStep) | E(e: EnvStep)

  function Next(env: Env, w: World, s: Step): Option<World>
  {
    match s
    case C(c) => CreateNext(env, w, c)
    case K(k) => CleanNext(env, w, k)
    case T(t) => CollectNext(w, t)
    case E(e) => EnvNext(env, w, e)
  }

  /** A new claim: nothing stored, nothing in the cloud. */
  function Init(now: int): World
  {
    World(Store(now, 0, Claim(0, false, false, None, None), None, map[], map[], 0, map[], map[], 0,
                None, None, false, false, []), Free, None, {}, {}, {}, None)
  }

  /** The world after a run from the initial state, or None when some step cannot happen. */
  function Exec(env: Env, now: int, run: seq<Step>): Option<World>
  {
    if run == [] then Some(Init(now))
    else
      var w := Exec(env, now, run[..|run|-1]);
      if w.None? then None else Next(env, w.value, run[|run|-1])
  }
}
