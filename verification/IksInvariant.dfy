/**
 * What every step of the allocation protocol keeps, in two parts. `Base` does not mention time: it holds in every
 * environment. `Guard` is about pools and creates that could be left behind, and needs the creation window.
 */
module IksInvariant {
  import opened Options
  import opened IksTypes
  import opened IksWorkers
  import opened IksSteps

  /** The environment leaves the window enough room; the stored start can lose just under a second. */
  predicate Safe(env: Env)
  {
    env.delay + env.lag + SECOND - 1 <= WINDOW
  }

  predicate OwnPool(st: Store, p: PoolId)
  {
    p in st.pools && st.pools[p].owner.OwnClaim?
  }

  /** A request that can still take effect. */
  predicate LiveReq(env: Env, st: Store, q: nat)
  {
    q in st.pending && st.now <= st.pending[q] + env.delay
  }

  ghost predicate NoLive(env: Env, st: Store)
  {
    forall q :: !LiveReq(env, st, q)
  }

  ghost predicate NoOwn(st: Store)
  {
    forall p :: !OwnPool(st, p)
  }

  /** Neither a pool of this claim nor a create that may still make one. */
  ghost predicate NoHazard(env: Env, st: Store)
  {
    NoLive(env, st) && NoOwn(st)
  }

  /** The claim still holds the finalizer and its annotation, which names the pool. */
  predicate Protected(c: Claim)
  {
    c.Claim? && c.finalizer && c.alloc.Some?
  }

  // ---- identities ---------------------------------------------------------------------------

  /** The same snapshot, and the same pool and worker where both know one. */
  predicate Agree(a: Allocation, b: Allocation)
  {
    && a.snap == b.snap
    && (a.pool.Some? && b.pool.Some? ==> a.pool == b.pool)
    && (a.worker.Some? && b.worker.Some? ==> a.worker == b.worker)
  }

  /** An allocation of this claim: it has the pinned snapshot and contradicts no annotation. */
  predicate Sound(st: Store, a: Allocation)
  {
    && st.pinned == Some(a.snap)
    && (a.worker.Some? ==> a.pool.Some?)
    && (st.claim.Claim? && st.claim.alloc.Some? ==> Agree(st.claim.alloc.value, a))
  }

  predicate Restored(a: Allocation, r: Record)
  {
    && r.alloc.snap == a.snap
    && (r.alloc.pool.Some? ==> a.pool == r.alloc.pool)
    && (r.alloc.worker.Some? ==> a.worker == r.alloc.worker)
  }

  /** A pool identity in use is the first one ever recorded. */
  predicate Knows(st: Store, a: Allocation)
  {
    a.pool.Some? ==> st.known == a.pool
  }

  // ---- the stores, in any environment ---------------------------------------------------------

  predicate RecordOk(st: Store)
  {
    st.res.Some? && st.res.value.Own? ==>
      var r := st.res.value.rec;
      && Sound(st, r.alloc)
      && (r.pending ==> r.started.Some? && r.alloc.pool.None?)
      && (r.phase.Active? ==> r.alloc.pool.Some?)
      && r.version <= st.rev
  }

  predicate ClaimOk(st: Store)
  {
    st.claim.Claim? ==>
      && st.claim.version <= st.rev
      && (st.claim.finalizer ==> st.claim.alloc.Some?)
      && (st.claim.alloc.Some? ==> Sound(st, st.claim.alloc.value))
      && (st.claim.alloc.None? ==> st.pinned.None?)
  }

  predicate EndingOk(st: Store)
  {
    && (st.pinned.None? ==> !st.ending)
    && (st.ending && st.claim.Claim? && !st.claim.deleting ==>
          st.claim.alloc.Some? && st.claim.alloc.value.pool.Some?)
    && (st.settled ==> st.ending)
  }

  ghost predicate CloudOk(st: Store)
  {
    && (forall p :: p in st.pools ==> p in st.owners && st.owners[p] == st.pools[p].owner)
    && (forall p :: p in st.owners ==> p < st.nextPool)
    && (forall q :: q in st.pending ==> q < st.nextReq && q !in st.landed)
    && (forall q :: q in st.landed ==> q < st.nextReq && st.landed[q] in st.owners && st.owners[st.landed[q]].OwnClaim?)
    && (st.res.Some? && st.res.value.Tombstone? ==> st.res.value.pool in st.owners)
  }

  /** The listing behind a deletion: at most the allocation's own worker for cleanup, none for the collector. */
  predicate Vacant(d: Deletion)
  {
    if d.caller.Cleanup? then Removable(d.workers, d.pool, d.worker) else Live(d.workers, d.pool) == []
  }

  ghost predicate DeletionsOk(st: Store)
  {
    forall d :: d in st.deletions ==>
      && d.pool in st.owners && Vacant(d)
      && (d.caller.Cleanup? ==> st.owners[d.pool].OwnClaim?)
      && (d.caller.Collector? ==> st.owners[d.pool].NoClaim?)
  }

  ghost predicate StoreBase(st: Store)
  {
    RecordOk(st) && ClaimOk(st) && EndingOk(st) && CloudOk(st) && DeletionsOk(st)
  }

  // ---- the stores, when the window is wide enough ---------------------------------------------

  ghost predicate Unique(env: Env, st: Store)
  {
    && (forall p, p' :: OwnPool(st, p) && OwnPool(st, p') ==> p == p')
    && (forall q, q' :: LiveReq(env, st, q) && LiveReq(env, st, q') ==> q == q')
    && (forall p, q :: OwnPool(st, p) ==> !LiveReq(env, st, q))
  }

  ghost predicate Guarding(env: Env, st: Store)
  {
    && (forall p :: OwnPool(st, p) ==> Protected(st.claim))
    && (forall q :: LiveReq(env, st, q) ==> Protected(st.claim))
  }

  predicate PendingFor(st: Store, start: int)
  {
    && st.res.Some? && st.res.value.Own?
    && st.res.value.rec.pending && st.res.value.rec.started == Some(Truncate(start))
  }

  /** A live create is visible in the reservation, and no pool identity is recorded. */
  ghost predicate Announced(env: Env, st: Store)
  {
    forall q :: LiveReq(env, st, q) ==> PendingFor(st, st.pending[q]) && st.known.None?
  }

  /** One pool identity is recorded for all time, and it is that of the pool that exists. */
  ghost predicate KnownOk(st: Store)
  {
    && (st.pinned.None? ==> st.known.None?)
    && (st.res.Some? && st.res.value.Own? ==> Knows(st, st.res.value.rec.alloc))
    && (st.claim.Claim? && st.claim.alloc.Some? ==> Knows(st, st.claim.alloc.value))
    && (st.known.Some? && !st.settled ==>
          st.res.Some? && st.res.value.Own? && st.res.value.rec.alloc.pool == st.known)
    && (forall p: PoolId :: OwnPool(st, p) && st.known.Some? ==> st.known == Some(p))
  }

  ghost predicate StoreGuard(env: Env, st: Store)
  {
    && Unique(env, st) && Guarding(env, st) && Announced(env, st) && KnownOk(st)
    && (st.settled ==> NoHazard(env, st))
  }

  // ---- the lock holder ----------------------------------------------------------------------

  predicate HasAlloc(h: Holder)
  {
    !(h.Free? || h.TLocked? || h.TScan? || h.TUnclaimed? || h.TEmpty? || h.TMarked? || h.TReady?)
  }

  /** The holder keeps a copy of the reservation. */
  predicate HasRec(h: Holder)
  {
    || h.CReserved? || h.CAbsent? || h.CClear? || h.CStamped? || h.CRecorded? || h.CSent? || h.CRefused?
    || h.CCreated? || h.CActivated? || h.CVerify? || h.CFound? || h.CBound? || h.CStored?
    || h.KReserved? || h.KMarked? || h.KAbsent? || h.KClear? || h.KFound? || h.KRecorded? || h.KCounted?
    || h.GReserved?
  }

  predicate HasRead(h: Holder)
  {
    || h.KLocked? || h.KNoRecord? || h.KReserved? || h.KMarked? || h.KAbsent? || h.KClear? || h.KFound?
    || h.KRecorded? || h.KCounted? || h.GLocked? || h.GAbsent? || h.GReserved?
  }

  /** A cleanup that has stored "deleting". */
  predicate HasMarked(h: Holder)
  {
    h.KMarked? || h.KAbsent? || h.KClear? || h.KFound? || h.KRecorded? || h.KCounted?
  }

  predicate Early(h: Holder)
  {
    h.CLocked? || (h.COwner? && h.site.AtStart?)
  }

  /** A create that has passed its first checkpoint. */
  predicate Beyond(h: Holder)
  {
    IsCreate(h) && !Early(h)
  }

  /** The pool was seen but perhaps not yet recorded. */
  predicate MayHoldUnrecorded(h: Holder)
  {
    h.CCreated? || h.CFound? || h.CBound? || h.KFound?
  }

  /** No create of this claim can still take effect while the holder is here. */
  predicate Quiet(h: Holder)
  {
    || h.CRefused? || h.CCreated? || h.CActivated? || h.CVerify? || h.CFound? || h.CBound? || h.CStored?
    || (h.COwner? && !h.site.AtStart?)
    || h.KFound? || h.KRecorded? || h.KCounted?
  }

  predicate ClearOf(h: Holder)
  {
    h.CClear? || h.CStamped? || h.CRecorded? || h.KClear? || h.GAbsent? || h.GReserved?
  }

  predicate NoPoolYet(h: Holder)
  {
    h.CClear? || h.CStamped? || h.CRecorded? || h.CSent? || h.CRefused?
  }

  predicate OwnsItsPool(h: Holder)
  {
    h.KFound? || h.KRecorded? || h.KCounted?
  }

  /** The claim's annotation relative to a create that has not yet checkpointed. */
  predicate EarlyOk(st: Store, a: Allocation)
  {
    st.claim.Claim? ==>
      || (st.claim.alloc.None? && a.pool.None? && a.worker.None?)
      || st.claim.alloc == Some(a)
  }

  predicate BeyondOk(st: Store, a: Allocation)
  {
    && Protected(st.claim)
    && st.claim.alloc.value.snap == a.snap
    && (st.claim.alloc.value.pool.Some? ==> a.pool == st.claim.alloc.value.pool)
    && (st.claim.alloc.value.worker.Some? ==> a.worker == st.claim.alloc.value.worker)
    && (st.ending ==> st.claim.alloc.value.pool.Some?)
  }

  /** A claim read for cleanup: nothing it says is taken back, and a terminating claim's annotation is final. */
  predicate ReadOk(st: Store, rd: Read)
  {
    && rd.version <= st.rev
    && (st.claim.Claim? && st.claim.version == rd.version ==> st.claim.alloc == rd.alloc)
    && (rd.release && st.claim.Claim? ==> st.claim.deleting && st.claim.alloc == rd.alloc)
    && (!rd.release ==> rd.alloc.Some? && rd.alloc.value.worker.Some?)
    && (rd.alloc.Some? ==> Sound(st, rd.alloc.value))
    && (rd.alloc.Some? && st.claim.Claim? ==>
          && st.claim.alloc.Some?
          && (rd.alloc.value.pool.Some? ==> st.claim.alloc.value.pool.Some?)
          && (rd.alloc.value.worker.Some? ==> st.claim.alloc.value.worker.Some?))
  }

  ghost predicate HolderClaim(st: Store, h: Holder)
  {
    && (Early(h) ==> EarlyOk(st, h.a) && (h.a.worker.Some? ==> h.a.pool.Some?))
    && (h.COwner? && st.claim.Claim? ==>
          h.seenVersion <= st.rev && (h.seenVersion == st.claim.version ==> !st.claim.deleting))
    && (Beyond(h) ==> BeyondOk(st, h.a))
    && (HasRead(h) ==>
          ReadOk(st, h.rd) && h.rd.alloc.Some? && (h.rd.alloc.value.pool.Some? ==> h.a.pool == h.rd.alloc.value.pool))
    && (h.GLocked? || h.GAbsent? || h.GReserved? ==> h.a.pool.Some? && h.rd.release)
  }

  ghost predicate HolderAlloc(st: Store, h: Holder)
  {
    && (HasAlloc(h) && !Early(h) ==> Sound(st, h.a) && (MayHoldUnrecorded(h) ==> h.a.pool.Some?))
    && (HasRec(h) ==> st.res == Some(Own(h.r)) && (h.GReserved? || Restored(h.a, h.r)))
    && (h.COwner? && h.site.AfterCreate? ==> st.res == Some(Own(h.site.rec)) && Restored(h.a, h.site.rec) && !h.site.rec.phase.Deleting?)
    && (h.COwner? && h.site.AtEnd? ==> st.res.Some? && st.res.value.Own? && st.res.value.rec.alloc == h.a)
    && (h.CStored? ==> h.r.alloc == h.a)
    && (IsCreate(h) && HasRec(h) ==> !h.r.phase.Deleting?)
    && (NoPoolYet(h) ==> h.a.pool.None?)
    && (h.COwner? && !h.site.AtStart? ==> h.a.pool.Some?)
    && (h.CActivated? || h.CVerify? || h.CStored? ==> h.a.pool.Some?)
    && (h.CRecorded? ==> h.r.pending && h.r.started == Some(Truncate(h.start)))
    && (HasMarked(h) ==> st.ending)
  }

  /** What the holder may delete is its to delete. */
  ghost predicate HolderPools(st: Store, h: Holder)
  {
    && (OwnsItsPool(h) ==> h.a.pool.Some? && h.a.pool.value in st.owners && st.owners[h.a.pool.value].OwnClaim?)
    && (h.TReady? ==> h.candidate in st.owners && st.owners[h.candidate].NoClaim?)
    && (h.TLocked? || h.TScan? || h.TUnclaimed? || h.TEmpty? || h.TMarked? ==> h.candidate in st.owners)
    && (h.KCounted? ==> Vacant(Deletion(Cleanup, h.a.pool.value, h.a.worker, h.workers)))
    && (h.TReady? ==> Vacant(Deletion(Collector, h.candidate, None, h.workers)))
  }

  ghost predicate HolderBase(st: Store, h: Holder)
  {
    HolderClaim(st, h) && HolderAlloc(st, h) && HolderPools(st, h)
  }

  /** The holder's pool identity is the recorded one, or the one about to be. */
  ghost predicate HolderKnows(st: Store, h: Holder)
  {
    && (HasAlloc(h) && !Early(h) ==>
          if MayHoldUnrecorded(h) then !st.settled && (st.known.None? || st.known == h.a.pool) else Knows(st, h.a))
    && (MayHoldUnrecorded(h) ==> forall p: PoolId :: OwnPool(st, p) ==> h.a.pool == Some(p))
    && (HasRead(h) && h.rd.alloc.Some? ==> Knows(st, h.rd.alloc.value))
  }

  /** Any pool of this claim appeared after the lookup at `seen`, from the create the record announces. */
  ghost predicate AbsentSince(env: Env, st: Store, r: Record, seen: int)
  {
    && seen <= st.now
    && (forall p :: OwnPool(st, p) ==>
          r.pending && r.started == Some(Truncate(st.pools[p].start)) && seen <= st.pools[p].start + env.delay)
  }

  ghost predicate HolderHazard(env: Env, st: Store, h: Holder)
  {
    && (h.CAbsent? || h.KAbsent? ==> AbsentSince(env, st, h.r, h.seen))
    && (ClearOf(h) ==> NoHazard(env, st))
    && (Quiet(h) ==> NoLive(env, st))
    && (h.CSent? ==>
          && st.known.None? && !st.settled && h.req < st.nextReq
          && (forall q :: LiveReq(env, st, q) ==> q == h.req)
          && (forall p :: OwnPool(st, p) ==> h.req in st.landed && st.landed[h.req] == p))
  }

  ghost predicate HolderGuard(env: Env, st: Store, h: Holder)
  {
    HolderKnows(st, h) && HolderHazard(env, st, h)
  }

  // ---- threads without the lock -------------------------------------------------------------

  ghost predicate WaitInv(w: World)
  {
    w.waiting.Some? ==>
      && !IsCreate(w.holder) && EarlyOk(w.st, w.waiting.value)
      && (w.waiting.value.worker.Some? ==> w.waiting.value.pool.Some?)
  }

  ghost predicate CleanersOk(st: Store, cleaners: set<Read>)
  {
    forall rd :: rd in cleaners ==> ReadOk(st, rd)
  }

  ghost predicate CleanersKnow(st: Store, cleaners: set<Read>)
  {
    forall rd :: rd in cleaners && rd.alloc.Some? ==> Knows(st, rd.alloc.value)
  }

  predicate ReleaseOk(st: Store, h: Holder, v: nat)
  {
    && v <= st.rev
    && (st.claim.Claim? && st.claim.version == v ==> st.claim.deleting && !Beyond(h))
  }

  ghost predicate ReleasesOk(w: World)
  {
    forall v :: v in w.releases ==> ReleaseOk(w.st, w.holder, v)
  }

  ghost predicate ReleasesGuard(env: Env, w: World)
  {
    forall v :: v in w.releases && w.st.claim.Claim? && w.st.claim.version == v ==> NoHazard(env, w.st)
  }

  ghost predicate TombsInv(st: Store, tombs: set<Reservation>)
  {
    forall t :: t in tombs ==> t.Tombstone? && t.pool in st.owners && t.pool !in st.pools
  }

  /** The part that holds in every environment. */
  ghost predicate Base(w: World)
  {
    && StoreBase(w.st) && HolderBase(w.st, w.holder) && WaitInv(w)
    && CleanersOk(w.st, w.cleaners) && ReleasesOk(w) && TombsInv(w.st, w.tombs)
  }

  /** The part that depends on the creation window. */
  ghost predicate Guard(env: Env, w: World)
  {
    && StoreGuard(env, w.st) && HolderGuard(env, w.st, w.holder)
    && CleanersKnow(w.st, w.cleaners) && ReleasesGuard(env, w)
  }

  ghost predicate Inv(env: Env, w: World)
  {
    Base(w) && Guard(env, w)
  }

  lemma InitBase(now: int)
    ensures Base(Init(now))
  {
  }

  lemma InitGuard(env: Env, now: int)
    ensures Guard(env, Init(now))
  {
  }
}
