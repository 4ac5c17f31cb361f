/** The part of the invariant that no environment can break: every step keeps it, however late creates take effect. */
module IksBase {
  import opened Options
  import opened IksTypes
  import opened IksSteps
  import opened IksInvariant

  // ---- frames -------------------------------------------------------------------------------

  /** A step of the lock holder that touches no store. */
  lemma LocalBase(w: World, h: Holder)
    requires Base(w) && HolderBase(w.st, h)
    requires IsCreate(h) ==> IsCreate(w.holder)
    requires Beyond(h) ==> Beyond(w.holder)
    ensures Base(w.(holder := h))
  {
  }

  /** Only the cloud and the clock differ, and no pool changes its owner. */
  ghost predicate CloudOnly(st: Store, st': Store)
  {
    && st' == st.(now := st'.now, pools := st'.pools, owners := st'.owners, nextPool := st'.nextPool,
                  pending := st'.pending, landed := st'.landed, nextReq := st'.nextReq)
    && (forall p :: p in st.owners ==> p in st'.owners && st'.owners[p] == st.owners[p])
  }

  lemma CloudStore(st: Store, st': Store)
    requires StoreBase(st) && CloudOnly(st, st') && CloudOk(st')
    ensures StoreBase(st')
  {
  }

  lemma CloudHolder(st: Store, st': Store, h: Holder)
    requires HolderBase(st, h) && CloudOnly(st, st')
    ensures HolderBase(st', h)
  {
  }

  /** A change of the cloud or the clock. */
  lemma CloudBase(w: World, st': Store)
    requires Base(w) && CloudOk(st') && TombsInv(st', w.tombs) && CloudOnly(w.st, st')
    ensures Base(w.(st := st'))
  {
    CloudStore(w.st, st');
    CloudHolder(w.st, st', w.holder);
  }

  /** Writing the reservation leaves the threads without the lock as they are. */
  lemma WriteBase(w: World, st': Store, h': Holder)
    requires Base(w) && StoreBase(st') && HolderBase(st', h')
    requires st' == w.st.(res := st'.res, rev := st'.rev, known := st'.known, ending := st'.ending,
                          settled := st'.settled, deletions := st'.deletions)
    requires w.st.rev <= st'.rev
    requires IsCreate(h') ==> IsCreate(w.holder)
    requires Beyond(h') ==> Beyond(w.holder)
    ensures Base(w.(st := st', holder := h'))
  {
  }

  predicate KeepsClaim(c: Claim, c': Claim)
  {
    c.Claim? && c'.Claim? && c'.alloc == c.alloc && c'.finalizer == c.finalizer && (c.deleting ==> c'.deleting)
  }

  lemma ClaimStore(st: Store, c: Claim)
    requires StoreBase(st) && KeepsClaim(st.claim, c)
    ensures StoreBase(PutClaim(st, c))
  {
  }

  lemma ClaimRead(st: Store, c: Claim, rd: Read)
    requires ReadOk(st, rd) && KeepsClaim(st.claim, c)
    ensures ReadOk(PutClaim(st, c), rd)
  {
  }

  lemma ClaimHolder(st: Store, c: Claim, h: Holder)
    requires HolderBase(st, h) && KeepsClaim(st.claim, c)
    ensures HolderBase(PutClaim(st, c), h)
  {
    if HasRead(h) { ClaimRead(st, c, h.rd); }
  }

  /** A write to the claim that keeps its annotation and finalizer and never revokes its deletion. */
  lemma ClaimBase(w: World, c: Claim)
    requires Base(w) && KeepsClaim(w.st.claim, c)
    ensures Base(w.(st := PutClaim(w.st, c)))
  {
    ClaimStore(w.st, c);
    ClaimHolder(w.st, c, w.holder);
    forall rd | rd in w.cleaners ensures ReadOk(PutClaim(w.st, c), rd) { ClaimRead(w.st, c, rd); }
  }

  lemma DeletionStore(st: Store, d: Deletion)
    requires StoreBase(st) && d.pool in st.owners && Vacant(d)
    requires st.owners[d.pool] == if d.caller.Cleanup? then OwnClaim else NoClaim
    ensures StoreBase(st.(deletions := st.deletions + [d]))
  {
  }

  /** Logging a deletion whose caller owns the pool. */
  lemma DeletionBase(w: World, d: Deletion)
    requires Base(w) && d.pool in w.st.owners && Vacant(d)
    requires w.st.owners[d.pool] == if d.caller.Cleanup? then OwnClaim else NoClaim
    ensures Base(w.(st := w.st.(deletions := w.st.deletions + [d]), holder := Free))
  {
    DeletionStore(w.st, d);
    WriteBase(w, w.st.(deletions := w.st.deletions + [d]), Free);
  }

  // ---- createAllocation ---------------------------------------------------------------------

  lemma BeginBase(w: World, snap: Snapshot, w': World)
    requires Base(w) && Begin1(w, snap) == Some(w')
    ensures Base(w')
  {
  }

  lemma LockBase(w: World, w': World)
    requires Base(w) && Lock1(w) == Some(w')
    ensures Base(w')
  {
  }

  lemma ReadOwnerBase(w: World, w': World)
    requires Base(w) && ReadOwner1(w) == Some(w')
    ensures Base(w')
  {
    LocalBase(w, w'.holder);
  }

  /** The annotation `a` is the old one, or the old one with identities added. */
  predicate Adds(st: Store, a: Allocation)
  {
    && st.claim.Claim? && !st.claim.deleting
    && (st.pinned.Some? ==> st.pinned == Some(a.snap))
    && (st.claim.alloc.None? ==> st.pinned.None?)
    && (a.worker.Some? ==> a.pool.Some?) && (st.ending ==> a.pool.Some?)
    && (st.claim.alloc.Some? ==>
          var c := st.claim.alloc.value;
          c.snap == a.snap && (c.pool.Some? ==> a.pool == c.pool) && (c.worker.Some? ==> a.worker == c.worker))
  }

  lemma CheckpointAdds(w: World, w': World)
    requires Base(w) && Checkpoint1(w) == Some(w')
    ensures Adds(w.st, w.holder.a) && w'.st == Annotate(w.st, w.holder.a)
    ensures w.st.res.Some? && w.st.res.value.Own? ==> Agree(w.holder.a, w.st.res.value.rec.alloc)
  {
  }

  lemma AnnotateStore(st: Store, a: Allocation)
    requires StoreBase(st) && Adds(st, a)
    requires st.res.Some? && st.res.value.Own? ==> Agree(a, st.res.value.rec.alloc)
    ensures StoreBase(Annotate(st, a))
  {
    var st' := Annotate(st, a);
    assert RecordOk(st');
    assert ClaimOk(st') && EndingOk(st');
  }

  lemma AnnotateRead(st: Store, a: Allocation, rd: Read)
    requires ClaimOk(st) && Adds(st, a) && ReadOk(st, rd)
    ensures ReadOk(Annotate(st, a), rd)
  {
  }

  lemma CheckpointStarted(w: World, w': World)
    requires Base(w) && Checkpoint1(w) == Some(w') && w.holder.site.AtStart?
    ensures HolderBase(w'.st, w'.holder)
  {
    CheckpointAdds(w, w');
  }

  lemma CheckpointCreated(w: World, w': World)
    requires Base(w) && Checkpoint1(w) == Some(w') && w.holder.site.AfterCreate?
    ensures HolderBase(w'.st, w'.holder)
  {
    CheckpointAdds(w, w');
  }

  lemma CheckpointBase(w: World, w': World)
    requires Base(w) && Checkpoint1(w) == Some(w')
    ensures Base(w')
  {
    CheckpointAdds(w, w');
    AnnotateStore(w.st, w.holder.a);
    match w.holder.site {
      case AtStart => CheckpointStarted(w, w');
      case AfterCreate(_) => CheckpointCreated(w, w');
      case AtEnd =>
    }
    forall rd | rd in w.cleaners ensures ReadOk(w'.st, rd) { AnnotateRead(w.st, w.holder.a, rd); }
  }

  lemma ReserveBase(w: World, w': World)
    requires Base(w) && Reserve1(w) == Some(w')
    ensures Base(w')
  {
    LocalBase(w, w'.holder);
  }

  lemma ReserveNewStore(w: World, w': World)
    requires StoreBase(w.st) && HolderBase(w.st, w.holder) && ReserveNew1(w) == Some(w')
    ensures StoreBase(w'.st)
  {
  }

  lemma ReserveNewHolder(w: World, w': World)
    requires StoreBase(w.st) && HolderBase(w.st, w.holder) && ReserveNew1(w) == Some(w')
    ensures HolderBase(w'.st, w'.holder)
  {
  }

  lemma ReserveNewBase(w: World, w': World)
    requires Base(w) && ReserveNew1(w) == Some(w')
    ensures Base(w')
  {
    ReserveNewStore(w, w');
    ReserveNewHolder(w, w');
    WriteBase(w, w'.st, w'.holder);
  }

  lemma FindPoolBase(w: World, found: Option<PoolId>, w': World)
    requires Base(w) && FindPool1(w, found) == Some(w')
    ensures Base(w')
  {
    LocalBase(w, w'.holder);
  }

  lemma JudgeBase(env: Env, w: World, w': World)
    requires Base(w) && Judge1(env, w) == Some(w')
    ensures Base(w')
  {
    LocalBase(w, w'.holder);
  }

  lemma StampBase(w: World, w': World)
    requires Base(w) && Stamp1(w) == Some(w')
    ensures Base(w')
  {
    LocalBase(w, w'.holder);
  }

  lemma RecordStartStore(w: World, w': World)
    requires StoreBase(w.st) && HolderBase(w.st, w.holder) && RecordStart1(w) == Some(w')
    ensures StoreBase(w'.st)
  {
  }

  lemma RecordStartHolder(w: World, w': World)
    requires StoreBase(w.st) && HolderBase(w.st, w.holder) && RecordStart1(w) == Some(w')
    ensures HolderBase(w'.st, w'.holder)
  {
  }

  lemma RecordStartBase(w: World, w': World)
    requires Base(w) && RecordStart1(w) == Some(w')
    ensures Base(w')
  {
    RecordStartStore(w, w');
    RecordStartHolder(w, w');
    WriteBase(w, w'.st, w'.holder);
  }

  lemma SendHolder(w: World, w': World)
    requires HolderBase(w.st, w.holder) && Send1(w) == Some(w')
    ensures HolderBase(w'.st, w'.holder)
  {
  }

  lemma SendBase(w: World, w': World)
    requires Base(w) && Send1(w) == Some(w')
    ensures Base(w')
  {
    SendHolder(w, w');
    CloudBase(w, w'.st);
    LocalBase(w.(st := w'.st), w'.holder);
  }

  lemma AnsweredBase(w: World, w': World)
    requires Base(w) && Answered1(w) == Some(w')
    ensures Base(w')
  {
    LocalBase(w, w'.holder);
  }

  lemma RefusedHolder(w: World, status: int, w': World)
    requires HolderBase(w.st, w.holder) && Refused1(w, status) == Some(w')
    ensures HolderBase(w'.st, w'.holder)
  {
  }

  lemma RefusedBase(w: World, status: int, w': World)
    requires Base(w) && Refused1(w, status) == Some(w')
    ensures Base(w')
  {
    RefusedHolder(w, status, w');
    CloudBase(w, w'.st);
    LocalBase(w.(st := w'.st), w'.holder);
  }

  lemma RecordRefusalStore(w: World, w': World)
    requires StoreBase(w.st) && HolderBase(w.st, w.holder) && RecordRefusal1(w) == Some(w')
    ensures StoreBase(w'.st)
  {
  }

  lemma RecordRefusalBase(w: World, w': World)
    requires Base(w) && RecordRefusal1(w) == Some(w')
    ensures Base(w')
  {
    RecordRefusalStore(w, w');
    WriteBase(w, w'.st, w'.holder);
  }

  lemma ActivateStore(w: World, w': World)
    requires StoreBase(w.st) && HolderBase(w.st, w.holder) && Activate1(w) == Some(w')
    ensures StoreBase(w'.st)
  {
  }

  lemma ActivateHolder(w: World, w': World)
    requires StoreBase(w.st) && HolderBase(w.st, w.holder) && Activate1(w) == Some(w')
    ensures HolderBase(w'.st, w'.holder)
  {
  }

  lemma ActivateBase(w: World, w': World)
    requires Base(w) && Activate1(w) == Some(w')
    ensures Base(w')
  {
    ActivateStore(w, w');
    ActivateHolder(w, w');
    WriteBase(w, w'.st, w'.holder);
  }

  lemma VerifyPoolBase(w: World, w': World)
    requires Base(w) && VerifyPool1(w) == Some(w')
    ensures Base(w')
  {
    LocalBase(w, w'.holder);
  }

  lemma ListWorkersBase(w: World, workers: seq<Option<Worker>>, w': World)
    requires Base(w) && ListWorkers1(w, workers) == Some(w')
    ensures Base(w')
  {
    LocalBase(w, w'.holder);
  }

  lemma CreateStepBase(env: Env, w: World, s: CreateStep, w': World)
    requires Base(w) && CreateNext(env, w, s) == Some(w')
    ensures Base(w')
  {
    match s
    case Begin(snap) => BeginBase(w, snap, w');
    case Lock => LockBase(w, w');
    case ReadOwner => ReadOwnerBase(w, w');
    case Checkpoint => CheckpointBase(w, w');
    case Reserve => ReserveBase(w, w');
    case ReserveNew => ReserveNewBase(w, w');
    case FindPool(found) => FindPoolBase(w, found, w');
    case Judge => JudgeBase(env, w, w');
    case Stamp => StampBase(w, w');
    case RecordStart => RecordStartBase(w, w');
    case Send => SendBase(w, w');
    case Answered => AnsweredBase(w, w');
    case Refused(status) => RefusedBase(w, status, w');
    case RecordRefusal => RecordRefusalBase(w, w');
    case Activate => ActivateBase(w, w');
    case VerifyPool => VerifyPoolBase(w, w');
    case ListWorkers(workers) => ListWorkersBase(w, workers, w');
  }

  // ---- cleanup and ConfirmGone --------------------------------------------------------------

  lemma ReadClaimBase(w: World, release: bool, w': World)
    requires Base(w) && ReadClaim1(w, release) == Some(w')
    ensures Base(w')
  {
  }

  lemma NoAllocationBase(w: World, rd: Read, w': World)
    requires Base(w) && NoAllocation1(w, rd) == Some(w')
    ensures Base(w')
  {
  }

  lemma LockCleanupBase(w: World, rd: Read, w': World)
    requires Base(w) && LockCleanup1(w, rd) == Some(w')
    ensures Base(w')
  {
  }

  lemma CleanReserveBase(w: World, w': World)
    requires Base(w) && CleanReserve1(w) == Some(w')
    ensures Base(w')
  {
    LocalBase(w, w'.holder);
  }

  lemma CleanReserveNewStore(w: World, w': World)
    requires StoreBase(w.st) && HolderBase(w.st, w.holder) && CleanReserveNew1(w) == Some(w')
    ensures StoreBase(w'.st)
  {
  }

  lemma CleanReserveNewHolder(w: World, w': World)
    requires StoreBase(w.st) && HolderBase(w.st, w.holder) && CleanReserveNew1(w) == Some(w')
    ensures HolderBase(w'.st, w'.holder)
  {
  }

  lemma CleanReserveNewBase(w: World, w': World)
    requires Base(w) && CleanReserveNew1(w) == Some(w')
    ensures Base(w')
  {
    CleanReserveNewStore(w, w');
    CleanReserveNewHolder(w, w');
    WriteBase(w, w'.st, w'.holder);
  }

  lemma MarkStore(w: World, w': World)
    requires StoreBase(w.st) && HolderBase(w.st, w.holder) && Mark1(w) == Some(w')
    ensures StoreBase(w'.st)
  {
  }

  lemma MarkHolder(w: World, w': World)
    requires StoreBase(w.st) && HolderBase(w.st, w.holder) && Mark1(w) == Some(w')
    ensures HolderBase(w'.st, w'.holder)
  {
  }

  lemma MarkBase(w: World, w': World)
    requires Base(w) && Mark1(w) == Some(w')
    ensures Base(w')
  {
    MarkStore(w, w');
    MarkHolder(w, w');
    WriteBase(w, w'.st, w'.holder);
  }

  lemma CleanMissed(w: World, w': World)
    requires HolderBase(w.st, w.holder) && CleanFind1(w, None) == Some(w')
    ensures w'.st == w.st && HolderBase(w.st, w'.holder)
  {
  }

  /** The pool found is the allocation's own, and the annotation names no other. */
  lemma CleanFound(w: World, p: PoolId, w': World)
    requires StoreBase(w.st) && HolderBase(w.st, w.holder) && CleanFind1(w, Some(p)) == Some(w')
    ensures w'.st == w.st && HolderBase(w.st, w'.holder)
  {
  }

  lemma CleanFindBase(w: World, found: Option<PoolId>, w': World)
    requires Base(w) && CleanFind1(w, found) == Some(w')
    ensures Base(w')
  {
    match found {
      case None => CleanMissed(w, w');
      case Some(p) => CleanFound(w, p, w');
    }
    LocalBase(w, w'.holder);
  }

  lemma CleanJudgeBase(env: Env, w: World, w': World)
    requires Base(w) && CleanJudge1(env, w) == Some(w')
    ensures Base(w')
  {
    LocalBase(w, w'.holder);
  }

  lemma FinishStore(w: World)
    requires StoreBase(w.st) && HolderBase(w.st, w.holder) && (w.holder.KClear? || w.holder.GAbsent? || w.holder.GReserved?)
    ensures StoreBase(Finish(w, w.holder.rd).st)
  {
  }

  /** Ending a cleanup: the reservation goes, and the claim it was read from may be released. */
  lemma FinishBase(w: World)
    requires Base(w) && (w.holder.KClear? || w.holder.GAbsent? || w.holder.GReserved?)
    requires w.holder.GAbsent? ==> w.st.res.None?
    ensures Base(Finish(w, w.holder.rd))
  {
    FinishStore(w);
    WriteBase(w, Finish(w, w.holder.rd).st, Free);
  }

  lemma SettleBase(w: World, w': World)
    requires Base(w) && Settle1(w) == Some(w')
    ensures Base(w')
  {
    FinishBase(w);
  }

  lemma RecordPoolStore(w: World, w': World)
    requires StoreBase(w.st) && HolderBase(w.st, w.holder) && RecordPool1(w) == Some(w')
    ensures StoreBase(w'.st)
  {
  }

  lemma RecordPoolHolder(w: World, w': World)
    requires StoreBase(w.st) && HolderBase(w.st, w.holder) && RecordPool1(w) == Some(w')
    ensures HolderBase(w'.st, w'.holder)
  {
  }

  lemma RecordPoolBase(w: World, w': World)
    requires Base(w) && RecordPool1(w) == Some(w')
    ensures Base(w')
  {
    RecordPoolStore(w, w');
    RecordPoolHolder(w, w');
    WriteBase(w, w'.st, w'.holder);
  }

  lemma CountWorkersBase(w: World, workers: seq<Option<Worker>>, w': World)
    requires Base(w) && CountWorkers1(w, workers) == Some(w')
    ensures Base(w')
  {
    LocalBase(w, w'.holder);
  }

  lemma DeletePoolBase(w: World, w': World)
    requires Base(w) && DeletePool1(w) == Some(w')
    ensures Base(w')
  {
    DeletionBase(w, Deletion(Cleanup, w.holder.a.pool.value, w.holder.a.worker, w.holder.workers));
  }

  lemma LockGoneBase(w: World, rd: Read, w': World)
    requires Base(w) && LockGone1(w, rd) == Some(w')
    ensures Base(w')
  {
  }

  lemma GoneFindBase(w: World, w': World)
    requires Base(w) && GoneFind1(w) == Some(w')
    ensures Base(w')
  {
    LocalBase(w, w'.holder);
  }

  lemma GoneReadBase(w: World, w': World)
    requires Base(w) && GoneRead1(w) == Some(w')
    ensures Base(w')
  {
    if w.st.res.None? {
      FinishBase(w);
    } else {
      LocalBase(w, w'.holder);
    }
  }

  lemma ReleaseBase(w: World, version: nat, w': World)
    requires Base(w) && Release1(w, version) == Some(w')
    ensures Base(w')
  {
  }

  lemma CleanStepBase(env: Env, w: World, s: CleanStep, w': World)
    requires Base(w) && CleanNext(env, w, s) == Some(w')
    ensures Base(w')
  {
    match s
    case ReadClaim(release) => ReadClaimBase(w, release, w');
    case NoAllocation(rd) => NoAllocationBase(w, rd, w');
    case LockCleanup(rd) => LockCleanupBase(w, rd, w');
    case CleanReserve => CleanReserveBase(w, w');
    case CleanReserveNew => CleanReserveNewBase(w, w');
    case Mark => MarkBase(w, w');
    case CleanFind(found) => CleanFindBase(w, found, w');
    case CleanJudge => CleanJudgeBase(env, w, w');
    case Settle => SettleBase(w, w');
    case RecordPool => RecordPoolBase(w, w');
    case CountWorkers(workers) => CountWorkersBase(w, workers, w');
    case DeletePool => DeletePoolBase(w, w');
    case LockGone(rd) => LockGoneBase(w, rd, w');
    case GoneFind => GoneFindBase(w, w');
    case GoneRead => GoneReadBase(w, w');
    case Release(version) => ReleaseBase(w, version, w');
  }

  // ---- TryDeleteEmptyPool and releaseDeletedReservations ------------------------------------

  lemma CollectScans(w: World, s: CollectStep, w': World)
    requires HolderBase(w.st, w.holder) && CollectNext(w, s) == Some(w')
    requires s.LockCandidate? || s.ReadTombstone? || s.ScanClaims?
    ensures w'.st == w.st && HolderBase(w.st, w'.holder)
  {
  }

  lemma FirstLookHolder(w: World, workers: seq<Option<Worker>>, w': World)
    requires HolderBase(w.st, w.holder) && FirstLook1(w, workers) == Some(w')
    ensures w'.st == w.st && HolderBase(w.st, w'.holder)
  {
  }

  lemma SecondLookHolder(w: World, workers: seq<Option<Worker>>, w': World)
    requires CloudOk(w.st) && HolderBase(w.st, w.holder) && SecondLook1(w, workers) == Some(w')
    ensures w'.st == w.st && HolderBase(w.st, w'.holder)
  {
  }

  lemma CollectLocalBase(w: World, s: CollectStep, w': World)
    requires Base(w) && CollectNext(w, s) == Some(w')
    requires s.LockCandidate? || s.ReadTombstone? || s.ScanClaims? || s.FirstLook? || s.SecondLook?
    ensures Base(w')
  {
    match s {
      case FirstLook(workers) => FirstLookHolder(w, workers, w');
      case SecondLook(workers) => SecondLookHolder(w, workers, w');
      case _ => CollectScans(w, s, w');
    }
    LocalBase(w, w'.holder);
  }

  lemma WriteTombstoneBase(w: World, w': World)
    requires Base(w) && WriteTombstone1(w) == Some(w')
    ensures Base(w')
  {
    WriteBase(w, w'.st, w'.holder);
  }

  lemma DeleteCandidateBase(w: World, w': World)
    requires Base(w) && DeleteCandidate1(w) == Some(w')
    ensures Base(w')
  {
    DeletionBase(w, Deletion(Collector, w.holder.candidate, None, w.holder.workers));
  }

  lemma SeeAbsentBase(w: World, w': World)
    requires Base(w) && SeeAbsent1(w) == Some(w')
    ensures Base(w')
  {
  }

  lemma DropTombstoneBase(w: World, tomb: Reservation, w': World)
    requires Base(w) && DropTombstone1(w, tomb) == Some(w')
    ensures Base(w')
  {
    WriteBase(w, w'.st, w'.holder);
  }

  lemma CollectStepBase(w: World, s: CollectStep, w': World)
    requires Base(w) && CollectNext(w, s) == Some(w')
    ensures Base(w')
  {
    match s
    case WriteTombstone => WriteTombstoneBase(w, w');
    case DeleteCandidate => DeleteCandidateBase(w, w');
    case SeeAbsent => SeeAbsentBase(w, w');
    case DropTombstone(tomb) => DropTombstoneBase(w, tomb, w');
    case _ => CollectLocalBase(w, s, w');
  }

  // ---- environment --------------------------------------------------------------------------

  lemma CloudStepBase(env: Env, w: World, s: EnvStep, w': World)
    requires Base(w) && EnvNext(env, w, s) == Some(w')
    requires s.Tick? || s.Land? || s.Lose? || s.Vanish? || s.Foreign? || s.Edit?
    ensures Base(w')
  {
    CloudBase(w, w'.st);
  }

  lemma ClaimStepBase(env: Env, w: World, s: EnvStep, w': World)
    requires Base(w) && EnvNext(env, w, s) == Some(w')
    requires s.DeleteClaim? || s.TouchClaim? || s.Publish?
    ensures Base(w')
  {
    ClaimBase(w, if s.DeleteClaim? then w.st.claim.(deleting := true)
                 else if s.TouchClaim? then w.st.claim else w.st.claim.(bound := w.returned));
  }

  lemma CollectClaimBase(w: World, w': World)
    requires Base(w) && CollectClaim1(w) == Some(w')
    ensures Base(w')
  {
  }

  lemma AbandonBase(w: World, w': World)
    requires Base(w) && Abandon1(w) == Some(w')
    ensures Base(w')
  {
    LocalBase(w, Free);
  }

  lemma ForgetBase(env: Env, w: World, s: EnvStep, w': World)
    requires Base(w) && EnvNext(env, w, s) == Some(w') && (s.Withdraw? || s.Crash?)
    ensures Base(w')
  {
  }

  lemma EnvStepBase(env: Env, w: World, s: EnvStep, w': World)
    requires Base(w) && EnvNext(env, w, s) == Some(w')
    ensures Base(w')
  {
    match s
    case DeleteClaim => ClaimStepBase(env, w, s, w');
    case TouchClaim => ClaimStepBase(env, w, s, w');
    case Publish => ClaimStepBase(env, w, s, w');
    case CollectClaim => CollectClaimBase(w, w');
    case Abandon => AbandonBase(w, w');
    case Withdraw => ForgetBase(env, w, s, w');
    case Crash => ForgetBase(env, w, s, w');
    case _ => CloudStepBase(env, w, s, w');
  }

  // ---- runs ---------------------------------------------------------------------------------

  lemma StepBase(env: Env, w: World, s: Step, w': World)
    requires Base(w) && Next(env, w, s) == Some(w')
    ensures Base(w')
  {
    match s
    case C(c) => CreateStepBase(env, w, c, w');
    case K(k) => CleanStepBase(env, w, k, w');
    case T(t) => CollectStepBase(w, t, w');
    case E(e) => EnvStepBase(env, w, e, w');
  }

  /** In every environment and every run. */
  lemma {:induction false} RunBase(env: Env, now: int, run: seq<Step>, w: World)
    requires Exec(env, now, run) == Some(w)
    ensures Base(w)
  {
    if run == [] {
      InitBase(now);
    } else {
      var v := Exec(env, now, run[..|run|-1]).value;
      RunBase(env, now, run[..|run|-1], v);
      StepBase(env, v, run[|run|-1], w);
    }
  }
}
