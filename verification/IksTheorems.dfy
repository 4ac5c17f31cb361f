/** The main results of the IKS allocation protocol, over every run. */
module IksTheorems {
  import opened Options
  import opened IksTypes
  import opened IksWorkers
  import opened IksSteps
  import opened IksInvariant
  import opened IksBase
  import opened IksCreateKeeps
  import opened IksCleanKeeps
  import opened IksCollectKeeps
  import opened IksEnvKeeps

  lemma CreatePrepares(env: Env, w: World, s: CreateStep, w': World)
    requires Safe(env) && Inv(env, w) && Base(w') && CreateNext(env, w, s) == Some(w')
    requires s.Begin? || s.Lock? || s.ReadOwner? || s.Checkpoint? || s.Reserve?
    ensures Guard(env, w')
  {
    match s
    case Begin(snap) => BeginKeeps(env, w, snap, w');
    case Lock => LockKeeps(env, w, w');
    case ReadOwner => ReadOwnerKeeps(env, w, w');
    case Checkpoint => CheckpointKeeps(env, w, w');
    case Reserve => ReserveKeeps(env, w, w');
  }

  lemma CreateDecides(env: Env, w: World, s: CreateStep, w': World)
    requires Safe(env) && Inv(env, w) && Base(w') && CreateNext(env, w, s) == Some(w')
    requires s.ReserveNew? || s.FindPool? || s.Judge? || s.Stamp? || s.RecordStart?
    ensures Guard(env, w')
  {
    match s
    case ReserveNew => ReserveNewKeeps(env, w, w');
    case FindPool(found) => FindPoolKeeps(env, w, found, w');
    case Judge => JudgeKeeps(env, w, w');
    case Stamp => StampKeeps(env, w, w');
    case RecordStart => RecordStartKeeps(env, w, w');
  }

  lemma CreateSends(env: Env, w: World, s: CreateStep, w': World)
    requires Safe(env) && Inv(env, w) && Base(w') && CreateNext(env, w, s) == Some(w')
    requires s.Send? || s.Answered? || s.Refused? || s.RecordRefusal?
    ensures Guard(env, w')
  {
    match s
    case Send => SendKeeps(env, w, w');
    case Answered => AnsweredKeeps(env, w, w');
    case Refused(status) => RefusedKeeps(env, w, status, w');
    case RecordRefusal => RecordRefusalKeeps(env, w, w');
  }

  lemma CreateBinds(env: Env, w: World, s: CreateStep, w': World)
    requires Safe(env) && Inv(env, w) && Base(w') && CreateNext(env, w, s) == Some(w')
    requires s.Activate? || s.VerifyPool? || s.ListWorkers?
    ensures Guard(env, w')
  {
    match s
    case Activate => ActivateKeeps(env, w, w');
    case VerifyPool => VerifyPoolKeeps(env, w, w');
    case ListWorkers(workers) => ListWorkersKeeps(env, w, workers, w');
  }

  lemma CreateStepKeeps(env: Env, w: World, s: CreateStep, w': World)
    requires Safe(env) && Inv(env, w) && Base(w') && CreateNext(env, w, s) == Some(w')
    ensures Guard(env, w')
  {
    if s.Begin? || s.Lock? || s.ReadOwner? || s.Checkpoint? || s.Reserve? {
      CreatePrepares(env, w, s, w');
    } else if s.ReserveNew? || s.FindPool? || s.Judge? || s.Stamp? || s.RecordStart? {
      CreateDecides(env, w, s, w');
    } else if s.Send? || s.Answered? || s.Refused? || s.RecordRefusal? {
      CreateSends(env, w, s, w');
    } else {
      CreateBinds(env, w, s, w');
    }
  }

  lemma CleanStarts(env: Env, w: World, s: CleanStep, w': World)
    requires Safe(env) && Inv(env, w) && Base(w') && CleanNext(env, w, s) == Some(w')
    requires s.ReadClaim? || s.NoAllocation? || s.LockCleanup? || s.CleanReserve? || s.CleanReserveNew?
    ensures Guard(env, w')
  {
    match s
    case ReadClaim(release) => ReadClaimKeeps(env, w, release, w');
    case NoAllocation(rd) => NoAllocationKeeps(env, w, rd, w');
    case LockCleanup(rd) => LockCleanupKeeps(env, w, rd, w');
    case CleanReserve => CleanReserveKeeps(env, w, w');
    case CleanReserveNew => CleanReserveNewKeeps(env, w, w');
  }

  lemma CleanDecides(env: Env, w: World, s: CleanStep, w': World)
    requires Safe(env) && Inv(env, w) && Base(w') && CleanNext(env, w, s) == Some(w')
    requires s.Mark? || s.CleanFind? || s.CleanJudge? || s.Settle?
    ensures Guard(env, w')
  {
    match s
    case Mark => MarkKeeps(env, w, w');
    case CleanFind(found) => CleanFindKeeps(env, w, found, w');
    case CleanJudge => CleanJudgeKeeps(env, w, w');
    case Settle => SettleKeeps(env, w, w');
  }

  lemma CleanDeletes(env: Env, w: World, s: CleanStep, w': World)
    requires Safe(env) && Inv(env, w) && Base(w') && CleanNext(env, w, s) == Some(w')
    requires s.RecordPool? || s.CountWorkers? || s.DeletePool?
    ensures Guard(env, w')
  {
    match s
    case RecordPool => RecordPoolKeeps(env, w, w');
    case CountWorkers(workers) => CountWorkersKeeps(env, w, workers, w');
    case DeletePool => DeletePoolKeeps(env, w, w');
  }

  lemma CleanConfirms(env: Env, w: World, s: CleanStep, w': World)
    requires Safe(env) && Inv(env, w) && Base(w') && CleanNext(env, w, s) == Some(w')
    requires s.LockGone? || s.GoneFind? || s.GoneRead? || s.Release?
    ensures Guard(env, w')
  {
    match s
    case LockGone(rd) => LockGoneKeeps(env, w, rd, w');
    case GoneFind => GoneFindKeeps(env, w, w');
    case GoneRead => GoneReadKeeps(env, w, w');
    case Release(version) => ReleaseKeeps(env, w, version, w');
  }

  lemma CleanStepKeeps(env: Env, w: World, s: CleanStep, w': World)
    requires Safe(env) && Inv(env, w) && Base(w') && CleanNext(env, w, s) == Some(w')
    ensures Guard(env, w')
  {
    if s.ReadClaim? || s.NoAllocation? || s.LockCleanup? || s.CleanReserve? || s.CleanReserveNew? {
      CleanStarts(env, w, s, w');
    } else if s.Mark? || s.CleanFind? || s.CleanJudge? || s.Settle? {
      CleanDecides(env, w, s, w');
    } else if s.RecordPool? || s.CountWorkers? || s.DeletePool? {
      CleanDeletes(env, w, s, w');
    } else {
      CleanConfirms(env, w, s, w');
    }
  }

  lemma CollectStepKeeps(env: Env, w: World, s: CollectStep, w': World)
    requires Inv(env, w) && Base(w') && CollectNext(w, s) == Some(w')
    ensures Guard(env, w')
  {
    match s
    case LockCandidate(candidate) => LockCandidateKeeps(env, w, candidate, w');
    case ReadTombstone => ReadTombstoneKeeps(env, w, w');
    case ScanClaims => ScanClaimsKeeps(env, w, w');
    case FirstLook(workers) => FirstLookKeeps(env, w, workers, w');
    case WriteTombstone => WriteTombstoneKeeps(env, w, w');
    case SecondLook(workers) => SecondLookKeeps(env, w, workers, w');
    case DeleteCandidate => DeleteCandidateKeeps(env, w, w');
    case SeeAbsent => SeeAbsentKeeps(env, w, w');
    case DropTombstone(tomb) => DropTombstoneKeeps(env, w, tomb, w');
  }

  lemma CloudChanges(env: Env, w: World, s: EnvStep, w': World)
    requires Inv(env, w) && Base(w') && EnvNext(env, w, s) == Some(w')
    requires s.Tick? || s.Land? || s.Lose? || s.Vanish? || s.Foreign? || s.Edit?
    ensures Guard(env, w')
  {
    match s
    case Tick(span) => TickKeeps(env, w, span, w');
    case Land(req, shape) => LandKeeps(env, w, req, shape, w');
    case Lose(req) => LoseKeeps(env, w, req, w');
    case Vanish(id) => VanishKeeps(env, w, id, w');
    case Foreign(pool) => ForeignKeeps(env, w, pool, w');
    case Edit(id, pool) => EditKeeps(env, w, id, pool, w');
  }

  lemma ClaimChanges(env: Env, w: World, s: EnvStep, w': World)
    requires Inv(env, w) && Base(w') && EnvNext(env, w, s) == Some(w')
    requires s.DeleteClaim? || s.TouchClaim? || s.Publish? || s.CollectClaim?
    ensures Guard(env, w')
  {
    match s
    case DeleteClaim => DeleteClaimKeeps(env, w, w');
    case TouchClaim => TouchClaimKeeps(env, w, w');
    case Publish => PublishKeeps(env, w, w');
    case CollectClaim => CollectClaimKeeps(env, w, w');
  }

  lemma ThreadEnds(env: Env, w: World, s: EnvStep, w': World)
    requires Inv(env, w) && Base(w') && EnvNext(env, w, s) == Some(w')
    requires s.Abandon? || s.Withdraw? || s.Crash?
    ensures Guard(env, w')
  {
    match s
    case Abandon => AbandonKeeps(env, w, w');
    case Withdraw => WithdrawKeeps(env, w, w');
    case Crash => CrashKeeps(env, w, w');
  }

  lemma EnvStepKeeps(env: Env, w: World, s: EnvStep, w': World)
    requires Inv(env, w) && Base(w') && EnvNext(env, w, s) == Some(w')
    ensures Guard(env, w')
  {
    if s.Tick? || s.Land? || s.Lose? || s.Vanish? || s.Foreign? || s.Edit? {
      CloudChanges(env, w, s, w');
    } else if s.DeleteClaim? || s.TouchClaim? || s.Publish? || s.CollectClaim? {
      ClaimChanges(env, w, s, w');
    } else {
      ThreadEnds(env, w, s, w');
    }
  }

  lemma StepKeeps(env: Env, w: World, s: Step, w': World)
    requires Safe(env) && Inv(env, w) && Next(env, w, s) == Some(w')
    ensures Inv(env, w')
  {
    StepBase(env, w, s, w');
    match s
    case C(c) => CreateStepKeeps(env, w, c, w');
    case K(k) => CleanStepKeeps(env, w, k, w');
    case T(t) => CollectStepKeeps(env, w, t, w');
    case E(e) => EnvStepKeeps(env, w, e, w');
  }

  lemma {:induction false} RunKeeps(env: Env, now: int, run: seq<Step>, w: World)
    requires Safe(env) && Exec(env, now, run) == Some(w)
    ensures Inv(env, w)
  {
    if run == [] {
      InitBase(now);
      InitGuard(env, now);
    } else {
      var v := Exec(env, now, run[..|run|-1]).value;
      RunKeeps(env, now, run[..|run|-1], v);
      StepKeeps(env, v, run[|run|-1], w);
    }
  }

  // ---- what each thread leaves alone ----------------------------------------------------------

  predicate Writes(s: CreateStep)
  {
    s.Checkpoint? || s.ReserveNew? || s.RecordStart? || s.Send? || s.Refused? || s.RecordRefusal? || s.Activate?
  }

  lemma CreateReads(env: Env, w: World, s: CreateStep, w': World)
    requires CreateNext(env, w, s) == Some(w') && !Writes(s)
    ensures w'.st == w.st
  {
  }

  predicate SameCloud(st: Store, st': Store)
  {
    st'.owners == st.owners && st'.pools == st.pools && st'.ending == st.ending
  }

  lemma CheckpointFrame(w: World, w': World)
    requires Checkpoint1(w) == Some(w')
    ensures SameCloud(w.st, w'.st)
  {
    assert w'.st == Annotate(w.st, w.holder.a);
  }

  lemma RecordFrame(w: World, w': World)
    requires ReserveNew1(w) == Some(w') || RecordStart1(w) == Some(w') || RecordRefusal1(w) == Some(w') || Activate1(w) == Some(w')
    ensures SameCloud(w.st, w'.st)
  {
  }

  lemma RequestFrame(w: World, status: int, w': World)
    requires Send1(w) == Some(w') || Refused1(w, status) == Some(w')
    ensures SameCloud(w.st, w'.st)
  {
  }

  lemma CreateFrame(env: Env, w: World, s: CreateStep, w': World)
    requires CreateNext(env, w, s) == Some(w')
    ensures SameCloud(w.st, w'.st)
  {
    match s
    case Checkpoint => CheckpointFrame(w, w');
    case ReserveNew => RecordFrame(w, w');
    case RecordStart => RecordFrame(w, w');
    case RecordRefusal => RecordFrame(w, w');
    case Activate => RecordFrame(w, w');
    case Send => RequestFrame(w, 0, w');
    case Refused(status) => RequestFrame(w, status, w');
    case _ => CreateReads(env, w, s, w');
  }

  lemma CleanFrame(env: Env, w: World, s: CleanStep, w': World)
    requires CleanNext(env, w, s) == Some(w')
    ensures w'.st.owners == w.st.owners && w'.st.pools == w.st.pools
    ensures w.st.ending ==> w'.st.ending
  {
    match s
    case ReadClaim(_) =>
    case NoAllocation(_) =>
    case LockCleanup(_) =>
    case CleanReserve =>
    case CleanReserveNew =>
    case Mark =>
    case CleanFind(_) =>
    case CleanJudge =>
    case Settle =>
    case RecordPool =>
    case CountWorkers(_) =>
    case DeletePool =>
    case LockGone(_) =>
    case GoneFind =>
    case GoneRead =>
    case Release(_) =>
  }

  lemma CollectFrame(w: World, s: CollectStep, w': World)
    requires CollectNext(w, s) == Some(w')
    ensures w'.st.owners == w.st.owners && w'.st.pools == w.st.pools && w'.st.ending == w.st.ending
    ensures w'.st.res == w.st.res || !OwnRecord(w.st) || !OwnRecord(w'.st)
  {
  }

  lemma EnvFrame(env: Env, w: World, s: EnvStep, w': World)
    requires EnvNext(env, w, s) == Some(w')
    ensures w'.st.res == w.st.res && w'.st.ending == w.st.ending
  {
    match s
    case Tick(_) =>
    case Land(_, _) =>
    case Lose(_) =>
    case Vanish(_) =>
    case Foreign(_) =>
    case Edit(_, _) =>
    case DeleteClaim =>
    case TouchClaim =>
    case Publish =>
    case CollectClaim =>
    case Abandon =>
    case Withdraw =>
    case Crash =>
  }

  // ---- no orphan, no duplicate ----------------------------------------------------------------

  /**
   * Whatever could cost money is still reachable from a claim that cannot go away: a pool from an annotation that has
   * its name and, if any, its identity, and a create that may still make one from an annotation without an identity.
   */
  ghost predicate NoOrphan(env: Env, st: Store)
  {
    && (forall p: PoolId :: OwnPool(st, p) ==>
          Protected(st.claim) && (st.claim.alloc.value.pool.Some? ==> st.claim.alloc.value.pool == Some(p)))
    && (forall q :: LiveReq(env, st, q) ==> Protected(st.claim) && st.claim.alloc.value.pool.None?)
  }

  lemma NoOrphanInAnyRun(env: Env, now: int, run: seq<Step>, w: World)
    requires Safe(env) && Exec(env, now, run) == Some(w)
    ensures NoOrphan(env, w.st)
  {
    RunKeeps(env, now, run, w);
  }

  /** The claim's pools and the creates that can still make one are never more than one in all. */
  lemma AtMostOnePool(env: Env, now: int, run: seq<Step>, w: World)
    requires Safe(env) && Exec(env, now, run) == Some(w)
    ensures forall p, p' :: OwnPool(w.st, p) && OwnPool(w.st, p') ==> p == p'
    ensures forall q, q' :: LiveReq(env, w.st, q) && LiveReq(env, w.st, q') ==> q == q'
    ensures forall p, q :: OwnPool(w.st, p) ==> !LiveReq(env, w.st, q)
  {
    RunKeeps(env, now, run, w);
  }

  /**
   * CreateWorkerPool is issued only when this claim has no pool, no earlier create can still take
   * effect, no pool identity was ever recorded, "deleting" was never recorded, and the reservation
   * announces the start of this very create.
   */
  lemma CreateIsIssuedSafely(env: Env, now: int, run: seq<Step>, w: World, w': World)
    requires Safe(env) && Exec(env, now, run) == Some(w) && Next(env, w, C(Send)) == Some(w')
    ensures NoHazard(env, w.st) && w.st.known.None? && !w.st.ending && Protected(w.st.claim)
    ensures PendingFor(w.st, w.holder.start)
  {
    RunKeeps(env, now, run, w);
  }

  /**
   * In every environment, even where creates overlap: a create is issued only while the claim is protected, "deleting"
   * was never recorded, and the reservation announces its start and no pool.
   */
  lemma CreateIsAnnounced(env: Env, now: int, run: seq<Step>, w: World, w': World)
    requires Exec(env, now, run) == Some(w) && Next(env, w, C(Send)) == Some(w')
    ensures Protected(w.st.claim) && w.st.claim.alloc.value.pool.None? && !w.st.ending
    ensures PendingFor(w.st, w.holder.start) && w.st.res.value.rec.alloc.pool.None?
  {
    RunBase(env, now, run, w);
  }

  // ---- the reservation as a state machine, in every environment ---------------------------------

  predicate OwnRecord(st: Store)
  {
    st.res.Some? && st.res.value.Own?
  }

  /** What one step may do to a stored reservation. */
  predicate RecordStep(r: Record, r': Record)
  {
    && r'.alloc.snap == r.alloc.snap
    && (r.alloc.pool.Some? ==> r'.alloc.pool == r.alloc.pool)
    && (r.alloc.worker.Some? ==> r'.alloc.worker == r.alloc.worker)
    && (r.phase.Deleting? ==> r'.phase.Deleting?)
    && (r.phase.Active? ==> r'.phase.Active? || r'.phase.Deleting?)
  }

  predicate ResStep(st: Store, st': Store)
  {
    OwnRecord(st) && OwnRecord(st') ==> RecordStep(st.res.value.rec, st'.res.value.rec)
  }

  /** A write by the holder of the record keeps what the record says. */
  lemma HeldRecordStep(st: Store, h: Holder, r: Record)
    requires RecordOk(st) && HolderBase(st, h) && HasRec(h) && !h.GReserved? && r.alloc == h.a
    requires h.r.phase.Deleting? ==> r.phase.Deleting?
    requires h.r.phase.Active? ==> r.phase.Active? || r.phase.Deleting?
    ensures RecordStep(st.res.value.rec, r)
  {
  }

  lemma CreateRecordStep(env: Env, w: World, s: CreateStep, w': World)
    requires Base(w) && CreateNext(env, w, s) == Some(w')
    ensures ResStep(w.st, w'.st)
  {
    match s
    case RecordStart => HeldRecordStep(w.st, w.holder, w'.st.res.value.rec);
    case RecordRefusal => HeldRecordStep(w.st, w.holder, w'.st.res.value.rec);
    case Activate => HeldRecordStep(w.st, w.holder, w'.st.res.value.rec);
    case ReserveNew => assert w.st.res.None?;
    case Checkpoint => CheckpointAdds(w, w');
    case Send => assert w'.st.res == w.st.res;
    case Refused(status) => assert w'.st.res == w.st.res;
    case _ => CreateReads(env, w, s, w');
  }

  lemma CleanRecordStep(env: Env, w: World, s: CleanStep, w': World)
    requires Base(w) && CleanNext(env, w, s) == Some(w')
    ensures ResStep(w.st, w'.st)
  {
    match s
    case CleanReserveNew => assert w.st.res.None?;
    case Mark => HeldRecordStep(w.st, w.holder, w'.st.res.value.rec);
    case RecordPool => HeldRecordStep(w.st, w.holder, w'.st.res.value.rec);
    case Settle => assert w'.st.res.None?;
    case GoneRead => assert w'.st.res.None? || w'.st.res == w.st.res;
    case DeletePool => assert w'.st.res == w.st.res;
    case Release(version) => assert w'.st.res == w.st.res;
    case _ => assert w'.st == w.st;
  }

  /**
   * While a reservation exists its snapshot never changes, its pool and worker identities are
   * written at most once, and a deleting reservation stays deleting.
   */
  lemma RecordIsWriteOnce(env: Env, now: int, run: seq<Step>, w: World, s: Step, w': World)
    requires Exec(env, now, run) == Some(w) && Next(env, w, s) == Some(w')
    ensures ResStep(w.st, w'.st)
  {
    RunBase(env, now, run, w);
    match s
    case C(c) => CreateRecordStep(env, w, c, w');
    case K(k) => CleanRecordStep(env, w, k, w');
    case T(t) => CollectFrame(w, t, w');
    case E(e) => EnvFrame(env, w, e, w');
  }

  /**
   * In every run an active reservation knows its pool, and a pending one has a start that parses
   * and no pool, so its uncertainty ends once the window has passed.
   */
  lemma RecordIsWellFormed(env: Env, now: int, run: seq<Step>, w: World, later: int)
    requires Exec(env, now, run) == Some(w) && OwnRecord(w.st)
    ensures var r := w.st.res.value.rec;
            && (r.phase.Active? ==> r.alloc.pool.Some?)
            && (r.pending ==> r.alloc.pool.None? && r.started.Some?)
            && (r.pending ==> (Uncertain(r, later) <==> later <= r.started.value + WINDOW))
  {
    RunBase(env, now, run, w);
  }

  /** Claim and reservation never contradict each other about snapshot, pool or worker, however creates overlap. */
  lemma StoredIdentitiesAgree(env: Env, now: int, run: seq<Step>, w: World)
    requires Exec(env, now, run) == Some(w)
    requires w.st.claim.Claim? && w.st.claim.alloc.Some? && OwnRecord(w.st)
    ensures var a, b := w.st.claim.alloc.value, w.st.res.value.rec.alloc;
            && a.snap == b.snap
            && (a.pool.Some? && b.pool.Some? ==> a.pool == b.pool)
            && (a.worker.Some? && b.worker.Some? ==> a.worker == b.worker)
  {
    RunBase(env, now, run, w);
  }

  /** Once a cleanup or deletion has recorded "deleting", no create is ever issued again. */
  lemma NoCreateAfterDeleting(env: Env, now: int, run: seq<Step>, more: seq<Step>, w: World, v: World)
    requires Exec(env, now, run) == Some(w) && w.st.ending
    requires Exec(env, now, run + more) == Some(v)
    ensures v.st.ending && Next(env, v, C(Send)).None?
  {
    EndingStays(env, now, run, more);
    RunBase(env, now, run + more, v);
  }

  predicate Ending(w: Option<World>)
  {
    w.Some? && w.value.st.ending
  }

  lemma {:induction false} EndingStays(env: Env, now: int, run: seq<Step>, more: seq<Step>)
    requires Ending(Exec(env, now, run)) && Exec(env, now, run + more).Some?
    ensures Ending(Exec(env, now, run + more))
  {
    if more == [] {
      assert run + more == run;
    } else {
      var all, shorter := run + more, more[..|more|-1];
      assert all[..|all|-1] == run + shorter;
      EndingStays(env, now, run, shorter);
      EndingIsKept(env, Exec(env, now, run + shorter).value, all[|all|-1], Exec(env, now, all).value);
    }
  }

  lemma EndingIsKept(env: Env, w: World, s: Step, w': World)
    requires Next(env, w, s) == Some(w') && w.st.ending
    ensures w'.st.ending
  {
    match s
    case C(c) => CreateFrame(env, w, c, w');
    case K(k) => CleanFrame(env, w, k, w');
    case T(t) => CollectFrame(w, t, w');
    case E(e) => EnvFrame(env, w, e, w');
  }

  // ---- deletion stays inside ownership --------------------------------------------------------

  /**
   * In every run cleanup has deleted only pools labelled with its own claim, and the empty-pool
   * collector only pools labelled with no claim, so neither ever deleted a pool of the other. The
   * last listing before a cleanup's deletion showed at most one live worker in the pool, and only the
   * allocation's own where that is known; the one before a collector's showed none.
   */
  lemma DeletionsStayInside(env: Env, now: int, run: seq<Step>, w: World, d: Deletion)
    requires Exec(env, now, run) == Some(w) && d in w.st.deletions
    ensures d.pool in w.st.owners
    ensures d.caller.Cleanup? <==> w.st.owners[d.pool].OwnClaim?
    ensures d.caller.Collector? <==> w.st.owners[d.pool].NoClaim?
    ensures d.caller.Cleanup? ==>
              && |Live(d.workers, d.pool)| <= 1
              && (d.worker.Some? ==> forall x :: x in Live(d.workers, d.pool) ==> x.id == d.worker.value)
    ensures d.caller.Collector? ==>
              forall x: Worker :: Some(x) in d.workers && x.pool == d.pool ==> x.deleted
  {
    RunBase(env, now, run, w);
  }

  /** No create is issued while the collector's tombstone holds the name. */
  lemma TombstoneBlocksCreate(env: Env, now: int, run: seq<Step>, w: World)
    requires Exec(env, now, run) == Some(w)
    requires w.st.res.Some? && w.st.res.value.Tombstone?
    ensures Next(env, w, C(Send)).None?
  {
    RunBase(env, now, run, w);
  }

  /** Pool identities are never reused: a pool that is gone stays gone. */
  lemma {:induction false} GoneStaysGone(env: Env, now: int, run: seq<Step>, more: seq<Step>, w: World, v: World, p: PoolId)
    requires Exec(env, now, run) == Some(w) && Exec(env, now, run + more) == Some(v)
    requires p in w.st.owners && p !in w.st.pools
    ensures p in v.st.owners && p !in v.st.pools
  {
    if more == [] {
      assert run + more == run;
    } else {
      var shorter := more[..|more|-1];
      assert (run + more)[..|run + more|-1] == run + shorter;
      var u := Exec(env, now, run + shorter).value;
      GoneStaysGone(env, now, run, shorter, w, u, p);
      RunBase(env, now, run + shorter, u);
      GoneStep(env, u, (run + more)[|run + more|-1], v, p);
    }
  }

  lemma EnvGone(env: Env, w: World, s: EnvStep, w': World, p: PoolId)
    requires CloudOk(w.st) && EnvNext(env, w, s) == Some(w')
    requires p in w.st.owners && p !in w.st.pools
    ensures p in w'.st.owners && p !in w'.st.pools
  {
    match s
    case Tick(_) =>
    case Land(_, _) =>
    case Lose(_) =>
    case Vanish(_) =>
    case Foreign(_) =>
    case Edit(_, _) =>
    case DeleteClaim =>
    case TouchClaim =>
    case Publish =>
    case CollectClaim =>
    case Abandon =>
    case Withdraw =>
    case Crash =>
  }

  lemma GoneStep(env: Env, w: World, s: Step, w': World, p: PoolId)
    requires CloudOk(w.st) && Next(env, w, s) == Some(w')
    requires p in w.st.owners && p !in w.st.pools
    ensures p in w'.st.owners && p !in w'.st.pools
  {
    match s
    case C(c) => CreateFrame(env, w, c, w');
    case K(k) => CleanFrame(env, w, k, w');
    case T(t) => CollectFrame(w, t, w');
    case E(e) => EnvGone(env, w, e, w', p);
  }

  /**
   * A tombstone is removed only after its pool was seen absent: the pool does not exist then and
   * never exists again, although the releasing controller works without the pool lock.
   */
  lemma TombstoneOutlivesPool(env: Env, now: int, run: seq<Step>, tomb: Reservation, more: seq<Step>, w: World, v: World)
    requires Exec(env, now, run) == Some(w) && Next(env, w, T(DropTombstone(tomb))).Some?
    requires Exec(env, now, run + more) == Some(v)
    ensures tomb.Tombstone? && tomb.pool !in w.st.pools && tomb.pool !in v.st.pools
  {
    RunBase(env, now, run, w);
    GoneStaysGone(env, now, run, more, w, v, tomb.pool);
  }
}
