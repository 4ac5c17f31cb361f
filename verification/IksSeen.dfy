/** Where a published worker comes from: a listing of a pool that was looked at and was as ordered. */
module IksSeen {
  import opened Options
  import opened IksTypes
  import opened IksWorkers
  import opened IksSteps
  import opened IksInvariant
  import opened IksBase
  import opened IksPublished
  import opened IksPaths
  import opened IksRelease

  // ---- what was seen ------------------------------------------------------------------------------------

  /** The pool was looked up in this run and was the claim's, with our labels and as ordered. */
  ghost predicate Looked(env: Env, now: int, run: seq<Step>, snap: Snapshot, p: PoolId)
  {
    exists i :: 0 <= i < |run| && LookAt(Exec(env, now, run[..i]), run[i], snap, p)
  }

  predicate LookAt(w: Option<World>, s: Step, snap: Snapshot, p: PoolId)
  {
    && (s == C(FindPool(Some(p))) || s == C(VerifyPool))
    && w.Some? && OwnPool(w.value.st, p) && w.value.st.pools[p].labelled && AsOrdered(w.value.st.pools[p], snap)
  }

  /** After such a look, the workers were listed, and this one was the only one. */
  ghost predicate Seen(env: Env, now: int, run: seq<Step>, a: Allocation)
  {
    a.pool.Some? && a.worker.Some? &&
    exists i :: 0 <= i < |run| && run[i].C? && run[i].c.ListWorkers? && Looked(env, now, run[..i], a.snap, a.pool.value) &&
                SoleWorker(run[i].c.workers, a.pool.value, a.snap, a.worker.value)
  }

  lemma LookedLater(env: Env, now: int, run: seq<Step>, s: Step, snap: Snapshot, p: PoolId)
    requires Looked(env, now, run, snap, p)
    ensures Looked(env, now, run + [s], snap, p)
  {
    var i :| 0 <= i < |run| && LookAt(Exec(env, now, run[..i]), run[i], snap, p);
    assert (run + [s])[..i] == run[..i] && (run + [s])[i] == run[i];
  }

  lemma SeenLater(env: Env, now: int, run: seq<Step>, s: Step, a: Allocation)
    requires Seen(env, now, run, a)
    ensures Seen(env, now, run + [s], a)
  {
    var i :| 0 <= i < |run| && run[i].C? && run[i].c.ListWorkers? && Looked(env, now, run[..i], a.snap, a.pool.value) &&
             SoleWorker(run[i].c.workers, a.pool.value, a.snap, a.worker.value);
    assert (run + [s])[..i] == run[..i] && (run + [s])[i] == run[i];
  }

  // ---- where allocations with a worker are kept --------------------------------------------------------

  /** Either without a worker, or one of these. */
  ghost predicate From(a: Allocation, s: iset<Allocation>)
  {
    a.worker.Some? ==> a in s
  }

  ghost predicate HolderFrom(h: Holder, s: iset<Allocation>)
  {
    && (HasAlloc(h) ==> From(h.a, s)) && (HasRec(h) ==> From(h.r.alloc, s))
    && (HasRead(h) && h.rd.alloc.Some? ==> From(h.rd.alloc.value, s))
    && (h.COwner? && h.site.AfterCreate? ==> From(h.site.rec.alloc, s))
  }

  ghost predicate StoreFrom(st: Store, s: iset<Allocation>)
  {
    && (st.claim.Claim? && st.claim.alloc.Some? ==> From(st.claim.alloc.value, s))
    && (st.res.Some? && st.res.value.Own? ==> From(st.res.value.rec.alloc, s))
  }

  ghost predicate AllFrom(w: World, s: iset<Allocation>)
  {
    && (forall a :: a in s ==> a.pool.Some?)
    && StoreFrom(w.st, s) && HolderFrom(w.holder, s) && (w.waiting.Some? ==> From(w.waiting.value, s))
    && forall rd :: rd in w.cleaners && rd.alloc.Some? ==> From(rd.alloc.value, s)
  }

  /** The steps of a create that learn something about its allocation. */
  predicate Learns(c: CreateStep)
  {
    c.Reserve? || c.FindPool? || c.Answered?
  }

  lemma LearnsFrom(env: Env, w: World, c: CreateStep, w': World, s: iset<Allocation>)
    requires AllFrom(w, s) && HolderAlloc(w.st, w.holder) && Learns(c) && CreateNext(env, w, c) == Some(w')
    ensures AllFrom(w', s)
  {
    match c
    case Reserve =>
    case FindPool(_) =>
    case Answered =>
  }

  lemma BindsFrom(w: World, workers: seq<Option<Worker>>, w': World, s: iset<Allocation>)
    requires AllFrom(w, s) && ListWorkers1(w, workers) == Some(w')
    ensures AllFrom(w', s + iset{w'.holder.a})
  {
  }

  lemma WritesFrom(env: Env, w: World, c: CreateStep, w': World, s: iset<Allocation>)
    requires AllFrom(w, s) && CreateNext(env, w, c) == Some(w')
    requires c.ReserveNew? || c.RecordStart? || c.RecordRefusal? || c.Activate?
    ensures AllFrom(w', s)
  {
    match c
    case ReserveNew =>
    case RecordStart =>
    case RecordRefusal =>
    case Activate =>
  }

  lemma StartsFrom(env: Env, w: World, c: CreateStep, w': World, s: iset<Allocation>)
    requires AllFrom(w, s) && CreateNext(env, w, c) == Some(w')
    requires c.Begin? || c.Lock? || c.ReadOwner? || c.Checkpoint?
    ensures AllFrom(w', s)
  {
    match c
    case Begin(_) =>
    case Lock =>
    case ReadOwner =>
    case Checkpoint =>
  }

  lemma PassesFrom(env: Env, w: World, c: CreateStep, w': World, s: iset<Allocation>)
    requires AllFrom(w, s) && CreateNext(env, w, c) == Some(w')
    requires c.Judge? || c.Stamp? || c.Send? || c.Refused? || c.VerifyPool?
    ensures AllFrom(w', s)
  {
    match c
    case Judge =>
    case Stamp =>
    case Send =>
    case Refused(_) =>
    case VerifyPool =>
  }

  lemma CreateFrom(env: Env, w: World, c: CreateStep, w': World, s: iset<Allocation>)
    requires AllFrom(w, s) && HolderAlloc(w.st, w.holder) && CreateNext(env, w, c) == Some(w')
    ensures AllFrom(w', if c.ListWorkers? then s + iset{w'.holder.a} else s)
  {
    if c.ListWorkers? {
      BindsFrom(w, c.workers, w', s);
    } else if Learns(c) {
      LearnsFrom(env, w, c, w', s);
    } else if c.ReserveNew? || c.RecordStart? || c.RecordRefusal? || c.Activate? {
      WritesFrom(env, w, c, w', s);
    } else if c.Begin? || c.Lock? || c.ReadOwner? || c.Checkpoint? {
      StartsFrom(env, w, c, w', s);
    } else {
      PassesFrom(env, w, c, w', s);
    }
  }

  lemma CleanFrom(env: Env, w: World, k: CleanStep, w': World, s: iset<Allocation>)
    requires AllFrom(w, s) && CleanNext(env, w, k) == Some(w')
    ensures AllFrom(w', s)
  {
    if k.ReadClaim? || k.NoAllocation? || k.LockCleanup? || k.LockGone? || k.Release? {
      CleanStartsFrom(env, w, k, w', s);
    } else if k.CleanReserve? || k.CleanReserveNew? || k.Mark? || k.CleanFind? || k.RecordPool? {
      CleanWorksFrom(env, w, k, w', s);
    } else {
      CleanEndsFrom(env, w, k, w', s);
    }
  }

  lemma CleanStartsFrom(env: Env, w: World, k: CleanStep, w': World, s: iset<Allocation>)
    requires AllFrom(w, s) && CleanNext(env, w, k) == Some(w')
    requires k.ReadClaim? || k.NoAllocation? || k.LockCleanup? || k.LockGone? || k.Release?
    ensures AllFrom(w', s)
  {
    match k
    case ReadClaim(_) =>
    case NoAllocation(_) =>
    case LockCleanup(_) =>
    case LockGone(_) =>
    case Release(_) =>
  }

  lemma CleanWorksFrom(env: Env, w: World, k: CleanStep, w': World, s: iset<Allocation>)
    requires AllFrom(w, s) && CleanNext(env, w, k) == Some(w')
    requires k.CleanReserve? || k.CleanReserveNew? || k.Mark? || k.CleanFind? || k.RecordPool?
    ensures AllFrom(w', s)
  {
    match k
    case CleanReserve =>
    case CleanReserveNew =>
    case Mark =>
    case CleanFind(_) =>
    case RecordPool =>
  }

  lemma CleanEndsFrom(env: Env, w: World, k: CleanStep, w': World, s: iset<Allocation>)
    requires AllFrom(w, s) && CleanNext(env, w, k) == Some(w')
    requires k.CleanJudge? || k.Settle? || k.CountWorkers? || k.DeletePool? || k.GoneFind? || k.GoneRead?
    ensures AllFrom(w', s)
  {
    match k
    case CleanJudge =>
    case Settle =>
    case CountWorkers(_) =>
    case DeletePool =>
    case GoneFind =>
    case GoneRead =>
  }

  lemma CollectFrom(w: World, t: CollectStep, w': World, s: iset<Allocation>)
    requires AllFrom(w, s) && CollectNext(w, t) == Some(w')
    ensures AllFrom(w', s)
  {
  }

  lemma EnvFrom(env: Env, w: World, e: EnvStep, w': World, s: iset<Allocation>)
    requires AllFrom(w, s) && EnvNext(env, w, e) == Some(w')
    ensures AllFrom(w', s)
  {
  }

  lemma StepFrom(env: Env, w: World, t: Step, w': World, s: iset<Allocation>)
    requires AllFrom(w, s) && HolderAlloc(w.st, w.holder) && Next(env, w, t) == Some(w')
    ensures AllFrom(w', if t.C? && t.c.ListWorkers? then s + iset{w'.holder.a} else s)
  {
    match t
    case C(c) => CreateFrom(env, w, c, w', s);
    case K(k) => CleanFrom(env, w, k, w', s);
    case T(t) => CollectFrom(w, t, w', s);
    case E(e) => EnvFrom(env, w, e, w', s);
  }

  /** The pool of a create that lists workers was looked at. */
  ghost predicate Looking(env: Env, now: int, run: seq<Step>, h: Holder)
  {
    h.CFound? ==> h.a.pool.Some? && Looked(env, now, run, h.a.snap, h.a.pool.value)
  }

  /** Only a look brings a create there. */
  lemma CreateFinds(env: Env, w: World, c: CreateStep, w': World)
    requires CreateNext(env, w, c) == Some(w') && w'.holder.CFound?
    ensures w'.holder.a.pool.Some? && LookAt(Some(w), C(c), w'.holder.a.snap, w'.holder.a.pool.value)
  {
  }

  lemma OthersFindNot(env: Env, w: World, s: Step, w': World)
    requires Next(env, w, s) == Some(w') && !s.C? && w'.holder.CFound?
    ensures w'.holder == w.holder
  {
  }

  lemma StepLooking(env: Env, now: int, run: seq<Step>, s: Step, w: World, w': World)
    requires Exec(env, now, run) == Some(w) && Next(env, w, s) == Some(w') && Looking(env, now, run, w.holder)
    ensures Looking(env, now, run + [s], w'.holder)
  {
    var h := w'.holder;
    if h.CFound? {
      if s.C? && w'.holder != w.holder {
        CreateFinds(env, w, s.c, w');
        LookedNow(env, now, run, s, w, h.a.snap, h.a.pool.value);
      } else {
        if !s.C? { OthersFindNot(env, w, s, w'); }
        LookedLater(env, now, run, s, h.a.snap, h.a.pool.value);
      }
    }
  }

  lemma LookedNow(env: Env, now: int, run: seq<Step>, s: Step, w: World, snap: Snapshot, p: PoolId)
    requires Exec(env, now, run) == Some(w) && LookAt(Some(w), s, snap, p)
    ensures Looked(env, now, run + [s], snap, p)
  {
    assert (run + [s])[..|run|] == run && (run + [s])[|run|] == s;
  }

  ghost function SeenIn(env: Env, now: int, run: seq<Step>): iset<Allocation>
  {
    iset a: Allocation | Seen(env, now, run, a)
  }

  lemma Widens(w: World, s: iset<Allocation>, t: iset<Allocation>)
    requires AllFrom(w, s) && s <= t && forall a :: a in t ==> a.pool.Some?
    ensures AllFrom(w, t)
  {
  }

  lemma SeenNow(env: Env, now: int, run: seq<Step>, workers: seq<Option<Worker>>, w: World, w': World)
    requires Looking(env, now, run, w.holder) && ListWorkers1(w, workers) == Some(w')
    ensures Seen(env, now, run + [C(ListWorkers(workers))], w'.holder.a)
  {
    var s, b := C(ListWorkers(workers)), w'.holder.a;
    SelectedIff(workers, b.pool.value, b.snap, b.worker.value);
    assert (run + [s])[..|run|] == run && (run + [s])[|run|] == s;
  }

  lemma SeenGrows(env: Env, now: int, run: seq<Step>, s: Step)
    ensures SeenIn(env, now, run) <= SeenIn(env, now, run + [s])
    ensures forall a :: a in SeenIn(env, now, run + [s]) ==> a.pool.Some?
  {
    forall a | a in SeenIn(env, now, run) ensures a in SeenIn(env, now, run + [s]) { SeenLater(env, now, run, s, a); }
  }

  /** One step, from what was seen before to what has been seen after it. */
  lemma StepSeen(env: Env, w: World, s: Step, w': World, before: iset<Allocation>, after: iset<Allocation>)
    requires Next(env, w, s) == Some(w') && HolderAlloc(w.st, w.holder) && AllFrom(w, before)
    requires before <= after && forall a :: a in after ==> a.pool.Some?
    requires s.C? && s.c.ListWorkers? ==> w'.holder.CBound? && w'.holder.a in after
    ensures AllFrom(w', after)
  {
    StepFrom(env, w, s, w', before);
    Widens(w', if s.C? && s.c.ListWorkers? then before + iset{w'.holder.a} else before, after);
  }

  lemma NextSeen(env: Env, now: int, run: seq<Step>, s: Step, longer: seq<Step>, v: World, w: World)
    requires Exec(env, now, run) == Some(v) && Next(env, v, s) == Some(w) && longer == run + [s]
    requires AllFrom(v, SeenIn(env, now, run)) && Looking(env, now, run, v.holder)
    ensures AllFrom(w, SeenIn(env, now, longer)) && Looking(env, now, longer, w.holder)
  {
    RunBase(env, now, run, v);
    StepLooking(env, now, run, s, v, w);
    SeenGrows(env, now, run, s);
    if s.C? && s.c.ListWorkers? {
      SeenNow(env, now, run, s.c.workers, v, w);
    }
    StepSeen(env, v, s, w, SeenIn(env, now, run), SeenIn(env, now, run + [s]));
  }

  lemma {:induction false} RunSeen(env: Env, now: int, run: seq<Step>, w: World)
    requires Exec(env, now, run) == Some(w)
    ensures AllFrom(w, SeenIn(env, now, run)) && Looking(env, now, run, w.holder)
  {
    if run != [] {
      var front, s := run[..|run|-1], run[|run|-1];
      var v := ExecLast(env, now, run, w);
      RunSeen(env, now, front, v);
      NextSeen(env, now, front, s, run, v, w);
    }
  }

  /**
   * In every run of any environment: a published worker was, in some listing, the only live worker of a pool of this claim
   * that had just been looked up and was as ordered, and was itself in the zone, of the flavor and in the subnet ordered.
   */
  lemma PublishedWorkerWasSeen(env: Env, now: int, run: seq<Step>, w: World)
    requires Exec(env, now, run) == Some(w) && w.st.claim.Claim? && w.st.claim.bound.Some?
    ensures w.st.claim.alloc.Some? && w.st.claim.alloc.value.worker == w.st.claim.bound
    ensures Seen(env, now, run, w.st.claim.alloc.value)
  {
    RunSeen(env, now, run, w);
    RunPublished(env, now, run, w);
  }

  // ---- what was looked at before a deletion ---------------------------------------------------------------

  /** Cleanup saw a pool of this claim as ordered; the collector saw an empty pool of nobody. */
  predicate CheckAt(w: Option<World>, s: Step, caller: Caller, p: PoolId)
  {
    && w.Some? && p in w.value.st.pools
    && var pool := w.value.st.pools[p];
       match caller
       case Cleanup =>
         s == K(CleanFind(Some(p))) && w.value.holder.KMarked? && pool.owner.OwnClaim? && Fits(pool, w.value.holder.a.snap)
       case Collector =>
         && s.T? && s.t.SecondLook? && pool.owner.NoClaim? && pool.labelled && !pool.autoscale
         && pool.size == 0 && pool.actual == 0
  }

  ghost predicate Checked(env: Env, now: int, run: seq<Step>, caller: Caller, p: PoolId)
  {
    exists i :: 0 <= i < |run| && CheckAt(Exec(env, now, run[..i]), run[i], caller, p)
  }

  lemma CheckedLater(env: Env, now: int, run: seq<Step>, s: Step, caller: Caller, p: PoolId)
    requires Checked(env, now, run, caller, p)
    ensures Checked(env, now, run + [s], caller, p)
  {
    var i :| 0 <= i < |run| && CheckAt(Exec(env, now, run[..i]), run[i], caller, p);
    assert (run + [s])[..i] == run[..i] && (run + [s])[i] == run[i];
  }

  lemma CheckedNow(env: Env, now: int, run: seq<Step>, s: Step, w: World, caller: Caller, p: PoolId)
    requires Exec(env, now, run) == Some(w) && CheckAt(Some(w), s, caller, p)
    ensures Checked(env, now, run + [s], caller, p)
  {
    assert (run + [s])[..|run|] == run && (run + [s])[|run|] == s;
  }

  /** The pool the lock holder is about to delete. */
  function Target(h: Holder): Option<(Caller, PoolId)>
  {
    if (h.KFound? || h.KRecorded? || h.KCounted?) && h.a.pool.Some? then Some((Cleanup, h.a.pool.value))
    else if h.TReady? then Some((Collector, h.candidate))
    else None
  }

  /** A step aims at nothing new unless it has just looked at it. */
  lemma CleanAims(env: Env, w: World, k: CleanStep, w': World)
    requires CleanNext(env, w, k) == Some(w') && Target(w'.holder).Some? && Target(w'.holder) != Target(w.holder)
    ensures CheckAt(Some(w), K(k), Target(w'.holder).value.0, Target(w'.holder).value.1)
  {
  }

  lemma CollectAims(w: World, t: CollectStep, w': World)
    requires CollectNext(w, t) == Some(w') && Target(w'.holder).Some? && Target(w'.holder) != Target(w.holder)
    ensures CheckAt(Some(w), T(t), Target(w'.holder).value.0, Target(w'.holder).value.1)
  {
  }

  lemma CreateAims(env: Env, w: World, c: CreateStep, w': World)
    requires CreateNext(env, w, c) == Some(w')
    ensures w'.st.deletions == w.st.deletions && (Target(w'.holder).Some? ==> Target(w'.holder) == Target(w.holder))
  {
    CreateStore(env, w, c, w');
    if !c.Begin? {
      CreateHolder(env, w, c, w');
    }
  }

  lemma EnvAims(env: Env, w: World, e: EnvStep, w': World)
    requires EnvNext(env, w, e) == Some(w')
    ensures w'.st.deletions == w.st.deletions && (Target(w'.holder).Some? ==> Target(w'.holder) == Target(w.holder))
  {
  }

  /** What is deleted is what the holder aimed at. */
  lemma CleanRequests(env: Env, w: World, k: CleanStep, w': World)
    requires CleanNext(env, w, k) == Some(w')
    ensures w'.st.deletions == w.st.deletions ||
            exists d :: w'.st.deletions == w.st.deletions + [d] && Target(w.holder) == Some((d.caller, d.pool))
  {
    if k.DeletePool? {
      var d := Deletion(Cleanup, w.holder.a.pool.value, w.holder.a.worker, w.holder.workers);
      assert w'.st.deletions == w.st.deletions + [d] && Target(w.holder) == Some((d.caller, d.pool));
    }
  }

  lemma CollectRequests(w: World, t: CollectStep, w': World)
    requires CollectNext(w, t) == Some(w')
    ensures w'.st.deletions == w.st.deletions ||
            exists d :: w'.st.deletions == w.st.deletions + [d] && Target(w.holder) == Some((d.caller, d.pool))
  {
    if t.DeleteCandidate? {
      var d := Deletion(Collector, w.holder.candidate, None, w.holder.workers);
      assert w'.st.deletions == w.st.deletions + [d] && Target(w.holder) == Some((d.caller, d.pool));
    }
  }

  ghost predicate AllChecked(env: Env, now: int, run: seq<Step>, w: World)
  {
    && (Target(w.holder).Some? ==> Checked(env, now, run, Target(w.holder).value.0, Target(w.holder).value.1))
    && forall d :: d in w.st.deletions ==> Checked(env, now, run, d.caller, d.pool)
  }

  lemma StepRequests(env: Env, w: World, s: Step, w': World)
    requires Next(env, w, s) == Some(w')
    ensures w'.st.deletions == w.st.deletions ||
            exists d :: w'.st.deletions == w.st.deletions + [d] && Target(w.holder) == Some((d.caller, d.pool))
    ensures Target(w'.holder).Some? && Target(w'.holder) != Target(w.holder) ==>
              CheckAt(Some(w), s, Target(w'.holder).value.0, Target(w'.holder).value.1)
  {
    match s
    case C(c) => CreateAims(env, w, c, w');
    case K(k) =>
      CleanRequests(env, w, k, w');
      if Target(w'.holder).Some? && Target(w'.holder) != Target(w.holder) { CleanAims(env, w, k, w'); }
    case T(t) =>
      CollectRequests(w, t, w');
      if Target(w'.holder).Some? && Target(w'.holder) != Target(w.holder) { CollectAims(w, t, w'); }
    case E(e) => EnvAims(env, w, e, w');
  }

  lemma StepChecked(env: Env, now: int, run: seq<Step>, s: Step, w: World, w': World)
    requires Exec(env, now, run) == Some(w) && Next(env, w, s) == Some(w') && AllChecked(env, now, run, w)
    ensures AllChecked(env, now, run + [s], w')
  {
    StepRequests(env, w, s, w');
    var t := Target(w'.holder);
    if t.Some? {
      if t == Target(w.holder) {
        CheckedLater(env, now, run, s, t.value.0, t.value.1);
      } else {
        CheckedNow(env, now, run, s, w, t.value.0, t.value.1);
      }
    }
    forall d | d in w'.st.deletions ensures Checked(env, now, run + [s], d.caller, d.pool) {
      CheckedLater(env, now, run, s, d.caller, d.pool);
    }
  }

  lemma {:induction false} RunChecked(env: Env, now: int, run: seq<Step>, w: World)
    requires Exec(env, now, run) == Some(w)
    ensures AllChecked(env, now, run, w)
  {
    if run != [] {
      var front, s := run[..|run|-1], run[|run|-1];
      var v := ExecLast(env, now, run, w);
      RunChecked(env, now, front, v);
      StepChecked(env, now, front, s, v, w);
      assert front + [s] == run;
    }
  }

  /**
   * In every run of any environment, before every deletion its caller looked at that pool and found it fit to be deleted,
   * and the listing it went by shows at most the allocation's own worker, or none at all for the collector.
   */
  lemma DeletedPoolsWereChecked(env: Env, now: int, run: seq<Step>, w: World, d: Deletion)
    requires Exec(env, now, run) == Some(w) && d in w.st.deletions
    ensures Checked(env, now, run, d.caller, d.pool)
    ensures d.caller.Cleanup? ==> OnlyOwn(d.workers, d.pool, d.worker)
    ensures d.caller.Collector? ==> forall i :: !LiveAt(d.workers, d.pool, i)
  {
    RunChecked(env, now, run, w);
    RunBase(env, now, run, w);
    assert Vacant(d);
    OnlyOwnIff(d.workers, d.pool, d.worker);
    NoLiveEntry(d.workers, d.pool);
  }

  // ---- what was looked at before a tombstone ------------------------------------------------------------

  /** The collector saw an empty pool of nobody without live workers. */
  ghost predicate EmptyAt(w: Option<World>, s: Step, p: PoolId)
  {
    && w.Some? && p in w.value.st.pools && s.T? && s.t.FirstLook? && (forall i :: !LiveAt(s.t.workers, p, i))
    && var pool := w.value.st.pools[p];
       pool.owner.NoClaim? && pool.labelled && !pool.autoscale && pool.size == 0
  }

  ghost predicate SeenEmpty(env: Env, now: int, run: seq<Step>, p: PoolId)
  {
    exists i :: 0 <= i < |run| && EmptyAt(Exec(env, now, run[..i]), run[i], p)
  }

  /** The pools of a tombstone and of one about to be written. */
  function Marking(w: World): set<PoolId>
  {
    (if w.st.res.Some? && w.st.res.value.Tombstone? then {w.st.res.value.pool} else {}) +
    (if w.holder.TEmpty? then {w.holder.candidate} else {})
  }

  lemma CreateMarks(env: Env, w: World, c: CreateStep, w': World)
    requires CreateNext(env, w, c) == Some(w')
    ensures Marking(w') <= Marking(w)
  {
    CreateStore(env, w, c, w');
    if !c.Begin? {
      CreateHolder(env, w, c, w');
    }
  }

  lemma CleanMarks(env: Env, w: World, k: CleanStep, w': World)
    requires CleanNext(env, w, k) == Some(w')
    ensures Marking(w') <= Marking(w)
  {
  }

  lemma CollectMarks(w: World, t: CollectStep, w': World, p: PoolId)
    requires CollectNext(w, t) == Some(w') && p in Marking(w')
    ensures p in Marking(w) || EmptyAt(Some(w), T(t), p)
  {
    if t.FirstLook? {
      NoLiveEntry(t.workers, w.holder.candidate);
    }
  }

  lemma EnvMarks(env: Env, w: World, e: EnvStep, w': World)
    requires EnvNext(env, w, e) == Some(w')
    ensures Marking(w') <= Marking(w)
  {
  }

  lemma StepMarks(env: Env, w: World, s: Step, w': World, p: PoolId)
    requires Next(env, w, s) == Some(w') && p in Marking(w')
    ensures p in Marking(w) || EmptyAt(Some(w), s, p)
  {
    match s
    case C(c) => CreateMarks(env, w, c, w');
    case K(k) => CleanMarks(env, w, k, w');
    case T(t) => CollectMarks(w, t, w', p);
    case E(e) => EnvMarks(env, w, e, w');
  }

  lemma {:induction false} RunMarks(env: Env, now: int, run: seq<Step>, w: World, p: PoolId)
    requires Exec(env, now, run) == Some(w) && p in Marking(w)
    ensures SeenEmpty(env, now, run, p)
  {
    if run != [] {
      var n := |run| - 1;
      var v := ExecLast(env, now, run, w);
      StepMarks(env, v, run[n], w, p);
      if p in Marking(v) {
        RunMarks(env, now, run[..n], v, p);
        var i :| 0 <= i < n && EmptyAt(Exec(env, now, run[..n][..i]), run[..n][i], p);
        assert run[..n][..i] == run[..i] && run[..n][i] == run[i];
      } else {
        assert EmptyAt(Exec(env, now, run[..n]), run[n], p);
      }
    }
  }

  /** In every run of any environment a tombstone's pool was seen empty, without live workers and nobody's. */
  lemma TombstoneWasChecked(env: Env, now: int, run: seq<Step>, w: World)
    requires Exec(env, now, run) == Some(w) && w.st.res.Some? && w.st.res.value.Tombstone?
    ensures SeenEmpty(env, now, run, w.st.res.value.pool)
  {
    RunMarks(env, now, run, w, w.st.res.value.pool);
  }

  /**
   * And the collector does delete: in every environment, from every reachable world in which the claim has no allocation and
   * no reservation, an empty pool of nobody gets its tombstone and then its deletion requested.
   */
  lemma EmptyPoolIsDeleted(env: Env, now: int, run: seq<Step>, w: World, p: PoolId, listing: seq<Option<Worker>>) returns (v: World)
    requires Exec(env, now, run) == Some(w) && p in w.st.pools && (w.st.claim.Claim? ==> w.st.claim.alloc.None?)
    requires w.st.res.Some? ==> w.st.res.value.Tombstone?
    requires var pool := w.st.pools[p];
             pool.owner.NoClaim? && pool.labelled && !pool.autoscale && pool.size == 0 && pool.actual == 0
    requires forall i :: !LiveAt(listing, p, i)
    ensures Leads(env, Clean, w, v) && v.st.deletions == w.st.deletions + [Deletion(Collector, p, None, listing)]
    ensures v.st.res.Some? && v.st.res.value.Tombstone? && (w.st.res.None? ==> v.st.res.value.pool == p)
  {
    RunBase(env, now, run, w);
    NoLiveEntry(listing, p);
    var g, st := Clean, w.st;
    Restart(env, g, w);
    Then(env, g, w, Calm(st, Free), T(LockCandidate(p)), Calm(st, TLocked(p)));
    Then(env, g, w, Calm(st, TLocked(p)), T(ReadTombstone), Calm(st, TScan(p, st.res)));
    Then(env, g, w, Calm(st, TScan(p, st.res)), T(ScanClaims), Calm(st, TUnclaimed(p, st.res)));
    Then(env, g, w, Calm(st, TUnclaimed(p, st.res)), T(FirstLook(listing)), Calm(st, TEmpty(p, st.res)));
    v := Marks(env, w, st, p, listing);
  }

  lemma Marks(env: Env, w: World, st: Store, p: PoolId, listing: seq<Option<Worker>>) returns (v: World)
    requires Leads(env, Clean, w, Calm(st, TEmpty(p, st.res))) && p in st.pools && (st.res.Some? ==> st.res.value.Tombstone?)
    requires EmptyUnclaimed(st.pools[p]) && st.pools[p].actual == 0 && Live(listing, p) == []
    ensures Leads(env, Clean, w, v) && v.st.deletions == st.deletions + [Deletion(Collector, p, None, listing)]
    ensures v.st.res.Some? && v.st.res.value.Tombstone? && (st.res.None? ==> v.st.res.value.pool == p)
  {
    var t := Tombstone(st.rev + 1, if st.res.None? then p else st.res.value.pool);
    var st1 := st.(res := Some(t), rev := st.rev + 1);
    Then(env, Clean, w, Calm(st, TEmpty(p, st.res)), T(WriteTombstone), Calm(st1, TMarked(p)));
    v := LooksAgain(env, w, st1, p, listing);
  }

  lemma LooksAgain(env: Env, w: World, st: Store, p: PoolId, listing: seq<Option<Worker>>) returns (v: World)
    requires Leads(env, Clean, w, Calm(st, TMarked(p))) && p in st.pools
    requires EmptyUnclaimed(st.pools[p]) && st.pools[p].actual == 0 && Live(listing, p) == []
    ensures Leads(env, Clean, w, v) && v.st == st.(deletions := st.deletions + [Deletion(Collector, p, None, listing)])
  {
    Then(env, Clean, w, Calm(st, TMarked(p)), T(SecondLook(listing)), Calm(st, TReady(p, listing)));
    v := Calm(st.(deletions := st.deletions + [Deletion(Collector, p, None, listing)]), Free);
    Then(env, Clean, w, Calm(st, TReady(p, listing)), T(DeleteCandidate), v);
  }
}
