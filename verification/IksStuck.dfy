/** When a terminating claim cannot go: cleanup refuses a pool that is not as ordered, and will for ever. */
module IksStuck {
  import opened Options
  import opened IksTypes
  import opened IksWorkers
  import opened IksSteps
  import opened IksPaths
  import opened IksRelease

  /** What the lock holder can be doing as long as a pool of the claim is in the way. */
  ghost predicate Busy(st: Store, h: Holder)
    requires st.claim.Claim? && st.claim.alloc.Some?
  {
    match h
    case Free => true
    case KLocked(a, rd) => a == st.claim.alloc.value && rd.alloc == st.claim.alloc
    case KNoRecord(a, rd) => a == st.claim.alloc.value
    case KReserved(a, rd, r) => st.res == Some(Own(r)) && a == Merged(st)
    case KMarked(a, rd, r) => st.res == Some(Own(r)) && a == Merged(st)
    case KFound(a, rd, r) =>
      st.res == Some(Own(r)) && Chosen(st, a) && a == Merged(st).(pool := a.pool) && (Merged(st).pool.Some? ==> Merged(st).pool == a.pool)
    case KRecorded(a, rd, r) => st.res == Some(Own(r)) && Chosen(st, a) && a == Merged(st)
    case KCounted(a, rd, r, _) => st.res == Some(Own(r)) && Chosen(st, a) && a == Merged(st)
    case GLocked(_, _) => true
    case TLocked(_) => true
    case TScan(_, _) => true
    case _ => false
  }

  /** A pool that cleanup has found fits, as long as it exists. */
  predicate Chosen(st: Store, a: Allocation)
  {
    a.pool.Some? && (a.pool.value in st.pools ==> Fits(st.pools[a.pool.value], a.snap))
  }

  ghost predicate Stuck(w: World)
  {
    && w.st.claim.Claim? && w.st.claim.finalizer && w.st.claim.alloc.Some?
    && !Deletable(w.st) && Busy(w.st, w.holder) && w.releases == {}
    && forall rd :: rd in w.cleaners ==> rd.alloc == w.st.claim.alloc
  }

  /** Nothing that matters has changed. */
  lemma SameView(st: Store, st': Store)
    requires st.claim.Claim? && st.claim.alloc.Some? && !Deletable(st)
    requires st'.claim == st.claim && st'.pools == st.pools && st'.deletions == st.deletions && Merged(st') == Merged(st)
    ensures !Deletable(st')
  {
    assert forall p :: Left(st', p) == Left(st, p);
  }

  /** A pool recorded leaves any other one out. */
  lemma StillStuckRecorded(w: World, w': World)
    requires Stuck(w) && RecordPool1(w) == Some(w')
    ensures Stuck(w')
  {
    var st, st', x := w.st, w'.st, w.holder.a.pool.value;
    assert forall p :: Left(st', p) == Left(st, p);
    assert Merged(st') == w.holder.a;
    if p: PoolId, q: PoolId :| Left(st, p) && Left(st, q) && p != q {
      assert Left(st', p) && Left(st', q);
    } else {
      var p: PoolId :| Left(st, p) && !(Fits(st.pools[p], Merged(st).snap) && (Merged(st).pool.Some? ==> Merged(st).pool == Some(p)));
      assert Left(st', p);
    }
  }

  lemma AskedMore(st: Store, d: Deletion, p: PoolId)
    ensures Asked(st.(deletions := st.deletions + [d]), p) <==> Asked(st, p) || d.pool == p
  {
    var all := st.deletions + [d];
    assert all[|st.deletions|] == d;
    assert forall i :: 0 <= i < |st.deletions| ==> all[i] == st.deletions[i];
  }

  lemma StillStuckDeleted(w: World, w': World)
    requires Stuck(w) && DeletePool1(w) == Some(w')
    ensures Stuck(w')
  {
    var st, st', x := w.st, w'.st, w.holder.a.pool.value;
    assert Merged(st') == Merged(st);
    forall p: PoolId | p != x && Left(st, p) ensures Left(st', p) {
      AskedMore(st, st'.deletions[|st.deletions|], p);
    }
    if p: PoolId, q: PoolId :| Left(st, p) && Left(st, q) && p != q {
      assert Left(st', if p == x then q else p);
    } else {
      var p: PoolId :| Left(st, p) && !(Fits(st.pools[p], Merged(st).snap) && (Merged(st).pool.Some? ==> Merged(st).pool == Some(p)));
      assert p != x;
    }
  }

  lemma SomeLeft(st: Store)
    requires st.claim.Claim? && st.claim.alloc.Some? && !Deletable(st)
    ensures st.pools != map[]
  {
    var p: PoolId :| Left(st, p);
    assert p in st.pools;
  }

  lemma WriteStuck(env: Env, w: World, s: CleanStep, w': World)
    requires Stuck(w) && CleanNext(env, w, s) == Some(w') && (s.CleanReserveNew? || s.Mark?)
    ensures Stuck(w')
  {
    SameView(w.st, w'.st);
  }

  lemma WorkStuck(env: Env, w: World, s: CleanStep, w': World)
    requires Stuck(w) && CleanNext(env, w, s) == Some(w') && (s.CleanReserve? || s.CleanFind? || s.LockCleanup? || s.ReadClaim?)
    ensures Stuck(w')
  {
    SomeLeft(w.st);
    match s
    case CleanReserve =>
    case CleanFind(_) =>
    case LockCleanup(_) =>
    case ReadClaim(_) =>
  }

  /** The other steps cannot happen, or only move the holder on. */
  lemma OtherStuck(env: Env, w: World, s: CleanStep, w': World)
    requires Stuck(w) && CleanNext(env, w, s) == Some(w')
    requires s.NoAllocation? || s.CleanJudge? || s.Settle? || s.CountWorkers? || s.LockGone? || s.GoneFind? || s.GoneRead? || s.Release?
    ensures Stuck(w')
  {
    SomeLeft(w.st);
    OnlyHolder(env, w, s, w');
  }

  lemma OnlyHolder(env: Env, w: World, s: CleanStep, w': World)
    requires Stuck(w) && CleanNext(env, w, s) == Some(w') && w.st.pools != map[]
    requires s.NoAllocation? || s.CleanJudge? || s.Settle? || s.CountWorkers? || s.LockGone? || s.GoneFind? || s.GoneRead? || s.Release?
    ensures w'.st == w.st && w'.releases == w.releases && w'.cleaners <= w.cleaners
    ensures w'.holder.GLocked? || (w.holder.KRecorded? && w'.holder.KCounted? && w'.holder.a == w.holder.a && w'.holder.r == w.holder.r)
  {
  }

  lemma CleanStuck(env: Env, w: World, s: CleanStep, w': World)
    requires Stuck(w) && CleanNext(env, w, s) == Some(w')
    ensures Stuck(w')
  {
    if s.RecordPool? {
      StillStuckRecorded(w, w');
    } else if s.DeletePool? {
      StillStuckDeleted(w, w');
    } else if s.CleanReserveNew? || s.Mark? {
      WriteStuck(env, w, s, w');
    } else if s.CleanReserve? || s.CleanFind? || s.LockCleanup? || s.ReadClaim? {
      WorkStuck(env, w, s, w');
    } else {
      OtherStuck(env, w, s, w');
    }
  }

  lemma CollectStuck(w: World, s: CollectStep, w': World)
    requires Stuck(w) && CollectNext(w, s) == Some(w')
    ensures Stuck(w')
  {
    if s.DropTombstone? {
      SameView(w.st, w'.st);
    }
  }

  lemma EnvStuck(env: Env, g: Goal, w: World, s: EnvStep, w': World)
    requires g.Delete? && Stuck(w) && Allowed(g, w.st, E(s)) && EnvNext(env, w, s) == Some(w')
    ensures Stuck(w')
  {
    if s.Vanish? {
      assert forall p :: Left(w.st, p) ==> p != s.id;
      assert forall p :: Left(w.st, p) ==> Left(w'.st, p);
      assert Merged(w'.st) == Merged(w.st);
    } else {
      SameView(w.st, w'.st);
    }
  }

  lemma {:induction false} PathStuck(env: Env, g: Goal, w: World, steps: seq<Step>)
    requires g.Delete? && Stuck(w) && Path(env, g, w, steps).Some?
    ensures Stuck(Path(env, g, w, steps).value)
  {
    if steps != [] {
      var s, u := steps[|steps|-1], Path(env, g, w, steps).value;
      var v := LastStep(env, g, w, steps, u);
      PathStuck(env, g, w, steps[..|steps|-1]);
      match s
      case K(k) => CleanStuck(env, v, k, u);
      case T(t) => CollectStuck(v, t, u);
      case E(e) => EnvStuck(env, g, v, e, u);
    }
  }

  /** Some way of continuing after a restart removes the claim. */
  ghost predicate CanGo(env: Env, listing: seq<Option<Worker>>, st: Store)
  {
    exists v :: Leads(env, Delete(listing), Calm(st, Free), v) && v.st.claim.Gone?
  }

  /**
   * In every environment, for every terminating claim that a restarted controller can find, if pools disappear only on
   * request: the claim can go if and only if at most one pool is left to delete and that one is as it was ordered and the
   * recorded one. The listing is any that shows at most the allocation's own worker.
   */
  lemma CanGoIff(env: Env, now: int, run: seq<Step>, st: Store, listing: seq<Option<Worker>>)
    requires Exec(env, now, run) == Some(Calm(st, Free))
    requires st.claim.Claim? && st.claim.deleting && st.claim.finalizer && st.claim.alloc.Some?
    requires forall p :: Left(st, p) ==> OnlyOwn(listing, p, Merged(st).worker)
    ensures CanGo(env, listing, st) <==> Deletable(st)
  {
    if Deletable(st) {
      var v := PoolIsDeletedAndClaimGoes(env, now, run, Calm(st, Free), listing);
    } else {
      var w, g := Calm(st, Free), Delete(listing);
      assert Stuck(w);
      forall v | Leads(env, g, w, v) ensures v.st.claim.Claim? {
        var steps :| Path(env, g, w, steps) == Some(v);
        PathStuck(env, g, w, steps);
      }
    }
  }
}
