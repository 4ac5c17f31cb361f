/**
 * The end of an allocation: from every reachable world with a terminating claim the cleaning controllers can finish, and
 * exactly when they can if pools do not disappear unasked.
 */
module IksRelease {
  import opened Options
  import opened IksTypes
  import opened IksWorkers
  import opened IksSteps
  import opened IksInvariant
  import opened IksBase
  import opened IksPublished
  import opened IksPaths

  // ---- from an empty cloud to the end -------------------------------------------------------------

  /** Nothing of a recorded create is uncertain any more. */
  predicate Certain(st: Store)
  {
    st.res.Some? && st.res.value.Own? && st.res.value.rec.pending ==>
      st.res.value.rec.started.Some? && st.now - st.res.value.rec.started.value > WINDOW
  }

  lemma Settles(env: Env, g: Goal, w: World, st: Store) returns (st': Store)
    requires Leads(env, g, w, Calm(st, Free)) && RecordOk(st) && !g.AtOnce? && !g.Resend?
    ensures Leads(env, g, w, Calm(st', Free)) && Certain(st') && st' == st.(now := st'.now)
  {
    var span: nat := 0;
    if st.res.Some? && st.res.value.Own? && st.res.value.rec.started.Some? {
      var wait := st.res.value.rec.started.value + WINDOW + 1 - st.now;
      if wait > 0 { span := wait; }
    }
    st' := st.(now := st.now + span);
    Then(env, g, w, Calm(st, Free), E(Tick(span)), Calm(st', Free));
  }

  /** A published worker is the annotation's. */
  predicate Bound(c: Claim)
  {
    c.Claim? && c.bound.Some? ==> c.alloc.Some? && c.alloc.value.worker == c.bound
  }

  /** What the controller can rely on once the cloud is empty and time has passed. */
  ghost predicate Ready(st: Store)
  {
    && StoreBase(st) && st.pools == map[] && Certain(st) && (st.res.Some? ==> st.res.value.Own?)
    && st.claim.Claim? && st.claim.deleting && st.claim.finalizer && Bound(st.claim)
  }

  function ReadOf(c: Claim, release: bool): Read
    requires c.Claim?
  {
    Read(c.version, c.alloc, c.bound, release)
  }

  /** Cleanup finds or makes the reservation. */
  lemma Reserves(env: Env, g: Goal, w: World, st: Store, rd: Read) returns (st': Store, a: Allocation, r: Record)
    requires Cleans(g) && StoreBase(st) && st.claim.Claim? && st.claim.alloc.Some? && (st.res.Some? ==> st.res.value.Own?)
    requires Leads(env, g, w, Calm(st, KLocked(st.claim.alloc.value, rd)))
    ensures Leads(env, g, w, Calm(st', KReserved(a, rd, r))) && st' == st.(res := Some(Own(r)), rev := st'.rev)
    ensures a == Merged(st) && (st.res.Some? ==> st.res == Some(Own(r))) && (st.res.None? ==> !r.pending)
  {
    a := st.claim.alloc.value;
    if st.res.None? {
      r := NewRecord(st.rev + 1, a);
      Then(env, g, w, Calm(st, KLocked(a, rd)), K(CleanReserve), Calm(st, KNoRecord(a, rd)));
      st' := Put(st, r);
      Then(env, g, w, Calm(st, KNoRecord(a, rd)), K(CleanReserveNew), Calm(st', KReserved(a, rd, r)));
    } else {
      r := st.res.value.rec;
      assert Agree(a, r.alloc);
      st' := st;
      Then(env, g, w, Calm(st, KLocked(a, rd)), K(CleanReserve), Calm(st, KReserved(Merged(st), rd, r)));
      a := Merged(st);
    }
  }

  /** The reservation is marked; nothing is found; the reservation goes. */
  lemma Finishes(env: Env, g: Goal, w: World, st: Store, a: Allocation, rd: Read, r: Record) returns (v: World)
    requires Cleans(g) && Leads(env, g, w, Calm(st, KReserved(a, rd, r))) && st.res == Some(Own(r)) && st.pools == map[]
    requires r.pending ==> r.started.Some? && st.now - r.started.value > WINDOW
    requires rd.release
    ensures Leads(env, g, w, v) && Settled(v, st, rd.version)
  {
    var st', r' := Marks(env, g, w, st, a, rd, r);
    Then(env, g, w, Calm(st', KMarked(a, rd, r')), K(CleanFind(None)), Calm(st', KAbsent(a, rd, r', st'.now)));
    v := Concludes(env, g, w, st', a, rd, r');
  }

  lemma Marks(env: Env, g: Goal, w: World, st: Store, a: Allocation, rd: Read, r: Record) returns (st': Store, r': Record)
    requires Cleans(g) && Leads(env, g, w, Calm(st, KReserved(a, rd, r))) && st.res == Some(Own(r))
    ensures Leads(env, g, w, Calm(st', KMarked(a, rd, r'))) && r' == Update(r, a, Deleting, st.now, st.rev + 1)
    ensures st' == Put(st, r').(ending := true)
  {
    r' := Update(r, a, Deleting, st.now, st.rev + 1);
    st' := Put(st, r').(ending := true);
    Then(env, g, w, Calm(st, KReserved(a, rd, r)), K(Mark), Calm(st', KMarked(a, rd, r')));
  }

  lemma Concludes(env: Env, g: Goal, w: World, st: Store, a: Allocation, rd: Read, r: Record) returns (v: World)
    requires Cleans(g) && Leads(env, g, w, Calm(st, KAbsent(a, rd, r, st.now))) && st.res == Some(Own(r)) && st.pools == map[]
    requires r.pending ==> r.started.Some? && st.now - r.started.value > WINDOW
    requires rd.release
    ensures Leads(env, g, w, v) && Settled(v, st, rd.version)
  {
    Then(env, g, w, Calm(st, KAbsent(a, rd, r, st.now)), K(CleanJudge), Calm(st, KClear(a, rd, r)));
    v := Finish(Calm(st, KClear(a, rd, r)), rd);
    Then(env, g, w, Calm(st, KClear(a, rd, r)), K(Settle), v);
  }

  /** Nothing is left in the stores but the claim, and the controller knows it. */
  predicate Settled(v: World, st: Store, version: nat)
  {
    v.st.claim == st.claim && v.st.pools == map[] && v.st.res.None? && version in v.releases && v.holder.Free?
  }

  /** A published worker: absence is confirmed and the reservation goes. */
  lemma Confirms(env: Env, g: Goal, w: World, st: Store) returns (v: World)
    requires Cleans(g) && Ready(st) && Leads(env, g, w, Calm(st, GLocked(st.claim.alloc.value, ReadOf(st.claim, true))))
    ensures Leads(env, g, w, v) && Settled(v, st, st.claim.version)
  {
    var a, rd := st.claim.alloc.value, ReadOf(st.claim, true);
    Then(env, g, w, Calm(st, GLocked(a, rd)), K(GoneFind), Calm(st, GAbsent(a, rd)));
    if st.res.None? {
      v := Finish(Calm(st, GAbsent(a, rd)), rd);
      Then(env, g, w, Calm(st, GAbsent(a, rd)), K(GoneRead), v);
    } else {
      var r := st.res.value.rec;
      Then(env, g, w, Calm(st, GAbsent(a, rd)), K(GoneRead), Calm(st, GReserved(a, rd, r)));
      v := Finish(Calm(st, GReserved(a, rd, r)), rd);
      Then(env, g, w, Calm(st, GReserved(a, rd, r)), K(Settle), v);
    }
  }

  /** The claim is read and cleanup takes the lock. */
  lemma Locks(env: Env, g: Goal, w: World, st: Store, release: bool)
    requires Cleans(g) && Leads(env, g, w, Calm(st, Free)) && st.claim.Claim? && st.claim.alloc.Some?
    requires if release then st.claim.deleting && st.claim.finalizer && st.claim.bound.None?
             else st.claim.bound.Some? && st.claim.alloc.value.worker == st.claim.bound
    ensures Leads(env, g, w, Calm(st, KLocked(st.claim.alloc.value, ReadOf(st.claim, release))))
  {
    var rd := ReadOf(st.claim, release);
    var v := Calm(st, Free).(cleaners := {rd});
    assert {} + {rd} == {rd} && v.cleaners - {rd} == {};
    Then(env, g, w, Calm(st, Free), K(ReadClaim(release)), v);
    Then(env, g, w, v, K(LockCleanup(rd)), Calm(st, KLocked(st.claim.alloc.value, rd)));
  }

  /** The controller reads the claim and works through it. */
  lemma Reconciles(env: Env, g: Goal, w: World, st: Store) returns (v: World)
    requires Cleans(g) && Ready(st) && Leads(env, g, w, Calm(st, Free))
    ensures Leads(env, g, w, v) && Settled(v, st, st.claim.version)
  {
    var rd := ReadOf(st.claim, true);
    if st.claim.bound.None? {
      Locks(env, g, w, st, true);
      var st', a, r := Reserves(env, g, w, st, rd);
      v := Finishes(env, g, w, st', a, rd, r);
    } else {
      var u := Calm(st, Free).(cleaners := {rd});
      assert {} + {rd} == {rd} && u.cleaners - {rd} == {};
      Then(env, g, w, Calm(st, Free), K(ReadClaim(true)), u);
      Then(env, g, w, u, K(LockGone(rd)), Calm(st, GLocked(st.claim.alloc.value, rd)));
      v := Confirms(env, g, w, st);
    }
  }

  /** The claim is gone, and with it everything that was its. */
  predicate Ended(w: World)
  {
    w.st.claim.Gone? && w.st.pools == map[] && w.st.res.None?
  }

  lemma Leaves(env: Env, g: Goal, w: World, u: World) returns (v: World)
    requires Cleans(g) && Leads(env, g, w, u) && u.st.claim.Claim? && u.st.claim.deleting
    requires u.st.claim.finalizer ==> u.st.claim.version in u.releases
    ensures Leads(env, g, w, v) && v.st.claim.Gone? && v.st.pools == u.st.pools && v.st.res == u.st.res
  {
    var z := u;
    if u.st.claim.finalizer {
      z := Releases(env, g, w, u);
    }
    v := z.(st := z.st.(claim := Gone));
    Then(env, g, w, z, E(CollectClaim), v);
  }

  lemma Releases(env: Env, g: Goal, w: World, u: World) returns (v: World)
    requires Cleans(g) && Leads(env, g, w, u) && u.st.claim.Claim? && u.st.claim.version in u.releases
    ensures Leads(env, g, w, v) && v.st.pools == u.st.pools && v.st.res == u.st.res
    ensures v.st.claim.Claim? && v.st.claim.deleting == u.st.claim.deleting && !v.st.claim.finalizer
  {
    var s := K(Release(u.st.claim.version));
    v := Next(env, u, s).value;
    Then(env, g, w, u, s, v);
  }

  /** From an empty cloud onwards. */
  lemma EndsFrom(env: Env, g: Goal, now: int, run: seq<Step>, w: World, st: Store) returns (v: World)
    requires Exec(env, now, run) == Some(w) && Cleans(g) && !g.AtOnce? && Leads(env, g, w, Calm(st, Free))
    requires st.pools == map[] && (st.res.Some? ==> st.res.value.Own?)
    requires st.claim.Claim? && st.claim.deleting && st.claim.finalizer
    ensures Leads(env, g, w, v) && Ended(v)
  {
    var longer := LeadsIsRun(env, g, now, run, w, Calm(st, Free));
    RunBase(env, now, longer, Calm(st, Free));
    RunPublished(env, now, longer, Calm(st, Free));
    var st' := Settles(env, g, w, st);
    longer := LeadsIsRun(env, g, now, run, w, Calm(st', Free));
    RunBase(env, now, longer, Calm(st', Free));
    var u := Reconciles(env, g, w, st');
    v := Leaves(env, g, w, u);
  }

  /**
   * In every environment, from every reachable world with a terminating claim, the cleaning controllers can finish: once
   * the pools of the name are gone and the window has passed, nothing that was stored keeps the finalizer.
   */
  lemma TerminatingClaimCanGo(env: Env, now: int, run: seq<Step>, w: World) returns (v: World)
    requires Exec(env, now, run) == Some(w) && w.st.claim.Claim? && w.st.claim.deleting
    ensures Leads(env, Clean, w, v) && v.st.claim.Gone? && (w.st.claim.finalizer ==> Ended(v))
  {
    if !w.st.claim.finalizer {
      Restart(env, Clean, w);
      v := Leaves(env, Clean, w, Calm(w.st, Free));
    } else {
      var st := ClearsAway(env, Clean, now, run, w);
      assert st.pools == map[];
      v := EndsFrom(env, Clean, now, run, w, st);
    }
  }

  // ---- the pool is deleted -------------------------------------------------------------------------

  /** The annotation completed from the reservation. */
  function Merged(st: Store): Allocation
    requires st.claim.Claim? && st.claim.alloc.Some?
  {
    var a := st.claim.alloc.value;
    if st.res.Some? && st.res.value.Own? then
      var b := st.res.value.rec.alloc;
      Allocation(a.snap, if a.pool.Some? then a.pool else b.pool, if a.worker.Some? then a.worker else b.worker)
    else a
  }

  /** A pool of the claim whose deletion was not requested yet. */
  predicate Left(st: Store, p: PoolId)
  {
    OwnPool(st, p) && !Asked(st, p)
  }

  /** What cleanup demands of a pool: one zone, the flavor, at most one worker wanted, no autoscaling, our labels. */
  predicate Fits(p: Pool, snap: Snapshot)
  {
    p.zones == [snap.zone] && p.flavor == snap.flavor && p.size <= 1 && !p.autoscale && p.labelled
  }

  /** There is at most one pool left to delete, and it is as it was ordered and the one recorded, if one is. */
  ghost predicate Deletable(st: Store)
    requires st.claim.Claim? && st.claim.alloc.Some?
  {
    && (forall p, q :: Left(st, p) && Left(st, q) ==> p == q)
    && (forall p :: Left(st, p) ==>
          Fits(st.pools[p], Merged(st).snap) && (Merged(st).pool.Some? ==> Merged(st).pool == Some(p)))
  }

  /** Cleanup works through to the request for deletion, and the cloud complies. */
  lemma Deletes(env: Env, g: Goal, w: World, st: Store, p: PoolId) returns (st': Store)
    requires g.Delete? && Leads(env, g, w, Calm(st, Free)) && StoreBase(st) && (st.res.Some? ==> st.res.value.Own?)
    requires st.claim.Claim? && st.claim.deleting && st.claim.finalizer && Bound(st.claim)
    requires st.pools.Keys == {p} && Left(st, p) && Deletable(st) && OnlyOwn(g.listing, p, Merged(st).worker)
    ensures Leads(env, g, w, Calm(st', Free)) && st'.claim == st.claim && st'.pools == map[]
    ensures st'.res.Some? && st'.res.value.Own?
  {
    var rd := ReadOf(st.claim, st.claim.bound.None?);
    Locks(env, g, w, st, rd.release);
    var st1, a, r := Reserves(env, g, w, st, rd);
    var st2 := Requests(env, g, w, st1, a, rd, r, p);
    st' := st2.(pools := st2.pools - {p});
    assert st2.deletions[|st2.deletions| - 1].pool == p;
    Then(env, g, w, Calm(st2, Free), E(Vanish(p)), Calm(st', Free));
  }

  lemma Requests(env: Env, g: Goal, w: World, st: Store, a: Allocation, rd: Read, r: Record, p: PoolId) returns (st': Store)
    requires g.Delete? && Leads(env, g, w, Calm(st, KReserved(a, rd, r))) && st.res == Some(Own(r))
    requires OwnPool(st, p) && Fits(st.pools[p], a.snap) && (a.pool.Some? ==> a.pool == Some(p))
    requires OnlyOwn(g.listing, p, a.worker)
    ensures Leads(env, g, w, Calm(st', Free)) && st'.claim == st.claim && st'.pools == st.pools
    ensures st'.res.Some? && st'.res.value.Own? && st'.deletions != [] && st'.deletions[|st'.deletions| - 1].pool == p
  {
    var st1, r1 := Marks(env, g, w, st, a, rd, r);
    var b := a.(pool := Some(p));
    Then(env, g, w, Calm(st1, KMarked(a, rd, r1)), K(CleanFind(Some(p))), Calm(st1, KFound(b, rd, r1)));
    st' := Orders(env, g, w, st1, b, rd, r1);
  }

  /** The pool found is recorded, its workers are counted, and its deletion is requested. */
  lemma Orders(env: Env, g: Goal, w: World, st: Store, a: Allocation, rd: Read, r: Record) returns (st': Store)
    requires g.Delete? && Leads(env, g, w, Calm(st, KFound(a, rd, r))) && st.res == Some(Own(r))
    requires a.pool.Some? && OnlyOwn(g.listing, a.pool.value, a.worker)
    ensures Leads(env, g, w, Calm(st', Free)) && st'.claim == st.claim && st'.pools == st.pools
    ensures st'.res.Some? && st'.res.value.Own? && st'.deletions != [] && st'.deletions[|st'.deletions| - 1].pool == a.pool.value
  {
    var st1, r' := RecordsPool(env, g, w, st, a, rd, r);
    Counts(env, g, w, st1, a, rd, r');
    st' := Asks(env, g, w, st1, a, rd, r');
  }

  lemma RecordsPool(env: Env, g: Goal, w: World, st: Store, a: Allocation, rd: Read, r: Record) returns (st': Store, r': Record)
    requires g.Delete? && Leads(env, g, w, Calm(st, KFound(a, rd, r))) && st.res == Some(Own(r))
    ensures Leads(env, g, w, Calm(st', KRecorded(a, rd, r'))) && st' == Put(st, r').(known := st'.known)
  {
    r' := Update(r, a, Deleting, st.now, st.rev + 1);
    st' := Put(st, r').(known := if st.known.None? then a.pool else st.known);
    Then(env, g, w, Calm(st, KFound(a, rd, r)), K(RecordPool), Calm(st', KRecorded(a, rd, r')));
  }

  lemma Asks(env: Env, g: Goal, w: World, st: Store, a: Allocation, rd: Read, r: Record) returns (st': Store)
    requires g.Delete? && Leads(env, g, w, Calm(st, KCounted(a, rd, r, g.listing))) && a.pool.Some?
    ensures Leads(env, g, w, Calm(st', Free))
    ensures st' == st.(deletions := st.deletions + [Deletion(Cleanup, a.pool.value, a.worker, g.listing)])
  {
    st' := st.(deletions := st.deletions + [Deletion(Cleanup, a.pool.value, a.worker, g.listing)]);
    Then(env, g, w, Calm(st, KCounted(a, rd, r, g.listing)), K(DeletePool), Calm(st', Free));
  }

  lemma Counts(env: Env, g: Goal, w: World, st: Store, a: Allocation, rd: Read, r: Record)
    requires g.Delete? && Leads(env, g, w, Calm(st, KRecorded(a, rd, r)))
    requires a.pool.Some? && OnlyOwn(g.listing, a.pool.value, a.worker)
    ensures Leads(env, g, w, Calm(st, KCounted(a, rd, r, g.listing)))
  {
    OnlyOwnIff(g.listing, a.pool.value, a.worker);
    Then(env, g, w, Calm(st, KRecorded(a, rd, r)), K(CountWorkers(g.listing)), Calm(st, KCounted(a, rd, r, g.listing)));
  }

  /**
   * In every environment, from every reachable world with a terminating claim whose pool is as ordered, and with any
   * listing of at most its own worker: cleanup requests the deletion, and once that is done the claim can go.
   */
  lemma PoolIsDeletedAndClaimGoes(env: Env, now: int, run: seq<Step>, w: World, listing: seq<Option<Worker>>) returns (v: World)
    requires Exec(env, now, run) == Some(w) && w.st.claim.Claim? && w.st.claim.deleting && w.st.claim.finalizer
    requires w.st.claim.alloc.Some? ==> Deletable(w.st) && forall p :: Left(w.st, p) ==> OnlyOwn(listing, p, Merged(w.st).worker)
    ensures Leads(env, Delete(listing), w, v) && Ended(v)
  {
    var g := Delete(listing);
    var st := ClearsAway(env, g, now, run, w);
    RunPublished(env, now, run, w);
    if p :| p in st.pools {
      assert forall q :: q in st.pools ==> Left(w.st, q);
      assert st.pools.Keys == {p};
      assert Merged(st) == Merged(w.st);
      var st' := Deletes(env, g, w, st, p);
      v := EndsFrom(env, g, now, run, w, st');
    } else {
      assert st.pools == map[];
      v := EndsFrom(env, g, now, run, w, st);
    }
  }
}
