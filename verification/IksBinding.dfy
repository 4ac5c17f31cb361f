/** The success of an allocation: from every reachable world in which it can, Create binds a worker. */
module IksBinding {
  import opened Options
  import opened IksTypes
  import opened IksWorkers
  import opened IksSteps
  import opened IksInvariant
  import opened IksBase
  import opened IksPublished
  import opened IksPaths
  import opened IksRelease

  /** What is known of the allocation: annotation and reservation, or the snapshot of a first attempt. */
  function Known(st: Store, snap: Snapshot): Allocation
    requires st.claim.Claim?
  {
    if st.claim.alloc.Some? then Merged(st) else Allocation(snap, None, None)
  }

  /** The claim is alive, its reservation is not being deleted, and nothing known contradicts snapshot and worker. */
  predicate Open(st: Store, snap: Snapshot)
  {
    && st.claim.Claim? && !st.claim.deleting
    && (st.res.Some? ==> st.res.value.Own? && !st.res.value.rec.phase.Deleting?)
    && (st.claim.alloc.Some? ==> st.claim.alloc.value.snap == snap)
  }

  // ---- up to the reservation ------------------------------------------------------------------------

  /** What the first checkpoint and the reservation leave unchanged. */
  predicate Untouched(st: Store, st': Store)
  {
    && st'.now == st.now && st'.pools == st.pools && st'.owners == st.owners && st'.nextPool == st.nextPool
    && st'.pending == st.pending && st'.landed == st.landed && st'.nextReq == st.nextReq
    && st.claim.Claim? && st'.claim.Claim? && st'.claim.deleting == st.claim.deleting && st'.claim.bound == st.claim.bound
  }

  lemma Annotates(env: Env, g: Goal, w: World, st: Store, snap: Snapshot) returns (st': Store, a: Allocation)
    requires g == Resend(snap) || (g.Bind? && g.snap == snap)
    requires Leads(env, g, w, Calm(st, Free)) && st.claim.Claim? && !st.claim.deleting
    ensures Leads(env, g, w, Calm(st', CPinned(a))) && st' == Annotate(st, a)
    ensures a == if st.claim.alloc.Some? then st.claim.alloc.value else Allocation(snap, None, None)
  {
    a := if st.claim.alloc.Some? then st.claim.alloc.value else Allocation(snap, None, None);
    var v := Calm(st, Free).(waiting := Some(a));
    Then(env, g, w, Calm(st, Free), C(Begin(snap)), v);
    Then(env, g, w, v, C(Lock), Calm(st, CLocked(a)));
    st' := Annotate(st, a);
    Checkpoints(env, g, w, st, CLocked(a), a, AtStart, Calm(st', CPinned(a)));
  }

  /** A checkpoint reads the claim and writes the annotation. */
  lemma Checkpoints(env: Env, g: Goal, w: World, st: Store, h: Holder, a: Allocation, site: Site, v: World)
    requires (g.Bind? || g.Resend?) && Leads(env, g, w, Calm(st, h)) && st.claim.Claim? && !st.claim.deleting
    requires match site case AtStart => h == CLocked(a) case AfterCreate(r) => h == CActivated(a, r) case AtEnd => h.CStored? && h.a == a
    requires v == match site
                  case AtStart => Calm(Annotate(st, a), CPinned(a))
                  case AfterCreate(r) => Calm(Annotate(st, a), CVerify(a, r))
                  case AtEnd => Calm(Annotate(st, a), Free).(returned := a.worker)
    ensures Leads(env, g, w, v)
  {
    Then(env, g, w, Calm(st, h), C(ReadOwner), Calm(st, COwner(a, st.claim.version, site)));
    Then(env, g, w, Calm(st, COwner(a, st.claim.version, site)), C(Checkpoint), v);
  }

  lemma Prepares(env: Env, g: Goal, w: World, st: Store, snap: Snapshot) returns (st': Store, r: Record)
    requires g == Resend(snap) || (g.Bind? && g.snap == snap)
    requires Leads(env, g, w, Calm(st, Free)) && StoreBase(st) && Open(st, snap)
    ensures Leads(env, g, w, Calm(st', CReserved(Known(st, snap), r))) && Untouched(st, st') && st'.res == Some(Own(r))
    ensures !r.phase.Deleting? && (st.res.Some? ==> st.res == Some(Own(r))) && (st.res.None? ==> !r.pending)
  {
    var st1, a := Annotates(env, g, w, st, snap);
    if st.res.None? {
      st', r := ReservesAnew(env, g, w, st1, a);
    } else {
      r := st.res.value.rec;
      assert st.claim.alloc.Some? && Agree(a, r.alloc);
      st' := st1;
      RestoresFound(env, g, w, st1, a, r, Known(st, snap));
    }
  }

  lemma ReservesAnew(env: Env, g: Goal, w: World, st: Store, a: Allocation) returns (st': Store, r: Record)
    requires (g.Bind? || g.Resend?) && Leads(env, g, w, Calm(st, CPinned(a))) && st.res.None?
    ensures Leads(env, g, w, Calm(st', CReserved(a, r))) && st' == Put(st, r) && !r.pending && !r.phase.Deleting?
  {
    Then(env, g, w, Calm(st, CPinned(a)), C(Reserve), Calm(st, CNoRecord(a)));
    r := NewRecord(st.rev + 1, a);
    st' := Put(st, r);
    Then(env, g, w, Calm(st, CNoRecord(a)), C(ReserveNew), Calm(st', CReserved(a, r)));
  }

  lemma RestoresFound(env: Env, g: Goal, w: World, st: Store, a: Allocation, r: Record, b: Allocation)
    requires (g.Bind? || g.Resend?) && Leads(env, g, w, Calm(st, CPinned(a))) && st.res == Some(Own(r)) && !r.phase.Deleting?
    requires Agree(a, r.alloc)
    requires b == Allocation(a.snap, if a.pool.Some? then a.pool else r.alloc.pool, if a.worker.Some? then a.worker else r.alloc.worker)
    ensures Leads(env, g, w, Calm(st, CReserved(b, r)))
  {
    Then(env, g, w, Calm(st, CPinned(a)), C(Reserve), Calm(st, CReserved(b, r)));
  }

  // ---- a new pool -----------------------------------------------------------------------------------

  /** Nothing is found and nothing is uncertain. */
  lemma FindsNothing(env: Env, g: Goal, w: World, st: Store, a: Allocation, r: Record)
    requires g.Bind? || g.Resend?
    requires Leads(env, g, w, Calm(st, CReserved(a, r))) && st.pools == map[] && a.pool.None?
    requires r.pending ==> r.started.Some? && st.now - r.started.value > WINDOW
    ensures Leads(env, g, w, Calm(st, CClear(a, r)))
  {
    Then(env, g, w, Calm(st, CReserved(a, r)), C(FindPool(None)), Calm(st, CAbsent(a, r, st.now)));
    Then(env, g, w, Calm(st, CAbsent(a, r, st.now)), C(Judge), Calm(st, CClear(a, r)));
  }

  lemma Stamps(env: Env, g: Goal, w: World, st: Store, a: Allocation, r: Record)
    requires (g.Bind? || g.Resend?) && Leads(env, g, w, Calm(st, CClear(a, r)))
    ensures Leads(env, g, w, Calm(st, CStamped(a, r, st.now)))
  {
    Then(env, g, w, Calm(st, CClear(a, r)), C(Stamp), Calm(st, CStamped(a, r, st.now)));
  }

  lemma RecordsStart(env: Env, g: Goal, w: World, st: Store, a: Allocation, r: Record) returns (st': Store, r': Record)
    requires (g.Bind? || g.Resend?) && Leads(env, g, w, Calm(st, CClear(a, r))) && st.res == Some(Own(r))
    ensures Leads(env, g, w, Calm(st', CRecorded(a, r', st.now))) && st' == Put(st, r') && !r'.phase.Deleting?
  {
    Stamps(env, g, w, st, a, r);
    r' := Update(r, a, Creating, st.now, st.rev + 1);
    st' := Put(st, r');
    Then(env, g, w, Calm(st, CStamped(a, r, st.now)), C(RecordStart), Calm(st', CRecorded(a, r', st.now)));
  }

  /** A request left the process. */
  lemma Sends(env: Env, g: Goal, w: World, st: Store, a: Allocation, r: Record) returns (st': Store, r': Record)
    requires g.Bind? || g.Resend?
    requires Leads(env, g, w, Calm(st, CReserved(a, r))) && st.res == Some(Own(r)) && st.pools == map[] && a.pool.None?
    requires r.pending ==> r.started.Some? && st.now - r.started.value > WINDOW
    ensures Leads(env, g, w, Calm(st', CSent(a, r', st.nextReq))) && st'.res == Some(Own(r')) && !r'.phase.Deleting?
    ensures st' == st.(res := st'.res, rev := st'.rev, pending := st.pending[st.nextReq := st.now], nextReq := st.nextReq + 1)
  {
    FindsNothing(env, g, w, st, a, r);
    var st1;
    st1, r' := RecordsStart(env, g, w, st, a, r);
    st' := SendsOff(env, g, w, st1, a, r', st.now);
  }

  lemma SendsOff(env: Env, g: Goal, w: World, st: Store, a: Allocation, r: Record, start: int) returns (st': Store)
    requires (g.Bind? || g.Resend?) && Leads(env, g, w, Calm(st, CRecorded(a, r, start)))
    ensures Leads(env, g, w, Calm(st', CSent(a, r, st.nextReq)))
    ensures st' == st.(pending := st.pending[st.nextReq := start], nextReq := st.nextReq + 1)
  {
    st' := st.(pending := st.pending[st.nextReq := start], nextReq := st.nextReq + 1);
    Then(env, g, w, Calm(st, CRecorded(a, r, start)), C(Send), Calm(st', CSent(a, r, st.nextReq)));
  }

  /** The request takes effect and is answered. */
  lemma Lands(env: Env, g: Goal, w: World, st: Store, a: Allocation, r: Record, q: nat, shape: Pool) returns (st': Store, b: Allocation)
    requires g.Bind? && Leads(env, g, w, Calm(st, CSent(a, r, q))) && q in st.pending && st.now <= st.pending[q] + env.delay
    requires AsOrdered(shape, g.snap)
    ensures b == a.(pool := Some(st.nextPool)) && Leads(env, g, w, Calm(st', CCreated(b, r)))
    ensures st'.claim == st.claim && st'.res == st.res && OwnPool(st', st.nextPool)
    ensures AsOrdered(st'.pools[st.nextPool], g.snap) && st'.pools[st.nextPool].labelled
  {
    var v := Next(env, Calm(st, CSent(a, r, q)), E(Land(q, shape))).value;
    st' := v.st;
    Then(env, g, w, Calm(st, CSent(a, r, q)), E(Land(q, shape)), v);
    assert v == Calm(st', CSent(a, r, q));
    b := a.(pool := Some(st.nextPool));
    Then(env, g, w, v, C(Answered), Calm(st', CCreated(b, r)));
  }

  /** The identity is recorded, annotated and looked up. */
  lemma Verifies(env: Env, g: Goal, w: World, st: Store, a: Allocation, r: Record) returns (st': Store, r': Record)
    requires g.Bind? && Leads(env, g, w, Calm(st, CCreated(a, r))) && st.res == Some(Own(r)) && a.pool.Some? && a.snap == g.snap
    requires st.claim.Claim? && !st.claim.deleting
    requires OwnPool(st, a.pool.value) && AsOrdered(st.pools[a.pool.value], g.snap) && st.pools[a.pool.value].labelled
    ensures Leads(env, g, w, Calm(st', CFound(a, r'))) && st'.res == Some(Own(r')) && st'.pools == st.pools
    ensures st'.claim.Claim? && !st'.claim.deleting
  {
    var st1;
    st1, r' := Activates(env, g, w, st, a, r, CCreated(a, r));
    st' := Annotate(st1, a);
    Checkpoints(env, g, w, st1, CActivated(a, r'), a, AfterCreate(r'), Calm(st', CVerify(a, r')));
    LooksUp(env, g, w, st', a, r');
  }

  lemma Activates(env: Env, g: Goal, w: World, st: Store, a: Allocation, r: Record, h: Holder) returns (st': Store, r': Record)
    requires g.Bind? && Leads(env, g, w, Calm(st, h)) && st.res == Some(Own(r)) && (h == CCreated(a, r) || h == CBound(a, r))
    ensures Leads(env, g, w, Calm(st', if h.CCreated? then CActivated(a, r') else CStored(a, r')))
    ensures r' == Update(r, a, Active, st.now, st.rev + 1) && st' == Put(st, r').(known := st'.known)
  {
    r' := Update(r, a, Active, st.now, st.rev + 1);
    st' := Put(st, r').(known := if st.known.None? then a.pool else st.known);
    Then(env, g, w, Calm(st, h), C(Activate), Calm(st', if h.CCreated? then CActivated(a, r') else CStored(a, r')));
  }

  lemma LooksUp(env: Env, g: Goal, w: World, st: Store, a: Allocation, r: Record)
    requires g.Bind? && Leads(env, g, w, Calm(st, CVerify(a, r))) && a.pool.Some? && a.snap == g.snap
    requires OwnPool(st, a.pool.value) && AsOrdered(st.pools[a.pool.value], g.snap) && st.pools[a.pool.value].labelled
    ensures Leads(env, g, w, Calm(st, CFound(a, r)))
  {
    Then(env, g, w, Calm(st, CVerify(a, r)), C(VerifyPool), Calm(st, CFound(a, r)));
  }

  // ---- the worker -------------------------------------------------------------------------------------

  lemma OneWorkerIsSelected(id: string, p: PoolId, snap: Snapshot)
    requires id != "" && snap.subnet != ""
    ensures Selected(OneWorker(id, p, snap), p, snap) == Some(id)
  {
    var listing := OneWorker(id, p, snap);
    assert listing[1..] == [];
    assert Live(listing, p) == [listing[0].value];
    assert PrimarySubnet(listing[0].value.interfaces) == snap.subnet;
  }

  /** Pool and worker are the claim's: recorded as active, annotated and published. */
  predicate Bindings(st: Store, snap: Snapshot, p: PoolId, id: string)
  {
    var a := Allocation(snap, Some(p), Some(id));
    && st.claim.Claim? && st.claim.bound == Some(id) && st.claim.alloc == Some(a) && st.claim.finalizer
    && st.res.Some? && st.res.value.Own? && st.res.value.rec.phase.Active? && st.res.value.rec.alloc == a
    && !st.res.value.rec.pending && OwnPool(st, p)
  }

  lemma Lists(env: Env, g: Goal, w: World, st: Store, a: Allocation, r: Record)
    requires g.Bind? && g.id != "" && g.snap.subnet != "" && Leads(env, g, w, Calm(st, CFound(a, r)))
    requires a.snap == g.snap && a.pool.Some? && (a.worker.Some? ==> a.worker == Some(g.id))
    ensures Leads(env, g, w, Calm(st, CBound(a.(worker := Some(g.id)), r)))
  {
    var s := C(ListWorkers(OneWorker(g.id, a.pool.value, g.snap)));
    OneWorkerIsSelected(g.id, a.pool.value, g.snap);
    Then(env, g, w, Calm(st, CFound(a, r)), s, Calm(st, CBound(a.(worker := Some(g.id)), r)));
  }

  lemma Binds(env: Env, g: Goal, w: World, st: Store, a: Allocation, r: Record) returns (v: World)
    requires g.Bind? && g.id != "" && g.snap.subnet != "" && Leads(env, g, w, Calm(st, CFound(a, r))) && st.res == Some(Own(r))
    requires a.snap == g.snap && a.pool.Some? && OwnPool(st, a.pool.value) && (a.worker.Some? ==> a.worker == Some(g.id))
    requires st.claim.Claim? && !st.claim.deleting
    ensures Leads(env, g, w, v) && Bindings(v.st, g.snap, a.pool.value, g.id)
  {
    Lists(env, g, w, st, a, r);
    var b := a.(worker := Some(g.id));
    var st1, r' := Activates(env, g, w, st, b, r, CBound(b, r));
    v := Publishes(env, g, w, st1, b, r');
  }

  lemma Publishes(env: Env, g: Goal, w: World, st: Store, a: Allocation, r: Record) returns (v: World)
    requires g.Bind? && Leads(env, g, w, Calm(st, CStored(a, r))) && st.res == Some(Own(r)) && r.alloc == a && r.phase.Active? && !r.pending
    requires a.snap == g.snap && a.pool.Some? && OwnPool(st, a.pool.value) && a.worker == Some(g.id)
    requires st.claim.Claim? && !st.claim.deleting
    ensures Leads(env, g, w, v) && Bindings(v.st, g.snap, a.pool.value, g.id)
  {
    var u := Calm(Annotate(st, a), Free).(returned := a.worker);
    Checkpoints(env, g, w, st, CStored(a, r), a, AtEnd, u);
    v := Next(env, u, E(Publish)).value;
    Then(env, g, w, u, E(Publish), v);
  }

  // ---- the whole way ----------------------------------------------------------------------------------

  /** A pool of the claim as ordered, and the one recorded if one is. */
  predicate Adoptable(st: Store, snap: Snapshot, p: PoolId)
    requires st.claim.Claim?
  {
    && OwnPool(st, p) && AsOrdered(st.pools[p], snap) && st.pools[p].labelled
    && (Known(st, snap).pool.Some? ==> Known(st, snap).pool == Some(p))
  }

  /** No pool of the claim exists or is recorded. */
  ghost predicate Fresh(st: Store, snap: Snapshot)
    requires st.claim.Claim?
  {
    NoOwn(st) && Known(st, snap).pool.None?
  }

  lemma BindsFound(env: Env, g: Goal, w: World, st: Store, p: PoolId) returns (v: World)
    requires g.Bind? && g.id != "" && g.snap.subnet != "" && Leads(env, g, w, Calm(st, Free)) && StoreBase(st) && Open(st, g.snap)
    requires Adoptable(st, g.snap, p) && (Known(st, g.snap).worker.Some? ==> Known(st, g.snap).worker == Some(g.id))
    ensures Leads(env, g, w, v) && Bindings(v.st, g.snap, p, g.id)
  {
    var st', r := Prepares(env, g, w, st, g.snap);
    var a := Known(st, g.snap);
    FindsPool(env, g, w, st', a, r, p);
    v := Binds(env, g, w, st', a.(pool := Some(p)), r);
  }

  lemma FindsPool(env: Env, g: Goal, w: World, st: Store, a: Allocation, r: Record, p: PoolId)
    requires g.Bind? && Leads(env, g, w, Calm(st, CReserved(a, r))) && a.snap == g.snap && (a.pool.Some? ==> a.pool == Some(p))
    requires OwnPool(st, p) && AsOrdered(st.pools[p], g.snap) && st.pools[p].labelled
    ensures Leads(env, g, w, Calm(st, CFound(a.(pool := Some(p)), r)))
  {
    Then(env, g, w, Calm(st, CReserved(a, r)), C(FindPool(Some(p))), Calm(st, CFound(a.(pool := Some(p)), r)));
  }

  lemma BindsNew(env: Env, g: Goal, w: World, st: Store, shape: Pool) returns (p: PoolId, v: World)
    requires g.Bind? && g.id != "" && g.snap.subnet != "" && Leads(env, g, w, Calm(st, Free)) && StoreBase(st) && Open(st, g.snap)
    requires st.pools == map[] && Certain(st) && Known(st, g.snap).pool.None? && AsOrdered(shape, g.snap)
    ensures Leads(env, g, w, v) && Bindings(v.st, g.snap, p, g.id)
  {
    var a := Known(st, g.snap);
    assert st.claim.alloc.Some? ==> a.worker.None?;
    var st1, r1 := Prepares(env, g, w, st, g.snap);
    var st2, r2 := Sends(env, g, w, st1, a, r1);
    p := st2.nextPool;
    var st3, b := Lands(env, g, w, st2, a, r2, st1.nextReq, shape);
    var st4, r4 := Verifies(env, g, w, st3, b, r2);
    v := Binds(env, g, w, st4, b, r4);
  }

  /**
   * In every environment, from every reachable world with a live claim whose reservation is not being deleted: if a pool
   * as ordered exists, or none exists or was ever recorded, Create can go on until exactly the listed worker is recorded,
   * annotated and published. Foreign pools may disappear, time may pass, and a new pool is made as ordered.
   */
  lemma CreateCanSucceed(env: Env, now: int, run: seq<Step>, w: World, snap: Snapshot, id: string, shape: Pool)
    returns (p: PoolId, v: World)
    requires Exec(env, now, run) == Some(w) && id != "" && snap.subnet != "" && AsOrdered(shape, snap)
    requires w.st.claim.Claim? && !w.st.claim.deleting && (w.st.claim.alloc.Some? ==> w.st.claim.alloc.value.snap == snap)
    requires w.st.res.Some? && w.st.res.value.Own? ==> !w.st.res.value.rec.phase.Deleting?
    requires Known(w.st, snap).worker.Some? ==> Known(w.st, snap).worker == Some(id)
    requires Fresh(w.st, snap) || exists q :: Adoptable(w.st, snap, q)
    ensures Leads(env, Bind(id, snap), w, v) && Bindings(v.st, snap, p, id)
    ensures Known(w.st, snap).pool.Some? ==> Known(w.st, snap).pool == Some(p)
  {
    var g := Bind(id, snap);
    var st := ClearsAway(env, g, now, run, w);
    assert Known(st, snap) == Known(w.st, snap);
    if q :| Adoptable(w.st, snap, q) {
      p := q;
      v := BindsFound(env, g, w, st, p);
    } else {
      assert st.pools == map[];
      var st' := Settles(env, g, w, st);
      var longer := LeadsIsRun(env, g, now, run, w, Calm(st', Free));
      RunBase(env, now, longer, Calm(st', Free));
      assert Known(st', snap) == Known(st, snap);
      p, v := BindsNew(env, g, w, st', shape);
    }
  }

  // ---- a refused create -----------------------------------------------------------------------------

  /** A create counts as refused if and only if it was answered so: a client error other than timeout, conflict and throttling. */
  lemma RefusalIff(env: Env, w: World, status: int)
    ensures Next(env, w, C(Refused(status))).Some? <==>
            && w.holder.CSent? && w.holder.req in w.st.pending
            && 400 <= status <= 499 && status !in {408, 409, 429}
  {
  }

  /** After its refusal is recorded, a create without a pool is certain to have made none. */
  ghost predicate Refuted(st: Store, snap: Snapshot)
  {
    && StoreBase(st) && st.pools == map[] && st.res.Some? && st.res.value.Own?
    && !st.res.value.rec.pending && !st.res.value.rec.phase.Deleting?
    && st.claim.Claim? && st.claim.finalizer && st.claim.bound.None? && st.claim.alloc.Some?
    && st.claim.alloc.value.snap == snap && Merged(st).pool.None?
  }

  lemma RecordsRefusal(env: Env, g: Goal, now: int, run: seq<Step>, w: World) returns (u: World, longer: seq<Step>)
    requires Exec(env, now, run) == Some(w) && w.holder.CRefused? && (g.AtOnce? || g.Resend?)
    ensures Leads(env, g, w, u) && Exec(env, now, longer) == Some(u)
    ensures u.st == w.st.(res := u.st.res, rev := u.st.rev) && u.st.res.Some? && u.st.res.value.Own?
    ensures !u.st.res.value.rec.pending && !u.st.res.value.rec.phase.Deleting?
    ensures u.st.claim.Claim? && u.st.claim.finalizer && u.st.claim.bound.None? && u.st.claim.alloc.Some?
    ensures u.st.claim.alloc.value.snap == w.holder.a.snap && Merged(u.st).pool.None?
  {
    RunBase(env, now, run, w);
    RunPublished(env, now, run, w);
    Stays(env, g, w);
    u := Next(env, w, C(RecordRefusal)).value;
    Then(env, g, w, w, C(RecordRefusal), u);
    longer := LeadsIsRun(env, g, now, run, w, u);
  }

  lemma Refutes(env: Env, g: Goal, now: int, run: seq<Step>, w: World) returns (st: Store)
    requires Exec(env, now, run) == Some(w) && w.holder.CRefused? && NoOwn(w.st) && (g.AtOnce? || g.Resend?)
    ensures Leads(env, g, w, Calm(st, Free)) && Refuted(st, w.holder.a.snap)
    ensures st.claim == w.st.claim && st.now == w.st.now && st.nextReq == w.st.nextReq
  {
    var u, longer := RecordsRefusal(env, g, now, run, w);
    st := ClearsAway(env, g, now, longer, u);
    Joined(env, g, w, u, Calm(st, Free));
    assert forall p :: OwnPool(u.st, p) == OwnPool(w.st, p);
    assert st.pools == map[];
  }

  /**
   * In every environment, from every reachable world in which a create was refused and no pool of the claim exists, a
   * new request can be sent without any time passing.
   */
  lemma RefusedCanRetry(env: Env, now: int, run: seq<Step>, w: World) returns (v: World)
    requires Exec(env, now, run) == Some(w) && w.holder.CRefused? && NoOwn(w.st) && w.st.claim.Claim? && !w.st.claim.deleting
    ensures Leads(env, Resend(w.holder.a.snap), w, v) && v.holder.CSent? && v.st.now == w.st.now
    ensures v.st.nextReq == w.st.nextReq + 1 && v.holder.req == w.st.nextReq && v.holder.req in v.st.pending
  {
    var snap := w.holder.a.snap;
    var st := Refutes(env, Resend(snap), now, run, w);
    v := Resends(env, w, st, snap);
  }

  lemma Resends(env: Env, w: World, st: Store, snap: Snapshot) returns (v: World)
    requires Leads(env, Resend(snap), w, Calm(st, Free)) && Refuted(st, snap) && !st.claim.deleting
    ensures Leads(env, Resend(snap), w, v) && v.holder.CSent? && v.st.now == st.now
    ensures v.st.nextReq == st.nextReq + 1 && v.holder.req == st.nextReq && v.holder.req in v.st.pending
  {
    var g, a := Resend(snap), Known(st, snap);
    var st1, r1 := Prepares(env, g, w, st, snap);
    var st2, r2 := Sends(env, g, w, st1, a, r1);
    v := Calm(st2, CSent(a, r2, st1.nextReq));
  }

  /** And if the claim is terminating, it can be released without any time passing. */
  lemma RefusedCanGo(env: Env, now: int, run: seq<Step>, w: World) returns (v: World)
    requires Exec(env, now, run) == Some(w) && w.holder.CRefused? && NoOwn(w.st) && w.st.claim.Claim? && w.st.claim.deleting
    ensures Leads(env, AtOnce, w, v) && Ended(v)
  {
    var st := Refutes(env, AtOnce, now, run, w);
    var u := Reconciles(env, AtOnce, w, st);
    v := Leaves(env, AtOnce, w, u);
  }
}
