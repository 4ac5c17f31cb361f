/**
 * The creation window is exactly as wide as it has to be. The code reads the clock after the pool
 * lookup it judges and stores the start cut to whole seconds, so "a create takes effect within the
 * window" is not enough: the lookup lag and the lost fraction of a second also have to fit.
 */
module IksWindow {
  import opened Options
  import opened IksTypes
  import opened IksSteps
  import opened IksInvariant
  import opened IksTheorems

  // The last nanosecond of a second: the stored start of a create begun here is 0.
  const T0 := SECOND - 1

  const SNAP := Snapshot("flavor", "zone", "subnet", "")
  const A0 := Allocation(SNAP, None, None)
  const R1 := Record(2, Reserved, false, None, A0)
  const R2 := Record(3, Creating, true, Some(0), A0)
  const R3 := Record(5, Deleting, true, Some(0), A0)
  const RD := Read(4, Some(A0), None, true)
  const SHAPE := Pool(OwnClaim, true, 0, "flavor", ["zone"], false, 1, 1)
  const OWN := SHAPE.(start := T0)
  const RETRIED := Claim(4, false, true, Some(A0), None)
  const ENDED := Claim(4, true, true, Some(A0), None)

  /** `run` leads from a new claim to `w`. */
  predicate Leads(env: Env, run: seq<Step>, w: World)
  {
    Exec(env, T0, run) == Some(w)
  }

  lemma Extend(env: Env, run: seq<Step>, w: World, s: Step, w': World) returns (longer: seq<Step>)
    requires Leads(env, run, w) && Next(env, w, s) == Some(w')
    ensures Leads(env, longer, w')
  {
    longer := run + [s];
    assert longer[..|longer|-1] == run;
  }

  function Clean(st: Store, h: Holder): World
  {
    World(st, h, None, {}, {}, {}, None)
  }

  // ---- a create is on its way and its process is gone -----------------------------------------

  /** The claim is checkpointed. */
  function S1(): Store
  {
    Init(T0).st.(claim := Claim(1, false, true, Some(A0), None), rev := 1, pinned := Some(SNAP))
  }

  /** The reservation is made and no pool exists. */
  function S1r(): Store
  {
    S1().(res := Some(Own(R1)), rev := 2)
  }

  /** The create is on its way. */
  function S2(): Store
  {
    S1().(res := Some(Own(R2)), rev := 3, pending := map[0 := T0], nextReq := 1)
  }

  lemma Checkpointed(env: Env) returns (run: seq<Step>)
    ensures Leads(env, run, Clean(S1(), CPinned(A0)))
  {
    var w := Init(T0);
    run := Extend(env, [], w, C(Begin(SNAP)), w.(waiting := Some(A0)));
    run := Extend(env, run, w.(waiting := Some(A0)), C(Lock), w.(holder := CLocked(A0)));
    run := Extend(env, run, w.(holder := CLocked(A0)), C(ReadOwner), w.(holder := COwner(A0, 0, AtStart)));
    run := Extend(env, run, w.(holder := COwner(A0, 0, AtStart)), C(Checkpoint), Clean(S1(), CPinned(A0)));
  }

  lemma Prepared(env: Env, before: seq<Step>) returns (run: seq<Step>)
    requires Leads(env, before, Clean(S1(), CPinned(A0)))
    ensures Leads(env, run, Clean(S1r(), CClear(A0, R1)))
  {
    run := Extend(env, before, Clean(S1(), CPinned(A0)), C(Reserve), Clean(S1(), CNoRecord(A0)));
    run := Extend(env, run, Clean(S1(), CNoRecord(A0)), C(ReserveNew), Clean(S1r(), CReserved(A0, R1)));
    run := Extend(env, run, Clean(S1r(), CReserved(A0, R1)), C(FindPool(None)), Clean(S1r(), CAbsent(A0, R1, T0)));
    run := Extend(env, run, Clean(S1r(), CAbsent(A0, R1, T0)), C(Judge), Clean(S1r(), CClear(A0, R1)));
  }

  lemma Submitted(env: Env) returns (run: seq<Step>)
    ensures Leads(env, run, Clean(S2(), Free))
  {
    run := Checkpointed(env);
    run := Prepared(env, run);
    var st := S1r().(res := Some(Own(R2)), rev := 3);
    run := Extend(env, run, Clean(S1r(), CClear(A0, R1)), C(Stamp), Clean(S1r(), CStamped(A0, R1, T0)));
    run := Extend(env, run, Clean(S1r(), CStamped(A0, R1, T0)), C(RecordStart), Clean(st, CRecorded(A0, R2, T0)));
    run := Extend(env, run, Clean(st, CRecorded(A0, R2, T0)), C(Send), Clean(S2(), CSent(A0, R2, 0)));
    run := Extend(env, run, Clean(S2(), CSent(A0, R2, 0)), E(Crash), Clean(S2(), Free));
  }

  // ---- an orphan ------------------------------------------------------------------------------

  /** The claim is terminating and its cleanup has stored "deleting". */
  function S3(): Store
  {
    S2().(claim := ENDED, res := Some(Own(R3)), rev := 5, ending := true)
  }

  lemma Marked(env: Env, before: seq<Step>) returns (run: seq<Step>)
    requires Leads(env, before, Clean(S2(), Free))
    ensures Leads(env, run, Clean(S3(), KMarked(A0, RD, R3)))
  {
    var st := S2().(claim := ENDED, rev := 4);
    run := Extend(env, before, Clean(S2(), Free), E(DeleteClaim), Clean(st, Free));
    var w := Clean(st, Free).(cleaners := {RD});
    assert {} + {RD} == {RD} && w.cleaners - {RD} == {};
    run := Extend(env, run, Clean(st, Free), K(ReadClaim(true)), w);
    run := Extend(env, run, w, K(LockCleanup(RD)), Clean(st, KLocked(A0, RD)));
    run := Extend(env, run, Clean(st, KLocked(A0, RD)), K(CleanReserve), Clean(st, KReserved(A0, RD, R2)));
    run := Extend(env, run, Clean(st, KReserved(A0, RD, R2)), K(Mark), Clean(S3(), KMarked(A0, RD, R3)));
  }

  /** `st` later, after its create has made a pool. */
  function Landed(st: Store, now: int): Store
  {
    st.(now := now, pools := map[0 := OWN], owners := map[0 := OwnClaim], nextPool := 1, pending := map[], landed := map[0 := 0])
  }

  /** The create takes effect at the last moment, and the lookup before it is judged at the last moment. */
  lemma LandsLate(env: Env, before: seq<Step>, st: Store, h: Holder) returns (run: seq<Step>)
    requires Leads(env, before, Clean(st, h)) && st.now == T0 + env.delay && st.pending == map[0 := T0]
    requires st.pools == map[] && st.owners == map[] && st.landed == map[] && st.nextPool == 0
    ensures Leads(env, run, Clean(Landed(st, st.now + env.lag), h))
  {
    assert st.pending - {0} == map[];
    run := Extend(env, before, Clean(st, h), E(Land(0, SHAPE)), Clean(Landed(st, st.now), h));
    run := Extend(env, run, Clean(Landed(st, st.now), h), E(Tick(env.lag)), Clean(Landed(st, st.now + env.lag), h));
  }

  lemma Waits(env: Env, before: seq<Step>, st: Store, h: Holder, span: nat) returns (run: seq<Step>)
    requires Leads(env, before, Clean(st, h))
    ensures Leads(env, run, Clean(st.(now := st.now + span), h))
  {
    run := Extend(env, before, Clean(st, h), E(Tick(span)), Clean(st.(now := st.now + span), h));
  }

  lemma FindsNothing(env: Env, before: seq<Step>, st: Store, rd: Read, r: Record) returns (run: seq<Step>)
    requires Leads(env, before, Clean(st, KMarked(A0, rd, r))) && st.pools == map[]
    ensures Leads(env, run, Clean(st, KAbsent(A0, rd, r, st.now)))
  {
    run := Extend(env, before, Clean(st, KMarked(A0, rd, r)), K(CleanFind(None)), Clean(st, KAbsent(A0, rd, r, st.now)));
  }

  /** The lookup finds nothing, the create takes effect, and only then is the clock read. */
  lemma Missed(env: Env, before: seq<Step>) returns (run: seq<Step>)
    requires Leads(env, before, Clean(S3(), KMarked(A0, RD, R3)))
    ensures Leads(env, run, Clean(Landed(S3(), T0 + env.delay + env.lag), KAbsent(A0, RD, R3, T0 + env.delay)))
  {
    var st := S3().(now := T0 + env.delay);
    run := Waits(env, before, S3(), KMarked(A0, RD, R3), env.delay);
    run := FindsNothing(env, run, st, RD, R3);
    run := LandsLate(env, run, st, KAbsent(A0, RD, R3, st.now));
    assert Landed(st, st.now + env.lag) == Landed(S3(), T0 + env.delay + env.lag);
  }

  /** The cleanup takes the pool for absent and gives up the reservation. */
  lemma GivesUp(env: Env, before: seq<Step>, st: Store) returns (run: seq<Step>, w: World)
    requires !Safe(env) && st == Landed(S3(), T0 + env.delay + env.lag)
    requires Leads(env, before, Clean(st, KAbsent(A0, RD, R3, T0 + env.delay)))
    ensures w == Clean(st.(res := None, rev := 6, settled := true), Free).(releases := {4}) && Leads(env, run, w)
  {
    run := Extend(env, before, Clean(st, KAbsent(A0, RD, R3, T0 + env.delay)), K(CleanJudge), Clean(st, KClear(A0, RD, R3)));
    w := Clean(st.(res := None, rev := 6, settled := true), Free).(releases := {4});
    assert {} + {4} == w.releases;
    run := Extend(env, run, Clean(st, KClear(A0, RD, R3)), K(Settle), w);
  }

  /** If the window has no room for the delay, the lag and a second, some run leaves a pool behind. */
  lemma OrphanRun(env: Env) returns (run: seq<Step>, w: World)
    requires !Safe(env)
    ensures Exec(env, T0, run) == Some(w)
    ensures OwnPool(w.st, 0) && w.st.claim.Gone?
  {
    run := Submitted(env);
    run := Marked(env, run);
    run := Missed(env, run);
    run, w := GivesUp(env, run, Landed(S3(), T0 + env.delay + env.lag));
    var st := w.st.(claim := Claim(7, true, false, Some(A0), None), rev := 7);
    assert w.releases - {4} == {};
    run := Extend(env, run, w, K(Release(4)), Clean(st, Free));
    w := Clean(st.(claim := Gone), Free);
    run := Extend(env, run, Clean(st, Free), E(CollectClaim), w);
  }

  /**
   * No run leaves a pool behind if and only if the create delay, the lag of a lookup and the second
   * lost to the stored timestamp together fit into the creation window.
   */
  lemma NoOrphanIff(env: Env)
    ensures (forall now, run :: Exec(env, now, run).Some? ==> NoOrphan(env, Exec(env, now, run).value.st))
            <==> env.delay + env.lag + SECOND - 1 <= WINDOW
  {
    if Safe(env) {
      forall now, run | Exec(env, now, run).Some? ensures NoOrphan(env, Exec(env, now, run).value.st) {
        NoOrphanInAnyRun(env, now, run, Exec(env, now, run).value);
      }
    } else {
      var run, w := OrphanRun(env);
      assert Exec(env, T0, run).Some? && !NoOrphan(env, Exec(env, T0, run).value.st);
    }
  }

  // ---- a duplicate ----------------------------------------------------------------------------

  /** The create is tried again: the claim is checkpointed anew and the reservation found. */
  function D1(): Store
  {
    S2().(claim := RETRIED, rev := 4)
  }

  lemma Retried(env: Env, before: seq<Step>) returns (run: seq<Step>)
    requires Leads(env, before, Clean(S2(), Free))
    ensures Leads(env, run, Clean(D1(), CReserved(A0, R2)))
  {
    var w := Clean(S2(), Free);
    run := Extend(env, before, w, C(Begin(SNAP)), w.(waiting := Some(A0)));
    run := Extend(env, run, w.(waiting := Some(A0)), C(Lock), Clean(S2(), CLocked(A0)));
    run := Extend(env, run, Clean(S2(), CLocked(A0)), C(ReadOwner), Clean(S2(), COwner(A0, 1, AtStart)));
    run := Extend(env, run, Clean(S2(), COwner(A0, 1, AtStart)), C(Checkpoint), Clean(D1(), CPinned(A0)));
    run := Extend(env, run, Clean(D1(), CPinned(A0)), C(Reserve), Clean(D1(), CReserved(A0, R2)));
  }

  lemma FindsNoPool(env: Env, before: seq<Step>, st: Store, r: Record) returns (run: seq<Step>)
    requires Leads(env, before, Clean(st, CReserved(A0, r))) && st.pools == map[]
    ensures Leads(env, run, Clean(st, CAbsent(A0, r, st.now)))
  {
    run := Extend(env, before, Clean(st, CReserved(A0, r)), C(FindPool(None)), Clean(st, CAbsent(A0, r, st.now)));
  }

  lemma MissedAgain(env: Env, before: seq<Step>) returns (run: seq<Step>)
    requires Leads(env, before, Clean(D1(), CReserved(A0, R2)))
    ensures Leads(env, run, Clean(Landed(D1(), T0 + env.delay + env.lag), CAbsent(A0, R2, T0 + env.delay)))
  {
    var st := D1().(now := T0 + env.delay);
    run := Waits(env, before, D1(), CReserved(A0, R2), env.delay);
    run := FindsNoPool(env, run, st, R2);
    run := LandsLate(env, run, st, CAbsent(A0, R2, st.now));
    assert Landed(st, st.now + env.lag) == Landed(D1(), T0 + env.delay + env.lag);
  }

  /** A pool exists and a second create is on its way that can take effect now. */
  predicate Doubled(w: World)
  {
    OwnPool(w.st, 0) && w.st.nextPool == 1 && 1 in w.st.pending && w.st.now == w.st.pending[1]
  }

  /** The second create is recorded and sent although the first one's pool exists. */
  lemma SentAgain(env: Env, before: seq<Step>, st: Store, seen: int) returns (run: seq<Step>, w: World)
    requires Leads(env, before, Clean(st, CAbsent(A0, R2, seen))) && st.res == Some(Own(R2))
    requires st.now <= seen + env.lag && !Uncertain(R2, st.now)
    requires OwnPool(st, 0) && st.nextPool == 1 && st.nextReq == 1
    ensures Leads(env, run, w) && Doubled(w)
  {
    run := Extend(env, before, Clean(st, CAbsent(A0, R2, seen)), C(Judge), Clean(st, CClear(A0, R2)));
    run := Extend(env, run, Clean(st, CClear(A0, R2)), C(Stamp), Clean(st, CStamped(A0, R2, st.now)));
    var r := Update(R2, A0, Creating, st.now, st.rev + 1);
    var st' := Put(st, r);
    run := Extend(env, run, Clean(st, CStamped(A0, R2, st.now)), C(RecordStart), Clean(st', CRecorded(A0, r, st.now)));
    w := Clean(st'.(pending := st'.pending[1 := st.now], nextReq := 2), CSent(A0, r, 1));
    run := Extend(env, run, Clean(st', CRecorded(A0, r, st.now)), C(Send), w);
  }

  /** The store in which the second lookup is judged. */
  lemma TwiceMissed(env: Env) returns (run: seq<Step>, st: Store)
    ensures Leads(env, run, Clean(st, CAbsent(A0, R2, T0 + env.delay))) && st.now == T0 + env.delay + env.lag
    ensures st.res == Some(Own(R2)) && OwnPool(st, 0) && st.nextPool == 1 && st.nextReq == 1
  {
    run := Submitted(env);
    run := Retried(env, run);
    run := MissedAgain(env, run);
    st := Landed(D1(), T0 + env.delay + env.lag);
  }

  lemma LandsToo(env: Env, before: seq<Step>, v: World) returns (run: seq<Step>, w: World)
    requires Leads(env, before, v) && Doubled(v)
    ensures Leads(env, run, w) && OwnPool(w.st, 0) && OwnPool(w.st, 1)
  {
    w := Next(env, v, E(Land(1, SHAPE))).value;
    run := Extend(env, before, v, E(Land(1, SHAPE)), w);
  }

  /** In the same environments some run makes two pools for one claim. */
  lemma DuplicateRun(env: Env) returns (run: seq<Step>, w: World)
    requires !Safe(env)
    ensures Leads(env, run, w) && OwnPool(w.st, 0) && OwnPool(w.st, 1)
  {
    var st, v;
    run, st := TwiceMissed(env);
    run, v := SentAgain(env, run, st, T0 + env.delay);
    run, w := LandsToo(env, run, v);
  }

  lemma TwoAreNotUnique(env: Env, st: Store)
    requires OwnPool(st, 0) && OwnPool(st, 1)
    ensures !Unique(env, st)
  {
    var p: PoolId, q: PoolId := 0, 1;
    assert OwnPool(st, p) && OwnPool(st, q) && p != q;
  }

  /** A claim never has two pools, or a pool beside a live create, under the same condition and no weaker one. */
  lemma NoDuplicateIff(env: Env)
    ensures (forall now, run :: Exec(env, now, run).Some? ==> Unique(env, Exec(env, now, run).value.st))
            <==> env.delay + env.lag + SECOND - 1 <= WINDOW
  {
    if Safe(env) {
      forall now, run | Exec(env, now, run).Some? ensures Unique(env, Exec(env, now, run).value.st) {
        AtMostOnePool(env, now, run, Exec(env, now, run).value);
      }
    } else {
      var run, w := DuplicateRun(env);
      TwoAreNotUnique(env, w.st);
      assert Exec(env, T0, run) == Some(w);
      assert Exec(env, T0, run).Some? && !Unique(env, Exec(env, T0, run).value.st);
    }
  }
}
