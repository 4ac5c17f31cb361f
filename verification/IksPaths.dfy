/** What can still happen: the worlds that the steps admitted for one purpose can bring about. */
module IksPaths {
  import opened Options
  import opened IksTypes
  import opened IksSteps
  import opened IksInvariant
  import opened IksBase
  import opened IksTheorems

  /**
   * A purpose and the steps it may use. Clean and Delete: the cleaning controllers, the passing of time, a restart and the
   * claim's removal; pools disappear by themselves under Clean, but under Delete a pool of the claim disappears only
   * after its deletion was requested, and every worker listing is the given one. AtOnce is Delete with any listing and
   * without the passing of time, and a refused create may still record its refusal. Bind: Create, its caller, and a cloud
   * in which the pool made is as ordered and holds one worker, as ordered. Resend is Bind without the passing of time.
   */
  datatype Goal =
    | Clean
    | Delete(listing: seq<Option<Worker>>)
    | AtOnce
    | Bind(id: string, snap: Snapshot)
    | Resend(again: Snapshot)

  /** A pool deletion was requested. */
  predicate Asked(st: Store, p: PoolId)
  {
    exists i :: 0 <= i < |st.deletions| && st.deletions[i].pool == p
  }

  predicate MayVanish(g: Goal, st: Store, p: PoolId)
  {
    g.Clean? || !OwnPool(st, p) || ((g.Delete? || g.AtOnce?) && Asked(st, p))
  }

  /** The pool as ordered, and the one worker in it. */
  predicate AsOrdered(p: Pool, snap: Snapshot)
  {
    !p.autoscale && p.size == 1 && p.zones == [snap.zone] && p.flavor == snap.flavor
  }

  function OneWorker(id: string, p: PoolId, snap: Snapshot): seq<Option<Worker>>
  {
    [Some(Worker(id, p, false, snap.zone, snap.flavor, [Interface(true, snap.subnet)]))]
  }

  predicate Cleans(g: Goal)
  {
    g.Clean? || g.Delete? || g.AtOnce?
  }

  ghost predicate Allowed(g: Goal, st: Store, s: Step)
  {
    match s
    case C(c) =>
      if g.AtOnce? then c.RecordRefusal?
      else
        && (g.Bind? || g.Resend?) && !c.Refused?
        && (c.Begin? ==> c.snap == if g.Bind? then g.snap else g.again)
        && (c.ListWorkers? ==> g.Bind? && exists p :: c.workers == OneWorker(g.id, p, g.snap))
    case K(k) => Cleans(g) && (k.CountWorkers? && g.Delete? ==> k.workers == g.listing)
    case T(t) => t.SeeAbsent? || t.DropTombstone? || Cleans(g)
    case E(e) =>
      || e.Crash?
      || (e.Vanish? && MayVanish(g, st, e.id))
      || (e.Tick? && !g.AtOnce? && !g.Resend?)
      || (e.CollectClaim? && Cleans(g))
      || (e.Land? && g.Bind? && AsOrdered(e.shape, g.snap))
      || (e.Publish? && g.Bind?)
  }

  ghost function Path(env: Env, g: Goal, w: World, steps: seq<Step>): Option<World>
  {
    if steps == [] then Some(w)
    else
      var v := Path(env, g, w, steps[..|steps|-1]);
      if v.None? || !Allowed(g, v.value.st, steps[|steps|-1]) then None else Next(env, v.value, steps[|steps|-1])
  }

  ghost predicate Leads(env: Env, g: Goal, w: World, v: World)
  {
    exists steps :: Path(env, g, w, steps) == Some(v)
  }

  lemma Stays(env: Env, g: Goal, w: World)
    ensures Leads(env, g, w, w)
  {
    assert Path(env, g, w, []) == Some(w);
  }

  lemma Then(env: Env, g: Goal, w: World, v: World, s: Step, u: World)
    requires Leads(env, g, w, v) && Allowed(g, v.st, s) && Next(env, v, s) == Some(u)
    ensures Leads(env, g, w, u)
  {
    var steps :| Path(env, g, w, steps) == Some(v);
    OneMore(env, g, w, steps, v, s, u);
  }

  /** A path ends with a step. */
  lemma LastStep(env: Env, g: Goal, w: World, steps: seq<Step>, u: World) returns (v: World)
    requires steps != [] && Path(env, g, w, steps) == Some(u)
    ensures Path(env, g, w, steps[..|steps|-1]) == Some(v) && Allowed(g, v.st, steps[|steps|-1])
    ensures Next(env, v, steps[|steps|-1]) == Some(u)
  {
    v := Path(env, g, w, steps[..|steps|-1]).value;
  }

  lemma OneMore(env: Env, g: Goal, w: World, steps: seq<Step>, v: World, s: Step, u: World)
    requires Path(env, g, w, steps) == Some(v) && Allowed(g, v.st, s) && Next(env, v, s) == Some(u)
    ensures Path(env, g, w, steps + [s]) == Some(u)
  {
    var longer := steps + [s];
    assert longer[..|longer|-1] == steps;
  }

  lemma {:induction false} PathJoin(env: Env, g: Goal, w: World, steps: seq<Step>, v: World, more: seq<Step>, u: World)
    requires Path(env, g, w, steps) == Some(v) && Path(env, g, v, more) == Some(u)
    ensures Path(env, g, w, steps + more) == Some(u)
  {
    if more == [] {
      assert steps + more == steps;
    } else {
      var front, s := more[..|more|-1], more[|more|-1];
      var z := LastStep(env, g, v, more, u);
      PathJoin(env, g, w, steps, v, front, z);
      OneMore(env, g, w, steps + front, z, s, u);
      assert steps + front + [s] == steps + more;
    }
  }

  lemma Joined(env: Env, g: Goal, w: World, v: World, u: World)
    requires Leads(env, g, w, v) && Leads(env, g, v, u)
    ensures Leads(env, g, w, u)
  {
    var steps :| Path(env, g, w, steps) == Some(v);
    var more :| Path(env, g, v, more) == Some(u);
    PathJoin(env, g, w, steps, v, more, u);
  }

  lemma ExecMore(env: Env, now: int, run: seq<Step>, w: World, s: Step, w': World)
    requires Exec(env, now, run) == Some(w) && Next(env, w, s) == Some(w')
    ensures Exec(env, now, run + [s]) == Some(w')
  {
    var longer := run + [s];
    assert longer[..|longer|-1] == run;
  }

  /** A run ends with a step. */
  lemma ExecLast(env: Env, now: int, run: seq<Step>, w: World) returns (v: World)
    requires run != [] && Exec(env, now, run) == Some(w)
    ensures Exec(env, now, run[..|run|-1]) == Some(v) && Next(env, v, run[|run|-1]) == Some(w)
  {
    v := Exec(env, now, run[..|run|-1]).value;
  }

  /** Where a run can be continued to is where some run ends. */
  lemma {:induction false} PathIsRun(env: Env, g: Goal, now: int, run: seq<Step>, w: World, steps: seq<Step>, u: World)
    requires Exec(env, now, run) == Some(w) && Path(env, g, w, steps) == Some(u)
    ensures Exec(env, now, run + steps) == Some(u)
  {
    if steps == [] {
      assert run + steps == run;
    } else {
      var front, s := steps[..|steps|-1], steps[|steps|-1];
      var v := LastStep(env, g, w, steps, u);
      PathIsRun(env, g, now, run, w, front, v);
      ExecMore(env, now, run + front, v, s, u);
      assert run + front + [s] == run + steps;
    }
  }

  lemma LeadsIsRun(env: Env, g: Goal, now: int, run: seq<Step>, w: World, v: World) returns (longer: seq<Step>)
    requires Exec(env, now, run) == Some(w) && Leads(env, g, w, v)
    ensures Exec(env, now, longer) == Some(v)
  {
    var steps :| Path(env, g, w, steps) == Some(v);
    PathIsRun(env, g, now, run, w, steps, v);
    longer := run + steps;
  }

  /** The world after a restart. */
  function Calm(st: Store, h: Holder): World
  {
    World(st, h, None, {}, {}, {}, None)
  }

  lemma Restart(env: Env, g: Goal, w: World)
    ensures Leads(env, g, w, Calm(w.st, Free))
  {
    Stays(env, g, w);
    Then(env, g, w, w, E(Crash), Calm(w.st, Free));
  }

  lemma VanishOne(env: Env, g: Goal, w: World, st: Store, p: PoolId) returns (st': Store)
    requires Leads(env, g, w, Calm(st, Free)) && p in st.pools && MayVanish(g, st, p)
    ensures st' == st.(pools := st.pools - {p}) && Leads(env, g, w, Calm(st', Free))
  {
    st' := st.(pools := st.pools - {p});
    Then(env, g, w, Calm(st, Free), E(Vanish(p)), Calm(st', Free));
  }

  lemma VanishKeeps(g: Goal, st: Store, p: PoolId, q: PoolId)
    requires p != q && q in st.pools
    ensures MayVanish(g, st.(pools := st.pools - {p}), q) == MayVanish(g, st, q)
  {
    assert Asked(st.(pools := st.pools - {p}), q) == Asked(st, q);
  }

  /** Every pool that may disappear does. */
  lemma {:induction false} Clears(env: Env, g: Goal, w: World, st: Store) returns (st': Store)
    requires Leads(env, g, w, Calm(st, Free))
    ensures Leads(env, g, w, Calm(st', Free)) && st' == st.(pools := st'.pools)
    ensures forall p :: p in st'.pools <==> p in st.pools && !MayVanish(g, st, p)
    ensures forall p :: p in st'.pools ==> st'.pools[p] == st.pools[p]
    decreases |st.pools|
  {
    if p :| p in st.pools && MayVanish(g, st, p) {
      var st1 := VanishOne(env, g, w, st, p);
      forall q | q in st1.pools ensures MayVanish(g, st1, q) == MayVanish(g, st, q) { VanishKeeps(g, st, p, q); }
      assert st.pools.Keys == st1.pools.Keys + {p};
      st' := Clears(env, g, w, st1);
    } else {
      st' := st;
    }
  }

  // ---- tombstones belong to unclaimed pools -------------------------------------------------------

  /** A tombstone, and a candidate that has passed the first look, are of pools without a claim. */
  predicate TombOk(w: World)
  {
    && (w.st.res.Some? && w.st.res.value.Tombstone? ==>
          w.st.res.value.pool in w.st.owners && w.st.owners[w.st.res.value.pool].NoClaim?)
    && (w.holder.TEmpty? ==> w.holder.candidate in w.st.owners && w.st.owners[w.holder.candidate].NoClaim?)
  }

  /** A create writes no tombstones and leaves the collector's holders alone. */
  lemma CreateTomb(env: Env, w: World, s: CreateStep, w': World)
    requires TombOk(w) && CreateNext(env, w, s) == Some(w')
    ensures TombOk(w')
  {
    if !s.Begin? {
      CreateHolder(env, w, s, w');
    }
    CreateStore(env, w, s, w');
  }

  lemma CreateHolder(env: Env, w: World, s: CreateStep, w': World)
    requires CreateNext(env, w, s) == Some(w') && !s.Begin?
    ensures IsCreate(w'.holder) || w'.holder.Free?
  {
  }

  lemma CreateStore(env: Env, w: World, s: CreateStep, w': World)
    requires CreateNext(env, w, s) == Some(w')
    ensures w'.st.owners == w.st.owners && w'.st.deletions == w.st.deletions
    ensures w'.st.res == w.st.res || (w'.st.res.Some? && w'.st.res.value.Own?)
  {
    if Writes(s) {
      CreateWrites(env, w, s, w');
    } else {
      CreateReads(env, w, s, w');
    }
  }

  lemma CreateWrites(env: Env, w: World, s: CreateStep, w': World)
    requires CreateNext(env, w, s) == Some(w') && Writes(s)
    ensures w'.st.owners == w.st.owners && w'.st.deletions == w.st.deletions
    ensures w'.st.res == w.st.res || (w'.st.res.Some? && w'.st.res.value.Own?)
  {
    match s
    case Checkpoint => assert w'.st == Annotate(w.st, w.holder.a);
    case ReserveNew => assert w'.holder.CReserved?;
    case RecordStart => assert w'.holder.CRecorded?;
    case Send => assert w'.st.res == w.st.res;
    case Refused(_) => assert w'.st.res == w.st.res;
    case RecordRefusal => assert w'.holder.Free?;
    case Activate => assert w'.st.claim == w.st.claim;
  }

  lemma CleanTomb(env: Env, w: World, s: CleanStep, w': World)
    requires TombOk(w) && CleanNext(env, w, s) == Some(w')
    ensures TombOk(w')
  {
  }

  lemma CollectTomb(w: World, s: CollectStep, w': World)
    requires TombOk(w) && CloudOk(w.st) && CollectNext(w, s) == Some(w')
    ensures TombOk(w')
  {
  }

  lemma EnvTomb(env: Env, w: World, s: EnvStep, w': World)
    requires TombOk(w) && CloudOk(w.st) && EnvNext(env, w, s) == Some(w')
    ensures TombOk(w')
  {
  }

  lemma StepTomb(env: Env, w: World, s: Step, w': World)
    requires TombOk(w) && CloudOk(w.st) && Next(env, w, s) == Some(w')
    ensures TombOk(w')
  {
    match s
    case C(c) => CreateTomb(env, w, c, w');
    case K(k) => CleanTomb(env, w, k, w');
    case T(t) => CollectTomb(w, t, w');
    case E(e) => EnvTomb(env, w, e, w');
  }

  lemma {:induction false} RunTomb(env: Env, now: int, run: seq<Step>, w: World)
    requires Exec(env, now, run) == Some(w)
    ensures TombOk(w)
  {
    if run != [] {
      var v := ExecLast(env, now, run, w);
      RunTomb(env, now, run[..|run|-1], v);
      RunBase(env, now, run[..|run|-1], v);
      StepTomb(env, v, run[|run|-1], w);
    }
  }

  /** A tombstone whose pool is gone is released. */
  lemma Unblocks(env: Env, g: Goal, w: World, st: Store) returns (st': Store)
    requires Leads(env, g, w, Calm(st, Free))
    requires st.res.Some? && st.res.value.Tombstone? ==> st.res.value.pool !in st.pools
    ensures Leads(env, g, w, Calm(st', Free))
    ensures st' == if st.res.Some? && st.res.value.Tombstone? then st.(res := None, rev := st.rev + 1) else st
  {
    st' := st;
    if st.res.Some? && st.res.value.Tombstone? {
      var t := st.res.value;
      SeesAbsent(env, g, w, st, t);
      st' := Drops(env, g, w, st, t);
    }
  }

  lemma SeesAbsent(env: Env, g: Goal, w: World, st: Store, t: Reservation)
    requires Leads(env, g, w, Calm(st, Free)) && st.res == Some(t) && t.Tombstone? && t.pool !in st.pools
    ensures Leads(env, g, w, Calm(st, Free).(tombs := {t}))
  {
    assert {} + {t} == {t};
    Then(env, g, w, Calm(st, Free), T(SeeAbsent), Calm(st, Free).(tombs := {t}));
  }

  lemma Drops(env: Env, g: Goal, w: World, st: Store, t: Reservation) returns (st': Store)
    requires Leads(env, g, w, Calm(st, Free).(tombs := {t})) && st.res == Some(t) && t.Tombstone?
    ensures Leads(env, g, w, Calm(st', Free)) && st' == st.(res := None, rev := st.rev + 1)
  {
    st' := st.(res := None, rev := st.rev + 1);
    Then(env, g, w, Calm(st, Free).(tombs := {t}), T(DropTombstone(t)), Calm(st', Free).(tombs := {t}));
    Then(env, g, w, Calm(st', Free).(tombs := {t}), E(Crash), Calm(st', Free));
  }

  /** All that can be cleared away, from any reachable world: foreign pools and tombstones. */
  lemma ClearsAway(env: Env, g: Goal, now: int, run: seq<Step>, w: World) returns (st: Store)
    requires Exec(env, now, run) == Some(w)
    ensures Leads(env, g, w, Calm(st, Free)) && StoreBase(st)
    ensures st == w.st.(pools := st.pools, res := st.res, rev := st.rev)
    ensures st.res == if w.st.res.Some? && w.st.res.value.Tombstone? then None else w.st.res
    ensures forall p :: p in st.pools <==> p in w.st.pools && !MayVanish(g, w.st, p)
    ensures forall p :: p in st.pools ==> st.pools[p] == w.st.pools[p]
  {
    RunBase(env, now, run, w);
    RunTomb(env, now, run, w);
    Restart(env, g, w);
    var st1 := Clears(env, g, w, w.st);
    st := Unblocks(env, g, w, st1);
    var longer := LeadsIsRun(env, g, now, run, w, Calm(st, Free));
    RunBase(env, now, longer, Calm(st, Free));
  }
}
