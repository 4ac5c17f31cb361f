/** The main results of VPC launch recovery, over every run. */
module VpcTheorems {
  import opened Options
  import opened VpcLaunch
  import opened VpcInvariant
  import opened VpcKeeps
  import opened VpcOnce

  lemma StepKeeps(env: Env, w: World, s: Step, w': World)
    requires Safe(env) && Inv(env, w) && Next(env, w, s) == Some(w')
    ensures Inv(env, w')
  {
    match s
    case C(c) => CreateStepKeeps(env, w, c, w');
    case K(k) => CleanStepKeeps(env, w, k, w');
    case E(e) => EnvStepKeeps(env, w, e, w');
  }

  lemma {:induction false} RunKeeps(env: Env, now: int, run: seq<Step>, w: World)
    requires Safe(env) && Exec(env, now, run) == Some(w)
    ensures Inv(env, w)
  {
    if run == [] {
      InitInv(env, now);
    } else {
      var v := Exec(env, now, run[..|run|-1]).value;
      RunKeeps(env, now, run[..|run|-1], v);
      StepKeeps(env, v, run[|run|-1], w);
    }
  }

  /** An instance, or a create that can still make one, has a claim with the finalizer and its checkpoint. */
  ghost predicate NoLeak(env: Env, st: Store)
  {
    && (forall i :: Own(st, i) ==> Covered(st.claim, st.instances[i]))
    && (forall q :: LiveReq(env, st, q) ==> Covered(st.claim, st.pending[q]))
  }

  lemma NoLeakInAnyRun(env: Env, now: int, run: seq<Step>, w: World)
    requires Safe(env) && Exec(env, now, run) == Some(w)
    ensures NoLeak(env, w.st)
  {
    RunKeeps(env, now, run, w);
  }

  /** A claim never has two instances, nor an instance beside a create that can still make one, whatever the lag. */
  lemma AtMostOneInstance(env: Env, now: int, run: seq<Step>, w: World)
    requires Prompt(env) && Exec(env, now, run) == Some(w)
    ensures Unique(env, w.st)
  {
    RunOnce(env, now, run, w);
  }

  ghost predicate Drops(w: World, w': World)
  {
    w.st.claim.Claim? && w.st.claim.finalizer && !(w'.st.claim.Claim? && w'.st.claim.finalizer)
  }

  /** In every environment only the release and the reset of a given-up launch drop the finalizer. */
  lemma OnlyTwoDrop(env: Env, w: World, s: Step, w': World)
    requires Next(env, w, s) == Some(w') && Drops(w, w')
    ensures s == K(Release) || s == C(Reset)
  {
  }

  /**
   * Whichever thread drops the launch finalizer, nothing of the launch exists at that moment, no
   * create can still take effect, and no create about to be sent would take effect in time.
   */
  lemma FinalizerDropsOnNothing(env: Env, now: int, run: seq<Step>, w: World, s: Step, w': World)
    requires Safe(env) && Exec(env, now, run) == Some(w) && Next(env, w, s) == Some(w') && Drops(w, w')
    ensures NoHazard(env, w.st) && NoHazard(env, w'.st) && !Fresh(env, w'.st, w'.cr)
  {
    RunKeeps(env, now, run, w);
    match s
    case C(c) => OnlyResetDrops(env, w, c, w');
    case K(k) => OnlyReleaseDrops(env, w, k, w');
    case E(e) =>
  }

  lemma OnlyResetDrops(env: Env, w: World, c: CreateStep, w': World)
    requires Inv(env, w) && CreateNext(env, w, c) == Some(w')
    requires Drops(w, w')
    ensures c.Reset? && NoHazard(env, w.st) && NoHazard(env, w'.st) && !Fresh(env, w'.st, w'.cr)
  {
    assert c.Reset?;
    assert Calmer(env, w.st, w'.st);
  }

  lemma OnlyReleaseDrops(env: Env, w: World, k: CleanStep, w': World)
    requires Inv(env, w) && CleanNext(env, w, k) == Some(w')
    requires Drops(w, w')
    ensures k.Release? && NoHazard(env, w.st) && NoHazard(env, w'.st) && !Fresh(env, w'.st, w'.cr)
  {
    assert k.Release?;
    assert Calmer(env, w.st, w'.st);
  }

  /** A published provider ID is the only instance the launch can ever have. */
  lemma PublishedInstanceIsTheOnlyOne(env: Env, now: int, run: seq<Step>, w: World, i: nat)
    requires Prompt(env) && Exec(env, now, run) == Some(w)
    requires w.st.claim.Claim? && w.st.claim.bound.Some? && Own(w.st, i)
    ensures w.st.claim.bound == Some(i) && NoLive(env, w.st)
  {
    RunOnce(env, now, run, w);
  }

  // ---- the resolution window is exactly wide enough --------------------------------------------

  const P := Launch("", false, false, 0)
  const L := Launch("", true, false, 0)

  /** `run` leads from a new claim at time 0 to `w`. */
  predicate Leads(env: Env, run: seq<Step>, w: World)
  {
    Exec(env, 0, run) == Some(w)
  }

  lemma Extend(env: Env, run: seq<Step>, w: World, s: Step, w': World) returns (longer: seq<Step>)
    requires Leads(env, run, w) && Next(env, w, s) == Some(w')
    ensures Leads(env, longer, w')
  {
    longer := run + [s];
    assert longer[..|longer|-1] == run;
  }

  function Calm(st: Store, cr: Creator, cl: Cleaner): World
  {
    World(st, cr, cl, None)
  }

  /** The create is on its way and its process is gone. */
  function S2(): Store
  {
    Init(0).st.(claim := Claim(2, false, true, Some(L), None), rev := 2, pending := map[0 := 0], nextReq := 1)
  }

  /** A launch from a store without one, up to the sent request. */
  lemma Launches(env: Env, before: seq<Step>, st: Store) returns (run: seq<Step>, after: Store)
    requires Leads(env, before, Calm(st, Idle, Resting)) && st.instances == map[]
    requires st.claim.Claim? && !st.claim.deleting && st.claim.launch.None? && st.claim.bound.None?
    ensures var c := Claim(st.rev + 2, false, true, Some(L.(at := st.now)), None);
            after == st.(claim := c, rev := st.rev + 2, pending := st.pending[st.nextReq := st.now], nextReq := st.nextReq + 1)
    ensures Leads(env, run, Calm(after, Idle, Resting))
  {
    var v, v' := st.claim.version, st.rev + 1;
    run := Extend(env, before, Calm(st, Idle, Resting), C(Begin), Calm(st, Fetched(v, None), Resting));
    run := Extend(env, run, Calm(st, Fetched(v, None), Resting), C(Recheck), Calm(st, Checked(v), Resting));
    var st1 := st.(claim := Claim(v', false, true, Some(P), None), rev := v');
    run := Extend(env, run, Calm(st, Checked(v), Resting), C(Checkpoint("")), Calm(st1, Prepared(v', P), Resting));
    run := Extend(env, run, Calm(st1, Prepared(v', P), Resting), C(Look(None)), Calm(st1, Unseen(v', P), Resting));
    run, after := Submits(env, run, st1);
  }

  lemma Submits(env: Env, before: seq<Step>, st: Store) returns (run: seq<Step>, after: Store)
    requires Leads(env, before, Calm(st, Unseen(st.rev, P), Resting))
    requires st.claim == Claim(st.rev, false, true, Some(P), None)
    ensures var c := Claim(st.rev + 1, false, true, Some(L.(at := st.now)), None);
            after == st.(claim := c, rev := st.rev + 1, pending := st.pending[st.nextReq := st.now], nextReq := st.nextReq + 1)
    ensures Leads(env, run, Calm(after, Idle, Resting))
  {
    var l := L.(at := st.now);
    run := Extend(env, before, Calm(st, Unseen(st.rev, P), Resting), C(Stamp), Calm(st, Stamped(st.rev, l), Resting));
    var st2 := st.(claim := Claim(st.rev + 1, false, true, Some(l), None), rev := st.rev + 1);
    run := Extend(env, run, Calm(st, Stamped(st.rev, l), Resting), C(Submit), Calm(st2, Submitted(l), Resting));
    after := st2.(pending := st.pending[st.nextReq := st.now], nextReq := st.nextReq + 1);
    run := Extend(env, run, Calm(st2, Submitted(l), Resting), C(Send), Calm(after, Sent(l, st.nextReq), Resting));
    run := Extend(env, run, Calm(after, Sent(l, st.nextReq), Resting), E(Crash), Calm(after, Idle, Resting));
  }

  lemma FirstLaunch(env: Env) returns (run: seq<Step>)
    ensures Leads(env, run, Calm(S2(), Idle, Resting))
  {
    var after;
    run, after := Launches(env, [], Init(0).st);
    assert after == S2();
  }

  // ---- a leak -----------------------------------------------------------------------------------

  function S3(env: Env): Store
  {
    S2().(claim := Claim(3, true, true, Some(L), None), rev := 3, now := env.delay)
  }

  function S4(env: Env): Store
  {
    S3(env).(now := env.delay + env.lag, instances := map[0 := 0], nextId := 1, pending := map[], landed := map[0 := 0])
  }

  /** The lookup of a terminating claim just misses the instance, and is judged too late to matter. */
  lemma Misses(env: Env) returns (run: seq<Step>)
    ensures Leads(env, run, Calm(S4(env), Idle, Absent(3, L, env.delay)))
  {
    run := FirstLaunch(env);
    var st := S3(env).(now := 0);
    run := Extend(env, run, Calm(S2(), Idle, Resting), E(DeleteClaim), Calm(st, Idle, Resting));
    run := Extend(env, run, Calm(st, Idle, Resting), K(Take), Calm(st, Idle, Taken(3, Some(L), None)));
    run := Extend(env, run, Calm(st, Idle, Taken(3, Some(L), None)), E(Tick(env.delay)), Calm(S3(env), Idle, Taken(3, Some(L), None)));
    run := Extend(env, run, Calm(S3(env), Idle, Taken(3, Some(L), None)), K(Search(None)), Calm(S3(env), Idle, Absent(3, L, env.delay)));
    run := LandsLate(env, run);
  }

  lemma LandsLate(env: Env, before: seq<Step>) returns (run: seq<Step>)
    requires Leads(env, before, Calm(S3(env), Idle, Absent(3, L, env.delay)))
    ensures Leads(env, run, Calm(S4(env), Idle, Absent(3, L, env.delay)))
  {
    var st := S4(env).(now := env.delay);
    assert S3(env).pending - {0} == map[];
    run := Extend(env, before, Calm(S3(env), Idle, Absent(3, L, env.delay)), E(Land(0)), Calm(st, Idle, Absent(3, L, env.delay)));
    run := Extend(env, run, Calm(st, Idle, Absent(3, L, env.delay)), E(Tick(env.lag)), Calm(S4(env), Idle, Absent(3, L, env.delay)));
  }

  /** If delay and lag do not fit into the window, some run drops the finalizer of an existing instance. */
  lemma DropRun(env: Env) returns (run: seq<Step>, w: World, w': World)
    requires !Safe(env)
    ensures Leads(env, run, w) && Next(env, w, K(Release)) == Some(w') && Own(w.st, 0)
    ensures w == Calm(S4(env), Idle, Complete(3))
  {
    run := Misses(env);
    w := Calm(S4(env), Idle, Complete(3));
    run := Extend(env, run, Calm(S4(env), Idle, Absent(3, L, env.delay)), K(CleanJudge), w);
    w' := Next(env, w, K(Release)).value;
  }

  /** And leaves the instance without its claim. */
  lemma LeakRun(env: Env) returns (run: seq<Step>, w: World)
    requires !Safe(env)
    ensures Exec(env, 0, run) == Some(w) && Own(w.st, 0) && w.st.claim.Gone?
  {
    var v, v';
    run, v, v' := DropRun(env);
    run := Extend(env, run, v, K(Release), v');
    w := Next(env, v', E(CollectClaim)).value;
    run := Extend(env, run, v', E(CollectClaim), w);
  }

  /** No run leaks an instance if and only if the create delay and the lookup lag fit into the window. */
  lemma NoLeakIff(env: Env)
    ensures (forall now, run :: Exec(env, now, run).Some? ==> NoLeak(env, Exec(env, now, run).value.st))
            <==> env.delay + env.lag <= WINDOW
  {
    if Safe(env) {
      forall now, run | Exec(env, now, run).Some? ensures NoLeak(env, Exec(env, now, run).value.st) {
        NoLeakInAnyRun(env, now, run, Exec(env, now, run).value);
      }
    } else {
      var run, w := LeakRun(env);
      assert Exec(env, 0, run).Some? && !NoLeak(env, Exec(env, 0, run).value.st);
    }
  }

  /** Every dropped finalizer leaves nothing behind. */
  ghost predicate DropsSafely(env: Env)
  {
    forall now, run, s :: Exec(env, now, run).Some? && Next(env, Exec(env, now, run).value, s).Some? ==>
      var w, w' := Exec(env, now, run).value, Next(env, Exec(env, now, run).value, s).value;
      Drops(w, w') ==> NoHazard(env, w.st)
  }

  /** The finalizer is dropped on nothing under the same condition and no weaker one. */
  lemma DropsSafelyIff(env: Env)
    ensures DropsSafely(env) <==> env.delay + env.lag <= WINDOW
  {
    if Safe(env) {
      forall now, run, s | Exec(env, now, run).Some? && Next(env, Exec(env, now, run).value, s).Some?
        ensures var w, w' := Exec(env, now, run).value, Next(env, Exec(env, now, run).value, s).value;
                Drops(w, w') ==> NoHazard(env, w.st)
      {
        var w, w' := Exec(env, now, run).value, Next(env, Exec(env, now, run).value, s).value;
        if Drops(w, w') { FinalizerDropsOnNothing(env, now, run, w, s, w'); }
      }
    } else {
      var run, w, w' := DropRun(env);
      assert Exec(env, 0, run).Some? && Next(env, Exec(env, 0, run).value, K(Release)).Some? && Drops(w, w') && Own(w.st, 0);
    }
  }

  // ---- a duplicate ------------------------------------------------------------------------------

  /** The first launch is given up while its create is still on its way. */
  function D2(): Store
  {
    S2().(now := WINDOW + 1, claim := Claim(3, false, false, None, None), rev := 3)
  }

  lemma GivesUp(env: Env, before: seq<Step>) returns (run: seq<Step>)
    requires Leads(env, before, Calm(S2(), Idle, Resting))
    ensures Leads(env, run, Calm(D2(), Idle, Resting))
  {
    var st := S2().(now := WINDOW + 1);
    run := Extend(env, before, Calm(S2(), Idle, Resting), E(Tick(WINDOW + 1)), Calm(st, Idle, Resting));
    run := Extend(env, run, Calm(st, Idle, Resting), C(Begin), Calm(st, Fetched(2, Some(L)), Resting));
    run := Extend(env, run, Calm(st, Fetched(2, Some(L)), Resting), C(Recover(None)), Calm(st, Missing(2, L, WINDOW + 1), Resting));
    run := Extend(env, run, Calm(st, Missing(2, L, WINDOW + 1), Resting), C(Judge), Calm(st, Resetting(2, L), Resting));
    run := Extend(env, run, Calm(st, Resetting(2, L), Resting), C(Reset), Calm(D2(), Idle, Resting));
  }

  /** A create that can take longer than the window can be doubled. */
  lemma DuplicateRun(env: Env) returns (run: seq<Step>, w: World)
    requires !Prompt(env)
    ensures Exec(env, 0, run) == Some(w) && Own(w.st, 0) && Own(w.st, 1)
  {
    run := FirstLaunch(env);
    run := GivesUp(env, run);
    var st;
    run, st := Launches(env, run, D2());
    var v := Next(env, Calm(st, Idle, Resting), E(Land(0))).value;
    run := Extend(env, run, Calm(st, Idle, Resting), E(Land(0)), v);
    w := Next(env, v, E(Land(1))).value;
    run := Extend(env, run, v, E(Land(1)), w);
  }

  /** One instance per claim needs only that a create takes effect within the window; the lookup lag does not matter. */
  lemma NoDuplicateIff(env: Env)
    ensures (forall now, run :: Exec(env, now, run).Some? ==> Unique(env, Exec(env, now, run).value.st))
            <==> env.delay <= WINDOW
  {
    if Prompt(env) {
      forall now, run | Exec(env, now, run).Some? ensures Unique(env, Exec(env, now, run).value.st) {
        AtMostOneInstance(env, now, run, Exec(env, now, run).value);
      }
    } else {
      var run, w := DuplicateRun(env);
      assert Exec(env, 0, run).Some? && !Unique(env, Exec(env, 0, run).value.st);
    }
  }
}
