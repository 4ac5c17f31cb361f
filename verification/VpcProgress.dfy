/**
 * What can still happen to a launch: from every reachable world a live claim can get its instance and a terminating one
 * can be released, and after a refused create neither has to wait.
 */
module VpcProgress {
  import opened Options
  import opened VpcLaunch

  // ---- in every run -----------------------------------------------------------------------------------

  /** The finalizer never stands without the checkpoint it is for, and a live claim never has that without it. */
  predicate Explained(c: Claim)
  {
    c.Claim? ==> (c.finalizer ==> c.launch.Some?) && (!c.deleting && c.launch.Some? ==> c.finalizer)
  }

  /** While a Create runs, nothing is published or about to be; the releasing controller works on terminating claims. */
  predicate Orderly(w: World)
  {
    && Explained(w.st.claim)
    && (!w.cr.Idle? ==> w.returned.None? && (w.st.claim.Claim? ==> w.st.claim.bound.None?))
    && (w.st.claim.Claim? ==> w.st.claim.version <= w.st.rev)
    && (!w.cl.Resting? ==> w.cl.v <= w.st.rev && (w.st.claim.Claim? && w.st.claim.version == w.cl.v ==> w.st.claim.deleting))
  }

  lemma CreateOrderly(env: Env, w: World, s: CreateStep, w': World)
    requires Orderly(w) && CreateNext(env, w, s) == Some(w')
    ensures Orderly(w')
  {
  }

  lemma CleanOrderly(env: Env, w: World, s: CleanStep, w': World)
    requires Orderly(w) && CleanNext(env, w, s) == Some(w')
    ensures Orderly(w')
  {
  }

  lemma EnvOrderly(env: Env, w: World, s: EnvStep, w': World)
    requires Orderly(w) && EnvNext(env, w, s) == Some(w')
    ensures Orderly(w')
  {
  }

  lemma {:induction false} RunOrderly(env: Env, now: int, run: seq<Step>, w: World)
    requires Exec(env, now, run) == Some(w)
    ensures Orderly(w)
  {
    if run != [] {
      var v, s := Exec(env, now, run[..|run|-1]).value, run[|run|-1];
      RunOrderly(env, now, run[..|run|-1], v);
      match s
      case C(c) => CreateOrderly(env, v, c, w);
      case K(k) => CleanOrderly(env, v, k, w);
      case E(e) => EnvOrderly(env, v, e, w);
    }
  }

  /** In every run: a live claim has its finalizer if and only if it has a checkpoint. */
  lemma RunExplained(env: Env, now: int, run: seq<Step>, w: World)
    requires Exec(env, now, run) == Some(w) && w.st.claim.Claim?
    ensures w.st.claim.finalizer ==> w.st.claim.launch.Some?
    ensures !w.st.claim.deleting ==> (w.st.claim.finalizer <==> w.st.claim.launch.Some?)
  {
    RunOrderly(env, now, run, w);
  }

  // ---- continuations ------------------------------------------------------------------------------------

  /**
   * A purpose and the steps it may use. Ending: the releasing controller and the claim's removal; Starting: Create and its
   * caller, with creates that take effect. In both an instance disappears only after its deletion was requested, a
   * refusal may be recorded, and time passes only where `waits`.
   */
  datatype Goal = Ending(waits: bool) | Starting(waits: bool)

  predicate Allowed(g: Goal, st: Store, s: Step)
  {
    match s
    case C(c) => c.MarkRead? || c.MarkWrite? || (g.Starting? && !c.NotSent? && !c.Refuse?)
    case K(_) => g.Ending?
    case E(e) =>
      || e.Crash?
      || (e.Tick? && g.waits)
      || (e.Vanish? && e.id in st.asked)
      || (e.CollectClaim? && g.Ending?)
      || ((e.Land? || e.Publish?) && g.Starting?)
  }

  ghost function Path(env: Env, g: Goal, w: World, steps: seq<Step>): Option<World>
  {
    if steps == [] then Some(w)
    else
      var v := Path(env, g, w, steps[..|steps|-1]);
      if v.None? || !Allowed(g, v.value.st, steps[|steps|-1]) then None else Next(env, v.value, steps[|steps|-1])
  }

  ghost predicate Leads(env: Env, g: Goal, w: World, v: World)
  {
    exists steps :: Path(env, g, w, steps) == Some(v)
  }

  lemma Stays(env: Env, g: Goal, w: World)
    ensures Leads(env, g, w, w)
  {
    assert Path(env, g, w, []) == Some(w);
  }

  lemma Then(env: Env, g: Goal, w: World, v: World, s: Step, u: World)
    requires Leads(env, g, w, v) && Allowed(g, v.st, s) && Next(env, v, s) == Some(u)
    ensures Leads(env, g, w, u)
  {
    var steps :| Path(env, g, w, steps) == Some(v);
    var longer := steps + [s];
    assert longer[..|longer|-1] == steps;
    assert Path(env, g, w, longer) == Some(u);
  }

  function Calm(st: Store, cr: Creator, cl: Cleaner): World
  {
    World(st, cr, cl, None)
  }

  lemma Restart(env: Env, g: Goal, w: World, v: World)
    requires Leads(env, g, w, v)
    ensures Leads(env, g, w, Calm(v.st, Idle, Resting))
  {
    Then(env, g, w, v, E(Crash), Calm(v.st, Idle, Resting));
  }

  // ---- release --------------------------------------------------------------------------------------------

  /** The claim and its instance, if it had one, are gone. */
  lemma Leaves(env: Env, g: Goal, w: World, u: World) returns (v: World)
    requires g.Ending? && Leads(env, g, w, u) && u.st.claim.Claim? && u.st.claim.deleting
    requires u.st.claim.finalizer ==> u.cl == Complete(u.st.claim.version)
    ensures Leads(env, g, w, v) && v.st.claim.Gone? && v.st.instances == u.st.instances
  {
    v := u;
    if u.st.claim.finalizer {
      v := Next(env, u, K(Release)).value;
      Then(env, g, w, u, K(Release), v);
    }
    var z := Next(env, v, E(CollectClaim)).value;
    Then(env, g, w, v, E(CollectClaim), z);
    v := z;
  }

  /** A terminating claim that still has its finalizer, and the controller at rest. */
  predicate Waiting(st: Store)
  {
    st.claim.Claim? && st.claim.deleting && st.claim.finalizer && st.claim.launch.Some?
  }

  /** A published instance is deleted and its absence confirmed. */
  lemma ReleasesPublished(env: Env, g: Goal, w: World, st: Store) returns (v: World)
    requires g.Ending? && Leads(env, g, w, Calm(st, Idle, Resting)) && Waiting(st) && st.claim.bound.Some?
    ensures Leads(env, g, w, v) && v.st.claim.Gone? && v.st.instances == st.instances - {st.claim.bound.value}
  {
    var i, c := st.claim.bound.value, st.claim;
    var st1 := Ask(st, i);
    Then(env, g, w, Calm(st, Idle, Resting), K(DeletePublished), Calm(st1, Idle, Resting));
    var st2 := st1.(instances := st1.instances - {i});
    Then(env, g, w, Calm(st1, Idle, Resting), E(Vanish(i)), Calm(st2, Idle, Resting));
    var taken := Taken(c.version, c.launch, c.bound);
    Then(env, g, w, Calm(st2, Idle, Resting), K(Take), Calm(st2, Idle, taken));
    Then(env, g, w, Calm(st2, Idle, taken), K(BoundGone), Calm(st2, Idle, Complete(c.version)));
    v := Leaves(env, g, w, Calm(st2, Idle, Complete(c.version)));
  }

  /** An instance that was never published is found by its name, deleted and confirmed gone. */
  lemma ReleasesFound(env: Env, g: Goal, w: World, st: Store, i: nat) returns (v: World)
    requires g.Ending? && Leads(env, g, w, Calm(st, Idle, Resting)) && Waiting(st) && st.claim.bound.None? && i in st.instances
    ensures Leads(env, g, w, v) && v.st.claim.Gone? && v.st.instances == st.instances - {i}
  {
    var c := st.claim;
    var taken := Taken(c.version, c.launch, None);
    Then(env, g, w, Calm(st, Idle, Resting), K(Take), Calm(st, Idle, taken));
    Then(env, g, w, Calm(st, Idle, taken), K(Search(Some(i))), Calm(st, Idle, Found(c.version, i)));
    var st1 := Ask(st, i);
    Then(env, g, w, Calm(st, Idle, Found(c.version, i)), K(DeleteInstance), Calm(st1, Idle, Deleted(c.version, i)));
    var st2 := st1.(instances := st1.instances - {i});
    Then(env, g, w, Calm(st1, Idle, Deleted(c.version, i)), E(Vanish(i)), Calm(st2, Idle, Deleted(c.version, i)));
    Then(env, g, w, Calm(st2, Idle, Deleted(c.version, i)), K(ConfirmDeleted), Calm(st2, Idle, Complete(c.version)));
    v := Leaves(env, g, w, Calm(st2, Idle, Complete(c.version)));
  }

  /** The checkpoint proves that nothing was created. */
  predicate Proves(c: VpcLaunch.Launch, now: int)
  {
    c.rejected || !c.submitted || now > c.at + WINDOW
  }

  lemma ReleasesNothing(env: Env, g: Goal, w: World, st: Store) returns (v: World)
    requires g.Ending? && Leads(env, g, w, Calm(st, Idle, Resting)) && Waiting(st) && st.claim.bound.None?
    requires st.instances == map[] && Proves(st.claim.launch.value, st.now)
    ensures Leads(env, g, w, v) && v.st.claim.Gone? && v.st.instances == map[]
  {
    var c := st.claim;
    var taken, absent := Taken(c.version, c.launch, None), Absent(c.version, c.launch.value, st.now);
    Then(env, g, w, Calm(st, Idle, Resting), K(Take), Calm(st, Idle, taken));
    Then(env, g, w, Calm(st, Idle, taken), K(Search(None)), Calm(st, Idle, absent));
    Then(env, g, w, Calm(st, Idle, absent), K(CleanJudge), Calm(st, Idle, Complete(c.version)));
    v := Leaves(env, g, w, Calm(st, Idle, Complete(c.version)));
  }

  /** The window passes. */
  lemma WaitsOut(env: Env, g: Goal, w: World, st: Store) returns (st': Store)
    requires g.waits && Leads(env, g, w, Calm(st, Idle, Resting)) && st.claim.Claim? && st.claim.launch.Some?
    ensures Leads(env, g, w, Calm(st', Idle, Resting)) && st' == st.(now := st'.now) && Proves(st.claim.launch.value, st'.now)
  {
    var wait := st.claim.launch.value.at + WINDOW + 1 - st.now;
    var span: nat := if wait > 0 then wait else 0;
    st' := st.(now := st.now + span);
    Then(env, g, w, Calm(st, Idle, Resting), E(Tick(span)), Calm(st', Idle, Resting));
  }

  /** Nothing new, and neither the published instance nor, if it was the only one, an unpublished one. */
  predicate Emptied(st: Store, st': Store)
    requires st.claim.Claim?
  {
    && (forall i :: i in st'.instances ==> i in st.instances)
    && (st.claim.bound.Some? ==> st.claim.bound.value !in st'.instances)
    && (st.claim.bound.None? && |st.instances| <= 1 ==> st'.instances == map[])
  }

  /** Where no time need pass: there is an instance to delete, or proof that there is none. */
  lemma ReleasesAtOnce(env: Env, g: Goal, w: World, st: Store) returns (v: World)
    requires g.Ending? && Leads(env, g, w, Calm(st, Idle, Resting)) && Waiting(st)
    requires st.claim.bound.Some? || st.instances != map[] || Proves(st.claim.launch.value, st.now)
    ensures Leads(env, g, w, v) && v.st.claim.Gone? && Emptied(st, v.st)
  {
    if st.claim.bound.Some? {
      v := ReleasesPublished(env, g, w, st);
    } else if i :| i in st.instances {
      v := ReleasesFound(env, g, w, st, i);
      if |st.instances| <= 1 {
        assert st.instances.Keys == v.st.instances.Keys + {i};
        assert |v.st.instances.Keys| == 0;
      }
    } else {
      v := ReleasesNothing(env, g, w, st);
    }
  }

  /**
   * In every environment, from every reachable world with a terminating claim: its instance is deleted on request, and
   * once that is done, or the window has passed without one, the claim can go.
   */
  lemma TerminatingClaimCanGo(env: Env, now: int, run: seq<Step>, w: World) returns (v: World)
    requires Exec(env, now, run) == Some(w) && w.st.claim.Claim? && w.st.claim.deleting
    ensures Leads(env, Ending(true), w, v) && v.st.claim.Gone? && (w.st.claim.finalizer ==> Emptied(w.st, v.st))
  {
    var g, st := Ending(true), w.st;
    RunOrderly(env, now, run, w);
    Stays(env, g, w);
    Restart(env, g, w, w);
    if !st.claim.finalizer {
      v := Leaves(env, g, w, Calm(st, Idle, Resting));
    } else {
      var st' := WaitsOut(env, g, w, st);
      v := ReleasesAtOnce(env, g, w, st');
    }
  }

  // ---- launch ---------------------------------------------------------------------------------------------

  /** A live claim without a published instance, and Create not running. */
  predicate Alive(st: Store)
  {
    st.claim.Claim? && !st.claim.deleting && st.claim.bound.None?
  }

  /** A checkpoint that proves that nothing was created is discarded. */
  lemma Discards(env: Env, g: Goal, w: World, st: Store) returns (st': Store)
    requires g.Starting? && Leads(env, g, w, Calm(st, Idle, Resting)) && Alive(st) && st.claim.launch.Some?
    requires Proves(st.claim.launch.value, st.now)
    requires st.claim.launch.value.submitted && !st.claim.launch.value.rejected ==> st.instances == map[]
    ensures Leads(env, g, w, Calm(st', Idle, Resting)) && Alive(st') && st'.claim.launch.None? && !st'.claim.finalizer
    ensures st' == st.(claim := st'.claim, rev := st'.rev)
  {
    var c, l := st.claim, st.claim.launch.value;
    var fetched, resetting := Fetched(c.version, c.launch), Resetting(c.version, l);
    Then(env, g, w, Calm(st, Idle, Resting), C(Begin), Calm(st, fetched, Resting));
    if l.submitted && !l.rejected {
      var missing := Missing(c.version, l, st.now);
      Then(env, g, w, Calm(st, fetched, Resting), C(Recover(None)), Calm(st, missing, Resting));
      Then(env, g, w, Calm(st, missing, Resting), C(Judge), Calm(st, resetting, Resting));
    } else {
      Then(env, g, w, Calm(st, fetched, Resting), C(Discard), Calm(st, resetting, Resting));
    }
    st' := PutClaim(st, c.(launch := None, finalizer := false));
    Then(env, g, w, Calm(st, resetting, Resting), C(Reset), Calm(st', Idle, Resting));
  }

  /** The claim is protected by a new checkpoint. */
  lemma Prepares(env: Env, g: Goal, w: World, st: Store, config: string) returns (st': Store, c: VpcLaunch.Launch)
    requires g.Starting? && Leads(env, g, w, Calm(st, Idle, Resting)) && Alive(st) && st.claim.launch.None?
    ensures Alive(st') && Leads(env, g, w, Calm(st', Prepared(st'.claim.version, c), Resting))
    ensures st' == st.(claim := st'.claim, rev := st'.rev)
    ensures st'.claim.finalizer && st'.claim.launch == Some(c) && c.config == config && !c.submitted && !c.rejected
  {
    var v := st.claim.version;
    Then(env, g, w, Calm(st, Idle, Resting), C(Begin), Calm(st, Fetched(v, None), Resting));
    Then(env, g, w, Calm(st, Fetched(v, None), Resting), C(Recheck), Calm(st, Checked(v), Resting));
    c := VpcLaunch.Launch(config, false, false, 0);
    st' := PutClaim(st, st.claim.(launch := Some(c), finalizer := true));
    Then(env, g, w, Calm(st, Checked(v), Resting), C(Checkpoint(config)), Calm(st', Prepared(st.rev + 1, c), Resting));
  }

  lemma Stamps(env: Env, g: Goal, w: World, st: Store, c: VpcLaunch.Launch)
    requires g.Starting? && Alive(st) && Leads(env, g, w, Calm(st, Prepared(st.claim.version, c), Resting)) && st.instances == map[]
    ensures Leads(env, g, w, Calm(st, Stamped(st.claim.version, c.(submitted := true, at := st.now)), Resting))
  {
    var v := st.claim.version;
    Then(env, g, w, Calm(st, Prepared(v, c), Resting), C(Look(None)), Calm(st, Unseen(v, c), Resting));
    Then(env, g, w, Calm(st, Unseen(v, c), Resting), C(Stamp), Calm(st, Stamped(v, c.(submitted := true, at := st.now)), Resting));
  }

  /** Nothing has the name yet; the submission is recorded and the request leaves. */
  lemma Sends(env: Env, g: Goal, w: World, st: Store, c: VpcLaunch.Launch) returns (st': Store)
    requires g.Starting? && Alive(st) && Leads(env, g, w, Calm(st, Prepared(st.claim.version, c), Resting)) && st.instances == map[]
    ensures var l := c.(submitted := true, at := st.now);
            && Leads(env, g, w, Calm(st', Sent(l, st.nextReq), Resting)) && Alive(st') && st'.claim.launch == Some(l)
            && st'.claim.finalizer
            && st' == st.(claim := st'.claim, rev := st'.rev, pending := st.pending[st.nextReq := st.now], nextReq := st.nextReq + 1)
  {
    var v, l := st.claim.version, c.(submitted := true, at := st.now);
    Stamps(env, g, w, st, c);
    var st1 := PutClaim(st, st.claim.(launch := Some(l), finalizer := true));
    Then(env, g, w, Calm(st, Stamped(v, l), Resting), C(Submit), Calm(st1, Submitted(l), Resting));
    st' := st1.(pending := st1.pending[st1.nextReq := st.now], nextReq := st1.nextReq + 1);
    Then(env, g, w, Calm(st1, Submitted(l), Resting), C(Send), Calm(st', Sent(l, st.nextReq), Resting));
  }

  /** The claim has its instance, and is protected. */
  predicate Running(st: Store, i: nat)
  {
    st.claim.Claim? && st.claim.bound == Some(i) && i in st.instances && st.claim.finalizer && st.claim.launch.Some?
  }

  lemma Publishes(env: Env, g: Goal, w: World, st: Store, i: nat) returns (v: World)
    requires g.Starting? && Leads(env, g, w, Calm(st, Idle, Resting).(returned := Some(i))) && i in st.instances
    requires st.claim.Claim? && st.claim.finalizer && st.claim.launch.Some?
    ensures Leads(env, g, w, v) && Running(v.st, i)
  {
    var u := Calm(st, Idle, Resting).(returned := Some(i));
    v := Next(env, u, E(Publish)).value;
    Then(env, g, w, u, E(Publish), v);
  }

  /** A claim without a checkpoint: an instance of its name is adopted, otherwise one is made. */
  lemma Starts(env: Env, g: Goal, w: World, st: Store, config: string) returns (i: nat, v: World)
    requires g.Starting? && Leads(env, g, w, Calm(st, Idle, Resting)) && Alive(st) && st.claim.launch.None?
    ensures Leads(env, g, w, v) && Running(v.st, i)
  {
    var st1, c := Prepares(env, g, w, st, config);
    if j :| j in st.instances {
      i := j;
      Then(env, g, w, Calm(st1, Prepared(st1.claim.version, c), Resting), C(Look(Some(i))),
           Calm(st1, Idle, Resting).(returned := Some(i)));
      v := Publishes(env, g, w, st1, i);
    } else {
      var st2 := Sends(env, g, w, st1, c);
      i, v := Lands(env, g, w, st2, c.(submitted := true, at := st1.now), st1.nextReq);
    }
  }

  lemma Lands(env: Env, g: Goal, w: World, st: Store, c: VpcLaunch.Launch, q: nat) returns (i: nat, v: World)
    requires g.Starting? && Leads(env, g, w, Calm(st, Sent(c, q), Resting)) && q in st.pending && st.now <= st.pending[q] + env.delay
    requires st.claim.Claim? && st.claim.finalizer && st.claim.launch.Some?
    ensures Leads(env, g, w, v) && Running(v.st, i)
  {
    i := st.nextId;
    var u := Next(env, Calm(st, Sent(c, q), Resting), E(Land(q))).value;
    Then(env, g, w, Calm(st, Sent(c, q), Resting), E(Land(q)), u);
    assert u == Calm(u.st, Sent(c, q), Resting);
    Then(env, g, w, u, C(Answer), Calm(u.st, Idle, Resting).(returned := Some(i)));
    v := Publishes(env, g, w, u.st, i);
  }

  /** An instance of a submitted launch is adopted. */
  lemma Adopts(env: Env, g: Goal, w: World, st: Store, i: nat) returns (v: World)
    requires g.Starting? && Leads(env, g, w, Calm(st, Idle, Resting)) && Alive(st) && st.claim.finalizer && i in st.instances
    requires st.claim.launch.Some? && st.claim.launch.value.submitted && !st.claim.launch.value.rejected
    ensures Leads(env, g, w, v) && Running(v.st, i)
  {
    var fetched := Fetched(st.claim.version, st.claim.launch);
    Then(env, g, w, Calm(st, Idle, Resting), C(Begin), Calm(st, fetched, Resting));
    Then(env, g, w, Calm(st, fetched, Resting), C(Recover(Some(i))), Calm(st, Idle, Resting).(returned := Some(i)));
    v := Publishes(env, g, w, st, i);
  }

  /**
   * In every environment, from every reachable world with a live claim and no published instance, whatever crashed or was
   * lost before: Create can go on until an existing instance is published and the claim is protected.
   */
  lemma LiveClaimCanLaunch(env: Env, now: int, run: seq<Step>, w: World, config: string) returns (i: nat, v: World)
    requires Exec(env, now, run) == Some(w) && w.st.claim.Claim? && !w.st.claim.deleting && w.st.claim.bound.None?
    ensures Leads(env, Starting(true), w, v) && Running(v.st, i)
  {
    var g, st := Starting(true), w.st;
    RunOrderly(env, now, run, w);
    Stays(env, g, w);
    Restart(env, g, w, w);
    if st.claim.launch.None? {
      i, v := Starts(env, g, w, st, config);
    } else if j :| j in st.instances && st.claim.launch.value.submitted && !st.claim.launch.value.rejected {
      i := j;
      v := Adopts(env, g, w, st, i);
    } else {
      var st1 := WaitsOut(env, g, w, st);
      var st2 := Discards(env, g, w, st1);
      i, v := Starts(env, g, w, st2, config);
    }
  }

  // ---- after a refusal nobody waits ------------------------------------------------------------------------

  /** A create counts as refused if and only if it was answered so: a client error other than timeout, conflict and throttling. */
  lemma RefusalIff(env: Env, w: World, status: int)
    ensures Next(env, w, C(Refuse(status))).Some? <==>
            && w.cr.Sent? && w.cr.req in w.st.pending
            && 400 <= status <= 499 && status !in {408, 409, 429}
  {
  }

  /** A create was refused, at whatever point of recording that, and its checkpoint is still on the claim. */
  predicate Rejecting(w: World)
  {
    (w.cr.Refused? || w.cr.Marking?) && w.st.claim.Claim? && w.st.claim.launch == Some(w.cr.c)
  }

  lemma Marks(env: Env, g: Goal, w: World, v: World) returns (u: World)
    requires Leads(env, g, w, v) && v.cr.Refused? && v.st.claim.Claim? && v.st.claim.launch == Some(v.cr.c)
    ensures Leads(env, g, w, u) && u.st == PutClaim(v.st, v.st.claim.(launch := Some(v.cr.c.(rejected := true)), finalizer := true))
  {
    var z := v.(cr := Marking(v.st.claim.version, v.cr.c));
    Then(env, g, w, v, C(MarkRead), z);
    u := z.(st := PutClaim(v.st, v.st.claim.(launch := Some(v.cr.c.(rejected := true)), finalizer := true)), cr := Marked(v.cr.c));
    Then(env, g, w, z, C(MarkWrite), u);
  }

  /** The refusal is recorded in the checkpoint, although another write to the claim may have come in between. */
  lemma RecordsRefusal(env: Env, g: Goal, now: int, run: seq<Step>, w: World) returns (st: Store)
    requires Exec(env, now, run) == Some(w) && Rejecting(w)
    ensures Leads(env, g, w, Calm(st, Idle, Resting)) && st == w.st.(claim := st.claim, rev := st.rev)
    ensures st.claim.Claim? && st.claim.deleting == w.st.claim.deleting && st.claim.bound.None?
    ensures st.claim.finalizer && st.claim.launch == Some(w.cr.c.(rejected := true))
  {
    RunOrderly(env, now, run, w);
    Stays(env, g, w);
    var v := w;
    if w.cr.Marking? && w.cr.v != w.st.claim.version {
      v := w.(cr := Refused(w.cr.c));
      Then(env, g, w, w, C(MarkWrite), v);
    }
    var u;
    if v.cr.Refused? {
      u := Marks(env, g, w, v);
    } else {
      u := Next(env, w, C(MarkWrite)).value;
      Then(env, g, w, w, C(MarkWrite), u);
    }
    Restart(env, g, w, u);
    st := u.st;
  }

  /**
   * In every environment, from every reachable world with a refused create whose checkpoint is still on the claim: without
   * any time passing the checkpoint can be discarded, and then, if no instance has the name, a new request sent.
   */
  lemma RefusedCanRetry(env: Env, now: int, run: seq<Step>, w: World, config: string) returns (u: World, v: World)
    requires Exec(env, now, run) == Some(w) && Rejecting(w) && !w.st.claim.deleting
    ensures Leads(env, Starting(false), w, u) && u.st.claim.Claim? && u.st.claim.launch.None? && u.st.now == w.st.now
    ensures w.st.instances == map[] ==>
              && Leads(env, Starting(false), w, v) && v.cr.Sent? && v.cr.req == w.st.nextReq && v.cr.c.config == config
              && v.st.pending == w.st.pending[w.st.nextReq := w.st.now] && v.st.claim.Claim?
              && v.st.claim.launch == Some(v.cr.c)
  {
    var g := Starting(false);
    var st := RecordsRefusal(env, g, now, run, w);
    var st1 := Discards(env, g, w, st);
    u, v := Calm(st1, Idle, Resting), w;
    if w.st.instances == map[] {
      var st2, c := Prepares(env, g, w, st1, config);
      var st3 := Sends(env, g, w, st2, c);
      v := Calm(st3, Sent(c.(submitted := true, at := st2.now), st2.nextReq), Resting);
    }
  }

  /** And if the claim is terminating, it can be released without any time passing. */
  lemma RefusedCanGo(env: Env, now: int, run: seq<Step>, w: World) returns (v: World)
    requires Exec(env, now, run) == Some(w) && Rejecting(w) && w.st.claim.deleting
    ensures Leads(env, Ending(false), w, v) && v.st.claim.Gone? && Emptied(w.st, v.st)
  {
    RunOrderly(env, now, run, w);
    var st := RecordsRefusal(env, Ending(false), now, run, w);
    v := ReleasesAtOnce(env, Ending(false), w, st);
  }

  /**
   * A request the client never sent is as good as refused: in every environment, from every reachable world in which it was
   * about to be sent, without any time passing and with nothing pending the checkpoint can be discarded.
   */
  lemma UnsentCanRetry(env: Env, now: int, run: seq<Step>, w: World, config: string) returns (w': World, u: World)
    requires Exec(env, now, run) == Some(w) && w.cr.Submitted? && w.st.claim.Claim? && w.st.claim.launch == Some(w.cr.c)
    requires !w.st.claim.deleting
    ensures Exec(env, now, run + [C(NotSent)]) == Some(w') && w'.st == w.st
    ensures Leads(env, Starting(false), w', u) && u.st.claim.Claim? && u.st.claim.launch.None? && u.st.pending == w.st.pending
  {
    w' := w.(cr := Refused(w.cr.c));
    var longer := run + [C(NotSent)];
    assert longer[..|longer|-1] == run;
    var g := Starting(false);
    var st := RecordsRefusal(env, g, now, longer, w');
    var st1 := Discards(env, g, w', st);
    u := Calm(st1, Idle, Resting);
  }

  /** A create whose answer was lost or bad still returns the instance if it finds one. */
  lemma LostAnswerIsSalvaged(env: Env, now: int, run: seq<Step>, w: World, i: nat) returns (v: World)
    requires Exec(env, now, run) == Some(w) && (w.cr.Sent? || w.cr.Marked?) && i in w.st.instances && w.st.claim.Claim?
    ensures Exec(env, now, run + [C(Salvage(Some(i)))] + [E(Publish)]) == Some(v)
    ensures v.st.claim.Claim? && v.st.claim.bound == Some(i) && i in v.st.instances
  {
    var salvaged := run + [C(Salvage(Some(i)))];
    var published := salvaged + [E(Publish)];
    assert salvaged[..|salvaged|-1] == run && published[..|published|-1] == salvaged;
    var u := w.(cr := Idle, returned := Some(i));
    assert Exec(env, now, salvaged) == Some(u);
    v := Next(env, u, E(Publish)).value;
  }
}
