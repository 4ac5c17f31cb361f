/**
 * At most one instance per claim. This needs less of the window than keeping the claim: before it submits again, Create
 * looks a second time, so only a create that is still on its way could be doubled.
 */
module VpcOnce {
  import opened Options
  import opened VpcLaunch
  import opened VpcInvariant

  /** A create takes effect, if ever, before it can be given up. */
  predicate Prompt(env: Env)
  {
    env.delay <= WINDOW
  }

  /** The claim, while it exists, shows the create submitted at `at` as outstanding. */
  predicate Shown(c: Claim, at: int)
  {
    c.Claim? ==> c.launch.Some? && c.launch.value.submitted && !c.launch.value.rejected && c.launch.value.at == at
  }

  /** A claim never has two instances, two live creates, or one of each. */
  ghost predicate Unique(env: Env, st: Store)
  {
    && (forall i, j :: Own(st, i) && Own(st, j) ==> i == j)
    && (forall p, q :: LiveReq(env, st, p) && LiveReq(env, st, q) ==> p == q)
    && (forall i, q :: Own(st, i) ==> !LiveReq(env, st, q))
  }

  ghost predicate StoreOnce(env: Env, st: Store)
  {
    && Unique(env, st)
    && (forall q :: LiveReq(env, st, q) ==> Shown(st.claim, st.pending[q]))
    && (st.claim.Claim? && st.claim.bound.Some? ==> NoLive(env, st) && Only(st, st.claim.bound.value))
    && (st.claim.Claim? ==> st.claim.version <= st.rev)
    && (forall i :: i in st.instances ==> i < st.nextId)
    && (forall q :: q in st.pending ==> q < st.nextReq && q !in st.landed)
    && (forall q :: q in st.landed ==> q < st.nextReq && st.landed[q] < st.nextId)
  }

  ghost predicate EarlyOnce(env: Env, st: Store, cr: Creator)
  {
    && (HasVersion(cr) ==> cr.v <= st.rev)
    && (cr.Fetched? && At(st, cr.v) ==> st.claim.launch == cr.launch)
    && (cr.Missing? ==> cr.c.submitted && !cr.c.rejected)
    && (cr.Missing? && At(st, cr.v) ==> st.claim.launch == Some(cr.c))
    && (cr.Resetting? && At(st, cr.v) ==> NoLive(env, st))
    && (cr.Checked? && At(st, cr.v) ==> st.claim.launch.None?)
    && (cr.Prepared? || cr.Unseen? ==> !cr.c.submitted && !cr.c.rejected)
    && (cr.Prepared? && At(st, cr.v) ==> st.claim.launch == Some(cr.c))
    && (cr.Unseen? && At(st, cr.v) ==> st.claim.launch == Some(cr.c) && NoHazard(env, st))
    && (cr.Stamped? ==> cr.c.submitted && !cr.c.rejected)
    && (cr.Stamped? && At(st, cr.v) ==> NoHazard(env, st))
  }

  ghost predicate LateOnce(env: Env, st: Store, cr: Creator)
  {
    && (cr.Submitted? ==> cr.c.submitted && !cr.c.rejected && NoHazard(env, st) && Shown(st.claim, cr.c.at))
    && (cr.Sent? ==> cr.req < st.nextReq && (forall q :: LiveReq(env, st, q) ==> q == cr.req))
    && (cr.Sent? && cr.req in st.pending ==> forall i :: !Own(st, i))
    && (cr.Sent? && cr.req in st.landed ==> Only(st, st.landed[cr.req]))
    && (cr.Refused? || cr.Marking? || cr.Marked? ==> NoHazard(env, st))
  }

  ghost predicate Once(env: Env, w: World)
  {
    && StoreOnce(env, w.st) && EarlyOnce(env, w.st, w.cr) && LateOnce(env, w.st, w.cr)
    && (!w.cr.Idle? ==> w.returned.None? && (w.st.claim.Claim? ==> w.st.claim.bound.None?))
    && (w.returned.Some? ==> NoLive(env, w.st) && Only(w.st, w.returned.value))
  }

  /** Steps of Create that write nothing. */
  lemma ReadsOnce(env: Env, w: World, s: CreateStep, w': World)
    requires Once(env, w) && CreateNext(env, w, s) == Some(w')
    requires s.Begin? || s.Discard? || s.Recheck? || s.Stamp? || s.NotSent? || s.MarkRead?
    ensures Once(env, w')
  {
    assert Calmer(env, w.st, w'.st);
  }

  lemma LookupsOnce(env: Env, w: World, s: CreateStep, w': World)
    requires Once(env, w) && CreateNext(env, w, s) == Some(w')
    requires s.Recover? || s.Look? || s.Answer? || s.Salvage?
    ensures Once(env, w')
  {
    assert Calmer(env, w.st, w'.st);
    if !s.Answer? && s.found.Some? {
      assert Own(w.st, s.found.value);
    }
  }

  /** A launch is given up only when its create can no longer take effect. */
  lemma JudgeOnce(env: Env, w: World, w': World)
    requires Prompt(env) && Once(env, w) && CreateNext(env, w, Judge) == Some(w')
    ensures Once(env, w')
  {
    assert Calmer(env, w.st, w'.st);
  }

  lemma ResetOnce(env: Env, w: World, w': World)
    requires Once(env, w) && CreateNext(env, w, Reset) == Some(w')
    ensures Once(env, w')
  {
    assert Calmer(env, w.st, w'.st);
  }

  lemma CheckpointOnce(env: Env, w: World, config: string, w': World)
    requires Once(env, w) && CreateNext(env, w, Checkpoint(config)) == Some(w')
    ensures Once(env, w')
  {
    assert Calmer(env, w.st, w'.st);
  }

  lemma SubmitOnce(env: Env, w: World, w': World)
    requires Once(env, w) && CreateNext(env, w, Submit) == Some(w')
    ensures Once(env, w')
  {
    assert Calmer(env, w.st, w'.st);
  }

  lemma SendOnce(env: Env, w: World, w': World)
    requires Once(env, w) && CreateNext(env, w, Send) == Some(w')
    ensures Once(env, w')
  {
    var q := w.st.nextReq;
    forall i ensures !Own(w'.st, i) {
      assert !Own(w.st, i);
    }
    forall q' | q' != q ensures !LiveReq(env, w'.st, q') {
      assert !LiveReq(env, w.st, q');
    }
  }

  lemma RefuseOnce(env: Env, w: World, s: CreateStep, w': World)
    requires Once(env, w) && CreateNext(env, w, s) == Some(w') && (s.Refuse? || s.MarkWrite?)
    ensures Once(env, w')
  {
    assert Calmer(env, w.st, w'.st);
  }

  lemma CreateOnce(env: Env, w: World, s: CreateStep, w': World)
    requires Prompt(env) && Once(env, w) && CreateNext(env, w, s) == Some(w')
    ensures Once(env, w')
  {
    match s
    case Judge => JudgeOnce(env, w, w');
    case Reset => ResetOnce(env, w, w');
    case Checkpoint(config) => CheckpointOnce(env, w, config, w');
    case Submit => SubmitOnce(env, w, w');
    case Send => SendOnce(env, w, w');
    case Refuse(_) => RefuseOnce(env, w, s, w');
    case MarkWrite => RefuseOnce(env, w, s, w');
    case Recover(_) => LookupsOnce(env, w, s, w');
    case Look(_) => LookupsOnce(env, w, s, w');
    case Answer => LookupsOnce(env, w, s, w');
    case Salvage(_) => LookupsOnce(env, w, s, w');
    case _ => ReadsOnce(env, w, s, w');
  }

  /** A claim write that keeps the launch. */
  lemma ClaimOnce(env: Env, w: World, c: Claim)
    requires Once(env, w) && w.st.claim.Claim? && c.Claim? && c.launch == w.st.claim.launch
    requires c.bound == w.st.claim.bound || (w.cr.Idle? && c.bound.Some? && NoLive(env, w.st) && Only(w.st, c.bound.value))
    ensures Once(env, w.(st := PutClaim(w.st, c)))
  {
    assert Calmer(env, w.st, PutClaim(w.st, c));
  }

  lemma CleanOnce(env: Env, w: World, s: CleanStep, w': World)
    requires Once(env, w) && CleanNext(env, w, s) == Some(w')
    ensures Once(env, w')
  {
    if s.Release? {
      ClaimOnce(env, w, w.st.claim.(finalizer := false));
    } else {
      assert Calmer(env, w.st, w'.st);
    }
  }

  lemma LandOnce(env: Env, w: World, req: nat, w': World)
    requires Once(env, w) && EnvNext(env, w, Land(req)) == Some(w')
    ensures Once(env, w')
  {
    var st, st', id := w.st, w'.st, w.st.nextId;
    assert LiveReq(env, st, req);
    assert forall i :: !Own(st, i);
    forall i | Own(st', i) ensures i == id {
      assert !Own(st, i);
    }
    forall q ensures !LiveReq(env, st', q) {
      assert q != req ==> !LiveReq(env, st, q);
    }
  }

  lemma ClaimStepOnce(env: Env, w: World, s: EnvStep, w': World)
    requires Once(env, w) && EnvNext(env, w, s) == Some(w') && (s.DeleteClaim? || s.TouchClaim? || s.Publish?)
    ensures Once(env, w')
  {
    ClaimOnce(env, w, if s.DeleteClaim? then w.st.claim.(deleting := true)
                      else if s.TouchClaim? then w.st.claim else w.st.claim.(bound := w.returned));
  }

  lemma OtherOnce(env: Env, w: World, s: EnvStep, w': World)
    requires Once(env, w) && EnvNext(env, w, s) == Some(w')
    requires !s.Land? && !s.DeleteClaim? && !s.TouchClaim? && !s.Publish?
    ensures Once(env, w')
  {
    assert Calmer(env, w.st, w'.st);
  }

  lemma StepOnce(env: Env, w: World, s: Step, w': World)
    requires Prompt(env) && Once(env, w) && Next(env, w, s) == Some(w')
    ensures Once(env, w')
  {
    match s
    case C(c) => CreateOnce(env, w, c, w');
    case K(k) => CleanOnce(env, w, k, w');
    case E(Land(req)) => LandOnce(env, w, req, w');
    case E(DeleteClaim) => ClaimStepOnce(env, w, s.e, w');
    case E(TouchClaim) => ClaimStepOnce(env, w, s.e, w');
    case E(Publish) => ClaimStepOnce(env, w, s.e, w');
    case E(_) => OtherOnce(env, w, s.e, w');
  }

  lemma {:induction false} RunOnce(env: Env, now: int, run: seq<Step>, w: World)
    requires Prompt(env) && Exec(env, now, run) == Some(w)
    ensures Once(env, w)
  {
    if run != [] {
      var v := Exec(env, now, run[..|run|-1]).value;
      RunOnce(env, now, run[..|run|-1], v);
      StepOnce(env, v, run[|run|-1], w);
    }
  }
}
