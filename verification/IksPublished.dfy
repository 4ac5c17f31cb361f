/** Annotations are written once, and what is published is what they say. */
module IksPublished {
  import opened Options
  import opened IksSteps
  import opened IksInvariant
  import opened IksBase
  import opened IksTheorems

  // ---- the annotation ---------------------------------------------------------------------------

  /** While the claim exists its annotation only gains identities; a claim that is gone stays gone. */
  predicate AnnotationStep(c: Claim, c': Claim)
  {
    && (c.Gone? ==> c'.Gone?)
    && (c.Claim? && c'.Claim? && c.alloc.Some? ==>
          && c'.alloc.Some? && c'.alloc.value.snap == c.alloc.value.snap
          && (c.alloc.value.pool.Some? ==> c'.alloc.value.pool == c.alloc.value.pool)
          && (c.alloc.value.worker.Some? ==> c'.alloc.value.worker == c.alloc.value.worker))
  }

  lemma CreateAnnotation(env: Env, w: World, s: CreateStep, w': World)
    requires Base(w) && CreateNext(env, w, s) == Some(w')
    ensures AnnotationStep(w.st.claim, w'.st.claim)
  {
    match s
    case Checkpoint => CheckpointAdds(w, w');
    case ReserveNew => assert w'.st.claim == w.st.claim;
    case RecordStart => assert w'.st.claim == w.st.claim;
    case Send => assert w'.st.claim == w.st.claim;
    case Refused(_) => assert w'.st.claim == w.st.claim;
    case RecordRefusal => assert w'.st.claim == w.st.claim;
    case Activate => assert w'.st.claim == w.st.claim;
    case _ => CreateReads(env, w, s, w');
  }

  /** What a step outside Create may do to the claim and to the worker about to be published. */
  predicate ClaimMove(w: World, w': World)
  {
    || w'.st.claim.Gone?
    || (w'.st.claim == w.st.claim && (w'.returned == w.returned || w'.returned.None?))
    || (w.st.claim.Claim? && w'.st.claim.alloc == w.st.claim.alloc &&
        ((w'.st.claim.bound == w.st.claim.bound && w'.returned == w.returned) ||
         (w'.st.claim.bound == w.returned && w'.returned.None?)))
  }

  lemma CleanMove(env: Env, w: World, s: CleanStep, w': World)
    requires CleanNext(env, w, s) == Some(w')
    ensures ClaimMove(w, w') && (w.st.claim.Gone? ==> w'.st.claim.Gone?)
  {
    match s
    case Release(_) =>
    case CleanReserveNew =>
    case Mark =>
    case Settle =>
    case RecordPool =>
    case DeletePool =>
    case GoneRead =>
    case _ => assert w'.st == w.st && w'.returned == w.returned;
  }

  lemma CollectMove(w: World, s: CollectStep, w': World)
    requires CollectNext(w, s) == Some(w')
    ensures w'.st.claim == w.st.claim && w'.returned == w.returned
  {
  }

  lemma EnvMove(env: Env, w: World, s: EnvStep, w': World)
    requires EnvNext(env, w, s) == Some(w')
    ensures ClaimMove(w, w') && (w.st.claim.Gone? ==> w'.st.claim.Gone?)
  {
    match s
    case DeleteClaim =>
    case TouchClaim =>
    case Publish =>
    case CollectClaim =>
    case _ => assert w'.st.claim == w.st.claim;
  }

  lemma OtherMove(env: Env, w: World, s: Step, w': World)
    requires Next(env, w, s) == Some(w') && !s.C?
    ensures ClaimMove(w, w') && (w.st.claim.Gone? ==> w'.st.claim.Gone?)
  {
    match s
    case K(k) => CleanMove(env, w, k, w');
    case T(t) => CollectMove(w, t, w');
    case E(e) => EnvMove(env, w, e, w');
  }

  lemma StepAnnotation(env: Env, w: World, s: Step, w': World)
    requires Base(w) && Next(env, w, s) == Some(w')
    ensures AnnotationStep(w.st.claim, w'.st.claim)
  {
    if s.C? {
      CreateAnnotation(env, w, s.c, w');
    } else {
      OtherMove(env, w, s, w');
    }
  }

  /** In every environment, whatever happens later: what the annotation says it says for good. */
  lemma {:induction false} AnnotationIsWriteOnce(env: Env, now: int, run: seq<Step>, more: seq<Step>, w: World, v: World)
    requires Exec(env, now, run) == Some(w) && Exec(env, now, run + more) == Some(v)
    ensures AnnotationStep(w.st.claim, v.st.claim)
  {
    if more == [] {
      assert run + more == run;
    } else {
      var all, shorter := run + more, more[..|more|-1];
      assert all[..|all|-1] == run + shorter;
      var u := Exec(env, now, run + shorter).value;
      AnnotationIsWriteOnce(env, now, run, shorter, w, u);
      RunBase(env, now, run + shorter, u);
      StepAnnotation(env, u, all[|all|-1], v);
      StepTransitive(w.st.claim, u.st.claim, v.st.claim);
    }
  }

  lemma StepTransitive(a: Claim, b: Claim, c: Claim)
    requires AnnotationStep(a, b) && AnnotationStep(b, c)
    ensures AnnotationStep(a, c)
  {
  }

  /** The worker in the provider ID, published or about to be, is the annotation's. */
  predicate Published(w: World)
  {
    w.st.claim.Claim? ==>
      && (w.returned.Some? ==> w.st.claim.alloc.Some? && w.st.claim.alloc.value.worker == w.returned)
      && (w.st.claim.bound.Some? ==> w.st.claim.alloc.Some? && w.st.claim.alloc.value.worker == w.st.claim.bound)
  }

  lemma CreatePublished(env: Env, w: World, s: CreateStep, w': World)
    requires Base(w) && Published(w) && CreateNext(env, w, s) == Some(w')
    ensures Published(w')
  {
    CreateAnnotation(env, w, s, w');
    if s.Checkpoint? {
      CheckpointAdds(w, w');
    } else if Writes(s) {
      assert w'.returned == w.returned;
    } else {
      CreateReads(env, w, s, w');
    }
  }

  lemma {:induction false} RunPublished(env: Env, now: int, run: seq<Step>, w: World)
    requires Exec(env, now, run) == Some(w)
    ensures Published(w)
  {
    if run != [] {
      var v, s := Exec(env, now, run[..|run|-1]).value, run[|run|-1];
      RunPublished(env, now, run[..|run|-1], v);
      RunBase(env, now, run[..|run|-1], v);
      if s.C? {
        CreatePublished(env, v, s.c, w);
      } else {
        OtherMove(env, v, s, w);
      }
    }
  }

  /** ConfirmGone's comparison of provider ID and annotation never fails. */
  lemma PublishedWorkerIsAnnotated(env: Env, now: int, run: seq<Step>, w: World)
    requires Exec(env, now, run) == Some(w) && w.st.claim.Claim? && w.st.claim.bound.Some?
    ensures w.st.claim.alloc.Some? && w.st.claim.alloc.value.worker == w.st.claim.bound
  {
    RunPublished(env, now, run, w);
  }
}
