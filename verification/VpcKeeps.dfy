/** Every step of VPC launch recovery keeps the invariant. */
module VpcKeeps {
  import opened Options
  import opened VpcLaunch
  import opened VpcInvariant

  lemma BeginKeeps(env: Env, w: World, w': World)
    requires Inv(env, w) && CreateNext(env, w, Begin) == Some(w')
    ensures Inv(env, w')
  {
    assert Calmer(env, w.st, w'.st);
  }

  lemma RecoverKeeps(env: Env, w: World, found: Option<nat>, w': World)
    requires Inv(env, w) && CreateNext(env, w, Recover(found)) == Some(w')
    ensures Inv(env, w')
  {
    assert Calmer(env, w.st, w'.st);
  }

  lemma JudgeKeeps(env: Env, w: World, w': World)
    requires Safe(env) && Inv(env, w) && CreateNext(env, w, Judge) == Some(w')
    ensures Inv(env, w')
  {
    assert Calmer(env, w.st, w'.st);
  }

  lemma DiscardKeeps(env: Env, w: World, w': World)
    requires Inv(env, w) && CreateNext(env, w, Discard) == Some(w')
    ensures Inv(env, w')
  {
    assert Calmer(env, w.st, w'.st);
  }

  lemma ResetKeeps(env: Env, w: World, w': World)
    requires Inv(env, w) && CreateNext(env, w, Reset) == Some(w')
    ensures Inv(env, w')
  {
    assert Calmer(env, w.st, w'.st);
  }

  lemma RecheckKeeps(env: Env, w: World, w': World)
    requires Inv(env, w) && CreateNext(env, w, Recheck) == Some(w')
    ensures Inv(env, w')
  {
    assert Calmer(env, w.st, w'.st);
  }

  lemma CheckpointKeeps(env: Env, w: World, config: string, w': World)
    requires Inv(env, w) && CreateNext(env, w, Checkpoint(config)) == Some(w')
    ensures Inv(env, w')
  {
    assert Calmer(env, w.st, w'.st);
  }

  lemma LookKeeps(env: Env, w: World, found: Option<nat>, w': World)
    requires Inv(env, w) && CreateNext(env, w, Look(found)) == Some(w')
    ensures Inv(env, w')
  {
    assert Calmer(env, w.st, w'.st);
  }

  lemma StampKeeps(env: Env, w: World, w': World)
    requires Inv(env, w) && CreateNext(env, w, Stamp) == Some(w')
    ensures Inv(env, w')
  {
    assert Calmer(env, w.st, w'.st);
  }

  lemma SubmitKeeps(env: Env, w: World, w': World)
    requires Inv(env, w) && CreateNext(env, w, Submit) == Some(w')
    ensures Inv(env, w')
  {
    assert Calmer(env, w.st, w'.st);
  }

  lemma SendKeeps(env: Env, w: World, w': World)
    requires Inv(env, w) && CreateNext(env, w, Send) == Some(w')
    ensures Inv(env, w')
  {
    var q := w.st.nextReq;
    forall i ensures !Own(w'.st, i) {
      assert !Own(w.st, i);
    }
    forall q' | q' != q ensures !LiveReq(env, w'.st, q') {
      assert !LiveReq(env, w.st, q');
    }
  }

  lemma NotSentKeeps(env: Env, w: World, w': World)
    requires Inv(env, w) && CreateNext(env, w, NotSent) == Some(w')
    ensures Inv(env, w')
  {
    assert Calmer(env, w.st, w'.st);
  }

  lemma AnswerKeeps(env: Env, w: World, w': World)
    requires Inv(env, w) && CreateNext(env, w, Answer) == Some(w')
    ensures Inv(env, w')
  {
    assert Calmer(env, w.st, w'.st);
  }

  lemma RefuseKeeps(env: Env, w: World, status: int, w': World)
    requires Inv(env, w) && CreateNext(env, w, Refuse(status)) == Some(w')
    ensures Inv(env, w')
  {
    assert Calmer(env, w.st, w'.st);
  }

  lemma SalvageKeeps(env: Env, w: World, found: Option<nat>, w': World)
    requires Inv(env, w) && CreateNext(env, w, Salvage(found)) == Some(w')
    ensures Inv(env, w')
  {
    assert Calmer(env, w.st, w'.st);
    assert found.Some? ==> Own(w.st, found.value);
  }

  lemma MarkReadKeeps(env: Env, w: World, w': World)
    requires Inv(env, w) && CreateNext(env, w, MarkRead) == Some(w')
    ensures Inv(env, w')
  {
    assert Calmer(env, w.st, w'.st);
  }

  lemma MarkWriteKeeps(env: Env, w: World, w': World)
    requires Inv(env, w) && CreateNext(env, w, MarkWrite) == Some(w')
    ensures Inv(env, w')
  {
    assert Calmer(env, w.st, w'.st);
  }

  lemma CreateStepKeeps(env: Env, w: World, s: CreateStep, w': World)
    requires Safe(env) && Inv(env, w) && CreateNext(env, w, s) == Some(w')
    ensures Inv(env, w')
  {
    match s
    case Begin => BeginKeeps(env, w, w');
    case Recover(found) => RecoverKeeps(env, w, found, w');
    case Judge => JudgeKeeps(env, w, w');
    case Discard => DiscardKeeps(env, w, w');
    case Reset => ResetKeeps(env, w, w');
    case Recheck => RecheckKeeps(env, w, w');
    case Checkpoint(config) => CheckpointKeeps(env, w, config, w');
    case Look(found) => LookKeeps(env, w, found, w');
    case Stamp => StampKeeps(env, w, w');
    case Submit => SubmitKeeps(env, w, w');
    case Send => SendKeeps(env, w, w');
    case NotSent => NotSentKeeps(env, w, w');
    case Answer => AnswerKeeps(env, w, w');
    case Refuse(status) => RefuseKeeps(env, w, status, w');
    case Salvage(found) => SalvageKeeps(env, w, found, w');
    case MarkRead => MarkReadKeeps(env, w, w');
    case MarkWrite => MarkWriteKeeps(env, w, w');
  }

  lemma TakeKeeps(env: Env, w: World, w': World)
    requires Inv(env, w) && CleanNext(env, w, Take) == Some(w')
    ensures Inv(env, w')
  {
    assert Calmer(env, w.st, w'.st);
  }

  lemma BoundGoneKeeps(env: Env, w: World, w': World)
    requires Inv(env, w) && CleanNext(env, w, BoundGone) == Some(w')
    ensures Inv(env, w')
  {
    assert Calmer(env, w.st, w'.st);
  }

  lemma SearchKeeps(env: Env, w: World, found: Option<nat>, w': World)
    requires Inv(env, w) && CleanNext(env, w, Search(found)) == Some(w')
    ensures Inv(env, w')
  {
    assert Calmer(env, w.st, w'.st);
  }

  lemma CleanJudgeKeeps(env: Env, w: World, w': World)
    requires Safe(env) && Inv(env, w) && CleanNext(env, w, CleanJudge) == Some(w')
    ensures Inv(env, w')
  {
    assert Calmer(env, w.st, w'.st);
  }

  lemma DeleteInstanceKeeps(env: Env, w: World, w': World)
    requires Inv(env, w) && CleanNext(env, w, DeleteInstance) == Some(w')
    ensures Inv(env, w')
  {
    assert Calmer(env, w.st, w'.st);
  }

  lemma DeletePublishedKeeps(env: Env, w: World, w': World)
    requires Inv(env, w) && CleanNext(env, w, DeletePublished) == Some(w')
    ensures Inv(env, w')
  {
    assert Calmer(env, w.st, w'.st);
  }

  lemma ConfirmDeletedKeeps(env: Env, w: World, w': World)
    requires Inv(env, w) && CleanNext(env, w, ConfirmDeleted) == Some(w')
    ensures Inv(env, w')
  {
    assert Calmer(env, w.st, w'.st);
  }

  lemma ReleaseKeeps(env: Env, w: World, w': World)
    requires Inv(env, w) && CleanNext(env, w, Release) == Some(w')
    ensures Inv(env, w')
  {
    assert Calmer(env, w.st, w'.st);
  }

  lemma CleanStepKeeps(env: Env, w: World, s: CleanStep, w': World)
    requires Safe(env) && Inv(env, w) && CleanNext(env, w, s) == Some(w')
    ensures Inv(env, w')
  {
    match s
    case Take => TakeKeeps(env, w, w');
    case BoundGone => BoundGoneKeeps(env, w, w');
    case Search(found) => SearchKeeps(env, w, found, w');
    case CleanJudge => CleanJudgeKeeps(env, w, w');
    case DeleteInstance => DeleteInstanceKeeps(env, w, w');
    case DeletePublished => DeletePublishedKeeps(env, w, w');
    case ConfirmDeleted => ConfirmDeletedKeeps(env, w, w');
    case Release => ReleaseKeeps(env, w, w');
  }

  lemma TickKeeps(env: Env, w: World, span: nat, w': World)
    requires Inv(env, w) && EnvNext(env, w, Tick(span)) == Some(w')
    ensures Inv(env, w')
  {
    assert Calmer(env, w.st, w'.st);
  }

  lemma LandKeeps(env: Env, w: World, req: nat, w': World)
    requires Inv(env, w) && EnvNext(env, w, Land(req)) == Some(w')
    ensures Inv(env, w')
  {
    var st, st', id := w.st, w'.st, w.st.nextId;
    assert LiveReq(env, st, req);
    assert forall i :: !Own(st, i);
    forall i | Own(st', i) ensures i == id {
      assert !Own(st, i);
    }
    forall q ensures !LiveReq(env, st', q) {
      assert q != req ==> !LiveReq(env, st, q);
    }
  }

  lemma LoseKeeps(env: Env, w: World, req: nat, w': World)
    requires Inv(env, w) && EnvNext(env, w, Lose(req)) == Some(w')
    ensures Inv(env, w')
  {
    assert Calmer(env, w.st, w'.st);
  }

  lemma VanishKeeps(env: Env, w: World, id: nat, w': World)
    requires Inv(env, w) && EnvNext(env, w, Vanish(id)) == Some(w')
    ensures Inv(env, w')
  {
    assert Calmer(env, w.st, w'.st);
  }

  lemma DeleteClaimKeeps(env: Env, w: World, w': World)
    requires Inv(env, w) && EnvNext(env, w, DeleteClaim) == Some(w')
    ensures Inv(env, w')
  {
    assert Calmer(env, w.st, w'.st);
  }

  lemma TouchClaimKeeps(env: Env, w: World, w': World)
    requires Inv(env, w) && EnvNext(env, w, TouchClaim) == Some(w')
    ensures Inv(env, w')
  {
    assert Calmer(env, w.st, w'.st);
  }

  lemma PublishKeeps(env: Env, w: World, w': World)
    requires Inv(env, w) && EnvNext(env, w, Publish) == Some(w')
    ensures Inv(env, w')
  {
    assert Calmer(env, w.st, w'.st);
  }

  lemma CollectClaimKeeps(env: Env, w: World, w': World)
    requires Inv(env, w) && EnvNext(env, w, CollectClaim) == Some(w')
    ensures Inv(env, w')
  {
    assert Calmer(env, w.st, w'.st);
  }

  lemma AbandonCreateKeeps(env: Env, w: World, w': World)
    requires Inv(env, w) && EnvNext(env, w, AbandonCreate) == Some(w')
    ensures Inv(env, w')
  {
    assert Calmer(env, w.st, w'.st);
  }

  lemma AbandonCleanKeeps(env: Env, w: World, w': World)
    requires Inv(env, w) && EnvNext(env, w, AbandonClean) == Some(w')
    ensures Inv(env, w')
  {
    assert Calmer(env, w.st, w'.st);
  }

  lemma CrashKeeps(env: Env, w: World, w': World)
    requires Inv(env, w) && EnvNext(env, w, Crash) == Some(w')
    ensures Inv(env, w')
  {
    assert Calmer(env, w.st, w'.st);
  }

  lemma EnvStepKeeps(env: Env, w: World, s: EnvStep, w': World)
    requires Inv(env, w) && EnvNext(env, w, s) == Some(w')
    ensures Inv(env, w')
  {
    match s
    case Tick(span) => TickKeeps(env, w, span, w');
    case Land(req) => LandKeeps(env, w, req, w');
    case Lose(req) => LoseKeeps(env, w, req, w');
    case Vanish(id) => VanishKeeps(env, w, id, w');
    case DeleteClaim => DeleteClaimKeeps(env, w, w');
    case TouchClaim => TouchClaimKeeps(env, w, w');
    case Publish => PublishKeeps(env, w, w');
    case CollectClaim => CollectClaimKeeps(env, w, w');
    case AbandonCreate => AbandonCreateKeeps(env, w, w');
    case AbandonClean => AbandonCleanKeeps(env, w, w');
    case Crash => CrashKeeps(env, w, w');
  }
}
