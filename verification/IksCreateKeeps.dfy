module IksCreateKeeps {
  import opened Options
  import opened IksTypes
  import opened IksSteps
  import opened IksInvariant
  import opened IksGuard

  lemma BeginKeeps(env: Env, w: World, snap: Snapshot, w': World)
    requires Inv(env, w) && Base(w') && Begin1(w, snap) == Some(w')
    ensures Guard(env, w')
  {
    assert Calmer(env, w.st, w'.st);
  }

  lemma LockKeeps(env: Env, w: World, w': World)
    requires Inv(env, w) && Base(w') && Lock1(w) == Some(w')
    ensures Guard(env, w')
  {
    assert Calmer(env, w.st, w'.st);
  }

  lemma ReadOwnerHolder(env: Env, w: World, w': World)
    requires HolderGuard(env, w.st, w.holder) && ReadOwner1(w) == Some(w')
    ensures HolderGuard(env, w.st, w'.holder)
  {
  }

  lemma ReadOwnerKeeps(env: Env, w: World, w': World)
    requires Inv(env, w) && Base(w') && ReadOwner1(w) == Some(w')
    ensures Guard(env, w')
  {
    ReadOwnerHolder(env, w, w');
    LocalKeeps(env, w, w'.holder);
  }

  /** A checkpoint writes no pool identity but the recorded one. */
  lemma CheckpointKnown(env: Env, w: World)
    requires Inv(env, w) && w.holder.COwner? && w.st.claim.Claim?
    ensures Knows(w.st, w.holder.a)
  {
  }

  lemma AnnotateStore(env: Env, st: Store, a: Allocation)
    requires StoreGuard(env, st) && st.claim.Claim? && Knows(st, a)
    ensures StoreGuard(env, Annotate(st, a)) && Calmer(env, st, Annotate(st, a))
  {
    assert Calmer(env, st, Annotate(st, a));
  }

  lemma CheckpointHolder(env: Env, w: World, w': World)
    requires HolderGuard(env, w.st, w.holder) && w.holder.COwner? && Knows(w.st, w.holder.a) && Checkpoint1(w) == Some(w')
    ensures w'.st == Annotate(w.st, w.holder.a) && HolderGuard(env, w'.st, w'.holder)
  {
    assert Calmer(env, w.st, Annotate(w.st, w.holder.a));
  }

  lemma CheckpointKeeps(env: Env, w: World, w': World)
    requires Inv(env, w) && Base(w') && Checkpoint1(w) == Some(w')
    ensures Guard(env, w')
  {
    CheckpointKnown(env, w);
    AnnotateStore(env, w.st, w.holder.a);
    CheckpointHolder(env, w, w');
  }

  lemma ReserveKeeps(env: Env, w: World, w': World)
    requires Inv(env, w) && Base(w') && Reserve1(w) == Some(w')
    ensures Guard(env, w')
  {
    LocalKeeps(env, w, w'.holder);
  }

  lemma ReserveNewStore(env: Env, w: World, w': World)
    requires Inv(env, w) && Base(w') && ReserveNew1(w) == Some(w')
    ensures StoreGuard(env, w'.st) && Calmer(env, w.st, w'.st)
  {
    assert Calmer(env, w.st, w'.st);
  }

  lemma ReserveNewHolder(env: Env, w: World, w': World)
    requires Inv(env, w) && Base(w') && ReserveNew1(w) == Some(w')
    ensures HolderGuard(env, w'.st, w'.holder)
  {
    assert Calmer(env, w.st, w'.st);
  }

  lemma ReserveNewKeeps(env: Env, w: World, w': World)
    requires Inv(env, w) && Base(w') && ReserveNew1(w) == Some(w')
    ensures Guard(env, w')
  {
    ReserveNewStore(env, w, w');
    ReserveNewHolder(env, w, w');
    WriteKeeps(env, w, w'.st, w'.holder);
  }

  lemma FindPoolKeeps(env: Env, w: World, found: Option<PoolId>, w': World)
    requires Inv(env, w) && Base(w') && FindPool1(w, found) == Some(w')
    ensures Guard(env, w')
  {
    if found.Some? {
      assert OwnPool(w.st, found.value);
    }
    LocalKeeps(env, w, w'.holder);
  }

  lemma JudgeKeeps(env: Env, w: World, w': World)
    requires Safe(env)
    requires Inv(env, w) && Base(w') && Judge1(env, w) == Some(w')
    ensures Guard(env, w')
  {
    LocalKeeps(env, w, w'.holder);
  }

  lemma StampKeeps(env: Env, w: World, w': World)
    requires Inv(env, w) && Base(w') && Stamp1(w) == Some(w')
    ensures Guard(env, w')
  {
    LocalKeeps(env, w, w'.holder);
  }

  lemma RecordStartStore(env: Env, w: World, w': World)
    requires Inv(env, w) && Base(w') && RecordStart1(w) == Some(w')
    ensures StoreGuard(env, w'.st) && Calmer(env, w.st, w'.st)
  {
    assert Calmer(env, w.st, w'.st);
  }

  lemma RecordStartHolder(env: Env, w: World, w': World)
    requires Inv(env, w) && Base(w') && RecordStart1(w) == Some(w')
    ensures HolderGuard(env, w'.st, w'.holder)
  {
    assert Calmer(env, w.st, w'.st);
  }

  lemma RecordStartKeeps(env: Env, w: World, w': World)
    requires Inv(env, w) && Base(w') && RecordStart1(w) == Some(w')
    ensures Guard(env, w')
  {
    RecordStartStore(env, w, w');
    RecordStartHolder(env, w, w');
    WriteKeeps(env, w, w'.st, w'.holder);
  }

  lemma SendKeeps(env: Env, w: World, w': World)
    requires Inv(env, w) && Base(w') && Send1(w) == Some(w')
    ensures Guard(env, w')
  {
    var st, st', q := w.st, w'.st, w.st.nextReq;
    forall p | OwnPool(st', p) ensures OwnPool(st, p) { }
    forall q' | q' != q ensures !LiveReq(env, st', q') {
      assert !LiveReq(env, st, q');
    }
  }

  lemma AnsweredKeeps(env: Env, w: World, w': World)
    requires Inv(env, w) && Base(w') && Answered1(w) == Some(w')
    ensures Guard(env, w')
  {
    LocalKeeps(env, w, w'.holder);
  }

  lemma RefusedKeeps(env: Env, w: World, status: int, w': World)
    requires Inv(env, w) && Base(w') && Refused1(w, status) == Some(w')
    ensures Guard(env, w')
  {
    assert Calmer(env, w.st, w'.st);
  }

  lemma RecordRefusalKeeps(env: Env, w: World, w': World)
    requires Inv(env, w) && Base(w') && RecordRefusal1(w) == Some(w')
    ensures Guard(env, w')
  {
    assert Calmer(env, w.st, w'.st);
  }

  lemma ActivateStore(env: Env, w: World, w': World)
    requires Inv(env, w) && Base(w') && Activate1(w) == Some(w')
    ensures StoreGuard(env, w'.st) && Calmer(env, w.st, w'.st)
  {
    assert Calmer(env, w.st, w'.st);
  }

  lemma ActivateHolder(env: Env, w: World, w': World)
    requires Inv(env, w) && Base(w') && Activate1(w) == Some(w')
    ensures HolderGuard(env, w'.st, w'.holder)
  {
    assert Calmer(env, w.st, w'.st);
  }

  lemma ActivateKeeps(env: Env, w: World, w': World)
    requires Inv(env, w) && Base(w') && Activate1(w) == Some(w')
    ensures Guard(env, w')
  {
    ActivateStore(env, w, w');
    ActivateHolder(env, w, w');
    WriteKeeps(env, w, w'.st, w'.holder);
  }

  lemma VerifyPoolKeeps(env: Env, w: World, w': World)
    requires Inv(env, w) && Base(w') && VerifyPool1(w) == Some(w')
    ensures Guard(env, w')
  {
    assert OwnPool(w.st, w.holder.a.pool.value);
    LocalKeeps(env, w, w'.holder);
  }

  lemma ListWorkersKeeps(env: Env, w: World, workers: seq<Option<Worker>>, w': World)
    requires Inv(env, w) && Base(w') && ListWorkers1(w, workers) == Some(w')
    ensures Guard(env, w')
  {
    LocalKeeps(env, w, w'.holder);
  }
}
