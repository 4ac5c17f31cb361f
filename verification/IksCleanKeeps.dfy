module IksCleanKeeps {
  import opened Options
  import opened IksTypes
  import opened IksSteps
  import opened IksInvariant
  import opened IksGuard

  lemma ReadClaimKeeps(env: Env, w: World, release: bool, w': World)
    requires Inv(env, w) && Base(w') && ReadClaim1(w, release) == Some(w')
    ensures Guard(env, w')
  {
    assert Calmer(env, w.st, w'.st);
  }

  lemma NoAllocationKeeps(env: Env, w: World, rd: Read, w': World)
    requires Inv(env, w) && Base(w') && NoAllocation1(w, rd) == Some(w')
    ensures Guard(env, w')
  {
    assert Calmer(env, w.st, w'.st);
  }

  lemma LockCleanupKeeps(env: Env, w: World, rd: Read, w': World)
    requires Inv(env, w) && Base(w') && LockCleanup1(w, rd) == Some(w')
    ensures Guard(env, w')
  {
    assert Calmer(env, w.st, w'.st);
  }

  lemma CleanReserveKeeps(env: Env, w: World, w': World)
    requires Inv(env, w) && Base(w') && CleanReserve1(w) == Some(w')
    ensures Guard(env, w')
  {
    LocalKeeps(env, w, w'.holder);
  }

  lemma CleanReserveNewStore(env: Env, w: World, w': World)
    requires Inv(env, w) && Base(w') && CleanReserveNew1(w) == Some(w')
    ensures StoreGuard(env, w'.st) && Calmer(env, w.st, w'.st)
  {
    assert Calmer(env, w.st, w'.st);
  }

  lemma CleanReserveNewHolder(env: Env, w: World, w': World)
    requires Inv(env, w) && Base(w') && CleanReserveNew1(w) == Some(w')
    ensures HolderGuard(env, w'.st, w'.holder)
  {
    assert Calmer(env, w.st, w'.st);
  }

  lemma CleanReserveNewKeeps(env: Env, w: World, w': World)
    requires Inv(env, w) && Base(w') && CleanReserveNew1(w) == Some(w')
    ensures Guard(env, w')
  {
    CleanReserveNewStore(env, w, w');
    CleanReserveNewHolder(env, w, w');
    WriteKeeps(env, w, w'.st, w'.holder);
  }

  lemma MarkStore(env: Env, w: World, w': World)
    requires Inv(env, w) && Base(w') && Mark1(w) == Some(w')
    ensures StoreGuard(env, w'.st) && Calmer(env, w.st, w'.st)
  {
    assert Calmer(env, w.st, w'.st);
  }

  lemma MarkHolder(env: Env, w: World, w': World)
    requires Inv(env, w) && Base(w') && Mark1(w) == Some(w')
    ensures HolderGuard(env, w'.st, w'.holder)
  {
    assert Calmer(env, w.st, w'.st);
  }

  lemma MarkKeeps(env: Env, w: World, w': World)
    requires Inv(env, w) && Base(w') && Mark1(w) == Some(w')
    ensures Guard(env, w')
  {
    MarkStore(env, w, w');
    MarkHolder(env, w, w');
    WriteKeeps(env, w, w'.st, w'.holder);
  }

  lemma CleanFindKeeps(env: Env, w: World, found: Option<PoolId>, w': World)
    requires Inv(env, w) && Base(w') && CleanFind1(w, found) == Some(w')
    ensures Guard(env, w')
  {
    if found.Some? {
      assert OwnPool(w.st, found.value);
    }
    LocalKeeps(env, w, w'.holder);
  }

  lemma CleanJudgeKeeps(env: Env, w: World, w': World)
    requires Safe(env)
    requires Inv(env, w) && Base(w') && CleanJudge1(env, w) == Some(w')
    ensures Guard(env, w')
  {
    LocalKeeps(env, w, w'.holder);
  }

  /** Ending a cleanup: nothing of this claim is left, so its reservation can go. */
  lemma FinishKeeps(env: Env, w: World)
    requires Inv(env, w) && (w.holder.KClear? || w.holder.GAbsent? || w.holder.GReserved?)
    requires w.holder.GAbsent? ==> w.st.res.None?
    ensures Guard(env, Finish(w, w.holder.rd))
  {
    var st' := Finish(w, w.holder.rd).st;
    assert Calmer(env, w.st, st');
    WriteKeeps(env, w, st', Free);
  }

  lemma SettleKeeps(env: Env, w: World, w': World)
    requires Inv(env, w) && Base(w') && Settle1(w) == Some(w')
    ensures Guard(env, w')
  {
    FinishKeeps(env, w);
  }

  lemma RecordPoolStore(env: Env, w: World, w': World)
    requires Inv(env, w) && Base(w') && RecordPool1(w) == Some(w')
    ensures StoreGuard(env, w'.st) && Calmer(env, w.st, w'.st)
  {
    assert Calmer(env, w.st, w'.st);
  }

  lemma RecordPoolHolder(env: Env, w: World, w': World)
    requires Inv(env, w) && Base(w') && RecordPool1(w) == Some(w')
    ensures HolderGuard(env, w'.st, w'.holder)
  {
    assert Calmer(env, w.st, w'.st);
  }

  lemma RecordPoolKeeps(env: Env, w: World, w': World)
    requires Inv(env, w) && Base(w') && RecordPool1(w) == Some(w')
    ensures Guard(env, w')
  {
    RecordPoolStore(env, w, w');
    RecordPoolHolder(env, w, w');
    WriteKeeps(env, w, w'.st, w'.holder);
  }

  lemma CountWorkersKeeps(env: Env, w: World, workers: seq<Option<Worker>>, w': World)
    requires Inv(env, w) && Base(w') && CountWorkers1(w, workers) == Some(w')
    ensures Guard(env, w')
  {
    LocalKeeps(env, w, w'.holder);
  }

  lemma DeletePoolKeeps(env: Env, w: World, w': World)
    requires Inv(env, w) && Base(w') && DeletePool1(w) == Some(w')
    ensures Guard(env, w')
  {
    DeletionKeeps(env, w, Deletion(Cleanup, w.holder.a.pool.value, w.holder.a.worker, w.holder.workers));
  }

  lemma LockGoneKeeps(env: Env, w: World, rd: Read, w': World)
    requires Inv(env, w) && Base(w') && LockGone1(w, rd) == Some(w')
    ensures Guard(env, w')
  {
    assert Calmer(env, w.st, w'.st);
  }

  lemma GoneFindKeeps(env: Env, w: World, w': World)
    requires Inv(env, w) && Base(w') && GoneFind1(w) == Some(w')
    ensures Guard(env, w')
  {
    LocalKeeps(env, w, w'.holder);
  }

  lemma GoneReadKeeps(env: Env, w: World, w': World)
    requires Inv(env, w) && Base(w') && GoneRead1(w) == Some(w')
    ensures Guard(env, w')
  {
    if w.st.res.None? {
      FinishKeeps(env, w);
    } else {
      LocalKeeps(env, w, w'.holder);
    }
  }

  lemma ReleaseKeeps(env: Env, w: World, version: nat, w': World)
    requires Inv(env, w) && Base(w') && Release1(w, version) == Some(w')
    ensures Guard(env, w')
  {
    assert Calmer(env, w.st, w'.st);
  }
}
