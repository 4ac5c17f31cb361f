module IksCollectKeeps {
  import opened Options
  import opened IksTypes
  import opened IksSteps
  import opened IksInvariant
  import opened IksGuard

  lemma LockCandidateKeeps(env: Env, w: World, candidate: PoolId, w': World)
    requires Inv(env, w) && Base(w') && LockCandidate1(w, candidate) == Some(w')
    ensures Guard(env, w')
  {
    LocalKeeps(env, w, w'.holder);
  }

  lemma ReadTombstoneKeeps(env: Env, w: World, w': World)
    requires Inv(env, w) && Base(w') && ReadTombstone1(w) == Some(w')
    ensures Guard(env, w')
  {
    LocalKeeps(env, w, w'.holder);
  }

  lemma ScanClaimsKeeps(env: Env, w: World, w': World)
    requires Inv(env, w) && Base(w') && ScanClaims1(w) == Some(w')
    ensures Guard(env, w')
  {
    LocalKeeps(env, w, w'.holder);
  }

  lemma FirstLookKeeps(env: Env, w: World, workers: seq<Option<Worker>>, w': World)
    requires Inv(env, w) && Base(w') && FirstLook1(w, workers) == Some(w')
    ensures Guard(env, w')
  {
    LocalKeeps(env, w, w'.holder);
  }

  lemma WriteTombstoneKeeps(env: Env, w: World, w': World)
    requires Inv(env, w) && Base(w') && WriteTombstone1(w) == Some(w')
    ensures Guard(env, w')
  {
    assert Calmer(env, w.st, w'.st);
  }

  lemma SecondLookKeeps(env: Env, w: World, workers: seq<Option<Worker>>, w': World)
    requires Inv(env, w) && Base(w') && SecondLook1(w, workers) == Some(w')
    ensures Guard(env, w')
  {
    LocalKeeps(env, w, w'.holder);
  }

  lemma DeleteCandidateKeeps(env: Env, w: World, w': World)
    requires Inv(env, w) && Base(w') && DeleteCandidate1(w) == Some(w')
    ensures Guard(env, w')
  {
    DeletionKeeps(env, w, Deletion(Collector, w.holder.candidate, None, w.holder.workers));
  }

  lemma SeeAbsentKeeps(env: Env, w: World, w': World)
    requires Inv(env, w) && Base(w') && SeeAbsent1(w) == Some(w')
    ensures Guard(env, w')
  {
    assert Calmer(env, w.st, w'.st);
  }

  lemma DropTombstoneKeeps(env: Env, w: World, tomb: Reservation, w': World)
    requires Inv(env, w) && Base(w') && DropTombstone1(w, tomb) == Some(w')
    ensures Guard(env, w')
  {
    assert Calmer(env, w.st, w'.st);
  }
}
