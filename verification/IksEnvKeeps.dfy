module IksEnvKeeps {
  import opened Options
  import opened IksTypes
  import opened IksSteps
  import opened IksInvariant
  import opened IksGuard

  lemma TickKeeps(env: Env, w: World, span: nat, w': World)
    requires Inv(env, w) && Base(w') && Tick1(w, span) == Some(w')
    ensures Guard(env, w')
  {
    CalmKeeps(env, w, w'.st);
  }

  lemma LandKeeps(env: Env, w: World, req: nat, shape: Pool, w': World)
    requires Inv(env, w) && Base(w') && Land1(env, w, req, shape) == Some(w')
    ensures Guard(env, w')
  {
    LandStore(env, w, req, shape, w');
    LandHolder(env, w, req, shape, w');
    assert LiveReq(env, w.st, req);
  }

  lemma LandStore(env: Env, w: World, req: nat, shape: Pool, w': World)
    requires StoreGuard(env, w.st) && Land1(env, w, req, shape) == Some(w')
    ensures StoreGuard(env, w'.st)
    ensures forall p :: OwnPool(w'.st, p) ==> p == w.st.nextPool
    ensures forall q :: !LiveReq(env, w'.st, q)
  {
    var st, st' := w.st, w'.st;
    assert LiveReq(env, st, req);
    assert forall p :: !OwnPool(st, p);
    forall p | OwnPool(st', p) ensures p == st.nextPool {
      assert !OwnPool(st, p);
    }
    forall q ensures !LiveReq(env, st', q) {
      assert q != req ==> !LiveReq(env, st, q);
    }
  }

  lemma LandHolder(env: Env, w: World, req: nat, shape: Pool, w': World)
    requires Inv(env, w) && Land1(env, w, req, shape) == Some(w')
    ensures HolderGuard(env, w'.st, w.holder)
  {
    assert LiveReq(env, w.st, req);
    LandStore(env, w, req, shape, w');
  }

  lemma LoseKeeps(env: Env, w: World, req: nat, w': World)
    requires Inv(env, w) && Base(w') && Lose1(w, req) == Some(w')
    ensures Guard(env, w')
  {
    CalmKeeps(env, w, w'.st);
  }

  lemma VanishKeeps(env: Env, w: World, id: PoolId, w': World)
    requires Inv(env, w) && Base(w') && Vanish1(w, id) == Some(w')
    ensures Guard(env, w')
  {
    CalmKeeps(env, w, w'.st);
  }

  lemma ForeignKeeps(env: Env, w: World, pool: Pool, w': World)
    requires Inv(env, w) && Base(w') && Foreign1(w, pool) == Some(w')
    ensures Guard(env, w')
  {
    CalmKeeps(env, w, w'.st);
  }

  lemma EditKeeps(env: Env, w: World, id: PoolId, pool: Pool, w': World)
    requires Inv(env, w) && Base(w') && Edit1(w, id, pool) == Some(w')
    ensures Guard(env, w')
  {
    CalmKeeps(env, w, w'.st);
  }

  lemma DeleteClaimKeeps(env: Env, w: World, w': World)
    requires Inv(env, w) && Base(w') && DeleteClaim1(w) == Some(w')
    ensures Guard(env, w')
  {
    ClaimKeeps(env, w, w.st.claim.(deleting := true));
  }

  lemma TouchClaimKeeps(env: Env, w: World, w': World)
    requires Inv(env, w) && Base(w') && TouchClaim1(w) == Some(w')
    ensures Guard(env, w')
  {
    ClaimKeeps(env, w, w.st.claim);
  }

  lemma PublishKeeps(env: Env, w: World, w': World)
    requires Inv(env, w) && Base(w') && Publish1(w) == Some(w')
    ensures Guard(env, w')
  {
    ClaimKeeps(env, w, w.st.claim.(bound := w.returned));
  }

  lemma CollectClaimKeeps(env: Env, w: World, w': World)
    requires Inv(env, w) && Base(w') && CollectClaim1(w) == Some(w')
    ensures Guard(env, w')
  {
    assert Calmer(env, w.st, w'.st);
  }

  lemma AbandonKeeps(env: Env, w: World, w': World)
    requires Inv(env, w) && Base(w') && Abandon1(w) == Some(w')
    ensures Guard(env, w')
  {
    LocalKeeps(env, w, w'.holder);
  }

  lemma WithdrawKeeps(env: Env, w: World, w': World)
    requires Inv(env, w) && Base(w') && Withdraw1(w) == Some(w')
    ensures Guard(env, w')
  {
    assert Calmer(env, w.st, w'.st);
  }

  lemma CrashKeeps(env: Env, w: World, w': World)
    requires Inv(env, w) && Base(w') && Crash1(w) == Some(w')
    ensures Guard(env, w')
  {
    assert Calmer(env, w.st, w'.st);
  }
}
