/** Frames for the part of the invariant that depends on the creation window. */
module IksGuard {
  import opened Options
  import opened IksTypes
  import opened IksSteps
  import opened IksInvariant

  /** Nothing that could be left behind has appeared between the two stores. */
  ghost predicate Calmer(env: Env, st: Store, st': Store)
  {
    && (forall p :: OwnPool(st', p) ==> OwnPool(st, p) && st'.pools[p].start == st.pools[p].start)
    && (forall q :: LiveReq(env, st', q) ==> LiveReq(env, st, q) && st'.pending[q] == st.pending[q])
  }

  /** A step of the lock holder that touches no store. */
  lemma LocalKeeps(env: Env, w: World, h: Holder)
    requires Guard(env, w) && HolderGuard(env, w.st, h)
    ensures Guard(env, w.(holder := h))
  {
  }

  /** A change of the cloud or the clock that makes nothing of this claim appear. */
  lemma CalmKeeps(env: Env, w: World, st': Store)
    requires Guard(env, w) && Calmer(env, w.st, st') && w.st.now <= st'.now
    requires st' == w.st.(now := st'.now, pools := st'.pools, owners := st'.owners, nextPool := st'.nextPool, pending := st'.pending)
    ensures Guard(env, w.(st := st'))
  {
    CalmHolder(env, w.st, st', w.holder);
  }

  lemma CalmHolder(env: Env, st: Store, st': Store, h: Holder)
    requires HolderGuard(env, st, h) && Calmer(env, st, st') && st.now <= st'.now
    requires st' == st.(now := st'.now, pools := st'.pools, owners := st'.owners, nextPool := st'.nextPool, pending := st'.pending)
    ensures HolderGuard(env, st', h)
  {
  }

  /** Writing the reservation leaves the threads without the lock as they are. */
  lemma WriteKeeps(env: Env, w: World, st': Store, h': Holder)
    requires Guard(env, w) && StoreGuard(env, st') && HolderGuard(env, st', h')
    requires Calmer(env, w.st, st') && st'.claim == w.st.claim
    requires w.st.known.Some? ==> st'.known == w.st.known
    ensures Guard(env, w.(st := st', holder := h'))
  {
  }

  /** A write to the claim that keeps its annotation and finalizer; no release can be for its new version. */
  lemma ClaimKeeps(env: Env, w: World, c: Claim)
    requires Inv(env, w) && w.st.claim.Claim? && c.Claim?
    requires c.alloc == w.st.claim.alloc && c.finalizer == w.st.claim.finalizer
    ensures Guard(env, w.(st := PutClaim(w.st, c)))
  {
    var st' := PutClaim(w.st, c);
    assert Calmer(env, w.st, st');
    ClaimHolder(env, w.st, c, w.holder);
  }

  lemma ClaimHolder(env: Env, st: Store, c: Claim, h: Holder)
    requires HolderGuard(env, st, h) && st.claim.Claim? && c.Claim?
    ensures HolderGuard(env, PutClaim(st, c), h)
  {
    assert Calmer(env, st, PutClaim(st, c));
  }

  /** Logging a deletion. */
  lemma DeletionKeeps(env: Env, w: World, d: Deletion)
    requires Guard(env, w)
    ensures Guard(env, w.(st := w.st.(deletions := w.st.deletions + [d]), holder := Free))
  {
    var st' := w.st.(deletions := w.st.deletions + [d]);
    assert Calmer(env, w.st, st');
    WriteKeeps(env, w, st', Free);
  }
}
