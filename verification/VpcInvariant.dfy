/** What every step of VPC launch recovery keeps. */
module VpcInvariant {
  import opened Options
  import opened VpcLaunch

  predicate Safe(env: Env)
  {
    env.delay + env.lag <= WINDOW
  }

  predicate LiveReq(env: Env, st: Store, q: nat)
  {
    q in st.pending && st.now <= st.pending[q] + env.delay
  }

  predicate Own(st: Store, i: nat)
  {
    i in st.instances
  }

  ghost predicate NoLive(env: Env, st: Store)
  {
    forall q :: !LiveReq(env, st, q)
  }

  ghost predicate NoHazard(env: Env, st: Store)
  {
    NoLive(env, st) && forall i :: !Own(st, i)
  }

  ghost predicate Only(st: Store, id: nat)
  {
    forall i :: Own(st, i) ==> i == id
  }

  /** The claim keeps the finalizer and the checkpoint of the create submitted at `at`. */
  predicate Covered(c: Claim, at: int)
  {
    && c.Claim? && c.finalizer && c.launch.Some?
    && c.launch.value.submitted && !c.launch.value.rejected && c.launch.value.at == at
  }

  ghost predicate StoreInv(env: Env, st: Store)
  {
    && (forall i, j :: Own(st, i) && Own(st, j) ==> i == j)
    && (forall p, q :: LiveReq(env, st, p) && LiveReq(env, st, q) ==> p == q)
    && (forall i, q :: Own(st, i) ==> !LiveReq(env, st, q))
    && (forall i :: Own(st, i) ==> Covered(st.claim, st.instances[i]))
    && (forall q :: LiveReq(env, st, q) ==> Covered(st.claim, st.pending[q]))
    && (st.claim.Claim? && st.claim.bound.Some? ==> NoLive(env, st) && Only(st, st.claim.bound.value))
    && (st.claim.Claim? ==> st.claim.version <= st.rev)
    && (forall i :: i in st.instances ==> i < st.nextId)
    && (forall q :: q in st.pending ==> q < st.nextReq && q !in st.landed)
    && (forall q :: q in st.landed ==> q < st.nextReq && st.landed[q] < st.nextId)
  }

  /** The claim is unchanged since version `v`. */
  predicate At(st: Store, v: nat)
  {
    st.claim.Claim? && st.claim.version == v
  }

  /** The next send can still take effect in time. */
  predicate Fresh(env: Env, st: Store, cr: Creator)
  {
    cr.Submitted? && st.now <= cr.c.at + env.delay
  }

  ghost predicate AbsentSince(env: Env, st: Store, seen: int)
  {
    forall i :: Own(st, i) ==> seen <= st.instances[i] + env.delay
  }

  predicate HasVersion(cr: Creator)
  {
    cr.Fetched? || cr.Missing? || cr.Resetting? || cr.Checked? || cr.Prepared? || cr.Unseen? || cr.Stamped? || cr.Marking?
  }

  /** The launching thread before its request leaves. */
  ghost predicate EarlyInv(env: Env, st: Store, cr: Creator)
  {
    && (HasVersion(cr) ==> cr.v <= st.rev)
    && (cr.Fetched? && At(st, cr.v) ==> st.claim.launch == cr.launch && !st.claim.deleting)
    && (cr.Missing? ==> cr.c.submitted && !cr.c.rejected && cr.seen <= st.now)
    && (cr.Missing? && At(st, cr.v) ==> st.claim.launch == Some(cr.c) && AbsentSince(env, st, cr.seen))
    && (cr.Resetting? && At(st, cr.v) ==> NoHazard(env, st))
    && (cr.Checked? && At(st, cr.v) ==> !st.claim.deleting && st.claim.launch.None?)
    && (cr.Prepared? || cr.Unseen? ==> !cr.c.submitted && !cr.c.rejected)
    && ((cr.Prepared? || cr.Unseen?) && At(st, cr.v) ==> !st.claim.deleting && st.claim.launch == Some(cr.c))
    && (cr.Stamped? ==> cr.c.submitted && !cr.c.rejected)
    && (cr.Stamped? && At(st, cr.v) ==> !st.claim.deleting && NoHazard(env, st))
  }

  ghost predicate LateInv(env: Env, st: Store, cr: Creator)
  {
    && (cr.Submitted? ==> cr.c.submitted && !cr.c.rejected && NoHazard(env, st))
    && (Fresh(env, st, cr) ==> Covered(st.claim, cr.c.at) && st.claim.launch == Some(cr.c))
    && (cr.Sent? ==> cr.req < st.nextReq && (forall q :: LiveReq(env, st, q) ==> q == cr.req))
    && (cr.Sent? && cr.req in st.pending ==> forall i :: !Own(st, i))
    && (cr.Sent? && cr.req in st.landed ==> Only(st, st.landed[cr.req]))
    && (cr.Refused? || cr.Marking? || cr.Marked? ==> NoHazard(env, st))
  }

  ghost predicate CreatorInv(env: Env, w: World)
  {
    && EarlyInv(env, w.st, w.cr) && LateInv(env, w.st, w.cr)
    && (!w.cr.Idle? ==> w.returned.None? && (w.st.claim.Claim? ==> w.st.claim.bound.None?))
    && (w.returned.Some? ==> NoLive(env, w.st) && Only(w.st, w.returned.value))
  }

  ghost predicate CleanerInv(env: Env, st: Store, cr: Creator, cl: Cleaner)
  {
    && (!cl.Resting? ==> cl.v <= st.rev)
    && (!cl.Resting? && At(st, cl.v) ==> st.claim.deleting)
    && (cl.Taken? && At(st, cl.v) ==> st.claim.launch == cl.launch && st.claim.bound == cl.bound)
    && (cl.Absent? ==> cl.seen <= st.now)
    && (cl.Absent? && At(st, cl.v) ==> st.claim.launch == Some(cl.c) && AbsentSince(env, st, cl.seen))
    && ((cl.Found? || cl.Deleted?) && At(st, cl.v) ==> NoLive(env, st) && Only(st, cl.id) && !Fresh(env, st, cr))
    && (cl.Complete? && At(st, cl.v) ==> NoHazard(env, st) && !Fresh(env, st, cr))
  }

  ghost predicate Inv(env: Env, w: World)
  {
    StoreInv(env, w.st) && CreatorInv(env, w) && CleanerInv(env, w.st, w.cr, w.cl)
  }

  /** Nothing that could be left behind has appeared. */
  ghost predicate Calmer(env: Env, st: Store, st': Store)
  {
    && (forall i :: Own(st', i) ==> Own(st, i) && st'.instances[i] == st.instances[i])
    && (forall q :: LiveReq(env, st', q) ==> LiveReq(env, st, q) && st'.pending[q] == st.pending[q])
  }

  lemma InitInv(env: Env, now: int)
    ensures Inv(env, Init(now))
  {
  }
}
