/**
 * VPC launch recovery: the launch checkpoint on the NodeClaim, the instances of the launch's unique
 * name, the launching thread and the controller that releases the launch finalizer. No lock orders
 * the two; every claim write is conditional on the resourceVersion its writer last read.
 */
module VpcLaunch {
  import opened Options
  import opened CreateStatus

  const WINDOW := 900_000_000_000

  /** `at` is the recorded submission time, stored with full precision. */
  datatype Launch = Launch(config: string, submitted: bool, rejected: bool, at: int)

  /** A create takes effect within `delay` of its recorded submission; a lookup is judged within `lag`. */
  datatype Env = Env(delay: nat, lag: nat)

  datatype Claim = Gone | Claim(version: nat, deleting: bool, finalizer: bool, launch: Option<Launch>, bound: Option<nat>)

  /**
   * `instances` maps each instance of the launch name to the submission time of its create, `asked` holds the instances
   * whose deletion was requested.
   */
  datatype Store = Store(now: int, rev: nat, claim: Claim, instances: map<nat, int>, nextId: nat,
                         pending: map<nat, int>, landed: map<nat, nat>, nextReq: nat, asked: set<nat>)

  /** The thread in Create, with its local variables. */
  datatype Creator =
    | Idle
    | Fetched(v: nat, launch: Option<Launch>)
    | Missing(v: nat, c: Launch, seen: int)
    | Resetting(v: nat, c: Launch)
    | Checked(v: nat)
    | Prepared(v: nat, c: Launch)
    | Unseen(v: nat, c: Launch)
    | Stamped(v: nat, c: Launch)
    | Submitted(c: Launch)
    | Sent(c: Launch, req: nat)
    | Refused(c: Launch)
    | Marking(v: nat, c: Launch)
    | Marked(c: Launch)

  /** The allocation controller's reconcile of a terminating claim. */
  datatype Cleaner =
    | Resting
    | Taken(v: nat, launch: Option<Launch>, bound: Option<nat>)
    | Absent(v: nat, c: Launch, seen: int)
    | Found(v: nat, id: nat)
    | Deleted(v: nat, id: nat)
    | Complete(v: nat)

  /** `returned` is the instance of a Create that succeeded and is not yet published. */
  datatype World = World(st: Store, cr: Creator, cl: Cleaner, returned: Option<nat>)

  /** abandoned: an absent instance proves that this launch created nothing. */
  predicate Abandoned(c: Launch, now: int)
  {
    c.rejected || !c.submitted || now - c.at > WINDOW
  }

  function PutClaim(st: Store, c: Claim): Store
    requires c.Claim?
  {
    st.(claim := c.(version := st.rev + 1), rev := st.rev + 1)
  }

  /** The name lookup: the instance found, or none when no instance has the name. */
  predicate Lookup(st: Store, found: Option<nat>)
  {
    match found
    case None => st.instances == map[]
    case Some(i) => i in st.instances
  }

  // ---- Create -------------------------------------------------------------------------------

  datatype CreateStep =
    | Begin
    | Recover(found: Option<nat>)
    | Judge
    | Discard
    | Reset
    | Recheck
    | Checkpoint(config: string)
    | Look(found: Option<nat>)
    | Stamp
    | Submit
    | Send
    | NotSent
    | Answer
    | Refuse(status: int)
    | Salvage(found: Option<nat>)
    | MarkRead
    | MarkWrite

  /** One Create per claim runs at a time, and none once a provider ID is published. */
  function Begin1(w: World): Option<World>
  {
    var c := w.st.claim;
    if w.cr.Idle? && w.returned.None? && c.Claim? && !c.deleting && c.bound.None? then
      Some(w.(cr := Fetched(c.version, c.launch)))
    else None
  }

  /** recoverLaunch of a submitted launch: adopt the instance, or note that none was seen. */
  function Recover1(w: World, found: Option<nat>): Option<World>
  {
    if w.cr.Fetched? && w.cr.launch.Some? && w.cr.launch.value.submitted && !w.cr.launch.value.rejected && Lookup(w.st, found) then
      match found
      case Some(i) => Some(w.(cr := Idle, returned := Some(i)))
      case None => Some(w.(cr := Missing(w.cr.v, w.cr.launch.value, w.st.now)))
    else None
  }

  function Judge1(env: Env, w: World): Option<World>
  {
    if w.cr.Missing? && w.st.now <= w.cr.seen + env.lag && Abandoned(w.cr.c, w.st.now) then
      Some(w.(cr := Resetting(w.cr.v, w.cr.c)))
    else None
  }

  /** A launch never submitted, or refused, restarts without a lookup. */
  function Discard1(w: World): Option<World>
  {
    if w.cr.Fetched? && w.cr.launch.Some? && (!w.cr.launch.value.submitted || w.cr.launch.value.rejected) then
      Some(w.(cr := Resetting(w.cr.v, w.cr.launch.value)))
    else None
  }

  /** resetPreparedLaunch drops both the checkpoint and the finalizer. */
  function Reset1(w: World): Option<World>
  {
    if w.cr.Resetting? && w.st.claim.Claim? && w.st.claim.version == w.cr.v then
      Some(w.(st := PutClaim(w.st, w.st.claim.(launch := None, finalizer := false)), cr := Idle))
    else None
  }

  /** checkpointLaunch re-reads the claim: not terminating and without a checkpoint. */
  function Recheck1(w: World): Option<World>
  {
    var c := w.st.claim;
    if w.cr.Fetched? && w.cr.launch.None? && c.Claim? && !c.deleting && c.launch.None? then
      Some(w.(cr := Checked(c.version)))
    else None
  }

  function Checkpoint1(w: World, config: string): Option<World>
  {
    if w.cr.Checked? && w.st.claim.Claim? && w.st.claim.version == w.cr.v then
      var c := Launch(config, false, false, 0);
      Some(w.(st := PutClaim(w.st, w.st.claim.(launch := Some(c), finalizer := true)), cr := Prepared(w.st.rev + 1, c)))
    else None
  }

  function Look1(w: World, found: Option<nat>): Option<World>
  {
    if w.cr.Prepared? && Lookup(w.st, found) then
      match found
      case Some(i) => Some(w.(cr := Idle, returned := Some(i)))
      case None => Some(w.(cr := Unseen(w.cr.v, w.cr.c)))
    else None
  }

  function Stamp1(w: World): Option<World>
  {
    if w.cr.Unseen? then Some(w.(cr := Stamped(w.cr.v, w.cr.c.(submitted := true, at := w.st.now)))) else None
  }

  function Submit1(w: World): Option<World>
  {
    if w.cr.Stamped? && w.st.claim.Claim? && w.st.claim.version == w.cr.v then
      Some(w.(st := PutClaim(w.st, w.st.claim.(launch := Some(w.cr.c), finalizer := true)), cr := Submitted(w.cr.c)))
    else None
  }

  /** CreateInstance leaves the process. */
  function Send1(w: World): Option<World>
  {
    if w.cr.Submitted? then
      var q := w.st.nextReq;
      Some(w.(st := w.st.(pending := w.st.pending[q := w.cr.c.at], nextReq := q + 1), cr := Sent(w.cr.c, q)))
    else None
  }

  /** The client reports that the request was never sent. */
  function NotSent1(w: World): Option<World>
  {
    if w.cr.Submitted? then Some(w.(cr := Refused(w.cr.c))) else None
  }

  function Answer1(w: World): Option<World>
  {
    if w.cr.Sent? && w.cr.req in w.st.landed then
      Some(w.(cr := Idle, returned := Some(w.st.landed[w.cr.req])))
    else None
  }

  function Refuse1(w: World, status: int): Option<World>
  {
    if w.cr.Sent? && w.cr.req in w.st.pending && RejectedStatus(status) then
      Some(w.(st := w.st.(pending := w.st.pending - {w.cr.req}), cr := Refused(w.cr.c)))
    else None
  }

  /** After a failed create, recoverLaunch may still find the instance. */
  function Salvage1(w: World, found: Option<nat>): Option<World>
  {
    if (w.cr.Sent? || w.cr.Marked?) && Lookup(w.st, found) then
      Some(w.(cr := Idle, returned := found))
    else None
  }

  /** markLaunchRejected re-reads the claim and demands the submitted checkpoint. */
  function MarkRead1(w: World): Option<World>
  {
    if w.cr.Refused? && w.st.claim.Claim? && w.st.claim.launch == Some(w.cr.c) then
      Some(w.(cr := Marking(w.st.claim.version, w.cr.c)))
    else None
  }

  /** On a conflict the source re-reads; that is the step back to Refused. */
  function MarkWrite1(w: World): Option<World>
  {
    if w.cr.Marking? && w.st.claim.Claim? then
      if w.st.claim.version == w.cr.v then
        Some(w.(st := PutClaim(w.st, w.st.claim.(launch := Some(w.cr.c.(rejected := true)), finalizer := true)), cr := Marked(w.cr.c)))
      else Some(w.(cr := Refused(w.cr.c)))
    else None
  }

  function CreateNext(env: Env, w: World, s: CreateStep): Option<World>
  {
    match s
    case Begin => Begin1(w)
    case Recover(found) => Recover1(w, found)
    case Judge => Judge1(env, w)
    case Discard => Discard1(w)
    case Reset => Reset1(w)
    case Recheck => Recheck1(w)
    case Checkpoint(config) => Checkpoint1(w, config)
    case Look(found) => Look1(w, found)
    case Stamp => Stamp1(w)
    case Submit => Submit1(w)
    case Send => Send1(w)
    case NotSent => NotSent1(w)
    case Answer => Answer1(w)
    case Refuse(status) => Refuse1(w, status)
    case Salvage(found) => Salvage1(w, found)
    case MarkRead => MarkRead1(w)
    case MarkWrite => MarkWrite1(w)
  }

  // ---- the controller that releases the finalizer ---------------------------------------------

  datatype CleanStep =
    | Take
    | BoundGone
    | Search(found: Option<nat>)
    | CleanJudge
    | DeletePublished
    | DeleteInstance
    | ConfirmDeleted
    | Release

  function Take1(w: World): Option<World>
  {
    var c := w.st.claim;
    if w.cl.Resting? && c.Claim? && c.deleting && c.finalizer then
      Some(w.(cl := Taken(c.version, c.launch, c.bound)))
    else None
  }

  /** A published instance is confirmed not found. */
  function BoundGone1(w: World): Option<World>
  {
    if w.cl.Taken? && w.cl.bound.Some? && w.cl.bound.value !in w.st.instances then
      Some(w.(cl := Complete(w.cl.v)))
    else None
  }

  /** CleanupPending's name lookup. */
  function Search1(w: World, found: Option<nat>): Option<World>
  {
    if w.cl.Taken? && w.cl.bound.None? && w.cl.launch.Some? && Lookup(w.st, found) then
      match found
      case Some(i) => Some(w.(cl := Found(w.cl.v, i)))
      case None => Some(w.(cl := Absent(w.cl.v, w.cl.launch.value, w.st.now)))
    else None
  }

  function CleanJudge1(env: Env, w: World): Option<World>
  {
    if w.cl.Absent? && w.st.now <= w.cl.seen + env.lag && Abandoned(w.cl.c, w.st.now) then
      Some(w.(cl := Complete(w.cl.v)))
    else None
  }

  function Ask(st: Store, id: nat): Store
  {
    st.(asked := st.asked + {id})
  }

  /** Deletion of a terminating claim with a provider ID; the instance disappears in a later environment step. */
  function DeletePublished1(w: World): Option<World>
  {
    var c := w.st.claim;
    if c.Claim? && c.deleting && c.bound.Some? then Some(w.(st := Ask(w.st, c.bound.value))) else None
  }

  function DeleteInstance1(w: World): Option<World>
  {
    if w.cl.Found? then Some(w.(st := Ask(w.st, w.cl.id), cl := Deleted(w.cl.v, w.cl.id))) else None
  }

  function ConfirmDeleted1(w: World): Option<World>
  {
    if w.cl.Deleted? && w.cl.id !in w.st.instances then Some(w.(cl := Complete(w.cl.v))) else None
  }

  function Release1(w: World): Option<World>
  {
    if w.cl.Complete? && w.st.claim.Claim? && w.st.claim.version == w.cl.v then
      Some(w.(st := PutClaim(w.st, w.st.claim.(finalizer := false)), cl := Resting))
    else None
  }

  function CleanNext(env: Env, w: World, s: CleanStep): Option<World>
  {
    match s
    case Take => Take1(w)
    case BoundGone => BoundGone1(w)
    case Search(found) => Search1(w, found)
    case CleanJudge => CleanJudge1(env, w)
    case DeletePublished => DeletePublished1(w)
    case DeleteInstance => DeleteInstance1(w)
    case ConfirmDeleted => ConfirmDeleted1(w)
    case Release => Release1(w)
  }

  // ---- environment --------------------------------------------------------------------------

  datatype EnvStep =
    | Tick(span: nat)
    | Land(req: nat)
    | Lose(req: nat)
    | Vanish(id: nat)
    | DeleteClaim
    | TouchClaim
    | Publish
    | CollectClaim
    | AbandonCreate
    | AbandonClean
    | Crash

  function Land1(env: Env, w: World, req: nat): Option<World>
  {
    if req in w.st.pending && w.st.now <= w.st.pending[req] + env.delay then
      var i := w.st.nextId;
      Some(w.(st := w.st.(instances := w.st.instances[i := w.st.pending[req]], nextId := i + 1,
                          pending := w.st.pending - {req}, landed := w.st.landed[req := i])))
    else None
  }

  function EnvNext(env: Env, w: World, s: EnvStep): Option<World>
  {
    match s
    case Tick(span) => Some(w.(st := w.st.(now := w.st.now + span)))
    case Land(req) => Land1(env, w, req)
    case Lose(req) => Some(w.(st := w.st.(pending := w.st.pending - {req})))
    case Vanish(id) => Some(w.(st := w.st.(instances := w.st.instances - {id})))
    case DeleteClaim => if w.st.claim.Claim? then Some(w.(st := PutClaim(w.st, w.st.claim.(deleting := true)))) else None
    case TouchClaim => if w.st.claim.Claim? then Some(w.(st := PutClaim(w.st, w.st.claim))) else None
    case Publish =>
      if w.st.claim.Claim? && w.returned.Some? then
        Some(w.(st := PutClaim(w.st, w.st.claim.(bound := w.returned)), returned := None))
      else None
    case CollectClaim =>
      if w.st.claim.Claim? && w.st.claim.deleting && !w.st.claim.finalizer then Some(w.(st := w.st.(claim := Gone))) else None
    case AbandonCreate => Some(w.(cr := Idle, returned := None))
    case AbandonClean => Some(w.(cl := Resting))
    case Crash => Some(World(w.st, Idle, Resting, None))
  }

  datatype Step = C(c: CreateStep) | K(k: CleanStep) | E(e: EnvStep)

  function Next(env: Env, w: World, s: Step): Option<World>
  {
    match s
    case C(c) => CreateNext(env, w, c)
    case K(k) => CleanNext(env, w, k)
    case E(e) => EnvNext(env, w, e)
  }

  function Init(now: int): World
  {
    World(Store(now, 0, Claim(0, false, false, None, None), map[], 0, map[], map[], 0, {}), Idle, Resting, None)
  }

  function Exec(env: Env, now: int, run: seq<Step>): Option<World>
  {
    if run == [] then Some(Init(now))
    else
      var w := Exec(env, now, run[..|run|-1]);
      if w.None? then None else Next(env, w.value, run[|run|-1])
  }
}
