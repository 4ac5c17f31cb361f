/**
 * The batcher as a concurrent state machine: callers of Add, the run loop and the request workers.
 * The shutdown path is left out; timers are nondeterministic exits.
 */
module Batcher {
  import opened Options

  type Id = nat

  /** What the executor returns for one input. */
  datatype Out = Output(value: string) | Failure(error: string)

  /** What a caller of Add receives. */
  datatype Answer = Given(result: Out) | Shortage(got: nat, expected: nat)

  /** Where a request is, with its index in its bucket or batch. */
  datatype Place = Queued(index: nat) | Batched(index: nat) | Running(worker: nat, index: nat) | Replied(worker: nat, index: nat)

  /** `sent` says that the caller's trigger went through; Add returns once it is sent and answered. */
  datatype Req = Req(input: Option<string>, hash: nat, sent: bool, place: Place, answer: Option<Answer>)

  datatype Loop =
    | AtSelect
    | Gathering(count: nat)
    | Swapping
    | Launching(buckets: map<nat, seq<Id>>)

  /** A worker in runCalls: results is None until the executor has returned. */
  datatype Worker = Worker(batch: seq<Id>, results: Option<seq<Out>>, next: nat)

  datatype World = World(reqs: map<Id, Req>, queue: map<nat, seq<Id>>, token: bool, loop: Loop,
                            workers: map<nat, Worker>, nextId: Id, nextWorker: nat)

  datatype Limits = Limits(maxItems: nat, maxWorkers: nat)

  datatype Step =
    | Add(input: Option<string>, hash: nat)
    | Trigger(id: Id)
    | Wake
    | Gather
    | Settle
    | Swap
    | Launch(hash: nat)
    | Rest
    | Execute(worker: nat, results: seq<Out>)
    | Deliver(worker: nat)
    | Retire(worker: nat)

  /** What runCalls sends to request i of a batch of n. */
  function Reply(results: seq<Out>, i: nat, n: nat): Answer
  {
    if i < |results| then Given(results[i]) else Shortage(i, n)
  }

  function Init(): World
  {
    World(map[], map[], false, AtSelect, map[], 0, 0)
  }

  /** Add registers the request before it triggers. */
  function Add1(w: World, input: Option<string>, hash: nat): Option<World>
  {
    var id := w.nextId;
    var bucket := if hash in w.queue then w.queue[hash] else [];
    Some(w.(reqs := w.reqs[id := Req(input, hash, false, Queued(|bucket|), None)],
            queue := w.queue[hash := bucket + [id]], nextId := id + 1))
  }

  /** The trigger channel holds one token; a full channel blocks the sender. */
  function Trigger1(w: World, id: Id): Option<World>
  {
    if id in w.reqs && !w.reqs[id].sent && !w.token then
      Some(w.(reqs := w.reqs[id := w.reqs[id].(sent := true)], token := true))
    else None
  }

  function Wake1(w: World): Option<World>
  {
    if w.loop.AtSelect? && w.token then Some(w.(loop := Gathering(1), token := false)) else None
  }

  function Gather1(o: Limits, w: World): Option<World>
  {
    if w.loop.Gathering? && (o.maxItems == 0 || w.loop.count < o.maxItems) && w.token then
      Some(w.(loop := Gathering(w.loop.count + 1), token := false))
    else None
  }

  /** waitForIdle ends: an idle or total timeout, or enough items. */
  function Settle1(w: World): Option<World>
  {
    if w.loop.Gathering? then Some(w.(loop := Swapping)) else None
  }

  /** A request leaves the queue for the buckets being launched. */
  function TakenUp(r: Req): Req
  {
    if r.place.Queued? then r.(place := Batched(r.place.index)) else r
  }

  function Swap1(w: World): Option<World>
  {
    if w.loop.Swapping? then
      Some(w.(loop := Launching(w.queue), queue := map[], reqs := map id | id in w.reqs :: TakenUp(w.reqs[id])))
    else None
  }

  /** The requests of a bucket now belong to the worker. */
  function HandOver(r: Req, hash: nat, worker: nat): Req
  {
    if r.place.Batched? && r.hash == hash then r.(place := Running(worker, r.place.index)) else r
  }

  function Launch1(o: Limits, w: World, hash: nat): Option<World>
  {
    if w.loop.Launching? && hash in w.loop.buckets && |w.workers| < o.maxWorkers then
      var batch := w.loop.buckets[hash];
      var k := w.nextWorker;
      Some(w.(loop := Launching(w.loop.buckets - {hash}), nextWorker := k + 1,
              workers := w.workers[k := Worker(batch, None, 0)],
              reqs := map id | id in w.reqs :: HandOver(w.reqs[id], hash, k)))
    else None
  }

  function Rest1(w: World): Option<World>
  {
    if w.loop.Launching? && w.loop.buckets == map[] then Some(w.(loop := AtSelect)) else None
  }

  /** The executor returns at most as many results as it was given inputs. */
  function Execute1(w: World, k: nat, results: seq<Out>): Option<World>
  {
    if k in w.workers && w.workers[k].results.None? && |results| <= |w.workers[k].batch| then
      Some(w.(workers := w.workers[k := w.workers[k].(results := Some(results))]))
    else None
  }

  function Deliver1(w: World, k: nat): Option<World>
  {
    if k in w.workers && w.workers[k].results.Some? && w.workers[k].next < |w.workers[k].batch| &&
       w.workers[k].batch[w.workers[k].next] in w.reqs
    then
      var x := w.workers[k];
      var id := x.batch[x.next];
      var a := Reply(x.results.value, x.next, |x.batch|);
      Some(w.(workers := w.workers[k := x.(next := x.next + 1)],
              reqs := w.reqs[id := w.reqs[id].(place := Replied(k, x.next), answer := Some(a))]))
    else None
  }

  function Retire1(w: World, k: nat): Option<World>
  {
    if k in w.workers && w.workers[k].results.Some? && w.workers[k].next == |w.workers[k].batch| then
      Some(w.(workers := w.workers - {k}))
    else None
  }

  function Next(o: Limits, w: World, s: Step): Option<World>
  {
    match s
    case Add(input, hash) => Add1(w, input, hash)
    case Trigger(id) => Trigger1(w, id)
    case Wake => Wake1(w)
    case Gather => Gather1(o, w)
    case Settle => Settle1(w)
    case Swap => Swap1(w)
    case Launch(hash) => Launch1(o, w, hash)
    case Rest => Rest1(w)
    case Execute(k, results) => Execute1(w, k, results)
    case Deliver(k) => Deliver1(w, k)
    case Retire(k) => Retire1(w, k)
  }

  function Exec(o: Limits, run: seq<Step>): Option<World>
  {
    if run == [] then Some(Init())
    else
      var w := Exec(o, run[..|run|-1]);
      if w.None? then None else Next(o, w.value, run[|run|-1])
  }

  // ---- what every step keeps -------------------------------------------------------------------

  predicate QueuedAt(reqs: map<Id, Req>, id: Id, h: nat, i: nat)
  {
    id in reqs && reqs[id].hash == h && reqs[id].place == Queued(i)
  }

  predicate BatchedAt(reqs: map<Id, Req>, id: Id, h: nat, i: nat)
  {
    id in reqs && reqs[id].hash == h && reqs[id].place == Batched(i)
  }

  /** The queue holds exactly the queued requests, each once, at its index in the bucket of its hash. */
  ghost predicate QueueOk(reqs: map<Id, Req>, queue: map<nat, seq<Id>>)
  {
    && (forall h :: h in queue ==> queue[h] != [])
    && (forall h, i :: h in queue && 0 <= i < |queue[h]| ==> QueuedAt(reqs, queue[h][i], h, i))
    && (forall id :: id in reqs && reqs[id].place.Queued? ==>
          var h, i := reqs[id].hash, reqs[id].place.index; h in queue && i < |queue[h]| && queue[h][i] == id)
  }

  /** The same for the buckets being launched. */
  ghost predicate LaunchOk(reqs: map<Id, Req>, buckets: map<nat, seq<Id>>)
  {
    && (forall h :: h in buckets ==> buckets[h] != [])
    && (forall h, i :: h in buckets && 0 <= i < |buckets[h]| ==> BatchedAt(reqs, buckets[h][i], h, i))
    && (forall id :: id in reqs && reqs[id].place.Batched? ==>
          var h, i := reqs[id].hash, reqs[id].place.index; h in buckets && i < |buckets[h]| && buckets[h][i] == id)
  }

  predicate RunningAt(reqs: map<Id, Req>, id: Id, k: nat, i: nat)
  {
    id in reqs && reqs[id].place == Running(k, i)
  }

  predicate WorkerOk(x: Worker)
  {
    && x.next <= |x.batch|
    && (x.results.None? ==> x.next == 0)
    && (x.results.Some? ==> |x.results.value| <= |x.batch|)
  }

  /** Workers hold exactly the running requests, each once, in the part of the batch not yet answered. */
  ghost predicate WorkersOk(reqs: map<Id, Req>, workers: map<nat, Worker>, nextWorker: nat)
  {
    && (forall k :: k in workers ==> k < nextWorker && WorkerOk(workers[k]))
    && (forall k, i :: k in workers && workers[k].next <= i < |workers[k].batch| ==> RunningAt(reqs, workers[k].batch[i], k, i))
    && (forall id :: id in reqs && reqs[id].place.Running? ==>
          var k, i := reqs[id].place.worker, reqs[id].place.index;
          k in workers && workers[k].next <= i < |workers[k].batch| && workers[k].batch[i] == id)
  }

  function Launched(l: Loop): map<nat, seq<Id>>
  {
    if l.Launching? then l.buckets else map[]
  }

  /** No wakeup is lost. */
  ghost predicate AwakeOk(w: World)
  {
    w.queue != map[] ==> w.token || w.loop.Gathering? || w.loop.Swapping? || SomeUnsent(w.reqs)
  }

  predicate Unsent(reqs: map<Id, Req>, id: Id)
  {
    id in reqs && !reqs[id].sent
  }

  ghost predicate SomeUnsent(reqs: map<Id, Req>)
  {
    exists id :: Unsent(reqs, id)
  }

  ghost predicate AnswersOk(w: World)
  {
    forall id :: id in w.reqs ==> id < w.nextId && (w.reqs[id].answer.Some? <==> w.reqs[id].place.Replied?)
  }

  ghost predicate Inv(w: World)
  {
    && QueueOk(w.reqs, w.queue) && LaunchOk(w.reqs, Launched(w.loop))
    && WorkersOk(w.reqs, w.workers, w.nextWorker) && AwakeOk(w) && AnswersOk(w)
  }

  // ---- each step, part by part -------------------------------------------------------------------

  lemma AddQueue(w: World, input: Option<string>, hash: nat, w': World)
    requires QueueOk(w.reqs, w.queue) && AnswersOk(w) && Add1(w, input, hash) == Some(w')
    ensures QueueOk(w'.reqs, w'.queue)
  {
    AddedInQueue(w, input, hash, w');
    forall id | id in w'.reqs && w'.reqs[id].place.Queued?
      ensures var h, i := w'.reqs[id].hash, w'.reqs[id].place.index; h in w'.queue && i < |w'.queue[h]| && w'.queue[h][i] == id
    {
      if id != w.nextId { assert w'.reqs[id] == w.reqs[id]; }
    }
  }

  lemma AddedInQueue(w: World, input: Option<string>, hash: nat, w': World)
    requires QueueOk(w.reqs, w.queue) && AnswersOk(w) && Add1(w, input, hash) == Some(w')
    ensures forall h, i :: h in w'.queue && 0 <= i < |w'.queue[h]| ==> QueuedAt(w'.reqs, w'.queue[h][i], h, i)
  {
    forall h, i | h in w'.queue && 0 <= i < |w'.queue[h]| ensures QueuedAt(w'.reqs, w'.queue[h][i], h, i) {
      if h != hash || i < |w'.queue[h]| - 1 {
        assert w'.queue[h][i] == w.queue[h][i];
        assert QueuedAt(w.reqs, w.queue[h][i], h, i);
      }
    }
  }

  lemma AddLaunch(w: World, input: Option<string>, hash: nat, w': World)
    requires LaunchOk(w.reqs, Launched(w.loop)) && AnswersOk(w) && Add1(w, input, hash) == Some(w')
    ensures LaunchOk(w'.reqs, Launched(w'.loop))
  {
  }

  lemma AddWorkers(w: World, input: Option<string>, hash: nat, w': World)
    requires WorkersOk(w.reqs, w.workers, w.nextWorker) && AnswersOk(w) && Add1(w, input, hash) == Some(w')
    ensures WorkersOk(w'.reqs, w'.workers, w'.nextWorker)
  {
  }

  lemma AddRest(w: World, input: Option<string>, hash: nat, w': World)
    requires Inv(w) && Add1(w, input, hash) == Some(w')
    ensures AwakeOk(w') && AnswersOk(w')
  {
    assert Unsent(w'.reqs, w.nextId);
  }

  lemma AddKeeps(w: World, input: Option<string>, hash: nat, w': World)
    requires Inv(w) && Add1(w, input, hash) == Some(w')
    ensures Inv(w')
  {
    AddQueue(w, input, hash, w');
    AddLaunch(w, input, hash, w');
    AddWorkers(w, input, hash, w');
    AddRest(w, input, hash, w');
  }

  lemma TriggerQueue(w: World, id: Id, w': World)
    requires QueueOk(w.reqs, w.queue) && Trigger1(w, id) == Some(w')
    ensures QueueOk(w'.reqs, w'.queue)
  {
  }

  lemma TriggerLaunch(w: World, id: Id, w': World)
    requires LaunchOk(w.reqs, Launched(w.loop)) && Trigger1(w, id) == Some(w')
    ensures LaunchOk(w'.reqs, Launched(w'.loop))
  {
  }

  lemma TriggerWorkers(w: World, id: Id, w': World)
    requires WorkersOk(w.reqs, w.workers, w.nextWorker) && Trigger1(w, id) == Some(w')
    ensures WorkersOk(w'.reqs, w'.workers, w'.nextWorker)
  {
  }

  lemma TriggerRest(w: World, id: Id, w': World)
    requires Inv(w) && Trigger1(w, id) == Some(w')
    ensures AwakeOk(w') && AnswersOk(w')
  {
  }

  lemma TriggerKeeps(w: World, id: Id, w': World)
    requires Inv(w) && Trigger1(w, id) == Some(w')
    ensures Inv(w')
  {
    TriggerQueue(w, id, w');
    TriggerLaunch(w, id, w');
    TriggerWorkers(w, id, w');
    TriggerRest(w, id, w');
  }

  lemma SwapQueue(w: World, w': World)
    requires QueueOk(w.reqs, w.queue) && Swap1(w) == Some(w')
    ensures QueueOk(w'.reqs, w'.queue)
  {
  }

  lemma SwapLaunch(w: World, w': World)
    requires QueueOk(w.reqs, w.queue) && LaunchOk(w.reqs, Launched(w.loop)) && Swap1(w) == Some(w')
    ensures LaunchOk(w'.reqs, Launched(w'.loop))
  {
    assert Launched(w.loop) == map[];
  }

  lemma SwapWorkers(w: World, w': World)
    requires WorkersOk(w.reqs, w.workers, w.nextWorker) && Swap1(w) == Some(w')
    ensures WorkersOk(w'.reqs, w'.workers, w'.nextWorker)
  {
  }

  lemma SwapRest(w: World, w': World)
    requires Inv(w) && Swap1(w) == Some(w')
    ensures AwakeOk(w') && AnswersOk(w')
  {
  }

  lemma SwapKeeps(w: World, w': World)
    requires Inv(w) && Swap1(w) == Some(w')
    ensures Inv(w')
  {
    SwapQueue(w, w');
    SwapLaunch(w, w');
    SwapWorkers(w, w');
    SwapRest(w, w');
  }

  lemma LaunchQueue(o: Limits, w: World, hash: nat, w': World)
    requires QueueOk(w.reqs, w.queue) && Launch1(o, w, hash) == Some(w')
    ensures QueueOk(w'.reqs, w'.queue)
  {
  }

  lemma LaunchLaunch(o: Limits, w: World, hash: nat, w': World)
    requires LaunchOk(w.reqs, Launched(w.loop)) && Launch1(o, w, hash) == Some(w')
    ensures LaunchOk(w'.reqs, Launched(w'.loop))
  {
  }

  lemma LaunchWorkers(o: Limits, w: World, hash: nat, w': World)
    requires WorkersOk(w.reqs, w.workers, w.nextWorker) && LaunchOk(w.reqs, Launched(w.loop))
    requires Launch1(o, w, hash) == Some(w')
    ensures WorkersOk(w'.reqs, w'.workers, w'.nextWorker)
  {
    var batch, n := w.loop.buckets[hash], w.nextWorker;
    LaunchNew(o, w, hash, w');
    LaunchOld(o, w, hash, w');
    forall k, i | k in w'.workers && w'.workers[k].next <= i < |w'.workers[k].batch|
      ensures RunningAt(w'.reqs, w'.workers[k].batch[i], k, i)
    {
      if k == n { assert w'.workers[k].batch[i] == batch[i]; } else { assert w'.workers[k] == w.workers[k]; }
    }
    forall id | id in w'.reqs && w'.reqs[id].place.Running?
      ensures var k, i := w'.reqs[id].place.worker, w'.reqs[id].place.index;
              k in w'.workers && w'.workers[k].next <= i < |w'.workers[k].batch| && w'.workers[k].batch[i] == id
    {
      LaunchBack(o, w, hash, w', id);
    }
  }

  /** Every running request is in the part of its worker's batch not yet answered. */
  lemma LaunchBack(o: Limits, w: World, hash: nat, w': World, id: Id)
    requires WorkersOk(w.reqs, w.workers, w.nextWorker) && LaunchOk(w.reqs, Launched(w.loop))
    requires Launch1(o, w, hash) == Some(w') && id in w'.reqs && w'.reqs[id].place.Running?
    ensures var k, i := w'.reqs[id].place.worker, w'.reqs[id].place.index;
            k in w'.workers && w'.workers[k].next <= i < |w'.workers[k].batch| && w'.workers[k].batch[i] == id
  {
    var r := w.reqs[id];
    if r.place.Running? {
      assert w'.reqs[id] == r;
      assert r.place.worker in w.workers && r.place.worker < w.nextWorker;
      assert w'.workers[r.place.worker] == w.workers[r.place.worker];
    } else {
      var batch := w.loop.buckets[hash];
      assert Launched(w.loop)[hash] == batch;
      assert w'.workers[w.nextWorker] == Worker(batch, None, 0);
    }
  }

  /** The new worker holds what its bucket held. */
  lemma LaunchNew(o: Limits, w: World, hash: nat, w': World)
    requires LaunchOk(w.reqs, Launched(w.loop)) && Launch1(o, w, hash) == Some(w')
    ensures var batch := w.loop.buckets[hash];
            forall i :: 0 <= i < |batch| ==> RunningAt(w'.reqs, batch[i], w.nextWorker, i)
  {
    var batch := w.loop.buckets[hash];
    assert Launched(w.loop)[hash] == batch;
    forall i | 0 <= i < |batch| ensures RunningAt(w'.reqs, batch[i], w.nextWorker, i) {
      assert BatchedAt(w.reqs, batch[i], hash, i);
    }
  }

  /** The other workers are not disturbed. */
  lemma LaunchOld(o: Limits, w: World, hash: nat, w': World)
    requires WorkersOk(w.reqs, w.workers, w.nextWorker) && Launch1(o, w, hash) == Some(w')
    ensures forall k, i :: k in w.workers && w.workers[k].next <= i < |w.workers[k].batch| ==>
              RunningAt(w'.reqs, w.workers[k].batch[i], k, i)
    ensures forall id :: id in w.reqs && w.reqs[id].place.Running? ==> w'.reqs[id] == w.reqs[id]
  {
    forall k, i | k in w.workers && w.workers[k].next <= i < |w.workers[k].batch|
      ensures RunningAt(w'.reqs, w.workers[k].batch[i], k, i)
    {
      assert RunningAt(w.reqs, w.workers[k].batch[i], k, i);
    }
  }

  lemma LaunchRest(o: Limits, w: World, hash: nat, w': World)
    requires Inv(w) && Launch1(o, w, hash) == Some(w')
    ensures AwakeOk(w') && AnswersOk(w')
  {
    if SomeUnsent(w.reqs) {
      var id :| Unsent(w.reqs, id);
      assert Unsent(w'.reqs, id);
    }
  }

  lemma LaunchKeeps(o: Limits, w: World, hash: nat, w': World)
    requires Inv(w) && Launch1(o, w, hash) == Some(w')
    ensures Inv(w')
  {
    LaunchQueue(o, w, hash, w');
    LaunchLaunch(o, w, hash, w');
    LaunchWorkers(o, w, hash, w');
    LaunchRest(o, w, hash, w');
  }

  lemma DeliverQueue(w: World, k: nat, w': World)
    requires QueueOk(w.reqs, w.queue) && Deliver1(w, k) == Some(w')
    requires w.reqs[w.workers[k].batch[w.workers[k].next]].place.Running?
    ensures QueueOk(w'.reqs, w'.queue)
  {
  }

  lemma DeliverLaunch(w: World, k: nat, w': World)
    requires LaunchOk(w.reqs, Launched(w.loop)) && Deliver1(w, k) == Some(w')
    requires w.reqs[w.workers[k].batch[w.workers[k].next]].place.Running?
    ensures LaunchOk(w'.reqs, Launched(w'.loop))
  {
  }

  lemma DeliverWorkers(w: World, k: nat, w': World)
    requires WorkersOk(w.reqs, w.workers, w.nextWorker) && Deliver1(w, k) == Some(w')
    ensures WorkersOk(w'.reqs, w'.workers, w'.nextWorker)
  {
    assert RunningAt(w.reqs, w.workers[k].batch[w.workers[k].next], k, w.workers[k].next);
  }

  lemma DeliverRest(w: World, k: nat, w': World)
    requires Inv(w) && Deliver1(w, k) == Some(w')
    ensures AwakeOk(w') && AnswersOk(w')
  {
    if SomeUnsent(w.reqs) {
      var id :| Unsent(w.reqs, id);
      assert Unsent(w'.reqs, id);
    }
  }

  lemma DeliverKeeps(w: World, k: nat, w': World)
    requires Inv(w) && Deliver1(w, k) == Some(w')
    ensures Inv(w')
  {
    assert RunningAt(w.reqs, w.workers[k].batch[w.workers[k].next], k, w.workers[k].next);
    DeliverQueue(w, k, w');
    DeliverLaunch(w, k, w');
    DeliverWorkers(w, k, w');
    DeliverRest(w, k, w');
  }

  lemma LoopKeeps(o: Limits, w: World, s: Step, w': World)
    requires Inv(w) && Next(o, w, s) == Some(w') && (s.Wake? || s.Gather? || s.Settle? || s.Rest?)
    ensures Inv(w')
  {
    assert Launched(w'.loop) == Launched(w.loop);
  }

  lemma ExecuteWorkers(w: World, k: nat, results: seq<Out>, w': World)
    requires WorkersOk(w.reqs, w.workers, w.nextWorker) && Execute1(w, k, results) == Some(w')
    ensures WorkersOk(w'.reqs, w'.workers, w'.nextWorker)
  {
    forall j, i | j in w'.workers && w'.workers[j].next <= i < |w'.workers[j].batch|
      ensures RunningAt(w'.reqs, w'.workers[j].batch[i], j, i)
    {
      assert w'.workers[j].batch == w.workers[j].batch && w'.workers[j].next == w.workers[j].next;
    }
  }

  lemma ExecuteKeeps(w: World, k: nat, results: seq<Out>, w': World)
    requires Inv(w) && Execute1(w, k, results) == Some(w')
    ensures Inv(w')
  {
    assert w'.reqs == w.reqs && w'.queue == w.queue && w'.loop == w.loop && w'.token == w.token;
    ExecuteWorkers(w, k, results, w');
  }

  lemma RetireWorkers(w: World, k: nat, w': World)
    requires WorkersOk(w.reqs, w.workers, w.nextWorker) && Retire1(w, k) == Some(w')
    ensures WorkersOk(w'.reqs, w'.workers, w'.nextWorker)
  {
  }

  lemma RetireKeeps(w: World, k: nat, w': World)
    requires Inv(w) && Retire1(w, k) == Some(w')
    ensures Inv(w')
  {
    RetireWorkers(w, k, w');
  }

  lemma StepKeeps(o: Limits, w: World, s: Step, w': World)
    requires Inv(w) && Next(o, w, s) == Some(w')
    ensures Inv(w')
  {
    match s
    case Add(input, hash) => AddKeeps(w, input, hash, w');
    case Trigger(id) => TriggerKeeps(w, id, w');
    case Wake => LoopKeeps(o, w, s, w');
    case Gather => LoopKeeps(o, w, s, w');
    case Settle => LoopKeeps(o, w, s, w');
    case Swap => SwapKeeps(w, w');
    case Launch(hash) => LaunchKeeps(o, w, hash, w');
    case Rest => LoopKeeps(o, w, s, w');
    case Execute(k, results) => ExecuteKeeps(w, k, results, w');
    case Deliver(k) => DeliverKeeps(w, k, w');
    case Retire(k) => RetireKeeps(w, k, w');
  }

  lemma {:induction false} RunKeeps(o: Limits, run: seq<Step>, w: World)
    requires Exec(o, run) == Some(w)
    ensures Inv(w)
  {
    if run != [] {
      var prev := Exec(o, run[..|run|-1]).value;
      RunKeeps(o, run[..|run|-1], prev);
      StepKeeps(o, prev, run[|run|-1], w);
    }
  }
}
