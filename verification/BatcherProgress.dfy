/** Every call of Add returns: steps other than Add run out, and they stop only when all requests are answered. */
module BatcherProgress {
  import opened Options
  import opened Batcher

  function Unsents(reqs: map<Id, Req>): set<Id>
  {
    set id | id in reqs && !reqs[id].sent
  }

  function QueuedOnes(reqs: map<Id, Req>): set<Id>
  {
    set id | id in reqs && reqs[id].place.Queued?
  }

  function BatchedOnes(reqs: map<Id, Req>): set<Id>
  {
    set id | id in reqs && reqs[id].place.Batched?
  }

  function RunningOnes(reqs: map<Id, Req>): set<Id>
  {
    set id | id in reqs && reqs[id].place.Running?
  }

  /** Workers whose executor has not returned. */
  function Busy(workers: map<nat, Worker>): set<nat>
  {
    set k | k in workers && workers[k].results.None?
  }

  function Rank(l: Loop): nat
  {
    match l
    case AtSelect => 0
    case Gathering(_) => 5
    case Swapping => 4
    case Launching(_) => 3
  }

  /** The work left: a bound on the number of steps without a new Add. */
  function Work(w: World): nat
  {
    8 * |Unsents(w.reqs)| + (if w.token then 6 else 0) + Rank(w.loop)
    + 6 * |QueuedOnes(w.reqs)| + 5 * |BatchedOnes(w.reqs)| + 2 * |RunningOnes(w.reqs)|
    + |w.workers.Keys| + |Busy(w.workers)|
  }

  lemma TriggerWorks(w: World, id: Id, w': World)
    requires Trigger1(w, id) == Some(w')
    ensures Work(w') < Work(w)
  {
    assert Unsents(w.reqs) == Unsents(w'.reqs) + {id};
    assert QueuedOnes(w'.reqs) == QueuedOnes(w.reqs);
    assert BatchedOnes(w'.reqs) == BatchedOnes(w.reqs);
    assert RunningOnes(w'.reqs) == RunningOnes(w.reqs);
  }

  lemma SwapMoves(w: World, w': World)
    requires LaunchOk(w.reqs, Launched(w.loop)) && Swap1(w) == Some(w')
    ensures |BatchedOnes(w.reqs)| == 0 && |QueuedOnes(w'.reqs)| == 0
    ensures |BatchedOnes(w'.reqs)| == |QueuedOnes(w.reqs)|
  {
    assert BatchedOnes(w.reqs) == {};
    assert QueuedOnes(w'.reqs) == {};
    assert BatchedOnes(w'.reqs) == QueuedOnes(w.reqs);
  }

  lemma SwapLeaves(w: World, w': World)
    requires Swap1(w) == Some(w')
    ensures |Unsents(w'.reqs)| == |Unsents(w.reqs)| && |RunningOnes(w'.reqs)| == |RunningOnes(w.reqs)|
  {
    assert Unsents(w'.reqs) == Unsents(w.reqs);
    assert RunningOnes(w'.reqs) == RunningOnes(w.reqs);
  }

  lemma SwapWorks(w: World, w': World)
    requires LaunchOk(w.reqs, Launched(w.loop)) && Swap1(w) == Some(w')
    ensures Work(w') < Work(w)
  {
    SwapMoves(w, w');
    SwapLeaves(w, w');
  }

  lemma LoopWorks(o: Limits, w: World, s: Step, w': World)
    requires Next(o, w, s) == Some(w') && (s.Wake? || s.Gather? || s.Settle? || s.Rest?)
    ensures Work(w') < Work(w)
  {
  }

  /** The requests of the launched bucket. */
  function Moved(reqs: map<Id, Req>, hash: nat): set<Id>
  {
    set id | id in reqs && reqs[id].place.Batched? && reqs[id].hash == hash
  }

  lemma LaunchMoves(o: Limits, w: World, hash: nat, w': World)
    requires LaunchOk(w.reqs, Launched(w.loop)) && Launch1(o, w, hash) == Some(w')
    ensures |Moved(w.reqs, hash)| > 0
    ensures |BatchedOnes(w.reqs)| == |BatchedOnes(w'.reqs)| + |Moved(w.reqs, hash)|
    ensures |RunningOnes(w'.reqs)| == |RunningOnes(w.reqs)| + |Moved(w.reqs, hash)|
  {
    var batch := w.loop.buckets[hash];
    assert Launched(w.loop)[hash] == batch;
    assert BatchedAt(w.reqs, batch[0], hash, 0);
    assert batch[0] in Moved(w.reqs, hash);
    assert BatchedOnes(w.reqs) == BatchedOnes(w'.reqs) + Moved(w.reqs, hash);
    assert RunningOnes(w'.reqs) == RunningOnes(w.reqs) + Moved(w.reqs, hash);
  }

  lemma LaunchLeaves(o: Limits, w: World, hash: nat, w': World)
    requires Launch1(o, w, hash) == Some(w')
    ensures |Unsents(w'.reqs)| == |Unsents(w.reqs)| && |QueuedOnes(w'.reqs)| == |QueuedOnes(w.reqs)|
  {
    assert Unsents(w'.reqs) == Unsents(w.reqs);
    assert QueuedOnes(w'.reqs) == QueuedOnes(w.reqs);
  }

  lemma Hired(workers: map<nat, Worker>, k: nat, batch: seq<Id>)
    requires k !in workers
    ensures var more := workers[k := Worker(batch, None, 0)];
            |more.Keys| == |workers.Keys| + 1 && |Busy(more)| == |Busy(workers)| + 1
  {
    var more := workers[k := Worker(batch, None, 0)];
    assert more.Keys == workers.Keys + {k};
    assert Busy(more) == Busy(workers) + {k};
  }

  lemma LaunchWorks(o: Limits, w: World, hash: nat, w': World)
    requires LaunchOk(w.reqs, Launched(w.loop)) && Launch1(o, w, hash) == Some(w') && w.nextWorker !in w.workers
    ensures Work(w') < Work(w)
  {
    LaunchMoves(o, w, hash, w');
    LaunchLeaves(o, w, hash, w');
    Hired(w.workers, w.nextWorker, w.loop.buckets[hash]);
  }

  lemma ExecuteWorks(w: World, k: nat, results: seq<Out>, w': World)
    requires Execute1(w, k, results) == Some(w')
    ensures Work(w') < Work(w)
  {
    assert |Busy(w.workers)| == |Busy(w'.workers)| + 1 by {
      assert Busy(w.workers) == Busy(w'.workers) + {k};
    }
    assert w'.workers.Keys == w.workers.Keys;
  }

  lemma RetireWorks(w: World, k: nat, w': World)
    requires Retire1(w, k) == Some(w')
    ensures Work(w') < Work(w)
  {
    assert |w.workers.Keys| == |w'.workers.Keys| + 1 by {
      assert w.workers.Keys == w'.workers.Keys + {k};
    }
    assert Busy(w'.workers) == Busy(w.workers);
  }

  lemma DeliverWorks(w: World, k: nat, w': World)
    requires WorkersOk(w.reqs, w.workers, w.nextWorker) && Deliver1(w, k) == Some(w')
    ensures Work(w') < Work(w)
  {
    var id := w.workers[k].batch[w.workers[k].next];
    assert RunningAt(w.reqs, id, k, w.workers[k].next);
    assert Unsents(w'.reqs) == Unsents(w.reqs);
    assert QueuedOnes(w'.reqs) == QueuedOnes(w.reqs);
    assert BatchedOnes(w'.reqs) == BatchedOnes(w.reqs);
    assert RunningOnes(w.reqs) == RunningOnes(w'.reqs) + {id};
    assert w'.workers.Keys == w.workers.Keys;
    assert Busy(w'.workers) == Busy(w.workers);
  }

  lemma StepWorks(o: Limits, w: World, s: Step, w': World)
    requires Inv(w) && Next(o, w, s) == Some(w') && !s.Add?
    ensures Work(w') < Work(w)
  {
    match s
    case Trigger(id) => TriggerWorks(w, id, w');
    case Wake => LoopWorks(o, w, s, w');
    case Gather => LoopWorks(o, w, s, w');
    case Settle => LoopWorks(o, w, s, w');
    case Swap => SwapWorks(w, w');
    case Launch(hash) => LaunchWorks(o, w, hash, w');
    case Rest => LoopWorks(o, w, s, w');
    case Execute(k, results) => ExecuteWorks(w, k, results, w');
    case Deliver(k) => DeliverWorks(w, k, w');
    case Retire(k) => RetireWorks(w, k, w');
  }

  /** The last step of a run, other than Add, took work away. */
  lemma LastStepWorks(o: Limits, run: seq<Step>, s: Step, w': World)
    requires Exec(o, run + [s]) == Some(w') && !s.Add?
    ensures Exec(o, run).Some? && Work(w') < Work(Exec(o, run).value)
  {
    assert (run + [s])[..|run + [s]|-1] == run;
    var w := Exec(o, run).value;
    RunKeeps(o, run, w);
    StepWorks(o, w, s, w');
  }

  /** The work left after a run that happens. */
  function WorkAfter(o: Limits, run: seq<Step>): nat
  {
    var w := Exec(o, run);
    if w.None? then 0 else Work(w.value)
  }

  /** After any run, only boundedly many steps can follow unless another Add arrives. */
  lemma {:induction false} StepsRunOut(o: Limits, run: seq<Step>, more: seq<Step>)
    requires Exec(o, run + more).Some?
    requires forall i :: 0 <= i < |more| ==> !more[i].Add?
    ensures Exec(o, run).Some? && |more| + WorkAfter(o, run + more) <= WorkAfter(o, run)
    decreases |more|
  {
    if more == [] {
      assert run + more == run;
    } else {
      var head, s := more[..|more|-1], more[|more|-1];
      assert run + more == (run + head) + [s];
      LastStepWorks(o, run + head, s, Exec(o, run + more).value);
      StepsRunOut(o, run, head);
    }
  }

  ghost predicate Stuck(o: Limits, w: World)
  {
    forall s: Step :: !s.Add? ==> Next(o, w, s) == None
  }

  /** A worker can always take its next step. */
  lemma WorkerMoves(o: Limits, w: World, k: nat)
    requires WorkersOk(w.reqs, w.workers, w.nextWorker) && k in w.workers
    ensures !Stuck(o, w)
  {
    var x := w.workers[k];
    if x.results.None? {
      assert Next(o, w, Execute(k, [])).Some?;
    } else if x.next < |x.batch| {
      assert RunningAt(w.reqs, x.batch[x.next], k, x.next);
      assert Next(o, w, Deliver(k)).Some?;
    } else {
      assert Next(o, w, Retire(k)).Some?;
    }
  }

  lemma LoopMoves(o: Limits, w: World)
    requires WorkersOk(w.reqs, w.workers, w.nextWorker) && o.maxWorkers >= 1 && !w.loop.AtSelect?
    ensures !Stuck(o, w)
  {
    match w.loop
    case Gathering(_) => assert Next(o, w, Settle).Some?;
    case Swapping => assert Next(o, w, Swap).Some?;
    case Launching(buckets) =>
      if buckets == map[] {
        assert Next(o, w, Rest).Some?;
      } else if |w.workers| < o.maxWorkers {
        var h :| h in buckets;
        assert Next(o, w, Launch(h)).Some?;
      } else {
        var k :| k in w.workers;
        WorkerMoves(o, w, k);
      }
  }

  /** When nothing can move, every caller has sent its trigger and has its answer: no Add waits for ever. */
  lemma StuckMeansAnswered(o: Limits, run: seq<Step>, w: World, id: Id)
    requires Exec(o, run) == Some(w) && o.maxWorkers >= 1 && Stuck(o, w) && id in w.reqs
    ensures w.reqs[id].sent && w.reqs[id].answer.Some?
  {
    RunKeeps(o, run, w);
    if !w.loop.AtSelect? { LoopMoves(o, w); }
    if w.workers != map[] {
      var k :| k in w.workers;
      WorkerMoves(o, w, k);
    }
    assert Next(o, w, Wake) == None;
    assert !w.token;
    forall other | other in w.reqs ensures w.reqs[other].sent {
      assert Next(o, w, Trigger(other)) == None;
    }
    assert w.queue == map[];
    assert !w.reqs[id].place.Queued? && !w.reqs[id].place.Batched? && !w.reqs[id].place.Running?;
  }

  // ---- when a caller blocks on its trigger -----------------------------------------------------

  predicate SentBy(reqs: map<Id, Req>, id: Id)
  {
    id in reqs && reqs[id].sent
  }

  ghost predicate TokenOk(w: World)
  {
    w.token ==> exists id :: SentBy(w.reqs, id)
  }

  lemma StepToken(o: Limits, w: World, s: Step, w': World)
    requires AnswersOk(w) && TokenOk(w) && Next(o, w, s) == Some(w')
    ensures TokenOk(w')
  {
    if s.Trigger? {
      assert SentBy(w'.reqs, s.id);
    } else if w'.token {
      var id :| SentBy(w.reqs, id);
      SentStays(o, w, s, w', id);
    }
  }

  lemma SentStays(o: Limits, w: World, s: Step, w': World, id: Id)
    requires AnswersOk(w) && Next(o, w, s) == Some(w') && SentBy(w.reqs, id)
    ensures SentBy(w'.reqs, id)
  {
  }

  lemma {:induction false} RunToken(o: Limits, run: seq<Step>, w: World)
    requires Exec(o, run) == Some(w)
    ensures TokenOk(w)
  {
    if run != [] {
      var prev := Exec(o, run[..|run|-1]).value;
      RunToken(o, run[..|run|-1], prev);
      RunKeeps(o, run[..|run|-1], prev);
      StepToken(o, prev, run[|run|-1], w);
    }
  }

  /**
   * In every run a registered caller that has not sent its trigger is blocked if and only if a token is in the channel,
   * and then it is another caller's.
   */
  lemma AddBlocksIff(o: Limits, run: seq<Step>, w: World, id: Id)
    requires Exec(o, run) == Some(w) && id in w.reqs && !w.reqs[id].sent
    ensures Next(o, w, Trigger(id)).None? <==> w.token
    ensures w.token ==> exists other :: SentBy(w.reqs, other) && other != id
  {
    RunToken(o, run, w);
  }

  /** Two callers are enough: the second blocks while the first one's token waits. */
  lemma SecondAddBlocks(o: Limits)
    ensures var run := [Add(None, 0), Trigger(0), Add(None, 0)];
            var w := Exec(o, run);
            w.Some? && 1 in w.value.reqs && !w.value.reqs[1].sent && Next(o, w.value, Trigger(1)).None?
  {
    var run := [Add(None, 0), Trigger(0), Add(None, 0)];
    assert run[..2] == [Add(None, 0), Trigger(0)] && run[..2][..1] == [Add(None, 0)] && run[..2][..1][..0] == [];
    assert Exec(o, run[..2][..1]) == Next(o, Init(), Add(None, 0));
    assert Exec(o, run[..2]).Some? && Exec(o, run[..2]).value.token && Exec(o, run[..2]).value.nextId == 1;
  }

  /** But never for good: while a caller is blocked some other step can happen, and StepsRunOut bounds how many. */
  lemma BlockedIsNotStuck(o: Limits, run: seq<Step>, w: World, id: Id)
    requires Exec(o, run) == Some(w) && o.maxWorkers >= 1 && id in w.reqs && !w.reqs[id].sent
    ensures !Stuck(o, w)
  {
    if Stuck(o, w) {
      StuckMeansAnswered(o, run, w, id);
    }
  }
}
