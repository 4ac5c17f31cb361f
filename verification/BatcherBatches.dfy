/** What the batcher puts together, and how much of it at a time. */
module BatcherBatches {
  import opened Options
  import opened Batcher

  // ---- limits ---------------------------------------------------------------------------------------------

  /** The limits of the options; no item limit is written as zero. */
  predicate Within(o: Limits, w: World)
  {
    |w.workers| <= o.maxWorkers && (w.loop.Gathering? && o.maxItems > 0 ==> 1 <= w.loop.count <= o.maxItems)
  }

  lemma LaunchWithin(o: Limits, w: World, h: nat, w': World)
    requires Within(o, w) && Launch1(o, w, h) == Some(w')
    ensures Within(o, w')
  {
    assert w'.workers.Keys <= w.workers.Keys + {w.nextWorker};
    Sizes(w'.workers.Keys, w.workers.Keys + {w.nextWorker});
  }

  lemma WorkersWithin(o: Limits, w: World, s: Step, w': World)
    requires Within(o, w) && Next(o, w, s) == Some(w') && (s.Execute? || s.Deliver? || s.Retire?)
    ensures Within(o, w')
  {
    assert w'.workers.Keys <= w.workers.Keys;
    Sizes(w'.workers.Keys, w.workers.Keys);
  }

  lemma OthersWithin(o: Limits, w: World, s: Step, w': World)
    requires Within(o, w) && Next(o, w, s) == Some(w') && !s.Launch? && !s.Execute? && !s.Deliver? && !s.Retire?
    ensures Within(o, w')
  {
    assert w'.workers == w.workers;
  }

  lemma StepWithin(o: Limits, w: World, s: Step, w': World)
    requires Within(o, w) && Next(o, w, s) == Some(w')
    ensures Within(o, w')
  {
    if s.Launch? {
      LaunchWithin(o, w, s.hash, w');
    } else if s.Execute? || s.Deliver? || s.Retire? {
      WorkersWithin(o, w, s, w');
    } else {
      OthersWithin(o, w, s, w');
    }
  }

  lemma Sizes(a: set<nat>, b: set<nat>)
    requires a <= b
    ensures |a| <= |b|
  {
    assert b == a + (b - a);
  }

  /** In every run at most so many workers run at once, and a batch gathers at most so many triggers. */
  lemma {:induction false} LimitsHold(o: Limits, run: seq<Step>, w: World)
    requires Exec(o, run) == Some(w)
    ensures Within(o, w)
  {
    if run != [] {
      var v := Exec(o, run[..|run|-1]).value;
      LimitsHold(o, run[..|run|-1], v);
      StepWithin(o, v, run[|run|-1], w);
    }
  }

  // ---- one batch per hash ------------------------------------------------------------------------------------

  /** The worker a request was handed to. */
  function WorkerOf(r: Req): Option<nat>
  {
    if r.place.Running? || r.place.Replied? then Some(r.place.worker) else None
  }

  /** Two requests that wait, are batched or are with a worker together. */
  predicate Together(w: World, a: Id, b: Id)
  {
    && a in w.reqs && b in w.reqs && w.reqs[a].hash == w.reqs[b].hash
    && (w.reqs[a].place.Queued? <==> w.reqs[b].place.Queued?)
    && (w.reqs[a].place.Batched? <==> w.reqs[b].place.Batched?)
    && WorkerOf(w.reqs[a]) == WorkerOf(w.reqs[b])
  }

  /** What a step makes of a request's place: waiting, batched, or with a worker. */
  predicate Moves(w: World, s: Step, r: Req, r': Req)
  {
    && r'.hash == r.hash
    && WorkerOf(r') == (if s.Launch? && r.place.Batched? && r.hash == s.hash then Some(w.nextWorker) else WorkerOf(r))
    && r'.place.Queued? == (r.place.Queued? && !s.Swap?)
    && r'.place.Batched? == ((r.place.Batched? && !(s.Launch? && r.hash == s.hash)) || (r.place.Queued? && s.Swap?))
  }

  lemma DeliverMoves(w: World, k: nat, w': World, id: Id)
    requires WorkersOk(w.reqs, w.workers, w.nextWorker) && Deliver1(w, k) == Some(w') && id in w.reqs
    ensures id in w'.reqs && Moves(w, Deliver(k), w.reqs[id], w'.reqs[id])
  {
    var x := w.workers[k];
    assert RunningAt(w.reqs, x.batch[x.next], k, x.next);
  }

  lemma LoopMoves(o: Limits, w: World, s: Step, w': World, id: Id)
    requires Next(o, w, s) == Some(w') && id in w.reqs && (s.Swap? || s.Launch?)
    ensures id in w'.reqs && Moves(w, s, w.reqs[id], w'.reqs[id])
  {
    match s
    case Swap =>
    case Launch(_) =>
  }

  lemma CallerMoves(o: Limits, w: World, s: Step, w': World, id: Id)
    requires Next(o, w, s) == Some(w') && id in w.reqs && id < w.nextId && (s.Add? || s.Trigger?)
    ensures id in w'.reqs && Moves(w, s, w.reqs[id], w'.reqs[id])
  {
    match s
    case Add(_, _) => assert w'.reqs[id] == w.reqs[id];
    case Trigger(_) => assert w'.reqs[id].place == w.reqs[id].place;
  }

  lemma OthersMoveNot(o: Limits, w: World, s: Step, w': World)
    requires Next(o, w, s) == Some(w') && !s.Add? && !s.Trigger? && !s.Swap? && !s.Launch? && !s.Deliver?
    ensures w'.reqs == w.reqs && w'.nextWorker == w.nextWorker
  {
  }

  lemma StepMoves(o: Limits, w: World, s: Step, w': World, id: Id)
    requires Inv(w) && Next(o, w, s) == Some(w') && id in w.reqs
    ensures id in w'.reqs && Moves(w, s, w.reqs[id], w'.reqs[id])
  {
    if s.Deliver? {
      DeliverMoves(w, s.worker, w', id);
    } else if s.Swap? || s.Launch? {
      LoopMoves(o, w, s, w', id);
    } else if s.Add? || s.Trigger? {
      CallerMoves(o, w, s, w', id);
    } else {
      OthersMoveNot(o, w, s, w');
    }
  }

  /** Requests are new only by Add, and then have no worker. */
  lemma StepAdds(o: Limits, w: World, s: Step, w': World, id: Id)
    requires Inv(w) && Next(o, w, s) == Some(w') && id in w'.reqs && id !in w.reqs
    ensures WorkerOf(w'.reqs[id]) == None
  {
    if s.Deliver? {
      Served(w, s.worker);
    }
  }

  lemma Served(w: World, k: nat)
    requires WorkersOk(w.reqs, w.workers, w.nextWorker) && k in w.workers && w.workers[k].next < |w.workers[k].batch|
    ensures w.workers[k].batch[w.workers[k].next] in w.reqs
  {
    assert RunningAt(w.reqs, w.workers[k].batch[w.workers[k].next], k, w.workers[k].next);
  }

  lemma StepCounts(o: Limits, w: World, s: Step, w': World)
    requires Next(o, w, s) == Some(w')
    ensures w'.nextWorker == w.nextWorker + if s.Launch? then 1 else 0
  {
  }

  lemma StepTogether(o: Limits, w: World, s: Step, w': World, a: Id, b: Id)
    requires Inv(w) && Together(w, a, b) && Next(o, w, s) == Some(w')
    ensures Together(w', a, b)
  {
    StepMoves(o, w, s, w', a);
    StepMoves(o, w, s, w', b);
  }

  /** Requests of one hash that wait together are handed to the same worker, in every continuation. */
  lemma {:induction false} SameHashSameBatch(o: Limits, run: seq<Step>, more: seq<Step>, w: World, v: World, a: Id, b: Id)
    requires Exec(o, run) == Some(w) && Exec(o, run + more) == Some(v)
    requires a in w.reqs && b in w.reqs && w.reqs[a].hash == w.reqs[b].hash && w.reqs[a].place.Queued? && w.reqs[b].place.Queued?
    ensures Together(v, a, b)
  {
    if more == [] {
      assert run + more == run;
    } else {
      var all := run + more;
      assert all[..|all|-1] == run + more[..|more|-1];
      var u := Exec(o, all[..|all|-1]).value;
      SameHashSameBatch(o, run, more[..|more|-1], w, u, a, b);
      RunKeeps(o, all[..|all|-1], u);
      StepTogether(o, u, all[|all|-1], v, a, b);
    }
  }

  /** Requests with one worker have one hash. */
  ghost predicate OneHash(w: World)
  {
    forall a, b :: a in w.reqs && b in w.reqs && WorkerOf(w.reqs[a]).Some? && WorkerOf(w.reqs[a]) == WorkerOf(w.reqs[b]) ==>
      w.reqs[a].hash == w.reqs[b].hash
  }

  /** Workers are numbered as they are launched. */
  ghost predicate Numbered(w: World)
  {
    forall a :: a in w.reqs && WorkerOf(w.reqs[a]).Some? ==> WorkerOf(w.reqs[a]).value < w.nextWorker
  }

  /** Where a request with a worker comes from. */
  lemma WorkerFrom(o: Limits, w: World, s: Step, w': World, a: Id)
    requires Inv(w) && Numbered(w) && Next(o, w, s) == Some(w') && a in w'.reqs && WorkerOf(w'.reqs[a]).Some?
    ensures a in w.reqs && w'.reqs[a].hash == w.reqs[a].hash && WorkerOf(w'.reqs[a]).value < w'.nextWorker
    ensures if WorkerOf(w'.reqs[a]).value == w.nextWorker then s.Launch? && w.reqs[a].hash == s.hash
            else WorkerOf(w.reqs[a]) == WorkerOf(w'.reqs[a])
  {
    StepCounts(o, w, s, w');
    if a in w.reqs {
      StepMoves(o, w, s, w', a);
    } else {
      StepAdds(o, w, s, w', a);
    }
  }

  lemma StepOneHash(o: Limits, w: World, s: Step, w': World)
    requires Inv(w) && OneHash(w) && Numbered(w) && Next(o, w, s) == Some(w')
    ensures OneHash(w') && Numbered(w')
  {
    forall a | a in w'.reqs && WorkerOf(w'.reqs[a]).Some? ensures WorkerOf(w'.reqs[a]).value < w'.nextWorker {
      WorkerFrom(o, w, s, w', a);
    }
    forall a, b | a in w'.reqs && b in w'.reqs && WorkerOf(w'.reqs[a]).Some? && WorkerOf(w'.reqs[a]) == WorkerOf(w'.reqs[b])
      ensures w'.reqs[a].hash == w'.reqs[b].hash
    {
      WorkerFrom(o, w, s, w', a);
      WorkerFrom(o, w, s, w', b);
    }
  }

  lemma {:induction false} RunOneHash(o: Limits, run: seq<Step>, w: World)
    requires Exec(o, run) == Some(w)
    ensures OneHash(w) && Numbered(w)
  {
    if run != [] {
      var v := Exec(o, run[..|run|-1]).value;
      RunOneHash(o, run[..|run|-1], v);
      RunKeeps(o, run[..|run|-1], v);
      StepOneHash(o, v, run[|run|-1], w);
    }
  }

  /** In every run, requests of different hashes are never handed to the same worker. */
  lemma DifferentHashDifferentBatch(o: Limits, run: seq<Step>, w: World, a: Id, b: Id)
    requires Exec(o, run) == Some(w) && a in w.reqs && b in w.reqs && w.reqs[a].hash != w.reqs[b].hash
    requires WorkerOf(w.reqs[a]).Some?
    ensures WorkerOf(w.reqs[a]) != WorkerOf(w.reqs[b])
  {
    RunOneHash(o, run, w);
  }

  // ---- each its own result -------------------------------------------------------------------------------------

  /** The executor of worker k has returned these results in this run. */
  predicate Returned(run: seq<Step>, k: nat, results: seq<Out>)
  {
    Execute(k, results) in run
  }

  /** The request's place in a batch of this size has a result of its own, or there were too few. */
  predicate Gives(r: Req, results: seq<Out>, size: nat)
  {
    && r.place.Replied? && |results| <= size && r.place.index < size
    && r.answer == Some(if r.place.index < |results| then Given(results[r.place.index]) else Shortage(r.place.index, size))
  }

  /** What an answered request got. */
  ghost predicate OwnResult(run: seq<Step>, r: Req)
  {
    r.answer.Some? ==> exists results, size: nat :: Gives(r, results, size) && Returned(run, r.place.worker, results)
  }

  ghost predicate ResultsKnown(run: seq<Step>, w: World)
  {
    && (forall k :: k in w.workers && w.workers[k].results.Some? ==> Returned(run, k, w.workers[k].results.value))
    && (forall id :: id in w.reqs ==> OwnResult(run, w.reqs[id]))
  }

  lemma Later(run: seq<Step>, s: Step, r: Req, r': Req)
    requires OwnResult(run, r) && r'.place == r.place && r'.answer == r.answer
    ensures OwnResult(run + [s], r')
  {
    if r.answer.Some? {
      var results, size: nat :| Gives(r, results, size) && Returned(run, r.place.worker, results);
      assert Returned(run + [s], r.place.worker, results) && Gives(r', results, size);
    }
  }

  /** Answers and places of answered requests change only by a delivery. */
  lemma StepRequest(o: Limits, w: World, s: Step, w': World, id: Id)
    requires Inv(w) && Next(o, w, s) == Some(w') && id in w'.reqs && w'.reqs[id].answer.Some?
    ensures id in w.reqs
    ensures !s.Deliver? ==> w'.reqs[id].answer == w.reqs[id].answer && w'.reqs[id].place == w.reqs[id].place
  {
    assert AnswersOk(w);
  }

  lemma DeliverResult(run: seq<Step>, w: World, k: nat, w': World, id: Id)
    requires Inv(w) && ResultsKnown(run, w) && Deliver1(w, k) == Some(w') && id in w'.reqs
    ensures OwnResult(run + [Deliver(k)], w'.reqs[id])
  {
    var x := w.workers[k];
    assert RunningAt(w.reqs, x.batch[x.next], k, x.next) && WorkerOk(x);
    if id == x.batch[x.next] {
      assert Returned(run, k, x.results.value);
      assert Returned(run + [Deliver(k)], k, x.results.value);
      assert Gives(w'.reqs[id], x.results.value, |x.batch|);
    } else {
      Later(run, Deliver(k), w.reqs[id], w'.reqs[id]);
    }
  }

  lemma StepResults(o: Limits, run: seq<Step>, w: World, s: Step, w': World)
    requires Inv(w) && ResultsKnown(run, w) && Next(o, w, s) == Some(w')
    ensures ResultsKnown(run + [s], w')
  {
    forall k | k in w'.workers && w'.workers[k].results.Some? ensures Returned(run + [s], k, w'.workers[k].results.value) {
      if s.Execute? && s.worker == k {
        assert (run + [s])[|run|] == s;
      } else {
        assert Returned(run, k, w.workers[k].results.value);
      }
    }
    forall id | id in w'.reqs ensures OwnResult(run + [s], w'.reqs[id]) {
      if s.Deliver? {
        DeliverResult(run, w, s.worker, w', id);
      } else if w'.reqs[id].answer.Some? {
        StepRequest(o, w, s, w', id);
        Later(run, s, w.reqs[id], w'.reqs[id]);
      }
    }
  }

  lemma LastResult(o: Limits, front: seq<Step>, v: World, s: Step, w: World)
    requires Exec(o, front) == Some(v) && ResultsKnown(front, v) && Next(o, v, s) == Some(w)
    ensures ResultsKnown(front + [s], w)
  {
    RunKeeps(o, front, v);
    StepResults(o, front, v, s, w);
  }

  /** In every run an answered request has the result at its own place in its batch, or the news that there is none. */
  lemma {:induction false} OwnResultArrives(o: Limits, run: seq<Step>, w: World)
    requires Exec(o, run) == Some(w)
    ensures ResultsKnown(run, w)
  {
    if run != [] {
      var front, s := run[..|run|-1], run[|run|-1];
      OwnResultArrives(o, front, Exec(o, front).value);
      LastResult(o, front, Exec(o, front).value, s, w);
      assert front + [s] == run;
    }
  }
}
