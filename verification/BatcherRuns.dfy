/** What the batcher promises over every interleaving without shutdown. */
module BatcherRuns {
  import opened Options
  import opened Batcher

  // ---- no lost wakeup ----------------------------------------------------------------------------

  /** A request waiting in the map implies a token, a caller about to trigger or a loop about to swap. */
  lemma NoLostWakeup(o: Limits, run: seq<Step>, w: World, id: Id)
    requires Exec(o, run) == Some(w) && id in w.reqs && w.reqs[id].place.Queued?
    ensures w.token || w.loop.Gathering? || w.loop.Swapping? || exists other :: Unsent(w.reqs, other)
  {
    RunKeeps(o, run, w);
    assert w.reqs[id].hash in w.queue;
  }

  // ---- exactly one answer ------------------------------------------------------------------------

  /** The answer a step puts on the channel of `id`, if it does. */
  function Sent(w: World, s: Step, id: Id): seq<Answer>
  {
    if s.Deliver? && s.worker in w.workers then
      var x := w.workers[s.worker];
      if x.results.Some? && x.next < |x.batch| && x.batch[x.next] == id then
        [Reply(x.results.value, x.next, |x.batch|)]
      else []
    else []
  }

  /** Everything a run puts on the channel of `id`. */
  function Channel(o: Limits, run: seq<Step>, id: Id): seq<Answer>
  {
    if run == [] then []
    else
      var prev := run[..|run|-1];
      var w := Exec(o, prev);
      Channel(o, prev, id) + if w.None? then [] else Sent(w.value, run[|run|-1], id)
  }

  /** What a step does to the request `id`: it is answered only by a send, and only when unanswered. */
  lemma StepAnswers(o: Limits, w: World, s: Step, w': World, id: Id)
    requires Inv(w) && Next(o, w, s) == Some(w') && id in w'.reqs
    ensures id !in w.reqs ==> w'.reqs[id].answer == None && Sent(w, s, id) == []
    ensures id in w.reqs && Sent(w, s, id) == [] ==> w'.reqs[id].answer == w.reqs[id].answer
    ensures id in w.reqs && Sent(w, s, id) != [] ==>
              w.reqs[id].answer == None && w'.reqs[id].answer == Some(Sent(w, s, id)[0]) && |Sent(w, s, id)| == 1
  {
    if s.Deliver? {
      DeliverAnswers(w, s.worker, w', id);
    } else {
      OthersAnswerNothing(o, w, s, w', id);
    }
  }

  lemma DeliverAnswers(w: World, k: nat, w': World, id: Id)
    requires WorkersOk(w.reqs, w.workers, w.nextWorker) && AnswersOk(w) && Deliver1(w, k) == Some(w')
    ensures id in w.reqs <==> id in w'.reqs
    ensures id in w.reqs && Sent(w, Deliver(k), id) == [] ==> w'.reqs[id].answer == w.reqs[id].answer
    ensures Sent(w, Deliver(k), id) != [] ==>
              id in w.reqs && w.reqs[id].answer == None && w'.reqs[id].answer == Some(Sent(w, Deliver(k), id)[0])
  {
    var x := w.workers[k];
    assert RunningAt(w.reqs, x.batch[x.next], k, x.next);
  }

  lemma OthersAnswerNothing(o: Limits, w: World, s: Step, w': World, id: Id)
    requires AnswersOk(w) && Next(o, w, s) == Some(w') && id in w'.reqs && !s.Deliver?
    ensures w'.reqs[id].answer == if id in w.reqs then w.reqs[id].answer else None
  {
  }

  /**
   * Each request is sent at most one answer, and has received it exactly when it is answered: the channel of
   * capacity one never blocks a worker and no caller ever reads a second value.
   */
  lemma {:induction false} OneAnswer(o: Limits, run: seq<Step>, w: World, id: Id)
    requires Exec(o, run) == Some(w)
    ensures id in w.reqs ==> Channel(o, run, id) == if w.reqs[id].answer.Some? then [w.reqs[id].answer.value] else []
    ensures id !in w.reqs ==> Channel(o, run, id) == []
  {
    if run != [] {
      var head, s := run[..|run|-1], run[|run|-1];
      var prev := Exec(o, head).value;
      OneAnswer(o, head, prev, id);
      RunKeeps(o, head, prev);
      if id in w.reqs {
        StepAnswers(o, prev, s, w, id);
      } else {
        NothingForStrangers(o, prev, s, w, id);
      }
    }
  }

  lemma NothingForStrangers(o: Limits, w: World, s: Step, w': World, id: Id)
    requires Inv(w) && Next(o, w, s) == Some(w') && id !in w'.reqs
    ensures id !in w.reqs && Sent(w, s, id) == []
  {
    if s.Deliver? {
      var x := w.workers[s.worker];
      assert RunningAt(w.reqs, x.batch[x.next], s.worker, x.next);
    }
  }

  // ---- the pricing executor ----------------------------------------------------------------------

  const NIL_INPUT: Out := Failure("nil catalog entry ID provided")

  /** Call n of a batch, to the catalog. */
  type Client = (nat, string) -> Out

  /** `out` is the response of a call of this batch for this input's own catalog ID. */
  ghost predicate AnsweredBy(calls: seq<string>, client: Client, input: Option<string>, out: Out)
  {
    match input
    case None => out == NIL_INPUT
    case Some(id) => exists n :: 0 <= n < |calls| && calls[n] == id && out == client(n, id)
  }

  ghost predicate Distinct(calls: seq<string>)
  {
    forall m, n :: 0 <= m < n < |calls| ==> calls[m] != calls[n]
  }

  /** Batch k made these calls to this client. */
  datatype Catalog = Catalog(calls: nat -> seq<string>, client: nat -> Client)

  ghost predicate ResultsOk(c: Catalog, k: nat, reqs: map<Id, Req>, batch: seq<Id>, results: seq<Out>)
  {
    && |results| == |batch|
    && forall i :: 0 <= i < |batch| ==>
         batch[i] in reqs && AnsweredBy(c.calls(k), c.client(k), reqs[batch[i]].input, results[i])
  }

  /** The results of step n, if it is an executor's return, are those execPricingBatch gives for the batch's inputs. */
  ghost predicate PricedAt(c: Catalog, o: Limits, before: seq<Step>, s: Step)
  {
    var w := Exec(o, before);
    s.Execute? && w.Some? && s.worker in w.value.workers ==>
      ResultsOk(c, s.worker, w.value.reqs, w.value.workers[s.worker].batch, s.results)
  }

  ghost predicate Priced(c: Catalog, o: Limits, run: seq<Step>)
  {
    forall n :: 0 <= n < |run| ==> PricedAt(c, o, run[..n], run[n])
  }

  lemma PricedPrefix(c: Catalog, o: Limits, run: seq<Step>)
    requires run != [] && Priced(c, o, run)
    ensures Priced(c, o, run[..|run|-1])
  {
    var head := run[..|run|-1];
    forall m | 0 <= m < |head| ensures PricedAt(c, o, head[..m], head[m]) {
      assert PricedAt(c, o, run[..m], run[m]);
      assert head[..m] == run[..m] && head[m] == run[m];
    }
  }

  ghost predicate PriceOk(c: Catalog, w: World)
  {
    && (forall k :: k in w.workers && w.workers[k].results.Some? ==>
          ResultsOk(c, k, w.reqs, w.workers[k].batch, w.workers[k].results.value))
    && (forall id :: id in w.reqs && w.reqs[id].answer.Some? ==> OwnPrice(c, w.reqs[id]))
  }

  /** The answer is the response for the request's own input in the batch that ran it. */
  ghost predicate OwnPrice(c: Catalog, r: Req)
  {
    && r.place.Replied? && r.answer.Some? && r.answer.value.Given?
    && AnsweredBy(c.calls(r.place.worker), c.client(r.place.worker), r.input, r.answer.value.result)
  }

  /** Inputs never change, and no answer is lost. */
  lemma RequestFrame(o: Limits, w: World, s: Step, w': World, id: Id)
    requires Inv(w) && Next(o, w, s) == Some(w') && id in w.reqs
    ensures id in w'.reqs && w'.reqs[id].input == w.reqs[id].input
    ensures w.reqs[id].answer.Some? ==> w'.reqs[id].answer == w.reqs[id].answer && w'.reqs[id].place == w.reqs[id].place
  {
    if s.Deliver? {
      var x := w.workers[s.worker];
      assert RunningAt(w.reqs, x.batch[x.next], s.worker, x.next);
    }
  }

  /** Only Execute gives a worker results, and they stay. */
  lemma WorkerFrame(o: Limits, w: World, s: Step, w': World, k: nat)
    requires Inv(w) && Next(o, w, s) == Some(w') && k in w'.workers && w'.workers[k].results.Some?
    ensures k in w.workers && w'.workers[k].batch == w.workers[k].batch
    ensures w'.workers[k].results == if s.Execute? && s.worker == k then Some(s.results) else w.workers[k].results
  {
  }

  lemma PriceStep(c: Catalog, o: Limits, w: World, s: Step, w': World)
    requires Inv(w) && PriceOk(c, w) && Next(o, w, s) == Some(w')
    requires s.Execute? ==> ResultsOk(c, s.worker, w.reqs, w.workers[s.worker].batch, s.results)
    ensures PriceOk(c, w')
  {
    forall id | id in w.reqs ensures id in w'.reqs && w'.reqs[id].input == w.reqs[id].input {
      RequestFrame(o, w, s, w', id);
    }
    forall k | k in w'.workers && w'.workers[k].results.Some?
      ensures ResultsOk(c, k, w'.reqs, w'.workers[k].batch, w'.workers[k].results.value)
    {
      WorkerFrame(o, w, s, w', k);
      if s.Execute? && s.worker == k {
        assert ResultsOk(c, k, w.reqs, w.workers[k].batch, s.results);
      } else {
        assert ResultsOk(c, k, w.reqs, w.workers[k].batch, w.workers[k].results.value);
      }
    }
    forall id | id in w'.reqs && w'.reqs[id].answer.Some? ensures OwnPrice(c, w'.reqs[id]) {
      StepAnswers(o, w, s, w', id);
      if id in w.reqs && w.reqs[id].answer.Some? {
        RequestFrame(o, w, s, w', id);
        assert OwnPrice(c, w.reqs[id]);
      } else {
        var x := w.workers[s.worker];
        assert ResultsOk(c, s.worker, w.reqs, x.batch, x.results.value);
        assert x.batch[x.next] == id;
      }
    }
  }

  lemma {:induction false} PriceRun(c: Catalog, o: Limits, run: seq<Step>, w: World)
    requires Exec(o, run) == Some(w) && Priced(c, o, run)
    ensures PriceOk(c, w)
  {
    if run != [] {
      var head := run[..|run|-1];
      PricedPrefix(c, o, run);
      PriceRun(c, o, head, Exec(o, head).value);
      PriceLast(c, o, head, run[|run|-1], w);
    }
  }

  lemma PriceLast(c: Catalog, o: Limits, head: seq<Step>, s: Step, w: World)
    requires Exec(o, head).Some? && Next(o, Exec(o, head).value, s) == Some(w)
    requires PriceOk(c, Exec(o, head).value) && PricedAt(c, o, head, s)
    ensures PriceOk(c, w)
  {
    RunKeeps(o, head, Exec(o, head).value);
    PriceStep(c, o, Exec(o, head).value, s, w);
  }

  /** In every run, a priced caller receives the response of the single call for its own ID in the batch that ran it. */
  lemma OwnResponse(c: Catalog, o: Limits, run: seq<Step>, w: World, id: Id)
    requires Exec(o, run) == Some(w) && Priced(c, o, run) && (forall k :: Distinct(c.calls(k)))
    requires id in w.reqs && w.reqs[id].answer.Some?
    ensures OwnPrice(c, w.reqs[id])
    ensures var r := w.reqs[id]; var calls := c.calls(r.place.worker);
            && Channel(o, run, id) == [Given(r.answer.value.result)]
            && (r.input.Some? ==> forall n :: 0 <= n < |calls| && calls[n] == r.input.value ==>
                  r.answer.value.result == c.client(r.place.worker)(n, r.input.value))
  {
    PriceRun(c, o, run, w);
    OneAnswer(o, run, w, id);
    assert OwnPrice(c, w.reqs[id]);
    assert Distinct(c.calls(w.reqs[id].place.worker));
  }
}
