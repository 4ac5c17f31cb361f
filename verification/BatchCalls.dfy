/** The loops of a request worker and of the pricing executor. */
module BatchCalls {
  import opened Options
  import opened Batcher
  import opened BatcherRuns

  /**
   * runCalls after the executor has returned. A requestor channel holds one answer: sending to a full one would
   * block, and no send here does.
   */
  method RunCalls(requestors: array<Option<Answer>>, results: seq<Out>)
    requires |results| <= requestors.Length
    requires forall i :: 0 <= i < requestors.Length ==> requestors[i] == None
    modifies requestors
    ensures forall i :: 0 <= i < requestors.Length ==>
              requestors[i] == Some(if i < |results| then Given(results[i]) else Shortage(i, requestors.Length))
  {
    var requestIdx := 0;
    while requestIdx < |results|
      invariant 0 <= requestIdx <= |results|
      invariant forall i :: 0 <= i < requestIdx ==> requestors[i] == Some(Given(results[i]))
      invariant forall i :: requestIdx <= i < requestors.Length ==> requestors[i] == None
    {
      assert requestors[requestIdx].None?;
      requestors[requestIdx] := Some(Given(results[requestIdx]));
      requestIdx := requestIdx + 1;
    }
    while requestIdx < requestors.Length
      invariant |results| <= requestIdx <= requestors.Length
      invariant forall i :: 0 <= i < |results| ==> requestors[i] == Some(Given(results[i]))
      invariant forall i :: |results| <= i < requestIdx ==> requestors[i] == Some(Shortage(i, requestors.Length))
      invariant forall i :: requestIdx <= i < requestors.Length ==> requestors[i] == None
    {
      assert requestors[requestIdx].None?;
      requestors[requestIdx] := Some(Shortage(requestIdx, requestors.Length));
      requestIdx := requestIdx + 1;
    }
  }

  /** `indices` are positions of `id` among the first n inputs. */
  ghost predicate GroupOk(inputs: seq<Option<string>>, n: nat, id: string, indices: seq<nat>)
    requires n <= |inputs|
  {
    && (forall j :: 0 <= j < |indices| ==> indices[j] < n && inputs[indices[j]] == Some(id))
    && (forall i :: 0 <= i < n && inputs[i] == Some(id) ==> i in indices)
  }

  ghost predicate GroupsOk(inputs: seq<Option<string>>, n: nat, groups: map<string, seq<nat>>)
    requires n <= |inputs|
  {
    && (forall id :: id in groups ==> groups[id] != [] && GroupOk(inputs, n, id, groups[id]))
    && (forall i :: 0 <= i < n && inputs[i].Some? ==> inputs[i].value in groups)
  }

  /** The first loop: nil inputs are answered, the others grouped by ID. */
  method Group(inputs: seq<Option<string>>, results: array<Out>) returns (groups: map<string, seq<nat>>)
    requires results.Length == |inputs|
    modifies results
    ensures GroupsOk(inputs, |inputs|, groups)
    ensures forall i :: 0 <= i < |inputs| && inputs[i] == None ==> results[i] == NIL_INPUT
  {
    groups := map[];
    for i := 0 to |inputs|
      invariant GroupsOk(inputs, i, groups)
      invariant forall j :: 0 <= j < i && inputs[j] == None ==> results[j] == NIL_INPUT
    {
      match inputs[i]
      case None =>
        results[i] := NIL_INPUT;
        assert GroupsOk(inputs, i + 1, groups);
      case Some(id) =>
        var before := if id in groups then groups[id] else [];
        GroupGrows(inputs, i, groups, id, before);
        groups := groups[id := before + [i]];
    }
  }

  lemma GroupGrows(inputs: seq<Option<string>>, i: nat, groups: map<string, seq<nat>>, id: string, before: seq<nat>)
    requires i < |inputs| && inputs[i] == Some(id) && GroupsOk(inputs, i, groups)
    requires before == if id in groups then groups[id] else []
    ensures GroupsOk(inputs, i + 1, groups[id := before + [i]])
  {
    var next := groups[id := before + [i]];
    assert GroupOk(inputs, i, id, before);
    OwnGroupGrows(inputs, i, id, before);
    forall k | k in next ensures next[k] != [] && GroupOk(inputs, i + 1, k, next[k]) {
      if k != id {
        assert GroupOk(inputs, i, k, groups[k]);
        OtherGroupStays(inputs, i, k, groups[k]);
      }
    }
  }

  lemma OwnGroupGrows(inputs: seq<Option<string>>, i: nat, id: string, before: seq<nat>)
    requires i < |inputs| && inputs[i] == Some(id) && GroupOk(inputs, i, id, before)
    ensures GroupOk(inputs, i + 1, id, before + [i])
  {
    var after := before + [i];
    forall m | 0 <= m < i + 1 && inputs[m] == Some(id) ensures m in after {
      if m < i {
        assert m in before;
      } else {
        assert after[|before|] == m;
      }
    }
  }

  lemma OtherGroupStays(inputs: seq<Option<string>>, i: nat, k: string, indices: seq<nat>)
    requires i < |inputs| && inputs[i] != Some(k) && GroupOk(inputs, i, k, indices)
    ensures GroupOk(inputs, i + 1, k, indices)
  {
  }

  /**
   * execPricingBatch: every distinct ID is asked for exactly once, whatever the order of the groups, and each
   * result is the response of the call for its own ID.
   */
  method ExecPricingBatch(inputs: seq<Option<string>>, client: Client) returns (results: array<Out>, calls: seq<string>)
    ensures results.Length == |inputs|
    ensures forall i :: 0 <= i < |inputs| ==> AnsweredBy(calls, client, inputs[i], results[i])
    ensures Distinct(calls)
    ensures forall id :: id in calls <==> Some(id) in inputs
  {
    results := new Out[|inputs|](_ => NIL_INPUT);
    calls := [];
    if |inputs| == 0 {
      return;
    }
    var groups := Group(inputs, results);
    var left := groups.Keys;
    while left != {}
      invariant left <= groups.Keys
      invariant forall i :: 0 <= i < |inputs| && inputs[i] == None ==> results[i] == NIL_INPUT
      invariant forall id :: id in calls <==> id in groups.Keys - left
      invariant Distinct(calls)
      invariant forall i :: 0 <= i < |inputs| && inputs[i].Some? && inputs[i].value !in left ==>
                  AnsweredBy(calls, client, inputs[i], results[i])
      decreases left
    {
      var id :| id in left;
      var n := |calls|;
      assert GroupOk(inputs, |inputs|, id, groups[id]);
      WriteGroup(inputs, id, groups[id], client(n, id), results);
      MoreCalls(calls, client, id, inputs, results[..], left);
      assert id !in calls;
      assert forall m :: 0 <= m < n ==> calls[m] in calls;
      calls := calls + [id];
      left := left - {id};
    }
    forall i | 0 <= i < |inputs| ensures AnsweredBy(calls, client, inputs[i], results[i]) {
      if inputs[i].Some? { assert inputs[i].value !in left; }
    }
    forall id | id in calls ensures Some(id) in inputs {
      assert GroupOk(inputs, |inputs|, id, groups[id]);
      assert inputs[groups[id][0]] == Some(id);
    }
  }

  lemma MoreCalls(calls: seq<string>, client: Client, id: string, inputs: seq<Option<string>>, results: seq<Out>, left: set<string>)
    requires |results| == |inputs| && id in left
    requires forall i :: 0 <= i < |inputs| && inputs[i].Some? && inputs[i].value !in left ==>
                AnsweredBy(calls, client, inputs[i], results[i])
    requires forall i :: 0 <= i < |inputs| && inputs[i] == Some(id) ==> results[i] == client(|calls|, id)
    ensures forall i :: 0 <= i < |inputs| && inputs[i].Some? && inputs[i].value !in left - {id} ==>
                AnsweredBy(calls + [id], client, inputs[i], results[i])
  {
    var more := calls + [id];
    forall i | 0 <= i < |inputs| && inputs[i].Some? && inputs[i].value !in left - {id}
      ensures AnsweredBy(more, client, inputs[i], results[i])
    {
      if inputs[i] == Some(id) {
        assert more[|calls|] == id;
      } else {
        assert AnsweredBy(calls, client, inputs[i], results[i]);
        var n :| 0 <= n < |calls| && calls[n] == inputs[i].value && results[i] == client(n, inputs[i].value);
        assert more[n] == calls[n];
      }
    }
  }

  /** The inner loop over one group's indices. */
  method WriteGroup(inputs: seq<Option<string>>, id: string, indices: seq<nat>, out: Out, results: array<Out>)
    requires results.Length == |inputs| && GroupOk(inputs, |inputs|, id, indices)
    modifies results
    ensures forall i :: 0 <= i < |inputs| ==> results[i] == if inputs[i] == Some(id) then out else old(results[i])
  {
    for j := 0 to |indices|
      invariant forall i :: 0 <= i < |inputs| ==> results[i] == if i in indices[..j] then out else old(results[i])
    {
      results[indices[j]] := out;
      assert indices[..j + 1] == indices[..j] + [indices[j]];
    }
    assert indices[..|indices|] == indices;
  }
}
