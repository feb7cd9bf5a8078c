/** The coordinator's code: ask each rank's node, note the ids of the ranks that succeeded, and if any
    failed stop those. The goroutines run one after the other here, which by DeployRefinesNetEffect has
    the effect of every interleaving. */
module PPCoordinator {
  import opened Common
  import opened AgentModel
  import opened ModelMeta
  import opened PPDeploy
  import opened PPSafety
  import opened PPEffect

  datatype DeployError = NotPlanned(why: PlanError) | RankFailed(rank: nat)

  method Deploy(v: Views, m: Model, nodes: seq<Node>, path: string, args: seq<string>, backend: string,
                answers: RankCall -> Outcome)
    returns (r: Result<seq<string>, DeployError>, v': Views)
    ensures r == Err(NotPlanned(NoPipeline)) <==> m.pipelineParallel <= 1
    ensures r == Err(NotPlanned(PlanError.TooFewNodes)) <==> m.pipelineParallel > 1 && |nodes| < m.pipelineParallel
    ensures r.Err? && r.error.NotPlanned? ==> v' == v
    ensures 1 < m.pipelineParallel <= |nodes| ==>
              var plan := PlanOf(m, nodes, path, args, backend);
              && (r.Ok?, v') == NetEffect(v, plan, OutcomesOf(plan, answers))
              && (r.Ok? ==> r.value == IdsOf(plan))
    ensures r.Ok? ==> 1 < m.pipelineParallel == |r.value| <= |nodes|
    ensures r.Ok? ==> forall i :: 0 <= i < |r.value| ==>
              && nodes[i] in v' && r.value[i] in v'[nodes[i]]
              && IsRankRecord(v'[nodes[i]][r.value[i]], m, i, args, Ready)
  {
    var planned := Plan(m, nodes, path, args, backend);
    if planned.Err? {
      assert planned.error == NoPipeline || planned.error == PlanError.TooFewNodes;
      return Err(NotPlanned(planned.error)), v;
    }
    var plan := planned.value;
    PlanHasDistinctIds(plan, m, nodes, path, args, backend);
    assert plan == PlanOf(m, nodes, path, args, backend);
    var outs := OutcomesOf(plan, answers);
    var ids, failed, v1 := AskRanks(v, plan, outs);
    LoadedIffNoneFailed(v, plan, outs, ids);
    if failed.Some? {
      v' := Rollback(v, v1, plan, outs, ids);
      return Err(RankFailed(failed.value)), v';
    }
    NothingToRollBack(v, plan, outs, v1);
    forall i: nat | i < |ids|
      ensures nodes[i] in v1 && ids[i] in v1[nodes[i]] && IsRankRecord(v1[nodes[i]][ids[i]], m, i, args, Ready)
    {
      SuccessShows(v, m, nodes, path, args, backend, outs, i);
    }
    return Ok(ids), v1;
  }

  function IdsOf(plan: seq<RankCall>): seq<string> {
    seq(|plan|, i requires 0 <= i < |plan| => plan[i].id)
  }

  /** What rank i has in its agent's table once its goroutine is done. */
  function Answered(v: Views, call: RankCall, o: Outcome): Option<InstanceState> {
    if !Accepted(v, call, o) then None else if o == Loads then Some(Ready) else Some(Error)
  }

  function AllAnswered(v: Views, plan: seq<RankCall>, outs: seq<Outcome>): seq<Option<InstanceState>>
    requires |plan| == |outs|
  {
    seq(|plan|, i requires 0 <= i < |plan| => Answered(v, plan[i], outs[i]))
  }

  /** The ids noted down: that of a rank that succeeded, the empty string for any other. */
  ghost predicate Noted(v: Views, plan: seq<RankCall>, outs: seq<Outcome>, ids: seq<string>)
    requires |plan| == |outs|
  {
    && |ids| <= |plan|
    && forall i :: 0 <= i < |ids| ==>
         ids[i] == if Answered(v, plan[i], outs[i]) == Some(Ready) then plan[i].id else ""
  }

  /** One call a rank; `failed` is the first rank that did not succeed. */
  method AskRanks(v: Views, plan: seq<RankCall>, outs: seq<Outcome>)
    returns (ids: seq<string>, failed: Option<nat>, v': Views)
    requires |plan| == |outs| && DistinctIds(plan)
    ensures |ids| == |plan| && Noted(v, plan, outs, ids) && Shows(v, v', plan, AllAnswered(v, plan, outs))
    ensures failed.None? <==> forall i :: 0 <= i < |plan| ==> Answered(v, plan[i], outs[i]) == Some(Ready)
  {
    ids, failed, v' := [], None, v;
    ghost var left := AllAnswered(v, plan, outs);
    for i := 0 to |plan|
      invariant |ids| == i && Noted(v, plan, outs, ids) && Shows(v, v', plan, left[..i])
      invariant failed.None? <==> forall k :: 0 <= k < i ==> left[k] == Some(Ready)
    {
      StillFree(v, v', plan, left[..i], outs[i]);
      ShowsOneMore(v, v', plan, left[..i], left[i]);
      assert left[..i] + [left[i]] == left[..i + 1];
      var state := Answered(v', plan[i], outs[i]);
      v' := AddRecord(v', plan[i], state);
      if state == Some(Ready) {
        ids := ids + [plan[i].id];
      } else {
        ids := ids + [""];
        if failed.None? {
          failed := Some(i);
        }
      }
    }
    assert left[..|plan|] == left;
  }

  /** Stop every rank that was noted down. */
  method Rollback(v: Views, v1: Views, plan: seq<RankCall>, outs: seq<Outcome>, ids: seq<string>) returns (v': Views)
    requires |plan| == |outs| == |ids| && DistinctIds(plan) && NoEmptyIds(plan)
    requires Noted(v, plan, outs, ids) && Shows(v, v1, plan, AllAnswered(v, plan, outs)) && !AllLoaded(v, plan, outs)
    ensures v' == NetEffect(v, plan, outs).1
  {
    v' := v1;
    ghost var left := AllAnswered(v, plan, outs);
    for i := 0 to |plan|
      invariant |left| == |plan| && Shows(v, v', plan, left)
      invariant forall k :: 0 <= k < i ==> left[k] == Leaves(v, plan[k], outs[k], false)
      invariant forall k :: i <= k < |plan| ==> left[k] == Answered(v, plan[k], outs[k])
    {
      if ids[i] != "" {
        ShowsRemoved(v, v', plan, left, i);
        v' := v'[plan[i].node := v'[plan[i].node] - {ids[i]}];
        left := left[i := None];
      }
    }
    NetEffectShows(v, plan, outs);
    assert left == AllLeft(v, plan, outs, false);
    ShowsUnique(v, v', NetEffect(v, plan, outs).1, plan, left);
  }

  // ---------- What the agents show, rank by rank ----------

  ghost predicate NoneAt(plan: seq<RankCall>, left: seq<Option<InstanceState>>, n: Node, id: string)
    requires |left| <= |plan|
  {
    forall i :: 0 <= i < |left| && plan[i].node == n && plan[i].id == id ==> left[i].None?
  }

  /** v' shows the records the ranks have left, and otherwise what v shows. */
  ghost predicate Shows(v: Views, v': Views, plan: seq<RankCall>, left: seq<Option<InstanceState>>)
    requires |left| <= |plan|
  {
    && v'.Keys == v.Keys
    && (forall i :: 0 <= i < |left| && left[i].Some? ==>
          && plan[i].node in v' && plan[i].id in v'[plan[i].node]
          && v'[plan[i].node][plan[i].id] == RecordOf(plan[i], left[i].value))
    && (forall n, id :: n in v && NoneAt(plan, left, n, id) ==> SameAt(v, v', n, id))
  }

  ghost predicate NoEmptyIds(plan: seq<RankCall>) {
    forall i :: 0 <= i < |plan| ==> plan[i].id != ""
  }

  lemma ShowsUnique(v: Views, a: Views, b: Views, plan: seq<RankCall>, left: seq<Option<InstanceState>>)
    requires |left| <= |plan| && Shows(v, a, plan, left) && Shows(v, b, plan, left)
    ensures a == b
  {
    forall n, id | n in a ensures SameAt(a, b, n, id) {
      if NoneAt(plan, left, n, id) {
        assert SameAt(v, a, n, id) && SameAt(v, b, n, id);
      }
    }
    SameEverywhere(a, b);
  }

  /** The agent's answer depends on nothing an earlier rank did. */
  lemma StillFree(v: Views, v': Views, plan: seq<RankCall>, left: seq<Option<InstanceState>>, o: Outcome)
    requires |left| < |plan| && DistinctIds(plan) && Shows(v, v', plan, left)
    ensures Answered(v', plan[|left|], o) == Answered(v, plan[|left|], o)
  {
    var call := plan[|left|];
    assert NoneAt(plan, left, call.node, call.id);
    assert call.node in v ==> SameAt(v, v', call.node, call.id);
  }

  lemma ShowsOneMore(v: Views, v': Views, plan: seq<RankCall>, left: seq<Option<InstanceState>>,
                     state: Option<InstanceState>)
    requires |left| < |plan| && DistinctIds(plan) && Shows(v, v', plan, left)
    requires state.Some? ==> plan[|left|].node in v
    ensures Shows(v, AddRecord(v', plan[|left|], state), plan, left + [state])
  {
    var k, w := |left|, AddRecord(v', plan[|left|], state);
    forall n, id | n in v && NoneAt(plan, left + [state], n, id) ensures SameAt(v, w, n, id) {
      assert NoneAt(plan, left, n, id) by {
        forall i | 0 <= i < |left| && plan[i].node == n && plan[i].id == id ensures left[i].None? {
          assert (left + [state])[i] == left[i];
        }
      }
      assert (left + [state])[k] == state;
      assert SameAt(v, v', n, id);
    }
    forall i | 0 <= i < k && left[i].Some? ensures plan[i].node in w && plan[i].id in w[plan[i].node]
                                                   && w[plan[i].node][plan[i].id] == RecordOf(plan[i], left[i].value)
    {
      assert plan[i].id != plan[k].id;
    }
  }

  lemma ShowsRemoved(v: Views, v': Views, plan: seq<RankCall>, left: seq<Option<InstanceState>>, i: nat)
    requires i < |left| <= |plan| && DistinctIds(plan) && Shows(v, v', plan, left)
    requires left[i].Some? && plan[i].node in v && plan[i].id !in v[plan[i].node]
    ensures Shows(v, v'[plan[i].node := v'[plan[i].node] - {plan[i].id}], plan, left[i := None])
  {
    var w := v'[plan[i].node := v'[plan[i].node] - {plan[i].id}];
    forall n, id | n in v && NoneAt(plan, left[i := None], n, id) ensures SameAt(v, w, n, id) {
      if (n, id) != (plan[i].node, plan[i].id) {
        assert NoneAt(plan, left, n, id) by {
          forall k | 0 <= k < |left| && plan[k].node == n && plan[k].id == id ensures left[k].None? {
            assert left[i := None][k] == left[k];
          }
        }
        assert SameAt(v, v', n, id);
      }
    }
    forall k | 0 <= k < |left| && k != i ensures plan[k].id != plan[i].id {
    }
  }

  ghost function AllLeft(v: Views, plan: seq<RankCall>, outs: seq<Outcome>, success: bool): seq<Option<InstanceState>>
    requires |plan| == |outs|
  {
    seq(|plan|, i requires 0 <= i < |plan| => Leaves(v, plan[i], outs[i], success))
  }

  lemma NetEffectShows(v: Views, plan: seq<RankCall>, outs: seq<Outcome>)
    requires |plan| == |outs| && DistinctIds(plan)
    ensures Shows(v, NetEffect(v, plan, outs).1, plan, AllLeft(v, plan, outs, AllLoaded(v, plan, outs)))
  {
    var success := AllLoaded(v, plan, outs);
    var left, v' := AllLeft(v, plan, outs, success), NetEffect(v, plan, outs).1;
    AddRanksKeys(v, plan, outs, success, |plan|);
    forall i: nat | i < |left| && left[i].Some?
      ensures plan[i].node in v' && plan[i].id in v'[plan[i].node]
              && v'[plan[i].node][plan[i].id] == RecordOf(plan[i], left[i].value)
    {
      AddRanksShows(v, plan, outs, success, |plan|, i);
    }
    forall n, id | n in v && NoneAt(plan, left, n, id) ensures SameAt(v, v', n, id) {
      AddRanksHides(v, plan, outs, success, |plan|, n, id);
    }
  }

  /** No rank failed exactly when the deployment as a whole loaded. */
  lemma LoadedIffNoneFailed(v: Views, plan: seq<RankCall>, outs: seq<Outcome>, ids: seq<string>)
    requires |plan| == |outs| == |ids| && Noted(v, plan, outs, ids)
    ensures AllLoaded(v, plan, outs) <==> forall i :: 0 <= i < |plan| ==> Answered(v, plan[i], outs[i]) == Some(Ready)
    ensures AllLoaded(v, plan, outs) ==> ids == IdsOf(plan)
  {
    forall i | 0 <= i < |plan|
      ensures Answered(v, plan[i], outs[i]) == Some(Ready) <==> Accepted(v, plan[i], outs[i]) && outs[i] == Loads
    {
    }
  }

  /** With nothing to roll back, the tables are those of a complete success. */
  lemma NothingToRollBack(v: Views, plan: seq<RankCall>, outs: seq<Outcome>, v1: Views)
    requires |plan| == |outs| && DistinctIds(plan) && AllLoaded(v, plan, outs)
             && Shows(v, v1, plan, AllAnswered(v, plan, outs))
    ensures v1 == NetEffect(v, plan, outs).1
  {
    NetEffectShows(v, plan, outs);
    assert AllAnswered(v, plan, outs) == AllLeft(v, plan, outs, true);
    ShowsUnique(v, v1, NetEffect(v, plan, outs).1, plan, AllAnswered(v, plan, outs));
  }
}
