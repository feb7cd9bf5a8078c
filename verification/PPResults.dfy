/** Every result that NetEffect allows comes about: for whatever the nodes answer there is a run of the
    goroutines that ends with exactly those answers. */
module PPResults {
  import opened Common
  import opened AgentModel
  import opened ModelMeta
  import opened PPDeploy
  import opened PPSafety
  import opened PPEffect

  /** Some run of this one deployment leads here. */
  ghost predicate Reached(a0s: map<Node, AgentState>, plan: seq<RankCall>, w: World) {
    exists run :: IsRun(a0s, [plan], run) && run[|run| - 1] == w
  }

  lemma ReachStart(a0s: map<Node, AgentState>, plan: seq<RankCall>)
    requires AgentsWf(a0s)
    ensures Reached(a0s, plan, StartWorld(a0s, [plan]))
  {
    assert IsRun(a0s, [plan], [StartWorld(a0s, [plan])]);
  }

  lemma ReachStep(a0s: map<Node, AgentState>, plan: seq<RankCall>, w: World, step: Step)
    requires Reached(a0s, plan, w) && Enabled(w, step)
    ensures Reached(a0s, plan, Apply(w, step))
  {
    var run :| IsRun(a0s, [plan], run) && run[|run| - 1] == w;
    var run' := run + [Apply(w, step)];
    forall i | 0 <= i < |run'| - 1 ensures Next(run'[i], run'[i + 1]) {
      if i < |run| - 1 {
        assert Next(run[i], run[i + 1]);
      }
    }
    assert IsRun(a0s, [plan], run');
  }

  lemma ReachedInv(a0s: map<Node, AgentState>, plan: seq<RankCall>, w: World)
    requires Reached(a0s, plan, w)
    ensures AgentsWf(a0s) && AgentsWf(w.agents) && Inv(a0s, w)
    ensures |w.coords| == 1 && w.coords[0].plan == plan && |w.coords[0].ranks| == |plan| && CoordInv(w.coords[0])
  {
    var run :| IsRun(a0s, [plan], run) && run[|run| - 1] == w;
    RunKeeps(a0s, [plan], run, |run| - 1);
    RunAgentsWf(a0s, [plan], run, |run| - 1);
    PlansFixed(a0s, [plan], run, |run| - 1);
  }

  // ---------- Playing the answers ----------

  predicate Played(v: Views, call: RankCall, o: Outcome, p: Phase) {
    if Accepted(v, call, o) then if o == Loads then p.Created? else p.LoadError? else p.Rejected?
  }

  /** The first k ranks have had their answers, the others have not started. */
  predicate CoordPlayed(v: Views, plan: seq<RankCall>, outs: seq<Outcome>, k: nat, coord: Coord)
    requires k <= |plan| == |outs|
  {
    && coord.plan == plan && |coord.ranks| == |plan| && coord.progress.Running?
    && (forall i :: 0 <= i < k ==> Played(v, plan[i], outs[i], coord.ranks[i]))
    && (forall i :: k <= i < |plan| ==> coord.ranks[i].Starting?)
  }

  lemma OneMorePlayed(v: Views, plan: seq<RankCall>, outs: seq<Outcome>, k: nat, coord: Coord, p: Phase)
    requires k < |plan| == |outs| && CoordPlayed(v, plan, outs, k, coord) && Played(v, plan[k], outs[k], p)
    ensures CoordPlayed(v, plan, outs, k + 1, coord.(ranks := coord.ranks[k := p]))
  {
  }

  ghost predicate PlayedTo(a0s: map<Node, AgentState>, plan: seq<RankCall>, outs: seq<Outcome>, k: nat, w: World)
    requires AgentsWf(a0s) && k <= |plan| == |outs|
  {
    Reached(a0s, plan, w) && |w.coords| == 1 && CoordPlayed(ViewsOf(a0s), plan, outs, k, w.coords[0])
  }

  lemma NotOwnedYet(w: World, plan: seq<RankCall>, k: nat, t: Token)
    requires |w.coords| == 1 && w.coords[0].plan == plan && DistinctIds(plan) && w.HasRank(0, k)
             && w.Rank(0, k).Starting?
    ensures !OwnedBy(w, plan[k].node, plan[k].id, t)
  {
    var n := plan[k].node;
    if (n, t) in w.owner && w.owner[(n, t)].0 == 0 && w.owner[(n, t)].1 < |plan| {
      var i := w.owner[(n, t)].1;
      assert i != k ==> plan[i].id != plan[k].id;
    }
  }

  /** A rank that has not started finds its id as it was at the start. */
  lemma StillFree(a0s: map<Node, AgentState>, plan: seq<RankCall>, w: World, k: nat)
    requires Reached(a0s, plan, w) && DistinctIds(plan) && k < |plan| && plan[k].node in a0s
    requires w.HasRank(0, k) && w.Rank(0, k).Starting?
    ensures plan[k].node in w.agents
    ensures plan[k].id in w.agents[plan[k].node].instances <==> plan[k].id in a0s[plan[k].node].instances
  {
    ReachedInv(a0s, plan, w);
    var n, id := plan[k].node, plan[k].id;
    assert NodeInv(a0s[n], w, n);
    if id in w.agents[n].instances {
      NotOwnedYet(w, plan, k, w.agents[n].instances[id]);
    }
  }

  lemma PlayRefusal(a0s: map<Node, AgentState>, plan: seq<RankCall>, outs: seq<Outcome>, k: nat, w: World)
    returns (w': World)
    requires AgentsWf(a0s) && k < |plan| == |outs| && PlayedTo(a0s, plan, outs, k, w)
    requires !Accepted(ViewsOf(a0s), plan[k], outs[k])
    ensures PlayedTo(a0s, plan, outs, k + 1, w')
  {
    ReachedInv(a0s, plan, w);
    ReachStep(a0s, plan, w, Unreachable(0, k));
    w' := Apply(w, Unreachable(0, k));
    OneMorePlayed(ViewsOf(a0s), plan, outs, k, w.coords[0], Rejected);
  }

  /** The reservation of a rank that will be accepted. */
  lemma PlayBegin(a0s: map<Node, AgentState>, plan: seq<RankCall>, outs: seq<Outcome>, k: nat, w: World)
    returns (w': World, t: Token)
    requires AgentsWf(a0s) && k < |plan| == |outs| && PlayedTo(a0s, plan, outs, k, w) && DistinctIds(plan)
    requires Accepted(ViewsOf(a0s), plan[k], outs[k])
    ensures Reached(a0s, plan, w') && w'.coords == [w.coords[0].(ranks := w.coords[0].ranks[k := InLoad(t)])]
    ensures plan[k].node in w'.agents && t in w'.agents[plan[k].node].recs
  {
    ReachedInv(a0s, plan, w);
    AcceptedMeansFree(a0s, plan[k], outs[k]);
    StillFree(a0s, plan, w, k);
    ReachStep(a0s, plan, w, Begin(0, k));
    w', t := Apply(w, Begin(0, k)), w.agents[plan[k].node].next;
  }

  lemma PlayFinish(a0s: map<Node, AgentState>, plan: seq<RankCall>, w: World, k: nat, t: Token, ok: bool)
    returns (w': World)
    requires Reached(a0s, plan, w) && |w.coords| == 1 && w.HasRank(0, k) && w.Rank(0, k) == InLoad(t)
             && w.coords[0].plan == plan
    requires plan[k].node in w.agents && t in w.agents[plan[k].node].recs
    ensures Reached(a0s, plan, w')
    ensures w'.coords == [w.coords[0].(ranks := w.coords[0].ranks[k := if ok then Created(t) else LoadError(t)])]
  {
    ReachedInv(a0s, plan, w);
    var step := if ok then LoadOk(0, k) else LoadFail(0, k);
    ReachStep(a0s, plan, w, step);
    w' := Apply(w, step);
  }

  lemma PlayLoad(a0s: map<Node, AgentState>, plan: seq<RankCall>, outs: seq<Outcome>, k: nat, w: World)
    returns (w': World)
    requires AgentsWf(a0s) && k < |plan| == |outs| && PlayedTo(a0s, plan, outs, k, w) && DistinctIds(plan)
    requires Accepted(ViewsOf(a0s), plan[k], outs[k])
    ensures PlayedTo(a0s, plan, outs, k + 1, w')
  {
    var ok := outs[k] == Outcome.Loads;
    var w1, t := PlayBegin(a0s, plan, outs, k, w);
    w' := PlayFinish(a0s, plan, w1, k, t, ok);
    var ranks, p := w.coords[0].ranks, if ok then Created(t) else LoadError(t);
    assert ranks[k := InLoad(t)][k := p] == ranks[k := p];
    OneMorePlayed(ViewsOf(a0s), plan, outs, k, w.coords[0], p);
  }

  lemma {:induction false} PlayRanks(a0s: map<Node, AgentState>, plan: seq<RankCall>, outs: seq<Outcome>, k: nat)
    returns (w: World)
    requires AgentsWf(a0s) && k <= |plan| == |outs| && DistinctIds(plan)
    ensures PlayedTo(a0s, plan, outs, k, w)
  {
    if k == 0 {
      ReachStart(a0s, plan);
      w := StartWorld(a0s, [plan]);
    } else {
      var w1 := PlayRanks(a0s, plan, outs, k - 1);
      if Accepted(ViewsOf(a0s), plan[k - 1], outs[k - 1]) {
        w := PlayLoad(a0s, plan, outs, k - 1, w1);
      } else {
        w := PlayRefusal(a0s, plan, outs, k - 1, w1);
      }
    }
  }

  lemma RollbackIsEnabled(a0s: map<Node, AgentState>, w: World)
    requires RanksInv(a0s, w) && NodesInv(a0s, w) && AgentsWf(w.agents)
    requires |w.coords| == 1 && w.coords[0].progress.RollingBack? && |w.coords[0].plan| == |w.coords[0].ranks|
    ensures Enabled(w, RollbackNext(0))
  {
    var k := w.coords[0].progress.k;
    assert k < |w.coords[0].ranks| ==> w.HasRank(0, k) && RankOk(a0s, w, 0, k);
  }

  lemma RollbackTurnEffect(w: World)
    requires Enabled(w, RollbackNext(0)) && |w.coords| == 1
    ensures var c, c', k := w.coords[0], Apply(w, RollbackNext(0)).coords[0], w.coords[0].progress.k;
            && |Apply(w, RollbackNext(0)).coords| == 1 && |c'.ranks| == |c.ranks|
            && c'.progress == (if k < |c.ranks| then RollingBack(k + 1) else Failed)
            && Outcomes(c'.ranks) == Outcomes(c.ranks)
  {
    var ranks, k := w.coords[0].ranks, w.coords[0].progress.k;
    if k < |ranks| && ranks[k].Created? {
      assert Apply(w, RollbackNext(0)).coords[0].ranks == ranks[k := RolledBack(ranks[k].t)];
    } else {
      assert Apply(w, RollbackNext(0)).coords[0].ranks == ranks;
    }
  }

  /** One turn of the rollback loop is possible and forgets no answer. */
  lemma PlayRollbackTurn(a0s: map<Node, AgentState>, plan: seq<RankCall>, w: World) returns (w': World)
    requires Reached(a0s, plan, w) && |w.coords| == 1 && w.coords[0].progress.RollingBack?
    ensures Reached(a0s, plan, w') && |w'.coords| == 1 && Outcomes(w'.coords[0].ranks) == Outcomes(w.coords[0].ranks)
    ensures var k := w.coords[0].progress.k;
            && k <= |plan| == |w.coords[0].ranks| == |w'.coords[0].ranks|
            && w'.coords[0].progress == if k < |plan| then RollingBack(k + 1) else Failed
  {
    ReachedInv(a0s, plan, w);
    RollbackIsEnabled(a0s, w);
    RollbackTurnEffect(w);
    ReachStep(a0s, plan, w, RollbackNext(0));
    w' := Apply(w, RollbackNext(0));
  }

  lemma {:induction false} PlayRollback(a0s: map<Node, AgentState>, plan: seq<RankCall>, w: World) returns (w': World)
    requires Reached(a0s, plan, w) && |w.coords| == 1 && w.coords[0].progress.RollingBack?
    ensures Reached(a0s, plan, w') && |w'.coords| == 1 && w'.coords[0].progress.Failed?
    ensures Outcomes(w'.coords[0].ranks) == Outcomes(w.coords[0].ranks)
    decreases |plan| - w.coords[0].progress.k
  {
    w' := PlayRollbackTurn(a0s, plan, w);
    if w.coords[0].progress.k < |plan| {
      w' := PlayRollback(a0s, plan, w');
    }
  }

  // ---------- The results ----------

  /** A finished run with this verdict and these listings. */
  ghost predicate IsResult(a0s: map<Node, AgentState>, plan: seq<RankCall>, w: World, success: bool, v: Views) {
    && Reached(a0s, plan, w) && |w.coords| == 1 && Done(w.coords[0]) && AgentsWf(w.agents)
    && success == w.coords[0].progress.Succeeded? && v == ViewsOf(w.agents)
  }

  /** Refused calls count as not reached, whatever a load would have done. */
  predicate SameButRefused(v: Views, plan: seq<RankCall>, outs: seq<Outcome>, seen: seq<Outcome>)
    requires |plan| == |outs| == |seen|
  {
    forall i :: 0 <= i < |plan| ==> seen[i] == if Accepted(v, plan[i], outs[i]) then outs[i] else NotReached
  }

  lemma {:induction false} RefusedDoNotCount(v: Views, plan: seq<RankCall>, outs: seq<Outcome>, seen: seq<Outcome>,
                                             success: bool, n: nat)
    requires n <= |plan| == |outs| == |seen| && SameButRefused(v, plan, outs, seen)
    ensures AllLoaded(v, plan, outs) == AllLoaded(v, plan, seen)
    ensures AddRanks(v, plan, outs, success, n) == AddRanks(v, plan, seen, success, n)
  {
    assert forall i :: 0 <= i < |plan| ==> Accepted(v, plan[i], seen[i]) == Accepted(v, plan[i], outs[i]);
    if n > 0 {
      RefusedDoNotCount(v, plan, outs, seen, success, n - 1);
    }
  }

  lemma PlayedOutcomes(a0s: map<Node, AgentState>, plan: seq<RankCall>, outs: seq<Outcome>, w: World)
    requires AgentsWf(a0s) && |plan| == |outs| && PlayedTo(a0s, plan, outs, |plan|, w)
    ensures SameButRefused(ViewsOf(a0s), plan, outs, Outcomes(w.coords[0].ranks))
  {
    forall i | 0 <= i < |plan|
      ensures OutcomeOf(w.coords[0].ranks[i]) == if Accepted(ViewsOf(a0s), plan[i], outs[i]) then outs[i]
              else NotReached
    {
      assert Played(ViewsOf(a0s), plan[i], outs[i], w.coords[0].ranks[i]);
    }
  }

  /** Once all ranks have answered, the deployment finishes with those answers. */
  lemma PlayToTheEnd(a0s: map<Node, AgentState>, plan: seq<RankCall>, outs: seq<Outcome>, w: World) returns (w': World)
    requires AgentsWf(a0s) && |plan| == |outs| && PlayedTo(a0s, plan, outs, |plan|, w)
    ensures Reached(a0s, plan, w') && |w'.coords| == 1 && Done(w'.coords[0])
    ensures Outcomes(w'.coords[0].ranks) == Outcomes(w.coords[0].ranks)
  {
    ReachedInv(a0s, plan, w);
    forall i | 0 <= i < |plan| ensures w.coords[0].ranks[i].Finished() {
      assert Played(ViewsOf(a0s), plan[i], outs[i], w.coords[0].ranks[i]);
    }
    ReachStep(a0s, plan, w, Join(0));
    w' := Apply(w, Join(0));
    if w'.coords[0].progress.RollingBack? {
      w' := PlayRollback(a0s, plan, w');
    }
  }

  lemma ResultOf(a0s: map<Node, AgentState>, plan: seq<RankCall>, w: World)
    requires Reached(a0s, plan, w) && DistinctIds(plan) && |w.coords| == 1 && Done(w.coords[0])
    ensures AgentsWf(a0s) && AgentsWf(w.agents) && |w.coords[0].ranks| == |plan|
    ensures NetEffect(ViewsOf(a0s), plan, Outcomes(w.coords[0].ranks))
            == (w.coords[0].progress.Succeeded?, ViewsOf(w.agents))
  {
    ReachedInv(a0s, plan, w);
    var run :| IsRun(a0s, [plan], run) && run[|run| - 1] == w;
    DeployRefinesNetEffect(a0s, plan, run, |run| - 1);
  }

  /** Whatever the nodes answer, some run of the goroutines ends with those answers and their net effect. */
  lemma EveryAnswerIsRealised(a0s: map<Node, AgentState>, plan: seq<RankCall>, outs: seq<Outcome>)
    requires AgentsWf(a0s) && |plan| == |outs| && DistinctIds(plan)
    ensures exists w :: EndsWith(a0s, plan, outs, w)
  {
    var w1 := PlayRanks(a0s, plan, outs, |plan|);
    var w := PlayToTheEnd(a0s, plan, outs, w1);
    PlayedOutcomes(a0s, plan, outs, w1);
    ResultOf(a0s, plan, w);
    var v := ViewsOf(a0s);
    RefusedDoNotCount(v, plan, outs, Outcomes(w.coords[0].ranks), AllLoaded(v, plan, outs), |plan|);
    assert EndsWith(a0s, plan, outs, w);
  }

  /** A finished run in which each rank that was not refused had its answer, and the net effect of that. */
  ghost predicate EndsWith(a0s: map<Node, AgentState>, plan: seq<RankCall>, outs: seq<Outcome>, w: World)
    requires AgentsWf(a0s) && |plan| == |outs|
  {
    var (success, v) := NetEffect(ViewsOf(a0s), plan, outs);
    && IsResult(a0s, plan, w, success, v)
    && |w.coords[0].ranks| == |plan| && SameButRefused(ViewsOf(a0s), plan, outs, Outcomes(w.coords[0].ranks))
  }

  ghost predicate IsNetEffect(v: Views, plan: seq<RankCall>, outs: seq<Outcome>, success: bool, v': Views) {
    |plan| == |outs| && NetEffect(v, plan, outs) == (success, v')
  }

  /** The results of a deployment's runs are exactly the net effects of its nodes' answers. */
  lemma ResultsAreNetEffects(a0s: map<Node, AgentState>, plan: seq<RankCall>, success: bool, v: Views)
    requires AgentsWf(a0s) && DistinctIds(plan)
    ensures (exists w :: IsResult(a0s, plan, w, success, v))
            <==> (exists outs :: IsNetEffect(ViewsOf(a0s), plan, outs, success, v))
  {
    if w :| IsResult(a0s, plan, w, success, v) {
      ResultOf(a0s, plan, w);
      assert IsNetEffect(ViewsOf(a0s), plan, Outcomes(w.coords[0].ranks), success, v);
    }
    if outs :| IsNetEffect(ViewsOf(a0s), plan, outs, success, v) {
      EveryAnswerIsRealised(a0s, plan, outs);
      var w :| EndsWith(a0s, plan, outs, w);
      assert IsResult(a0s, plan, w, success, v);
    }
  }

  /** A result of the answers "loads" and "fails" that does not give the listings back. */
  ghost predicate LeavesSomething(a0s: map<Node, AgentState>, plan: seq<RankCall>, w: World, v: Views) {
    && AgentsWf(a0s) && IsResult(a0s, plan, w, false, v) && v != ViewsOf(a0s)
    && Outcomes(w.coords[0].ranks) == [Outcome.Loads, LoadFails]
  }

  /** Two ranks whose ids are free: the first loads, the second fails. */
  lemma SecondLoadFails(a0s: map<Node, AgentState>, plan: seq<RankCall>)
    requires AgentsWf(a0s) && |plan| == 2 && DistinctIds(plan)
    requires forall i :: 0 <= i < 2 ==> plan[i].node in a0s && plan[i].id !in a0s[plan[i].node].instances
    ensures exists w, v :: LeavesSomething(a0s, plan, w, v)
  {
    var outs, v := [Outcome.Loads, LoadFails], ViewsOf(a0s);
    AcceptedMeansFree(a0s, plan[0], outs[0]);
    AcceptedMeansFree(a0s, plan[1], outs[1]);
    assert SomeLoadFailed(v, plan, outs) && !AllLoaded(v, plan, outs);
    RollbackIsFullIffNoLoadFailed(v, plan, outs);
    EveryAnswerIsRealised(a0s, plan, outs);
    var w :| EndsWith(a0s, plan, outs, w);
    assert Outcomes(w.coords[0].ranks) == outs;
    assert LeavesSomething(a0s, plan, w, NetEffect(v, plan, outs).1);
  }

  /** Rank 0 loads, rank 1 fails: two empty agents do not get their empty listings back. */
  lemma RollbackIsNotFull(m: Model, n0: Node, n1: Node, path: string, args: seq<string>, backend: string)
    requires m.pipelineParallel == 2
    ensures var a0s := map[n0 := EMPTY_AGENT, n1 := EMPTY_AGENT];
            exists w, v :: LeavesSomething(a0s, PlanOf(m, [n0, n1], path, args, backend), w, v)
  {
    var plan := PlanOf(m, [n0, n1], path, args, backend);
    PlanHasDistinctIds(plan, m, [n0, n1], path, args, backend);
    SecondLoadFails(map[n0 := EMPTY_AGENT, n1 := EMPTY_AGENT], plan);
  }
}
