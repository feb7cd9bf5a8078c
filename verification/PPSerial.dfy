/** Deployments whose ranks share no id, such as those of different models, may run at once: the result
    is that of running them one after the other, in any order. */
module PPSerial {
  import opened InstanceIds
  import opened AgentModel
  import opened ModelMeta
  import opened PPDeploy
  import opened PPSafety
  import opened PPEffect

  ghost predicate Disjoint(plans: seq<seq<RankCall>>) {
    forall c, c', i, i' ::
      0 <= c < |plans| && 0 <= c' < |plans| && c != c' && 0 <= i < |plans[c]| && 0 <= i' < |plans[c']| ==>
      plans[c][i].id != plans[c'][i'].id
  }

  ghost predicate AllDistinctIds(plans: seq<seq<RankCall>>) {
    forall c :: 0 <= c < |plans| ==> DistinctIds(plans[c])
  }

  /** A plan for this model, wherever it runs. */
  ghost predicate PlansModel(plan: seq<RankCall>, m: Model) {
    exists nodes, path, args, backend :: IsPlan(plan, m, nodes, path, args, backend)
  }

  lemma ModelOfRank(plan: seq<RankCall>, m: Model, i: nat)
    requires PlansModel(plan, m) && i < |plan|
    ensures plan[i].id == PPInstanceId(m.name, i)
  {
  }

  lemma DifferentModelsAreDisjoint(plans: seq<seq<RankCall>>, ms: seq<Model>)
    requires |plans| == |ms| && forall c :: 0 <= c < |plans| ==> PlansModel(plans[c], ms[c])
    requires forall c, c' :: 0 <= c < c' < |ms| ==> ms[c].name != ms[c'].name
    ensures Disjoint(plans) && AllDistinctIds(plans)
  {
    forall c, c', i: nat, i': nat
      | 0 <= c < |plans| && 0 <= c' < |plans| && i < |plans[c]| && i' < |plans[c']|
        && plans[c][i].id == plans[c'][i'].id
      ensures c == c' && i == i'
    {
      ModelOfRank(plans[c], ms[c], i);
      ModelOfRank(plans[c'], ms[c'], i');
      PPInstanceIdInjective(ms[c].name, i, ms[c'].name, i');
    }
  }

  // ---------- One after the other ----------

  ghost predicate Sized(plans: seq<seq<RankCall>>, outs: seq<seq<Outcome>>) {
    |plans| == |outs| && forall c :: 0 <= c < |plans| ==> |plans[c]| == |outs[c]|
  }

  /** Some deployments, each once, in some order. */
  ghost predicate IsOrder(order: seq<nat>, n: nat) {
    && (forall k :: 0 <= k < |order| ==> order[k] < n)
    && (forall k, k' :: 0 <= k < k' < |order| ==> order[k] != order[k'])
  }

  ghost function InTurn(v: Views, plans: seq<seq<RankCall>>, outs: seq<seq<Outcome>>, order: seq<nat>): Views
    requires Sized(plans, outs) && IsOrder(order, |plans|)
    decreases |order|
  {
    if order == [] then v
    else
      var k := |order| - 1;
      NetEffect(InTurn(v, plans, outs, order[..k]), plans[order[k]], outs[order[k]]).1
  }

  ghost predicate IsMine(plan: seq<RankCall>, n: Node, id: string) {
    exists i :: 0 <= i < |plan| && plan[i].node == n && plan[i].id == id
  }

  ghost predicate SameOnRanks(v: Views, v': Views, plan: seq<RankCall>) {
    v.Keys == v'.Keys && forall i :: 0 <= i < |plan| && plan[i].node in v ==> SameAt(v, v', plan[i].node, plan[i].id)
  }

  lemma SameAnswers(v: Views, v': Views, plan: seq<RankCall>, outs: seq<Outcome>)
    requires |plan| == |outs| && SameOnRanks(v, v', plan)
    ensures AllLoaded(v, plan, outs) == AllLoaded(v', plan, outs)
    ensures forall i, success :: 0 <= i < |plan| ==>
              Leaves(v, plan[i], outs[i], success) == Leaves(v', plan[i], outs[i], success)
  {
    forall i | 0 <= i < |plan| ensures Accepted(v, plan[i], outs[i]) == Accepted(v', plan[i], outs[i]) {
      assert plan[i].node in v ==> SameAt(v, v', plan[i].node, plan[i].id);
    }
  }

  /** A deployment reads and writes nothing but its own ids. */
  lemma NetEffectIsLocal(v: Views, v': Views, plan: seq<RankCall>, outs: seq<Outcome>, n: Node, id: string)
    requires |plan| == |outs| && DistinctIds(plan) && SameOnRanks(v, v', plan) && n in v
    ensures NetEffect(v, plan, outs).0 == NetEffect(v', plan, outs).0
    ensures if IsMine(plan, n, id) then SameAt(NetEffect(v, plan, outs).1, NetEffect(v', plan, outs).1, n, id)
            else SameAt(v', NetEffect(v', plan, outs).1, n, id)
  {
    SameAnswers(v, v', plan, outs);
    var success := AllLoaded(v, plan, outs);
    if i: nat :| i < |plan| && plan[i].node == n && plan[i].id == id && Leaves(v, plan[i], outs[i], success).Some? {
      AddRanksShows(v, plan, outs, success, |plan|, i);
      AddRanksShows(v', plan, outs, success, |plan|, i);
    } else {
      AddRanksHides(v, plan, outs, success, |plan|, n, id);
      AddRanksHides(v', plan, outs, success, |plan|, n, id);
      assert IsMine(plan, n, id) ==> SameAt(v, v', n, id);
    }
  }

  /** What the deployments run so far show under one id: the effect of the one it belongs to. */
  lemma {:induction false} InTurnAt(v: Views, plans: seq<seq<RankCall>>, outs: seq<seq<Outcome>>, order: seq<nat>,
                                    n: Node, id: string)
    requires Sized(plans, outs) && IsOrder(order, |plans|) && Disjoint(plans) && AllDistinctIds(plans) && n in v
    ensures InTurn(v, plans, outs, order).Keys == v.Keys
    ensures (forall k :: 0 <= k < |order| ==> !IsMine(plans[order[k]], n, id))
            ==> SameAt(v, InTurn(v, plans, outs, order), n, id)
    ensures forall k :: 0 <= k < |order| && IsMine(plans[order[k]], n, id) ==>
              SameAt(NetEffect(v, plans[order[k]], outs[order[k]]).1, InTurn(v, plans, outs, order), n, id)
    decreases |order|
  {
    if order != [] {
      var before, c := order[..|order| - 1], order[|order| - 1];
      var s := InTurn(v, plans, outs, before);
      InTurnAt(v, plans, outs, before, n, id);
      InTurnSameOnRanks(v, plans, outs, before, c);
      NetEffectIsLocal(v, s, plans[c], outs[c], n, id);
      NetEffectKeys(s, plans[c], outs[c]);
      forall k | 0 <= k < |before| && IsMine(plans[order[k]], n, id)
        ensures before[k] == order[k] && !IsMine(plans[c], n, id)
      {
        OneOwner(plans, order[k], c, n, id);
      }
    }
  }

  lemma OneOwner(plans: seq<seq<RankCall>>, c: nat, c': nat, n: Node, id: string)
    requires Disjoint(plans) && c < |plans| && c' < |plans| && c != c' && IsMine(plans[c], n, id)
    ensures !IsMine(plans[c'], n, id)
  {
  }

  /** A deployment that has not had its turn finds its own ids as they were at the start. */
  lemma {:induction false} InTurnSameOnRanks(v: Views, plans: seq<seq<RankCall>>, outs: seq<seq<Outcome>>,
                                             order: seq<nat>, c: nat)
    requires Sized(plans, outs) && IsOrder(order, |plans|) && Disjoint(plans) && AllDistinctIds(plans)
    requires c < |plans| && c !in order
    ensures SameOnRanks(v, InTurn(v, plans, outs, order), plans[c])
    decreases |order|, 1
  {
    InTurnKeys(v, plans, outs, order);
    forall i | 0 <= i < |plans[c]| && plans[c][i].node in v
      ensures SameAt(v, InTurn(v, plans, outs, order), plans[c][i].node, plans[c][i].id)
    {
      var n, id := plans[c][i].node, plans[c][i].id;
      InTurnElsewhere(v, plans, outs, order, c, n, id);
    }
  }

  lemma {:induction false} InTurnKeys(v: Views, plans: seq<seq<RankCall>>, outs: seq<seq<Outcome>>, order: seq<nat>)
    requires Sized(plans, outs) && IsOrder(order, |plans|)
    ensures InTurn(v, plans, outs, order).Keys == v.Keys
    decreases |order|
  {
    if order != [] {
      var k := |order| - 1;
      InTurnKeys(v, plans, outs, order[..k]);
      NetEffectKeys(InTurn(v, plans, outs, order[..k]), plans[order[k]], outs[order[k]]);
    }
  }

  /** Where only deployment c writes, the others leave everything as it was. */
  lemma {:induction false} InTurnElsewhere(v: Views, plans: seq<seq<RankCall>>, outs: seq<seq<Outcome>>,
                                           order: seq<nat>, c: nat, n: Node, id: string)
    requires Sized(plans, outs) && IsOrder(order, |plans|) && Disjoint(plans) && AllDistinctIds(plans)
    requires c < |plans| && c !in order && n in v && IsMine(plans[c], n, id)
    ensures n in InTurn(v, plans, outs, order) && SameAt(v, InTurn(v, plans, outs, order), n, id)
    decreases |order|, 0
  {
    if order != [] {
      var k := |order| - 1;
      var s := InTurn(v, plans, outs, order[..k]);
      InTurnElsewhere(v, plans, outs, order[..k], c, n, id);
      OneOwner(plans, c, order[k], n, id);
      NetEffectIsLocal(s, s, plans[order[k]], outs[order[k]], n, id);
    }
  }

  // ---------- At once ----------

  ghost function AllOutcomes(w: World): seq<seq<Outcome>> {
    seq(|w.coords|, c requires 0 <= c < |w.coords| => Outcomes(w.coords[c].ranks))
  }

  lemma DisjointMeansOnlyMine(w: World, plans: seq<seq<RankCall>>, c: nat, n: Node, id: string)
    requires PlansAre(w, plans) && Disjoint(plans) && c < |plans| && IsMine(plans[c], n, id)
    ensures OnlyMine(w, c, n, id)
  {
    forall c': nat, i: nat | w.HasRank(c', i) && w.Call(c', i).node == n && w.Call(c', i).id == id ensures c' == c {
      assert plans[c'][i] == w.Call(c', i);
      assert IsMine(plans[c'], n, id);
    }
  }

  lemma NobodysUnchanged(a0s: map<Node, AgentState>, w: World, plans: seq<seq<RankCall>>, n: Node, id: string)
    requires AgentsWf(a0s) && AgentsWf(w.agents) && n in a0s && n in w.agents && NodeInv(a0s[n], w, n)
    requires PlansAre(w, plans) && forall c: nat :: c < |plans| ==> !IsMine(plans[c], n, id)
    ensures SameAt(ViewsOf(a0s), ViewsOf(w.agents), n, id)
  {
    forall c: nat, i: nat | w.HasRank(c, i) ensures !(w.Call(c, i).node == n && w.Call(c, i).id == id) {
      assert plans[c][i] == w.Call(c, i) && !IsMine(plans[c], n, id);
    }
    UnchangedAt(a0s, w, 0, n, id);
  }

  lemma PlansSized(a0s: map<Node, AgentState>, plans: seq<seq<RankCall>>, run: seq<World>, j: nat)
    requires IsRun(a0s, plans, run) && j < |run|
    ensures PlansAre(run[j], plans) && Sized(plans, AllOutcomes(run[j]))
    ensures forall c :: 0 <= c < |plans| ==> run[j].coords[c].plan == plans[c]
  {
    RunKeeps(a0s, plans, run, j);
    PlansFixed(a0s, plans, run, j);
    forall c | 0 <= c < |plans| ensures |plans[c]| == |AllOutcomes(run[j])[c]| {
      assert CoordInv(run[j].coords[c]);
    }
  }

  /** What any interleaving shows under an id of deployment c is what the deployments in turn show. */
  lemma AtOnceMine(a0s: map<Node, AgentState>, plans: seq<seq<RankCall>>, run: seq<World>, j: nat, order: seq<nat>,
                   c: nat, n: Node, id: string)
    requires IsRun(a0s, plans, run) && j < |run| && AllDone(run[j]) && Disjoint(plans) && AllDistinctIds(plans)
    requires IsOrder(order, |plans|) && c in order && n in a0s && IsMine(plans[c], n, id)
    ensures AgentsWf(a0s) && AgentsWf(run[j].agents) && Sized(plans, AllOutcomes(run[j]))
    ensures SameAt(InTurn(ViewsOf(a0s), plans, AllOutcomes(run[j]), order), ViewsOf(run[j].agents), n, id)
  {
    RunAgentsWf(a0s, plans, run, j);
    PlansSized(a0s, plans, run, j);
    DisjointMeansOnlyMine(run[j], plans, c, n, id);
    EachHasItsOwnNetEffect(a0s, plans, run, j, c, n, id);
    var k :| 0 <= k < |order| && order[k] == c;
    InTurnAt(ViewsOf(a0s), plans, AllOutcomes(run[j]), order, n, id);
    assert IsMine(plans[order[k]], n, id);
  }

  lemma AtOnceNobodys(a0s: map<Node, AgentState>, plans: seq<seq<RankCall>>, run: seq<World>, j: nat, order: seq<nat>,
                      n: Node, id: string)
    requires IsRun(a0s, plans, run) && j < |run| && Disjoint(plans) && AllDistinctIds(plans)
    requires IsOrder(order, |plans|) && n in a0s && forall c: nat :: c < |plans| ==> !IsMine(plans[c], n, id)
    ensures AgentsWf(a0s) && AgentsWf(run[j].agents) && Sized(plans, AllOutcomes(run[j]))
    ensures SameAt(InTurn(ViewsOf(a0s), plans, AllOutcomes(run[j]), order), ViewsOf(run[j].agents), n, id)
  {
    RunAgentsWf(a0s, plans, run, j);
    PlansSized(a0s, plans, run, j);
    RunKeeps(a0s, plans, run, j);
    NobodysUnchanged(a0s, run[j], plans, n, id);
    InTurnAt(ViewsOf(a0s), plans, AllOutcomes(run[j]), order, n, id);
  }

  /** The verdict of a deployment is the one it gets when its turn comes. */
  lemma VerdictInTurn(a0s: map<Node, AgentState>, plans: seq<seq<RankCall>>, run: seq<World>, j: nat, order: seq<nat>,
                      k: nat)
    requires IsRun(a0s, plans, run) && j < |run| && AllDone(run[j]) && Disjoint(plans) && AllDistinctIds(plans)
    requires IsOrder(order, |plans|) && k < |order| && order[k] < |run[j].coords|
    ensures AgentsWf(a0s) && Sized(plans, AllOutcomes(run[j]))
    ensures var outs := AllOutcomes(run[j]);
            run[j].coords[order[k]].progress.Succeeded?
            == NetEffect(InTurn(ViewsOf(a0s), plans, outs, order[..k]), plans[order[k]], outs[order[k]]).0
  {
    RunKeeps(a0s, plans, run, j);
    RunAgentsWf(a0s, plans, run, j);
    PlansSized(a0s, plans, run, j);
    var w, outs, c := run[j], AllOutcomes(run[j]), order[k];
    assert CoordInv(w.coords[c]);
    VerdictAgrees(a0s, w, c);
    InTurnSameOnRanks(ViewsOf(a0s), plans, outs, order[..k], c);
    SameAnswers(ViewsOf(a0s), InTurn(ViewsOf(a0s), plans, outs, order[..k]), plans[c], outs[c]);
  }

  /** Serialisability: once they are all done, every interleaving of deployments that share no id has
      led to the listings and the verdicts of running them one after the other, in any order. */
  lemma AtOnceIsInTurn(a0s: map<Node, AgentState>, plans: seq<seq<RankCall>>, run: seq<World>, j: nat, order: seq<nat>)
    requires IsRun(a0s, plans, run) && j < |run| && AllDone(run[j]) && Disjoint(plans) && AllDistinctIds(plans)
    requires IsOrder(order, |plans|) && forall c: nat :: c < |plans| ==> c in order
    ensures AgentsWf(a0s) && AgentsWf(run[j].agents) && |run[j].coords| == |plans| && Sized(plans, AllOutcomes(run[j]))
    ensures ViewsOf(run[j].agents) == InTurn(ViewsOf(a0s), plans, AllOutcomes(run[j]), order)
    ensures forall k :: 0 <= k < |order| ==>
              var outs := AllOutcomes(run[j]);
              run[j].coords[order[k]].progress.Succeeded?
              == NetEffect(InTurn(ViewsOf(a0s), plans, outs, order[..k]), plans[order[k]], outs[order[k]]).0
  {
    RunAgentsWf(a0s, plans, run, j);
    PlansSized(a0s, plans, run, j);
    var v' := InTurn(ViewsOf(a0s), plans, AllOutcomes(run[j]), order);
    InTurnKeys(ViewsOf(a0s), plans, AllOutcomes(run[j]), order);
    forall n, id | n in v' ensures SameAt(v', ViewsOf(run[j].agents), n, id) {
      if c: nat :| c < |plans| && IsMine(plans[c], n, id) {
        AtOnceMine(a0s, plans, run, j, order, c, n, id);
      } else {
        AtOnceNobodys(a0s, plans, run, j, order, n, id);
      }
    }
    SameEverywhere(v', ViewsOf(run[j].agents));
    forall k: nat | k < |order|
      ensures var outs := AllOutcomes(run[j]);
              run[j].coords[order[k]].progress.Succeeded?
              == NetEffect(InTurn(ViewsOf(a0s), plans, outs, order[..k]), plans[order[k]], outs[order[k]]).0
    {
      VerdictInTurn(a0s, plans, run, j, order, k);
    }
  }
}
