/** What every interleaving of concurrent pipeline deployments guarantees. */
module PPTheorems {
  import opened InstanceIds
  import opened AgentModel
  import opened ModelMeta
  import opened PPDeploy
  import opened PPSafety

  /** A coordinator that reported success has every rank Ready on its node, under its own rank and
      port, with an engine, and none of those ids existed before. */
  lemma SuccessIsComplete(a0s: map<Node, AgentState>, plans: seq<seq<RankCall>>, run: seq<World>, j: nat, c: nat,
                          i: nat, m: Model, nodes: seq<Node>, path: string, args: seq<string>, backend: string)
    requires IsRun(a0s, plans, run) && j < |run| && c < |run[j].coords| && run[j].coords[c].progress.Succeeded?
    requires c < |plans| && IsPlan(plans[c], m, nodes, path, args, backend) && i < m.pipelineParallel
    ensures nodes[i] in a0s && nodes[i] in run[j].agents
    ensures var a, id := run[j].agents[nodes[i]], PPInstanceId(m.name, i);
            && id !in a0s[nodes[i]].instances && id in a.instances && a.instances[id] in a.recs
            && id in a.engines && a.engines[id] == a.instances[id]
            && a.Rec(id).state == Ready && a.Rec(id).modelName == m.name
            && a.Rec(id).ppRank == i && a.Rec(id).port == Rank0Port(m) + i
  {
    RunKeeps(a0s, plans, run, j);
    PlansFixed(a0s, plans, run, j);
    assert CoordInv(run[j].coords[c]) && run[j].HasRank(c, i) && RankOk(a0s, run[j], c, i);
  }

  /** The record of every rank of a successful deployment says what the model and the request ordered. */
  lemma SuccessIsAsOrdered(a0s: map<Node, AgentState>, plans: seq<seq<RankCall>>, run: seq<World>, j: nat, c: nat,
                           i: nat, m: Model, nodes: seq<Node>, path: string, args: seq<string>, backend: string)
    requires IsRun(a0s, plans, run) && j < |run| && c < |run[j].coords| && run[j].coords[c].progress.Succeeded?
    requires c < |plans| && IsPlan(plans[c], m, nodes, path, args, backend) && i < m.pipelineParallel
    ensures nodes[i] in run[j].agents
    ensures var a, id := run[j].agents[nodes[i]], PPInstanceId(m.name, i);
            id in a.instances && a.instances[id] in a.recs && IsRankRecord(a.Rec(id), m, i, args, Ready)
  {
    RunKeeps(a0s, plans, run, j);
    PlansFixed(a0s, plans, run, j);
    assert CoordInv(run[j].coords[c]) && run[j].HasRank(c, i) && RankOk(a0s, run[j], c, i);
  }

  /** A coordinator that has finished failing keeps, of all it made, exactly the Error records of the
      ranks whose own load failed. */
  lemma FailureLeavesOnlyLoadErrors(a0s: map<Node, AgentState>, plans: seq<seq<RankCall>>, run: seq<World>, j: nat,
                                    c: nat, n: Node, id: string)
    requires IsRun(a0s, plans, run) && j < |run| && c < |run[j].coords| && run[j].coords[c].progress.Failed?
    requires n in run[j].agents && id in run[j].agents[n].instances
    requires var t := run[j].agents[n].instances[id]; (n, t) in run[j].owner && run[j].owner[(n, t)].0 == c
    ensures n in a0s && id !in a0s[n].instances
    ensures exists i: nat :: run[j].HasRank(c, i) && run[j].Call(c, i).node == n && run[j].Call(c, i).id == id
                             && run[j].Rank(c, i) == LoadError(run[j].agents[n].instances[id])
                             && run[j].agents[n].instances[id] in run[j].agents[n].recs
                             && run[j].agents[n].Rec(id).state == Error
  {
    RunKeeps(a0s, plans, run, j);
    var w := run[j];
    var t := w.agents[n].instances[id];
    assert NodeInv(a0s[n], w, n) && CoordInv(w.coords[c]);
    assert OwnedBy(w, n, id, t);
    var i := w.owner[(n, t)].1;
    assert w.HasRank(c, i) && RankOk(a0s, w, c, i);
    assert w.Rank(c, i) == LoadError(t);
  }

  /** No coordinator ever removes or alters an instance that was there before, or its engine. */
  lemma NothingElseChanges(a0s: map<Node, AgentState>, plans: seq<seq<RankCall>>, run: seq<World>, j: nat, n: Node,
                           id: string)
    requires IsRun(a0s, plans, run) && j < |run| && n in a0s && id in a0s[n].instances
    ensures n in run[j].agents
    ensures var a0, a := a0s[n], run[j].agents[n];
            && id in a.instances && a.instances[id] == a0.instances[id]
            && a.instances[id] in a.recs && a0.instances[id] in a0.recs && a.Rec(id) == a0.Rec(id)
            && (id in a.engines <==> id in a0.engines) && (id in a0.engines ==> a.engines[id] == a0.engines[id])
  {
    RunKeeps(a0s, plans, run, j);
    assert NodeInv(a0s[n], run[j], n);
  }

  /** A stop sent by a rollback removes the record its own rank made in this very run. */
  lemma RollbackRemovesOnlyItsOwn(a0s: map<Node, AgentState>, plans: seq<seq<RankCall>>, run: seq<World>, j: nat,
                                  c: nat)
    requires IsRun(a0s, plans, run) && j < |run| && Enabled(run[j], RollbackNext(c))
    requires run[j].coords[c].progress.k < |run[j].coords[c].ranks|
    requires run[j].Rank(c, run[j].coords[c].progress.k).Created?
    ensures var w, k := run[j], run[j].coords[c].progress.k;
            var call, t := w.Call(c, k), w.Rank(c, k).t;
            && call.id in w.agents[call.node].instances && w.agents[call.node].instances[call.id] == t
            && (call.node, t) in w.owner && w.owner[(call.node, t)] == (c, k)
            && call.node in a0s && call.id !in a0s[call.node].instances
  {
    RunKeeps(a0s, plans, run, j);
    var k := run[j].coords[c].progress.k;
    assert RankOk(a0s, run[j], c, k);
  }

  /** Concurrent deployments of one model that agree on the node of one rank: at most one succeeds. */
  lemma AtMostOneWinner(a0s: map<Node, AgentState>, plans: seq<seq<RankCall>>, run: seq<World>, j: nat, c1: nat,
                        c2: nat, r: nat, m1: Model, m2: Model, nodes1: seq<Node>, nodes2: seq<Node>,
                        path1: string, path2: string, args1: seq<string>, args2: seq<string>, b1: string, b2: string)
    requires IsRun(a0s, plans, run) && j < |run|
    requires c1 < |plans| && IsPlan(plans[c1], m1, nodes1, path1, args1, b1)
    requires c2 < |plans| && IsPlan(plans[c2], m2, nodes2, path2, args2, b2)
    requires m1.name == m2.name && r < m1.pipelineParallel && r < m2.pipelineParallel && nodes1[r] == nodes2[r]
    requires c1 < |run[j].coords| && run[j].coords[c1].progress.Succeeded?
    requires c2 < |run[j].coords| && run[j].coords[c2].progress.Succeeded?
    ensures c1 == c2
  {
    RunKeeps(a0s, plans, run, j);
    PlansFixed(a0s, plans, run, j);
    var w := run[j];
    assert CoordInv(w.coords[c1]) && CoordInv(w.coords[c2]);
    assert w.HasRank(c1, r) && w.HasRank(c2, r);
    assert RankOk(a0s, w, c1, r) && RankOk(a0s, w, c2, r);
  }

  /** An instance already under a rank's id, such as the Error record a failed load left behind,
      makes every deployment of that rank to that node fail. */
  lemma LeftoverBlocksRetry(a0s: map<Node, AgentState>, plans: seq<seq<RankCall>>, run: seq<World>, j: nat, c: nat,
                            i: nat)
    requires IsRun(a0s, plans, run) && j < |run| && run[j].HasRank(c, i)
    requires run[j].Call(c, i).node in a0s && run[j].Call(c, i).id in a0s[run[j].Call(c, i).node].instances
    ensures !run[j].coords[c].progress.Succeeded?
    ensures run[j].Rank(c, i).Starting? || run[j].Rank(c, i).Rejected?
  {
    RunKeeps(a0s, plans, run, j);
    assert CoordInv(run[j].coords[c]) && RankOk(a0s, run[j], c, i);
  }
}
