/** The net effect of one pipeline deployment that runs alone, as a function of what each node
    answers; every interleaving of its goroutines has exactly this effect. Also: no deployment
    gets stuck, and every one finishes. */
module PPEffect {
  import opened Common
  import opened InstanceIds
  import opened AgentModel
  import opened ModelMeta
  import opened PPDeploy
  import opened PPSafety

  /** What ListInstances shows on every agent. */
  type Views = map<Node, map<string, Instance>>

  /** What happens to one rank's request, apart from a refusal because the id exists. */
  datatype Outcome = Loads | LoadFails | NotReached

  /** What the nodes answer depends on what they are asked for. */
  function OutcomesOf(plan: seq<RankCall>, answers: RankCall -> Outcome): (outs: seq<Outcome>)
    ensures |outs| == |plan|
  {
    seq(|plan|, i requires 0 <= i < |plan| => answers(plan[i]))
  }

  predicate Accepted(v: Views, call: RankCall, o: Outcome) {
    o != NotReached && call.node in v && call.id !in v[call.node]
  }

  predicate AllLoaded(v: Views, plan: seq<RankCall>, outs: seq<Outcome>)
    requires |plan| == |outs|
  {
    forall i :: 0 <= i < |plan| ==> Accepted(v, plan[i], outs[i]) && outs[i] == Loads
  }

  /** The state of the record rank i leaves behind, if it leaves one. */
  function Leaves(v: Views, call: RankCall, o: Outcome, success: bool): Option<InstanceState> {
    if success then Some(Ready)
    else if Accepted(v, call, o) && o == LoadFails then Some(Error)
    else None
  }

  function AddRecord(v: Views, call: RankCall, state: Option<InstanceState>): Views {
    if state.Some? && call.node in v then v[call.node := v[call.node][call.id := RecordOf(call, state.value)]] else v
  }

  function AddRanks(v: Views, plan: seq<RankCall>, outs: seq<Outcome>, success: bool, n: nat): Views
    requires n <= |plan| == |outs|
  {
    if n == 0 then v
    else AddRecord(AddRanks(v, plan, outs, success, n - 1), plan[n - 1], Leaves(v, plan[n - 1], outs[n - 1], success))
  }

  /** Whether the deployment succeeds, and what every agent then shows. */
  function NetEffect(v: Views, plan: seq<RankCall>, outs: seq<Outcome>): (bool, Views)
    requires |plan| == |outs|
  {
    var success := AllLoaded(v, plan, outs);
    (success, AddRanks(v, plan, outs, success, |plan|))
  }

  ghost predicate DistinctIds(plan: seq<RankCall>) {
    forall i, j :: 0 <= i < j < |plan| ==> plan[i].id != plan[j].id
  }

  lemma {:induction false} AddRanksKeys(v: Views, plan: seq<RankCall>, outs: seq<Outcome>, success: bool, n: nat)
    requires n <= |plan| == |outs|
    ensures AddRanks(v, plan, outs, success, n).Keys == v.Keys
  {
    if n > 0 {
      AddRanksKeys(v, plan, outs, success, n - 1);
    }
  }

  /** A rank that leaves a record is shown under its id. */
  lemma {:induction false} AddRanksShows(v: Views, plan: seq<RankCall>, outs: seq<Outcome>, success: bool, n: nat,
                                         i: nat)
    requires i < n <= |plan| == |outs| && DistinctIds(plan) && plan[i].node in v
    requires Leaves(v, plan[i], outs[i], success).Some?
    ensures var v' := AddRanks(v, plan, outs, success, n);
            && plan[i].node in v' && plan[i].id in v'[plan[i].node]
            && v'[plan[i].node][plan[i].id] == RecordOf(plan[i], Leaves(v, plan[i], outs[i], success).value)
  {
    AddRanksKeys(v, plan, outs, success, n - 1);
    if i < n - 1 {
      AddRanksShows(v, plan, outs, success, n - 1, i);
      assert plan[n - 1].id != plan[i].id;
    }
  }

  /** An id of no rank that leaves a record is shown as before. */
  lemma {:induction false} AddRanksHides(v: Views, plan: seq<RankCall>, outs: seq<Outcome>, success: bool, n: nat,
                                         node: Node, id: string)
    requires n <= |plan| == |outs| && node in v
    requires forall i :: 0 <= i < n && plan[i].node == node && plan[i].id == id ==>
               Leaves(v, plan[i], outs[i], success).None?
    ensures var v' := AddRanks(v, plan, outs, success, n);
            node in v' && (id in v'[node] <==> id in v[node]) && (id in v[node] ==> v'[node][id] == v[node][id])
  {
    if n > 0 {
      AddRanksHides(v, plan, outs, success, n - 1, node, id);
    }
  }

  // ---------- Refinement ----------

  function OutcomeOf(p: Phase): Outcome {
    match p
    case Created(_) => Loads
    case RolledBack(_) => Loads
    case LoadError(_) => LoadFails
    case _ => NotReached
  }

  ghost function ViewsOf(agents: map<Node, AgentState>): Views
    requires AgentsWf(agents)
  {
    map n | n in agents :: agents[n].View()
  }

  ghost function Outcomes(ranks: seq<Phase>): seq<Outcome> {
    seq(|ranks|, i requires 0 <= i < |ranks| => OutcomeOf(ranks[i]))
  }

  ghost predicate Done(c: Coord) {
    c.progress.Succeeded? || c.progress.Failed?
  }

  ghost predicate AllDone(w: World) {
    forall c :: 0 <= c < |w.coords| ==> Done(w.coords[c])
  }

  lemma RunAgentsWf(a0s: map<Node, AgentState>, plans: seq<seq<RankCall>>, run: seq<World>, j: nat)
    requires IsRun(a0s, plans, run) && j < |run|
    ensures AgentsWf(a0s) && AgentsWf(run[j].agents) && run[j].agents.Keys == a0s.Keys
  {
    RunKeeps(a0s, plans, run, j);
    forall n | n in run[j].agents ensures run[j].agents[n].Wf() {
      assert NodeInv(a0s[n], run[j], n);
    }
  }

  lemma AcceptedMeansFree(a0s: map<Node, AgentState>, call: RankCall, o: Outcome)
    requires AgentsWf(a0s)
    ensures Accepted(ViewsOf(a0s), call, o)
            <==> o != NotReached && call.node in a0s && call.id !in a0s[call.node].instances
  {
  }

  /** The rank of a finished deployment left a record exactly when NetEffect says so. */
  lemma RankLeaves(a0s: map<Node, AgentState>, w: World, c: nat, i: nat)
    requires AgentsWf(a0s) && w.HasRank(c, i) && Done(w.coords[c])
    requires RankOk(a0s, w, c, i) && CoordInv(w.coords[c])
    ensures var v, call, p := ViewsOf(a0s), w.Call(c, i), w.Rank(c, i);
            var success := w.coords[c].progress.Succeeded?;
            && (success ==> Accepted(v, call, OutcomeOf(p)) && OutcomeOf(p) == Loads)
            && Leaves(v, call, OutcomeOf(p), success) == if p.Keeps() then Some(p.State()) else None
  {
    AcceptedMeansFree(a0s, w.Call(c, i), OutcomeOf(w.Rank(c, i)));
  }

  ghost predicate SameAt(v: Views, v': Views, n: Node, id: string) {
    n in v && n in v' && (id in v[n] <==> id in v'[n]) && (id in v[n] ==> v[n][id] == v'[n][id])
  }

  lemma SameEverywhere(v: Views, v': Views)
    requires v.Keys == v'.Keys && forall n, id :: n in v ==> SameAt(v, v', n, id)
    ensures v == v'
  {
    forall n | n in v ensures v[n] == v'[n] {
      forall id ensures (id in v[n] <==> id in v'[n]) && (id in v[n] ==> v[n][id] == v'[n][id]) {
        assert SameAt(v, v', n, id);
      }
    }
  }

  /** What a finished deployment, on its own, makes of what the agents showed at the start. */
  ghost function OwnEffect(a0s: map<Node, AgentState>, c: Coord): (bool, Views)
    requires AgentsWf(a0s) && |c.plan| == |c.ranks|
  {
    NetEffect(ViewsOf(a0s), c.plan, Outcomes(c.ranks))
  }

  /** A rank that left a record: the world and the net effect show the same one. */
  lemma LeftRecordAgrees(a0s: map<Node, AgentState>, w: World, c: nat, i: nat)
    requires Inv(a0s, w) && AgentsWf(a0s) && AgentsWf(w.agents) && w.HasRank(c, i) && Done(w.coords[c])
    requires DistinctIds(w.coords[c].plan) && w.Rank(c, i).Keeps()
    ensures SameAt(OwnEffect(a0s, w.coords[c]).1, ViewsOf(w.agents), w.Call(c, i).node, w.Call(c, i).id)
  {
    var v, coord, call := ViewsOf(a0s), w.coords[c], w.Call(c, i);
    assert RankOk(a0s, w, c, i) && CoordInv(coord);
    RankLeaves(a0s, w, c, i);
    VerdictAgrees(a0s, w, c);
    AddRanksShows(v, coord.plan, Outcomes(coord.ranks), coord.progress.Succeeded?, |coord.plan|, i);
    ViewAt(w.agents, call.node, call.id);
  }

  /** No rank of another deployment writes under this id on this node. */
  ghost predicate OnlyMine(w: World, c: nat, n: Node, id: string) {
    forall c': nat, i: nat :: w.HasRank(c', i) && w.Call(c', i).node == n && w.Call(c', i).id == id ==> c' == c
  }

  ghost predicate NoRankKeeps(w: World, c: nat, n: Node, id: string) {
    forall i: nat :: w.HasRank(c, i) && w.Call(c, i).node == n && w.Call(c, i).id == id ==> !w.Rank(c, i).Keeps()
  }

  lemma NewIsSomeRanks(w: World, c: nat, n: Node, id: string, t: Token)
    requires OnlyMine(w, c, n, id) && OwnedBy(w, n, id, t)
    ensures !NoRankKeeps(w, c, n, id)
  {
    assert w.HasRank(w.owner[(n, t)].0, w.owner[(n, t)].1);
  }

  lemma UnchangedAt(a0s: map<Node, AgentState>, w: World, c: nat, n: Node, id: string)
    requires AgentsWf(a0s) && AgentsWf(w.agents) && OnlyMine(w, c, n, id)
    requires n in a0s && n in w.agents && NodeInv(a0s[n], w, n) && NoRankKeeps(w, c, n, id)
    ensures SameAt(ViewsOf(a0s), ViewsOf(w.agents), n, id)
  {
    if id in w.agents[n].instances && id !in a0s[n].instances {
      NewIsSomeRanks(w, c, n, id, w.agents[n].instances[id]);
    }
    ViewAt(a0s, n, id);
    ViewAt(w.agents, n, id);
  }

  lemma ViewAt(agents: map<Node, AgentState>, n: Node, id: string)
    requires AgentsWf(agents) && n in agents
    ensures id in ViewsOf(agents)[n] <==> id in agents[n].instances
    ensures id in agents[n].instances ==> ViewsOf(agents)[n][id] == agents[n].Rec(id)
  {
  }

  lemma OldRecordAgrees(a0s: map<Node, AgentState>, w: World, c: nat, n: Node, id: string)
    requires Inv(a0s, w) && AgentsWf(a0s) && AgentsWf(w.agents) && c < |w.coords| && Done(w.coords[c])
    requires n in a0s && |w.coords[c].plan| == |w.coords[c].ranks| && OnlyMine(w, c, n, id) && NoRankKeeps(w, c, n, id)
    ensures SameAt(OwnEffect(a0s, w.coords[c]).1, ViewsOf(w.agents), n, id)
  {
    var v, coord := ViewsOf(a0s), w.coords[c];
    var outs, success := Outcomes(coord.ranks), coord.progress.Succeeded?;
    forall i: nat | i < |coord.plan| && coord.plan[i].node == n && coord.plan[i].id == id
      ensures Leaves(v, coord.plan[i], outs[i], success).None?
    {
      assert w.HasRank(c, i) && RankOk(a0s, w, c, i) && CoordInv(coord);
      RankLeaves(a0s, w, c, i);
    }
    VerdictAgrees(a0s, w, c);
    AddRanksHides(v, coord.plan, outs, success, |coord.plan|, n, id);
    assert NodeInv(a0s[n], w, n);
    UnchangedAt(a0s, w, c, n, id);
  }

  /** Success as the coordinator sees it is success as NetEffect defines it. */
  lemma VerdictAgrees(a0s: map<Node, AgentState>, w: World, c: nat)
    requires RanksInv(a0s, w) && AgentsWf(a0s) && c < |w.coords| && Done(w.coords[c]) && CoordInv(w.coords[c])
    ensures |w.coords[c].plan| == |w.coords[c].ranks|
            && OwnEffect(a0s, w.coords[c]).0 == w.coords[c].progress.Succeeded?
  {
    var v, coord := ViewsOf(a0s), w.coords[c];
    var outs := Outcomes(coord.ranks);
    if coord.progress.Succeeded? {
      forall i: nat | i < |coord.plan| ensures Accepted(v, coord.plan[i], outs[i]) && outs[i] == Loads {
        assert w.HasRank(c, i) && RankOk(a0s, w, c, i);
        RankLeaves(a0s, w, c, i);
      }
    } else {
      var i :| 0 <= i < |coord.ranks| && (coord.ranks[i].LoadError? || coord.ranks[i].Rejected?);
      assert outs[i] != Loads;
    }
  }

  /** Whatever else runs: wherever no other deployment writes, a finished deployment has, under every
      interleaving, exactly its own net effect. */
  lemma EachHasItsOwnNetEffect(a0s: map<Node, AgentState>, plans: seq<seq<RankCall>>, run: seq<World>, j: nat, c: nat,
                               n: Node, id: string)
    requires IsRun(a0s, plans, run) && j < |run| && c < |run[j].coords| && Done(run[j].coords[c])
    requires DistinctIds(run[j].coords[c].plan) && n in a0s && OnlyMine(run[j], c, n, id)
    ensures AgentsWf(a0s) && AgentsWf(run[j].agents) && |run[j].coords[c].plan| == |run[j].coords[c].ranks|
    ensures OwnEffect(a0s, run[j].coords[c]).0 == run[j].coords[c].progress.Succeeded?
    ensures SameAt(OwnEffect(a0s, run[j].coords[c]).1, ViewsOf(run[j].agents), n, id)
  {
    RunKeeps(a0s, plans, run, j);
    RunAgentsWf(a0s, plans, run, j);
    var w := run[j];
    assert CoordInv(w.coords[c]);
    VerdictAgrees(a0s, w, c);
    if i: nat :| w.HasRank(c, i) && w.Call(c, i).node == n && w.Call(c, i).id == id && w.Rank(c, i).Keeps() {
      LeftRecordAgrees(a0s, w, c, i);
    } else {
      OldRecordAgrees(a0s, w, c, n, id);
    }
  }

  lemma NetEffectKeys(v: Views, plan: seq<RankCall>, outs: seq<Outcome>)
    requires |plan| == |outs|
    ensures NetEffect(v, plan, outs).1.Keys == v.Keys
  {
    AddRanksKeys(v, plan, outs, AllLoaded(v, plan, outs), |plan|);
  }

  /** A deployment that runs alone has, under every interleaving of its goroutines, exactly the net
      effect of its nodes' answers: complete success, or failure that leaves the Error records of the
      ranks whose load failed and nothing else. */
  lemma DeployRefinesNetEffect(a0s: map<Node, AgentState>, plan: seq<RankCall>, run: seq<World>, j: nat)
    requires IsRun(a0s, [plan], run) && j < |run| && DistinctIds(plan)
    requires AllDone(run[j])
    ensures |run[j].coords| == 1 && run[j].coords[0].plan == plan
    ensures AgentsWf(a0s) && AgentsWf(run[j].agents) && |plan| == |run[j].coords[0].ranks|
    ensures NetEffect(ViewsOf(a0s), plan, Outcomes(run[j].coords[0].ranks))
            == (run[j].coords[0].progress.Succeeded?, ViewsOf(run[j].agents))
  {
    RunKeeps(a0s, [plan], run, j);
    RunAgentsWf(a0s, [plan], run, j);
    PlansFixed(a0s, [plan], run, j);
    var w := run[j];
    assert CoordInv(w.coords[0]);
    VerdictAgrees(a0s, w, 0);
    var v' := OwnEffect(a0s, w.coords[0]).1;
    NetEffectKeys(ViewsOf(a0s), plan, Outcomes(w.coords[0].ranks));
    forall n, id | n in v' ensures SameAt(v', ViewsOf(w.agents), n, id) {
      EachHasItsOwnNetEffect(a0s, [plan], run, j, 0, n, id);
    }
    SameEverywhere(v', ViewsOf(w.agents));
  }

  /** A success shows every rank's record on its node, as the model and the request ordered it. */
  lemma SuccessShows(v: Views, m: Model, nodes: seq<Node>, path: string, args: seq<string>, backend: string,
                     outs: seq<Outcome>, i: nat)
    requires 1 < m.pipelineParallel <= |nodes| && |outs| == m.pipelineParallel && i < m.pipelineParallel
    requires NetEffect(v, PlanOf(m, nodes, path, args, backend), outs).0
    ensures var v', id := NetEffect(v, PlanOf(m, nodes, path, args, backend), outs).1, PPInstanceId(m.name, i);
            nodes[i] in v' && id in v'[nodes[i]] && IsRankRecord(v'[nodes[i]][id], m, i, args, Ready)
  {
    var plan := PlanOf(m, nodes, path, args, backend);
    PlanHasDistinctIds(plan, m, nodes, path, args, backend);
    assert Accepted(v, plan[i], outs[i]);
    AddRanksShows(v, plan, outs, true, |plan|, i);
  }

  // ---------- What the documentation calls a full rollback ----------

  ghost predicate SomeLoadFailed(v: Views, plan: seq<RankCall>, outs: seq<Outcome>)
    requires |plan| == |outs|
  {
    exists i :: 0 <= i < |plan| && Accepted(v, plan[i], outs[i]) && outs[i] == LoadFails
  }

  lemma PlanHasDistinctIds(plan: seq<RankCall>, m: Model, nodes: seq<Node>, path: string, args: seq<string>,
                           backend: string)
    requires IsPlan(plan, m, nodes, path, args, backend)
    ensures DistinctIds(plan)
  {
    forall i, j | 0 <= i < j < |plan| ensures plan[i].id != plan[j].id {
      if plan[i].id == plan[j].id {
        PPInstanceIdInjective(m.name, i, m.name, j);
      }
    }
  }

  /** A failed deployment restores what every agent shows if and only if no rank's load failed. */
  lemma RollbackIsFullIffNoLoadFailed(v: Views, plan: seq<RankCall>, outs: seq<Outcome>)
    requires |plan| == |outs| && DistinctIds(plan) && !AllLoaded(v, plan, outs)
    ensures NetEffect(v, plan, outs).1 == v <==> !SomeLoadFailed(v, plan, outs)
  {
    var v' := NetEffect(v, plan, outs).1;
    AddRanksKeys(v, plan, outs, false, |plan|);
    if SomeLoadFailed(v, plan, outs) {
      var i :| 0 <= i < |plan| && Accepted(v, plan[i], outs[i]) && outs[i] == LoadFails;
      AddRanksShows(v, plan, outs, false, |plan|, i);
      assert v'[plan[i].node] != v[plan[i].node];
    } else {
      forall n, id | n in v ensures SameAt(v', v, n, id) {
        AddRanksHides(v, plan, outs, false, |plan|, n, id);
      }
      SameEverywhere(v', v);
    }
  }

  /** After a failed load the same deployment cannot succeed again, whatever the nodes answer, until
      something stops the leftover instance. */
  lemma FailedLoadBlocksRetry(v: Views, plan: seq<RankCall>, outs: seq<Outcome>, retry: seq<Outcome>)
    requires |plan| == |outs| == |retry| && DistinctIds(plan) && SomeLoadFailed(v, plan, outs)
    ensures !NetEffect(NetEffect(v, plan, outs).1, plan, retry).0
  {
    var i :| 0 <= i < |plan| && Accepted(v, plan[i], outs[i]) && outs[i] == LoadFails;
    AddRanksShows(v, plan, outs, false, |plan|, i);
    assert !Accepted(NetEffect(v, plan, outs).1, plan[i], retry[i]);
  }

  // ---------- Every deployment finishes ----------

  /** As long as some deployment is not done, some goroutine can move. */
  lemma NeverStuck(a0s: map<Node, AgentState>, plans: seq<seq<RankCall>>, run: seq<World>, j: nat, c: nat)
    requires IsRun(a0s, plans, run) && j < |run| && c < |run[j].coords| && !Done(run[j].coords[c])
    ensures exists step :: Enabled(run[j], step)
  {
    RunKeeps(a0s, plans, run, j);
    RunAgentsWf(a0s, plans, run, j);
    var w := run[j];
    var coord := w.coords[c];
    assert CoordInv(coord);
    if coord.progress.RollingBack? {
      var k := coord.progress.k;
      assert k < |coord.ranks| ==> w.HasRank(c, k) && RankOk(a0s, w, c, k);
      assert Enabled(w, RollbackNext(c));
    } else if i: nat :| i < |coord.ranks| && !coord.ranks[i].Finished() {
      assert w.HasRank(c, i) && RankOk(a0s, w, c, i);
      if coord.ranks[i].Starting? {
        assert Enabled(w, Unreachable(c, i));
      } else {
        assert Enabled(w, LoadOk(c, i));
      }
    } else {
      assert Enabled(w, Join(c));
    }
  }

  function RanksWork(ranks: seq<Phase>): nat {
    if ranks == [] then 0
    else RanksWork(ranks[1..]) + match ranks[0] case Starting => 2 case InLoad(_) => 1 case _ => 0
  }

  /** What a coordinator still has to do: its goroutines' sections, the join, the rollback loop. */
  function Work(c: Coord): nat {
    RanksWork(c.ranks) +
    match c.progress
    case Running => |c.ranks| + 3
    case RollingBack(k) => if k <= |c.ranks| then |c.ranks| - k + 1 else 1
    case _ => 0
  }

  function TotalWork(coords: seq<Coord>): nat {
    if coords == [] then 0 else Work(coords[0]) + TotalWork(coords[1..])
  }

  lemma {:induction false} RanksWorkUpdate(ranks: seq<Phase>, i: nat, p: Phase)
    requires i < |ranks|
    ensures RanksWork(ranks[i := p]) == RanksWork(ranks) - RanksWork([ranks[i]]) + RanksWork([p])
  {
    if i == 0 {
      assert ranks[0 := p][1..] == ranks[1..];
    } else {
      assert ranks[i := p][1..] == ranks[1..][i - 1 := p];
      RanksWorkUpdate(ranks[1..], i - 1, p);
    }
  }

  lemma {:induction false} TotalWorkUpdate(coords: seq<Coord>, c: nat, x: Coord)
    requires c < |coords|
    ensures TotalWork(coords[c := x]) == TotalWork(coords) - Work(coords[c]) + Work(x)
  {
    if c == 0 {
      assert coords[0 := x][1..] == coords[1..];
    } else {
      assert coords[c := x][1..] == coords[1..][c - 1 := x];
      TotalWorkUpdate(coords[1..], c - 1, x);
    }
  }

  lemma CoordUsesWork(w: World, w': World, c: nat)
    requires c < |w.coords| == |w'.coords| && w'.coords == w.coords[c := w'.coords[c]]
             && Work(w'.coords[c]) < Work(w.coords[c])
    ensures TotalWork(w'.coords) < TotalWork(w.coords)
  {
    TotalWorkUpdate(w.coords, c, w'.coords[c]);
  }

  lemma RankUsesWork(w: World, c: nat, i: nat, p: Phase)
    requires w.HasRank(c, i) && RanksWork([p]) < RanksWork([w.Rank(c, i)])
    ensures TotalWork(w.SetRank(c, i, p).coords) < TotalWork(w.coords)
  {
    RanksWorkUpdate(w.coords[c].ranks, i, p);
    CoordUsesWork(w, w.SetRank(c, i, p), c);
  }

  lemma RollbackUsesWork(w: World, c: nat)
    requires CoordsInv(w) && Enabled(w, RollbackNext(c))
    ensures TotalWork(Apply(w, RollbackNext(c)).coords) < TotalWork(w.coords)
  {
    var k, ranks := w.coords[c].progress.k, w.coords[c].ranks;
    if k < |ranks| && ranks[k].Created? {
      RanksWorkUpdate(ranks, k, RolledBack(ranks[k].t));
    }
    CoordUsesWork(w, Apply(w, RollbackNext(c)), c);
  }

  lemma StepUsesWork(w: World, step: Step)
    requires CoordsInv(w) && Enabled(w, step)
    ensures TotalWork(Apply(w, step).coords) < TotalWork(w.coords)
  {
    match step
    case Begin(c, i) => RankUsesWork(w, c, i, Apply(w, step).Rank(c, i));
    case Unreachable(c, i) => RankUsesWork(w, c, i, Rejected);
    case LoadOk(c, i) => RankUsesWork(w, c, i, Created(w.Rank(c, i).t));
    case LoadFail(c, i) => RankUsesWork(w, c, i, LoadError(w.Rank(c, i).t));
    case Join(c) => CoordUsesWork(w, Apply(w, step), c);
    case RollbackNext(c) => RollbackUsesWork(w, c);
  }

  /** No run is longer than the work its calls start with, so with NeverStuck every deployment ends. */
  lemma {:induction false} EveryRunIsBounded(a0s: map<Node, AgentState>, plans: seq<seq<RankCall>>, run: seq<World>,
                                             j: nat)
    requires IsRun(a0s, plans, run) && j < |run|
    ensures j + TotalWork(run[j].coords) <= TotalWork(StartWorld(a0s, plans).coords)
  {
    if j > 0 {
      EveryRunIsBounded(a0s, plans, run, j - 1);
      RunKeeps(a0s, plans, run, j - 1);
      assert Next(run[j - 1], run[(j - 1) + 1]);
      var step :| Enabled(run[j - 1], step) && run[j] == Apply(run[j - 1], step);
      StepUsesWork(run[j - 1], step);
    }
  }
}
