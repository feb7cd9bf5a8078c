/** Cross-node pipeline deployment: one goroutine a rank asks its node's agent to deploy; the
    coordinator joins them and, if any failed, stops the ranks that succeeded.

    Any number of coordinators run at once over one set of agents, and every atomic section of
    every goroutine may interleave with every other. Replies are faithful and stops arrive. */
module PPDeploy {
  import opened Common
  import opened InstanceIds
  import opened AgentModel
  import opened ModelMeta

  /** The API address of an agent. */
  type Node = string

  const DEFAULT_PORT := 8000

  datatype RankCall = RankCall(node: Node, id: string, modelName: string, spec: DeploySpec)

  datatype PlanError = NoPipeline | TooFewNodes

  function Rank0Port(m: Model): int {
    if m.port == 0 then DEFAULT_PORT else m.port
  }

  function RankSpec(m: Model, rank: nat, path: string, args: seq<string>, backend: string): DeploySpec {
    DeploySpec(path, m.engine, m.vramBytes, m.tensorParallel, m.pipelineParallel, m.quant,
               Rank0Port(m) + rank, rank, backend, args)
  }

  function CallOf(m: Model, nodes: seq<Node>, rank: nat, path: string, args: seq<string>, backend: string): RankCall
    requires rank < |nodes|
  {
    RankCall(nodes[rank], PPInstanceId(m.name, rank), m.name, RankSpec(m, rank, path, args, backend))
  }

  ghost predicate IsPlan(plan: seq<RankCall>, m: Model, nodes: seq<Node>, path: string, args: seq<string>,
                         backend: string)
  {
    && 1 < m.pipelineParallel == |plan| <= |nodes|
    && forall i :: 0 <= i < |plan| ==> plan[i] == CallOf(m, nodes, i, path, args, backend)
  }

  function PlanOf(m: Model, nodes: seq<Node>, path: string, args: seq<string>, backend: string): (plan: seq<RankCall>)
    requires 1 < m.pipelineParallel <= |nodes|
    ensures IsPlan(plan, m, nodes, path, args, backend)
  {
    seq(m.pipelineParallel, i requires 0 <= i < m.pipelineParallel => CallOf(m, nodes, i, path, args, backend))
  }

  /** What the model and the request say of rank i's call, field by field. */
  predicate IsRankCall(call: RankCall, m: Model, node: Node, i: nat, path: string, args: seq<string>, backend: string) {
    && call.node == node && call.id == "inst-" + m.name + "-pp" + Decimal(i) && call.modelName == m.name
    && call.spec.modelPath == path && call.spec.engine == m.engine && call.spec.vramQuota == m.vramBytes
    && call.spec.tensorParallel == m.tensorParallel && call.spec.pipelineParallel == m.pipelineParallel
    && call.spec.quant == m.quant && call.spec.port == (if m.port == 0 then 8000 else m.port) + i
    && call.spec.ppRank == i && call.spec.distributedBackend == backend && call.spec.args == args
  }

  /** What they say of the record rank i leaves, field by field. */
  predicate IsRankRecord(inst: Instance, m: Model, i: nat, args: seq<string>, state: InstanceState) {
    && inst.id == "inst-" + m.name + "-pp" + Decimal(i) && inst.modelName == m.name && inst.state == state
    && inst.engine == m.engine && inst.vramUsed == m.vramBytes && inst.quant == m.quant
    && inst.tensorParallel == m.tensorParallel && inst.pipelineParallel == m.pipelineParallel
    && inst.port == (if m.port == 0 then 8000 else m.port) + i && inst.ppRank == i && inst.args == args
  }

  /** The checks and the loop that prepares one call a rank. */
  method Plan(m: Model, nodes: seq<Node>, path: string, args: seq<string>, backend: string)
    returns (r: Result<seq<RankCall>, PlanError>)
    ensures r == Err(NoPipeline) <==> m.pipelineParallel <= 1
    ensures r == Err(TooFewNodes) <==> m.pipelineParallel > 1 && |nodes| < m.pipelineParallel
    ensures r.Ok? ==> IsPlan(r.value, m, nodes, path, args, backend)
    ensures r.Ok? ==> forall i :: 0 <= i < |r.value| ==> IsRankCall(r.value[i], m, nodes[i], i, path, args, backend)
  {
    var pp := m.pipelineParallel;
    if pp <= 1 {
      return Err(NoPipeline);
    }
    if |nodes| < pp {
      return Err(TooFewNodes);
    }
    var plan := [];
    for i := 0 to pp
      invariant |plan| == i
      invariant forall k :: 0 <= k < i ==> plan[k] == CallOf(m, nodes, k, path, args, backend)
    {
      plan := plan + [CallOf(m, nodes, i, path, args, backend)];
    }
    return Ok(plan);
  }

  /** A goroutine: not started; its record is Loading; the agent answered success, a load error, or
      refusal (the id exists, or the agent was never reached); its instance was stopped again. */
  datatype Phase =
    | Starting | InLoad(t: Token) | Created(t: Token) | LoadError(t: Token) | Rejected | RolledBack(t: Token)
  {
    predicate Finished() { Created? || LoadError? || Rejected? }

    /** The record this rank keeps in the agent's map, and its state. */
    predicate Keeps() { InLoad? || Created? || LoadError? }

    function State(): InstanceState
      requires Keeps()
    {
      match this
      case InLoad(_) => Loading
      case Created(_) => Ready
      case LoadError(_) => Error
    }
  }

  datatype Progress = Running | RollingBack(k: nat) | Succeeded | Failed

  datatype Coord = Coord(plan: seq<RankCall>, ranks: seq<Phase>, progress: Progress)

  /** `owner` records which rank of which coordinator made each record. */
  datatype World = World(agents: map<Node, AgentState>, coords: seq<Coord>, owner: map<(Node, Token), (nat, nat)>)
  {
    predicate HasRank(c: nat, i: nat) {
      c < |coords| && i < |coords[c].ranks| && |coords[c].plan| == |coords[c].ranks|
    }

    function Call(c: nat, i: nat): RankCall
      requires HasRank(c, i)
    {
      coords[c].plan[i]
    }

    function Rank(c: nat, i: nat): Phase
      requires HasRank(c, i)
    {
      coords[c].ranks[i]
    }

    function SetRank(c: nat, i: nat, p: Phase): World
      requires HasRank(c, i)
    {
      this.(coords := coords[c := coords[c].(ranks := coords[c].ranks[i := p])])
    }

    function SetProgress(c: nat, p: Progress): World
      requires c < |coords|
    {
      this.(coords := coords[c := coords[c].(progress := p)])
    }
  }

  datatype Step =
    | Begin(c: nat, i: nat)
    | Unreachable(c: nat, i: nat)
    | LoadOk(c: nat, i: nat)
    | LoadFail(c: nat, i: nat)
    | Join(c: nat)
    | RollbackNext(c: nat)

  ghost predicate AgentsWf(agents: map<Node, AgentState>) {
    forall n :: n in agents ==> agents[n].Wf()
  }

  ghost predicate Enabled(w: World, step: Step) {
    && AgentsWf(w.agents)
    && match step
       case Begin(c, i) => w.HasRank(c, i) && w.Rank(c, i).Starting? && w.Call(c, i).node in w.agents
       case Unreachable(c, i) => w.HasRank(c, i) && w.Rank(c, i).Starting?
       case LoadOk(c, i) => Loads(w, c, i)
       case LoadFail(c, i) => Loads(w, c, i)
       case Join(c) =>
         && c < |w.coords| && w.coords[c].progress.Running?
         && (forall i :: 0 <= i < |w.coords[c].ranks| ==> w.coords[c].ranks[i].Finished())
       case RollbackNext(c) =>
         && c < |w.coords| && w.coords[c].progress.RollingBack?
         && (w.coords[c].progress.k < |w.coords[c].ranks| ==>
               && w.HasRank(c, w.coords[c].progress.k)
               && (w.Rank(c, w.coords[c].progress.k).Created? ==> w.Call(c, w.coords[c].progress.k).node in w.agents))
  }

  ghost predicate Loads(w: World, c: nat, i: nat) {
    && w.HasRank(c, i) && w.Rank(c, i).InLoad? && w.Call(c, i).node in w.agents
    && w.Rank(c, i).t in w.agents[w.Call(c, i).node].recs
  }

  ghost function Apply(w: World, step: Step): World
    requires Enabled(w, step)
  {
    match step
    case Begin(c, i) =>
      var call := w.Call(c, i);
      var (a, t) := Reserve(w.agents[call.node], call.id, call.modelName, call.spec);
      if t.None? then w.SetRank(c, i, Rejected)
      else
        w.SetRank(c, i, InLoad(t.value))
         .(agents := w.agents[call.node := a], owner := w.owner[(call.node, t.value) := (c, i)])
    case Unreachable(c, i) => w.SetRank(c, i, Rejected)
    case LoadOk(c, i) =>
      var n, t := w.Call(c, i).node, w.Rank(c, i).t;
      w.SetRank(c, i, Created(t)).(agents := w.agents[n := CommitReady(w.agents[n], t)])
    case LoadFail(c, i) =>
      var n, t := w.Call(c, i).node, w.Rank(c, i).t;
      w.SetRank(c, i, LoadError(t)).(agents := w.agents[n := CommitError(w.agents[n], t)])
    case Join(c) =>
      if forall i :: 0 <= i < |w.coords[c].ranks| ==> w.coords[c].ranks[i].Created? then w.SetProgress(c, Succeeded)
      else w.SetProgress(c, RollingBack(0))
    case RollbackNext(c) =>
      var k := w.coords[c].progress.k;
      if k >= |w.coords[c].ranks| then w.SetProgress(c, Failed)
      else
        var w1 := w.SetProgress(c, RollingBack(k + 1));
        if !w.Rank(c, k).Created? then w1
        else
          var n, t := w.Call(c, k).node, w.Rank(c, k).t;
          w1.SetRank(c, k, RolledBack(t)).(agents := w.agents[n := Stop(w.agents[n], w.Call(c, k).id)])
  }
}
