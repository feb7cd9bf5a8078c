/** The node agent's instance and engine tables, the sections it runs under its
    mutex, and the whole calls that string those sections together.

    A record is reached by pointer in the program, and a deployer keeps its
    pointer while the mutex is free. A `Token` stands for that pointer: `recs` is
    the heap of records, `instances` the map from id to pointer. The engine a
    deployer creates carries the deployer's token. */
module AgentModel {
  import opened Common
  import opened InstanceIds
  import opened ModelMeta

  type Token = nat

  datatype InstanceState = Loading | Ready | Error | Stopped

  datatype Instance = Instance(
    id: string, modelName: string, engine: string, state: InstanceState, vramUsed: nat,
    tensorParallel: int, pipelineParallel: int, quant: string, port: int, ppRank: int, args: seq<string>)

  datatype DeploySpec = DeploySpec(
    modelPath: string, engine: string, vramQuota: nat, tensorParallel: int, pipelineParallel: int,
    quant: string, port: int, ppRank: int, distributedBackend: string, args: seq<string>)

  datatype DeployReply = AlreadyExists | LoadFailed | Deployed

  function NewInstance(id: string, modelName: string, spec: DeploySpec): Instance {
    Instance(id, modelName, spec.engine, Loading, spec.vramQuota, spec.tensorParallel,
             spec.pipelineParallel, spec.quant, spec.port, spec.ppRank, spec.args)
  }

  /** The specification self-heal rebuilds from a record. The distributed backend is lost
      and the path is recomputed from the models directory. */
  function SpecOf(inst: Instance, modelsDir: string): DeploySpec {
    DeploySpec(modelsDir + "/" + inst.modelName, inst.engine, inst.vramUsed, inst.tensorParallel,
               inst.pipelineParallel, inst.quant, inst.port, inst.ppRank, "", inst.args)
  }

  /** The specification of a model's single instance; the distributed fields keep their zero values. */
  function WebSpec(m: Model, path: string): DeploySpec {
    DeploySpec(path, m.engine, m.vramBytes, m.tensorParallel, m.pipelineParallel, m.quant, 0, 0, "", [])
  }

  /** What a model says of its single instance, field by field. */
  predicate IsWebRecord(inst: Instance, m: Model, state: InstanceState) {
    && inst.id == "inst-" + m.name + "-web" && inst.modelName == m.name && inst.state == state
    && inst.engine == m.engine && inst.vramUsed == m.vramBytes && inst.quant == m.quant
    && inst.tensorParallel == m.tensorParallel && inst.pipelineParallel == m.pipelineParallel
    && inst.port == 0 && inst.ppRank == 0 && inst.args == []
  }

  datatype AgentState = AgentState(
    next: Token, recs: map<Token, Instance>, instances: map<string, Token>, engines: map<string, Token>)
  {
    ghost predicate Wf() {
      && (forall t :: t in recs ==> t < next)
      && (forall id :: id in instances ==> instances[id] in recs && recs[instances[id]].id == id)
      && (forall id :: id in engines ==> engines[id] in recs && recs[engines[id]].id == id)
    }

    /** What ListInstances shows: the records in the map, by id. */
    function View(): (v: map<string, Instance>)
      requires Wf()
    {
      map id | id in instances :: recs[instances[id]]
    }

    function Rec(id: string): Instance
      requires id in instances && instances[id] in recs
    {
      recs[instances[id]]
    }

    /** Engines and Ready records coincide. Every run without overlapping calls on one id keeps this. */
    ghost predicate Quiet() {
      && Wf()
      && (forall id :: id in engines ==> id in instances && engines[id] == instances[id])
      && (forall id :: id in instances ==> (recs[instances[id]].state == Ready <==> id in engines))
    }
  }

  const EMPTY_AGENT := AgentState(0, map[], map[], map[])

  // ---------- The sections run under the mutex ----------

  /** Existence check and insertion of a Loading record, in one section. */
  function Reserve(s: AgentState, id: string, modelName: string, spec: DeploySpec): (r: (AgentState, Option<Token>)) {
    if id in s.instances then (s, None)
    else
      (AgentState(s.next + 1, s.recs[s.next := NewInstance(id, modelName, spec)], s.instances[id := s.next], s.engines),
       Some(s.next))
  }

  /** After a successful load: publish the engine and mark this deployer's own record Ready. */
  function CommitReady(s: AgentState, t: Token): AgentState
    requires t in s.recs
  {
    s.(engines := s.engines[s.recs[t].id := t], recs := s.recs[t := s.recs[t].(state := Ready)])
  }

  /** After a failed load: the record stays and is marked Error. */
  function CommitError(s: AgentState, t: Token): AgentState
    requires t in s.recs
  {
    s.(recs := s.recs[t := s.recs[t].(state := Error)])
  }

  datatype Removal = NotFound | Removed(rec: Token, eng: Option<Token>)

  /** Take the record and whatever engine is stored under the id out of both maps. */
  function Remove(s: AgentState, id: string): (AgentState, Removal) {
    if id !in s.instances then (s, NotFound)
    else
      (s.(instances := s.instances - {id}, engines := s.engines - {id}),
       Removed(s.instances[id], if id in s.engines then Some(s.engines[id]) else None))
  }

  function MarkStopped(s: AgentState, t: Token): AgentState
    requires t in s.recs
  {
    s.(recs := s.recs[t := s.recs[t].(state := Stopped)])
  }

  // ---------- Whole calls, run without interruption ----------

  function Deploy(s: AgentState, id: string, modelName: string, spec: DeploySpec, loadOk: bool)
    : (AgentState, DeployReply)
  {
    var (s1, t) := Reserve(s, id, modelName, spec);
    if t.None? then (s1, AlreadyExists)
    else if loadOk then (CommitReady(s1, t.value), Deployed)
    else (CommitError(s1, t.value), LoadFailed)
  }

  function Stop(s: AgentState, id: string): AgentState
    requires s.Wf()
  {
    var (s1, r) := Remove(s, id);
    if r.NotFound? then s1 else MarkStopped(s1, r.rec)
  }

  /** Every change to the tables that goes through `Reserve` and a finish touches one id. */
  lemma DeployKeepsOthers(s: AgentState, id: string, modelName: string, spec: DeploySpec, loadOk: bool)
    requires s.Wf() && id !in s.instances
    ensures var s' := Deploy(s, id, modelName, spec, loadOk).0;
            && s'.Wf()
            && s'.instances == s.instances[id := s.next]
            && s'.recs[s.next] == NewInstance(id, modelName, spec).(state := if loadOk then Ready else Error)
            && (forall t :: t in s.recs ==> t in s'.recs && s'.recs[t] == s.recs[t])
            && s'.engines == if loadOk then s.engines[id := s.next] else s.engines
  {
  }

  /** The record of a new deployment says what was ordered, field by field. */
  lemma DeployRecords(s: AgentState, id: string, modelName: string, spec: DeploySpec, loadOk: bool)
    requires s.Wf() && id !in s.instances
    ensures var s' := Deploy(s, id, modelName, spec, loadOk).0;
            && s'.Wf() && id in s'.instances
            && var inst := s'.Rec(id);
               && inst.id == id && inst.modelName == modelName && inst.state == (if loadOk then Ready else Error)
               && inst.engine == spec.engine && inst.vramUsed == spec.vramQuota && inst.quant == spec.quant
               && inst.tensorParallel == spec.tensorParallel && inst.pipelineParallel == spec.pipelineParallel
               && inst.port == spec.port && inst.ppRank == spec.ppRank && inst.args == spec.args
  {
    DeployKeepsOthers(s, id, modelName, spec, loadOk);
  }

  lemma DeployKeepsQuiet(s: AgentState, id: string, modelName: string, spec: DeploySpec, loadOk: bool)
    requires s.Quiet()
    ensures Deploy(s, id, modelName, spec, loadOk).0.Quiet()
  {
    if id !in s.instances {
      DeployKeepsOthers(s, id, modelName, spec, loadOk);
    }
  }

  lemma DeployAddsOne(s: AgentState, id: string, modelName: string, spec: DeploySpec, loadOk: bool)
    requires s.Wf() && id !in s.instances
    ensures var s' := Deploy(s, id, modelName, spec, loadOk).0;
            && s'.Wf()
            && s'.View() == s.View()[id := NewInstance(id, modelName, spec).(state := if loadOk then Ready else Error)]
  {
    DeployKeepsOthers(s, id, modelName, spec, loadOk);
  }

  lemma DeployEffect(s: AgentState, id: string, modelName: string, spec: DeploySpec, loadOk: bool)
    requires s.Wf()
    ensures var (s', reply) := Deploy(s, id, modelName, spec, loadOk);
            && s'.Wf()
            && (s.Quiet() ==> s'.Quiet())
            && (reply == AlreadyExists <==> id in s.instances)
            && (id in s.instances ==> s' == s)
            && (id !in s.instances ==>
                  && reply == (if loadOk then Deployed else LoadFailed)
                  && s'.View() == s.View()[id :=
                                           NewInstance(id, modelName, spec).(state := if loadOk then Ready else Error)])
  {
    if id !in s.instances {
      DeployAddsOne(s, id, modelName, spec, loadOk);
    }
    if s.Quiet() {
      DeployKeepsQuiet(s, id, modelName, spec, loadOk);
    }
  }

  lemma StopEffect(s: AgentState, id: string)
    requires s.Wf()
    ensures var s' := Stop(s, id);
            && s'.Wf()
            && (s.Quiet() ==> s'.Quiet())
            && s'.View() == s.View() - {id}
            && s'.engines == (if id in s.instances then s.engines - {id} else s.engines)
            && (id in s.instances ==> s'.recs[s.instances[id]] == s.Rec(id).(state := Stopped))
  {
    var s' := Stop(s, id);
    if id in s.instances {
      assert forall i :: i in s'.instances ==> s'.instances[i] != s.instances[id];
      assert s'.View() == s.View() - {id};
      assert s'.engines == s.engines - {id};
    } else {
      assert s.View() - {id} == s.View();
    }
  }

  lemma PutBack(v: map<string, Instance>, id: string, x: Instance)
    ensures (v - {id})[id := x] == v[id := x]
  {
  }

  /** A stop and a new deployment under the same id replace its entry. */
  lemma RedeployEffect(s: AgentState, id: string, modelName: string, spec: DeploySpec, loadOk: bool)
    requires s.Wf()
    ensures var (s', reply) := Deploy(Stop(s, id), id, modelName, spec, loadOk);
            && s'.Wf() && (s.Quiet() ==> s'.Quiet())
            && reply == (if loadOk then Deployed else LoadFailed)
            && s'.View() == s.View()[id := NewInstance(id, modelName, spec).(state := if loadOk then Ready else Error)]
  {
    StopEffect(s, id);
    DeployEffect(Stop(s, id), id, modelName, spec, loadOk);
    PutBack(s.View(), id, NewInstance(id, modelName, spec).(state := if loadOk then Ready else Error));
  }

  // ---------- Listings ----------

  /** `ids` lists the elements of `keys`, each once. */
  ghost predicate Lists(ids: seq<string>, keys: set<string>) {
    && (forall id :: id in ids <==> id in keys)
    && (forall i, j :: 0 <= i < j < |ids| ==> ids[i] != ids[j])
  }

  function OtherModels(v: map<string, Instance>, modelName: string): map<string, Instance> {
    map id | id in v && v[id].modelName != modelName :: v[id]
  }
}
