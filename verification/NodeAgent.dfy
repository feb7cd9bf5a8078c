/** The agent object: its fields, updated in place, against the functions on its tables. */
module NodeAgent {
  import opened Common
  import opened InstanceIds
  import opened ModelMeta
  import opened AgentModel
  import opened SelfHeal

  class Agent {
    var next: Token
    var recs: map<Token, Instance>
    var instances: map<string, Token>
    var engines: map<string, Token>
    const modelsDir: string

    function State(): AgentState
      reads this
    {
      AgentState(next, recs, instances, engines)
    }

    constructor (modelsDir: string)
      ensures State() == EMPTY_AGENT && State().Quiet() && this.modelsDir == modelsDir
    {
      this.modelsDir := modelsDir;
      next, recs, instances, engines := 0, map[], map[], map[];
    }

    /** `loadOk` is the outcome of the engine's Load. */
    method DeployInstance(id: string, modelName: string, spec: DeploySpec, loadOk: bool) returns (reply: DeployReply)
      requires State().Wf()
      modifies this
      ensures (State(), reply) == Deploy(old(State()), id, modelName, spec, loadOk)
      ensures State().Wf()
    {
      DeployEffect(State(), id, modelName, spec, loadOk);
      if id in instances {
        return AlreadyExists;
      }
      var inst := next;
      recs := recs[inst := NewInstance(id, modelName, spec)];
      instances := instances[id := inst];
      next := next + 1;
      if !loadOk {
        recs := recs[inst := recs[inst].(state := Error)];
        return LoadFailed;
      }
      engines := engines[id := inst];
      recs := recs[inst := recs[inst].(state := Ready)];
      return Deployed;
    }

    method StopInstance(id: string) returns (found: bool)
      requires State().Wf()
      modifies this
      ensures State() == Stop(old(State()), id) && found == (id in old(instances))
      ensures State().Wf()
    {
      StopEffect(State(), id);
      if id !in instances {
        return false;
      }
      var inst := instances[id];
      instances := instances - {id};
      engines := engines - {id};
      recs := recs[inst := recs[inst].(state := Stopped)];
      return true;
    }

    /** A snapshot sorted by id; the order is not modelled, so the ids come in some order. */
    method ListIds() returns (ids: seq<string>)
      ensures Lists(ids, instances.Keys)
    {
      ids := [];
      var rest := instances.Keys;
      while rest != {}
        invariant Lists(ids, instances.Keys - rest) && rest <= instances.Keys
        decreases rest
      {
        var id :| id in rest;
        ids, rest := ids + [id], rest - {id};
      }
    }

    method StopInstancesByModel(modelName: string)
      requires State().Wf()
      modifies this
      ensures State().Wf() && (old(State().Quiet()) ==> State().Quiet())
      ensures State().View() == OtherModels(old(State().View()), modelName)
    {
      var ids := ListIds();
      var snapshot := State().View();
      assert Remaining(snapshot, ids[..0], modelName) == snapshot;
      for i := 0 to |ids|
        invariant State().Wf() && (old(State().Quiet()) ==> State().Quiet())
        invariant State().View() == Remaining(snapshot, ids[..i], modelName)
      {
        RemainingNext(snapshot, ids, i, modelName);
        if snapshot[ids[i]].modelName == modelName {
          StopEffect(State(), ids[i]);
          var _ := StopInstance(ids[i]);
        }
      }
      AllStopped(snapshot, ids, modelName);
    }

    /** The console's single-instance deployment: stop the old instance, then deploy anew. */
    method DeployByModel(m: Model, path: string, loadOk: bool) returns (reply: DeployReply)
      requires State().Wf()
      modifies this
      ensures State().Wf() && (old(State().Quiet()) ==> State().Quiet())
      ensures reply == (if loadOk then Deployed else LoadFailed)
      ensures var id := WebInstanceId(m.name);
              && id in State().View() && State().View() == old(State().View())[id := State().View()[id]]
              && IsWebRecord(State().View()[id], m, if loadOk then Ready else Error)
    {
      var id := WebInstanceId(m.name);
      RedeployEffect(State(), id, m.name, WebSpec(m, path), loadOk);
      var _ := StopInstance(id);
      reply := DeployInstance(id, m.name, WebSpec(m, path), loadOk);
    }

    /** Probe every instance and restart those without a healthy engine. */
    method HealthCheck(a: Answers) returns (ghost order: seq<string>)
      requires State().Wf()
      modifies this
      ensures Lists(order, old(instances).Keys)
      ensures State() == HealthRound(old(State()), order, modelsDir, a)
      ensures forall id :: id in old(instances) ==>
                && id in instances
                && (instances[id] == old(instances)[id] <==> id in old(engines) && a.healthy(old(engines)[id]))
    {
      ghost var s0 := State();
      var ids := ListIds();
      order := ids;
      ghost var whole := HealthRound(State(), ids, modelsDir, a);
      for i := 0 to |ids|
        invariant State().Wf()
        invariant HealthRound(State(), ids[i..], modelsDir, a) == whole
      {
        var id := ids[i];
        assert ids[i..][0] == id && ids[i..][1..] == ids[i + 1..];
        if id in instances {
          if id !in engines || !a.healthy(engines[id]) {
            var inst := recs[instances[id]];
            var spec := SpecOf(inst, modelsDir);
            var _ := StopInstance(id);
            var _ := DeployInstance(id, inst.modelName, spec, a.loads(next, spec));
          }
        }
      }
      forall id | id in s0.instances
        ensures id in instances
        ensures instances[id] == s0.instances[id] <==> id in s0.engines && a.healthy(s0.engines[id])
      {
        LeavesAloneIffHealthy(s0, ids, modelsDir, a, id);
      }
    }
  }

  /** The listing once the instances of the model among `ids` are stopped. */
  ghost function Remaining(v: map<string, Instance>, ids: seq<string>, modelName: string): map<string, Instance> {
    map id | id in v && !(id in ids && v[id].modelName == modelName) :: v[id]
  }

  lemma RemainingNext(v: map<string, Instance>, ids: seq<string>, i: nat, modelName: string)
    requires i < |ids| && ids[i] in v
    ensures Remaining(v, ids[..i + 1], modelName) ==
            if v[ids[i]].modelName == modelName then Remaining(v, ids[..i], modelName) - {ids[i]}
            else Remaining(v, ids[..i], modelName)
  {
    assert ids[..i + 1] == ids[..i] + [ids[i]];
  }

  lemma AllStopped(v: map<string, Instance>, ids: seq<string>, modelName: string)
    requires forall id :: id in v ==> id in ids
    ensures Remaining(v, ids[..|ids|], modelName) == OtherModels(v, modelName)
  {
    assert ids[..|ids|] == ids;
  }
}
