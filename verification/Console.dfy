/** The console's model handlers: register, update, toggle and delete as a state machine over the
    stored models and the instances every agent shows. Membership is fixed and every alive member is
    reachable; the store works and stops arrive; handlers run one at a time. */
module Console {
  import opened Common
  import opened InstanceIds
  import opened AgentModel
  import opened ModelMeta
  import opened PPDeploy
  import PPSafety
  import PPCoordinator
  import opened PPEffect

  datatype Member = Member(node: Node, alive: bool)

  datatype Env = Env(self: Node, members: seq<Member>, backend: string)

  function AliveOf(members: seq<Member>): seq<Node> {
    if members == [] then []
    else AliveOf(members[..|members| - 1]) + if members[|members| - 1].alive then [members[|members| - 1].node] else []
  }

  /** All alive members, or the first n of them if n is positive. */
  function FirstAlive(members: seq<Member>, n: int): seq<Node> {
    var alive := AliveOf(members);
    if 0 < n <= |alive| then alive[..n] else alive
  }

  lemma {:induction false} AliveOfPrefix(members: seq<Member>, k: nat)
    requires k <= |members|
    ensures AliveOf(members[..k]) <= AliveOf(members)
    decreases |members|
  {
    if k < |members| {
      AliveOfPrefix(members[..|members| - 1], k);
      assert members[..|members| - 1][..k] == members[..k];
    } else {
      assert members[..k] == members;
    }
  }

  function CountAlive(members: seq<Member>): nat {
    |set k | 0 <= k < |members| && members[k].alive|
  }

  lemma CountAliveNext(members: seq<Member>)
    requires members != []
    ensures var k := |members| - 1; CountAlive(members) == CountAlive(members[..k]) + if members[k].alive then 1 else 0
  {
    var k := |members| - 1;
    var before, all := set i | 0 <= i < k && members[..k][i].alive, set i | 0 <= i < |members| && members[i].alive;
    assert all == if members[k].alive then before + {k} else before;
  }

  /** The alive members, each in its place: member k comes after as many as are alive before it. */
  lemma {:induction false} AliveInPlace(members: seq<Member>)
    ensures |AliveOf(members)| == CountAlive(members)
    ensures forall k :: 0 <= k < |members| && members[k].alive ==>
              var p := CountAlive(members[..k]); p < |AliveOf(members)| && AliveOf(members)[p] == members[k].node
    decreases |members|
  {
    if members == [] {
      assert CountAlive(members) == 0;
    } else {
      var last := |members| - 1;
      AliveInPlace(members[..last]);
      CountAliveNext(members);
      forall k | 0 <= k < |members| && members[k].alive
        ensures var p := CountAlive(members[..k]); p < |AliveOf(members)| && AliveOf(members)[p] == members[k].node
      {
        assert k < last ==> members[..last][..k] == members[..k];
      }
    }
  }

  method AliveMembers(members: seq<Member>, n: int) returns (out: seq<Node>)
    ensures out == FirstAlive(members, n)
    ensures out <= AliveOf(members)
    ensures |out| == if 0 < n < |AliveOf(members)| then n else |AliveOf(members)|
  {
    out := [];
    for k := 0 to |members|
      invariant out == AliveOf(members[..k]) && (n > 0 ==> |out| < n)
    {
      assert members[..k + 1][..k] == members[..k];
      if members[k].alive {
        out := out + [members[k].node];
        if n > 0 && |out| >= n {
          AliveOfPrefix(members, k + 1);
          return;
        }
      }
    }
    assert members[..|members|] == members;
  }

  /** The outside world's part in one deployment: what becomes of a load on this node, and of a rank. */
  datatype Answers = Answers(load: DeploySpec -> bool, rank: RankCall -> Outcome)

  datatype State = State(models: map<string, Model>, views: Views)

  // ---------- Deploying and stopping ----------

  function WebRecord(m: Model, loads: bool): Instance {
    NewInstance(WebInstanceId(m.name), m.name, WebSpec(m, m.path)).(state := if loads then Ready else Error)
  }

  /** Success, and the instances afterwards. A pipeline model runs the coordinator alone, so it has the
      coordinator's net effect; any other is deployed on this node. */
  function AfterDeploy(env: Env, v: Views, m: Model, a: Answers): (bool, Views) {
    if m.endpoint != "" then (true, v)
    else if m.pipelineParallel > 1 then
      var nodes := FirstAlive(env.members, m.pipelineParallel);
      if |nodes| < m.pipelineParallel then (false, v)
      else
        var plan := PlanOf(m, nodes, m.path, [], env.backend);
        NetEffect(v, plan, OutcomesOf(plan, a.rank))
    else if env.self in v then
      var loads := a.load(WebSpec(m, m.path));
      (loads, WithWeb(env, v, m, loads))
    else (false, v)
  }

  /** The nodes a stop reaches. */
  function Reached(env: Env): set<Node> {
    {env.self} + set n | n in AliveOf(env.members)
  }

  function AfterStop(env: Env, v: Views, name: string): Views {
    map n | n in v :: if n in Reached(env) then OtherModels(v[n], name) else v[n]
  }

  // ---------- The handlers ----------

  datatype ModelReq = ModelReq(
    name: string, engine: string, path: string, endpoint: string, description: string, version: string, quant: string,
    vram: nat, estimate: Option<nat>, tp: int, pp: int, port: int, replicas: int)

  datatype Reply = Created(status: Status) | BadRequest | Conflict | NotFound | OK(status: Status) | NoContent

  const ENGINES := {"fake", "vllm", "sglang", "llamacpp"}

  predicate Validates(m: Model) {
    m.name != "" && (m.path != "" || m.endpoint != "") && (m.engine == "" || m.engine in ENGINES)
    && m.tensorParallel >= 0 && m.pipelineParallel >= 0
  }

  /** `estimate` is the memory estimate when the request gives a parameter count. */
  function NewModel(req: ModelReq): Model {
    Model(req.name, if req.version == "" then "v1" else req.version, req.path, req.endpoint, req.engine, req.quant,
          if req.vram == 0 && req.estimate.Some? then req.estimate.value else req.vram,
          req.tp, req.pp, req.port, if req.replicas == 0 then 1 else req.replicas, req.description, Deploying)
  }

  function Put(s: State, m: Model): State {
    s.(models := s.models[m.name := m])
  }

  /** Deploy an already stored model and store the resulting status. */
  function DeployAndStore(env: Env, s: State, m: Model, a: Answers): (State, Status) {
    var (ok, v) := AfterDeploy(env, s.views, m, a);
    var status := if ok then Online else StatusError;
    (State(s.models[m.name := m.(status := status)], v), status)
  }

  function Register(env: Env, s: State, req: ModelReq, pathExists: bool, a: Answers): (State, Reply) {
    if req.name == "" || req.engine !in ENGINES || (req.path == "" && req.endpoint == "") then (s, BadRequest)
    else if req.pp > 1 && |FirstAlive(env.members, 0)| < req.pp then (s, BadRequest)
    else if req.name in s.models then (s, Conflict)
    else if (req.path != "" && !pathExists) || !Validates(NewModel(req)) then (s, BadRequest)
    else
      var (s', status) := DeployAndStore(env, s, NewModel(req), a);
      (s', Reply.Created(status))
  }

  /** The edited record, and whether a parameter changed that needs a new deployment. */
  function Edited(m: Model, req: ModelReq): (Model, bool) {
    var engine := if req.engine != "" then req.engine else m.engine;
    var path := if req.path != "" then req.path else m.path;
    var endpoint := if req.endpoint != "" then req.endpoint else m.endpoint;
    var quant := if req.quant != "" then req.quant else m.quant;
    var vram := if req.vram > 0 then req.vram
                else if req.estimate.Some? && m.vramBytes == 0 then req.estimate.value else m.vramBytes;
    (m.(engine := engine, path := path, endpoint := endpoint, quant := quant, vramBytes := vram,
        description := if req.description != "" then req.description else m.description,
        version := if req.version != "" then req.version else m.version,
        tensorParallel := if req.tp > 0 then req.tp else m.tensorParallel,
        pipelineParallel := if req.pp > 0 then req.pp else m.pipelineParallel,
        port := if req.port > 0 then req.port else m.port,
        replicas := if req.replicas > 0 then req.replicas else m.replicas),
     engine != m.engine || path != m.path || endpoint != m.endpoint || quant != m.quant
     || req.tp > 0 || (req.pp > 0 && req.pp != m.pipelineParallel) || req.port > 0)
  }

  function Update(env: Env, s: State, name: string, req: ModelReq, a: Answers): (State, Reply) {
    if name !in s.models then (s, Reply.NotFound)
    else
      var (m, redeploy) := Edited(s.models[name], req);
      if !Validates(m) then (s, BadRequest)
      else if redeploy && m.status != Disabled then
        var (s', status) := DeployAndStore(env, Put(s, m).(views := AfterStop(env, s.views, name)), m, a);
        (s', OK(status))
      else (Put(s, m), OK(m.status))
  }

  function Toggle(env: Env, s: State, name: string, a: Answers): (State, Reply) {
    if name !in s.models then (s, Reply.NotFound)
    else
      var m := s.models[name];
      if m.status == Disabled then
        var (s', status) := DeployAndStore(env, s, m, a);
        (s', OK(status))
      else (Put(s, m.(status := Disabled)).(views := AfterStop(env, s.views, name)), OK(Disabled))
  }

  function Delete(env: Env, s: State, name: string): (State, Reply) {
    if name !in s.models then (s, Reply.NotFound)
    else (State(s.models - {name}, AfterStop(env, s.views, name)), NoContent)
  }

  /** The status the list shows, from the instances of this node. */
  function Derived(m: Model, v: map<string, Instance>): Status {
    if m.status == Disabled || m.endpoint != "" then m.status
    else if exists id :: id in v && v[id].modelName == m.name && v[id].state == Ready then Online
    else if exists id :: id in v && v[id].modelName == m.name && v[id].state == Loading then Deploying
    else if exists id :: id in v && v[id].modelName == m.name && v[id].state == Error then StatusError
    else Offline
  }

  // ---------- The invariant ----------

  /** An instance of this model is shown under the id on the node. */
  predicate Has(v: Views, n: Node, id: string, name: string) {
    n in v && id in v[n] && v[n][id].modelName == name
  }

  /** An id of an instance tells its model. */
  ghost predicate IdOf(id: string, name: string) {
    id == WebInstanceId(name) || exists r: nat :: id == PPInstanceId(name, r)
  }

  lemma IdTellsModel(id: string, x: string, y: string)
    requires IdOf(id, x) && IdOf(id, y)
    ensures x == y
  {
    if id == WebInstanceId(x) && id == WebInstanceId(y) {
      WebInstanceIdInjective(x, y);
    } else if id == WebInstanceId(x) {
      var r: nat :| id == PPInstanceId(y, r);
      WebIsNoRank(x, y, r);
    } else if id == WebInstanceId(y) {
      var r: nat :| id == PPInstanceId(x, r);
      WebIsNoRank(y, x, r);
    } else {
      var r: nat :| id == PPInstanceId(x, r);
      var q: nat :| id == PPInstanceId(y, q);
      PPInstanceIdInjective(x, r, y, q);
    }
  }

  ghost predicate NoInstance(v: Views, name: string) {
    forall n, id :: !Has(v, n, id, name)
  }

  /** Rank r of the model is where a successful pipeline deployment puts it. */
  predicate IsRank(env: Env, m: Model, n: Node, id: string, r: nat) {
    r < m.pipelineParallel && r < |AliveOf(env.members)| && n == AliveOf(env.members)[r]
      && id == PPInstanceId(m.name, r)
  }

  /** An instance runs what the model now says. */
  predicate BuiltFrom(inst: Instance, m: Model) {
    && inst.engine == m.engine && inst.quant == m.quant
    && inst.tensorParallel == m.tensorParallel && inst.pipelineParallel == m.pipelineParallel
  }

  ghost predicate AllBuilt(m: Model, v: Views) {
    forall n, id :: Has(v, n, id, m.name) ==> BuiltFrom(v[n][id], m)
  }

  /** What a stored model says about its instances: their parameters, and by its status their states. */
  ghost predicate StatusTrue(env: Env, m: Model, v: Views) {
    AllBuilt(m, v) && StatesTrue(env, m, v)
  }

  ghost predicate StatesTrue(env: Env, m: Model, v: Views) {
    if m.status == Disabled || m.endpoint != "" then
      NoInstance(v, m.name) && (m.status == Disabled || m.status == Online)
    else if m.pipelineParallel <= 1 then
      && (m.status == Online || m.status == StatusError)
      && (forall n, id :: Has(v, n, id, m.name) <==> n in v && n == env.self && id == WebInstanceId(m.name))
      && Has(v, env.self, WebInstanceId(m.name), m.name)
      && v[env.self][WebInstanceId(m.name)].state == (if m.status == Online then Ready else Error)
    else if m.status == Online then
      && m.pipelineParallel <= |AliveOf(env.members)|
      && (forall n, id :: Has(v, n, id, m.name) <==> exists r: nat :: IsRank(env, m, n, id, r))
      && (forall n, id, r: nat :: Has(v, n, id, m.name) && IsRank(env, m, n, id, r) ==>
            v[n][id].state == Ready && v[n][id].ppRank == r && v[n][id].port == Rank0Port(m) + r)
    else
      m.status == StatusError && forall n, id :: Has(v, n, id, m.name) ==> v[n][id].state == Error
  }

  ghost predicate ViewsOk(env: Env, v: Views) {
    && v.Keys == Reached(env)
    && (forall n, id :: n in v && id in v[n] ==> IdOf(id, v[n][id].modelName))
  }

  ghost predicate Inv(env: Env, s: State) {
    && ViewsOk(env, s.views)
    && (forall n, id :: n in s.views && id in s.views[n] ==> s.views[n][id].modelName in s.models)
    && (forall name :: name in s.models ==> s.models[name].name == name && StatusTrue(env, s.models[name], s.views))
  }

  /** The instances of every other model are the same. */
  ghost predicate OthersSame(v: Views, v': Views, name: string) {
    && v.Keys == v'.Keys
    && forall n, id, x :: x != name ==>
         (Has(v, n, id, x) <==> Has(v', n, id, x)) && (Has(v, n, id, x) ==> v'[n][id] == v[n][id])
  }

  lemma StatusTrueFrame(env: Env, m: Model, v: Views, v': Views, name: string)
    requires StatusTrue(env, m, v) && OthersSame(v, v', name) && m.name != name
    ensures StatusTrue(env, m, v')
  {
    assert forall n, id :: Has(v, n, id, m.name) <==> Has(v', n, id, m.name);
    assert forall n, id :: Has(v, n, id, m.name) ==> v'[n][id] == v[n][id];
    assert AllBuilt(m, v');
    if m.status != Disabled && m.endpoint == "" && m.pipelineParallel <= 1 {
      assert Has(v, env.self, WebInstanceId(m.name), m.name);
    }
  }

  lemma AfterStopEffect(env: Env, v: Views, name: string)
    requires ViewsOk(env, v)
    ensures ViewsOk(env, AfterStop(env, v, name)) && OthersSame(v, AfterStop(env, v, name), name)
            && NoInstance(AfterStop(env, v, name), name)
  {
    var v': Views := AfterStop(env, v, name);
    forall n, id, x | x != name
      ensures (Has(v, n, id, x) <==> Has(v', n, id, x)) && (Has(v, n, id, x) ==> v'[n][id] == v[n][id])
    {
    }
  }

  /** The listing with a new single instance of the model on this node. */
  function WithWeb(env: Env, v: Views, m: Model, loads: bool): Views
    requires env.self in v
  {
    v[env.self := v[env.self][WebInstanceId(m.name) := WebRecord(m, loads)]]
  }

  lemma WithWebHas(env: Env, v: Views, m: Model, loads: bool, n: Node, id: string)
    requires ViewsOk(env, v) && NoInstance(v, m.name)
    ensures var v' := WithWeb(env, v, m, loads);
            && (forall x :: x != m.name ==>
                  (Has(v, n, id, x) <==> Has(v', n, id, x)) && (Has(v, n, id, x) ==> v'[n][id] == v[n][id]))
            && (Has(v', n, id, m.name) <==> n == env.self && id == WebInstanceId(m.name))
  {
    var id0 := WebInstanceId(m.name);
    assert !Has(v, env.self, id0, m.name) && !Has(v, n, id, m.name);
    if id0 in v[env.self] {
      IdTellsModel(id0, v[env.self][id0].modelName, m.name);
    }
  }

  lemma WithWebStatus(env: Env, v: Views, m: Model, loads: bool, status: Status)
    requires ViewsOk(env, v) && NoInstance(v, m.name) && m.endpoint == "" && m.pipelineParallel <= 1
    requires status == if loads then Online else StatusError
    ensures StatusTrue(env, m.(status := status), WithWeb(env, v, m, loads))
  {
    forall n, id
      ensures Has(WithWeb(env, v, m, loads), n, id, m.name) <==> n == env.self && id == WebInstanceId(m.name)
    {
      WithWebHas(env, v, m, loads, n, id);
    }
  }

  lemma LocalDeployEffect(env: Env, v: Views, m: Model, loads: bool, status: Status)
    requires ViewsOk(env, v) && NoInstance(v, m.name) && m.endpoint == "" && m.pipelineParallel <= 1
    requires status == if loads then Online else StatusError
    ensures var v' := WithWeb(env, v, m, loads);
            ViewsOk(env, v') && OthersSame(v, v', m.name) && StatusTrue(env, m.(status := status), v')
  {
    WithWebStatus(env, v, m, loads, status);
    forall n, id, x | x != m.name
      ensures var v' := WithWeb(env, v, m, loads);
              (Has(v, n, id, x) <==> Has(v', n, id, x)) && (Has(v, n, id, x) ==> v'[n][id] == v[n][id])
    {
      WithWebHas(env, v, m, loads, n, id);
    }
  }

  // ---------- A pipeline deployment from scratch ----------

  lemma PlanNodesReached(env: Env, n: int, i: nat)
    requires i < |FirstAlive(env.members, n)|
    ensures FirstAlive(env.members, n)[i] == AliveOf(env.members)[i] && FirstAlive(env.members, n)[i] in Reached(env)
  {
    assert AliveOf(env.members)[i] in AliveOf(env.members);
  }

  /** What NetEffect shows under one id: a record of a rank that leaves one, or what was there. */
  lemma NetEffectAt(v: Views, plan: seq<RankCall>, outs: seq<Outcome>, n: Node, id: string)
    requires |plan| == |outs| && DistinctIds(plan) && n in v
    ensures var success := AllLoaded(v, plan, outs);
            var v': Views := NetEffect(v, plan, outs).1;
            && v'.Keys == v.Keys
            && ((SameAt(v, v', n, id)
                 && forall i: nat :: i < |plan| && plan[i].node == n && plan[i].id == id ==>
                      Leaves(v, plan[i], outs[i], success).None?)
                || exists i: nat :: i < |plan| && plan[i].node == n && plan[i].id == id
                                    && Leaves(v, plan[i], outs[i], success).Some? && id in v'[n]
                     && v'[n][id] == PPSafety.RecordOf(plan[i], Leaves(v, plan[i], outs[i], success).value))
  {
    var success := AllLoaded(v, plan, outs);
    AddRanksKeys(v, plan, outs, success, |plan|);
    if i: nat :| i < |plan| && plan[i].node == n && plan[i].id == id && Leaves(v, plan[i], outs[i], success).Some? {
      AddRanksShows(v, plan, outs, success, |plan|, i);
    } else {
      AddRanksHides(v, plan, outs, success, |plan|, n, id);
    }
  }

  /** A rank leaves a record only where none was. */
  lemma LeavesOnFreeId(v: Views, plan: seq<RankCall>, outs: seq<Outcome>, i: nat)
    requires i < |plan| == |outs| && Leaves(v, plan[i], outs[i], AllLoaded(v, plan, outs)).Some?
    ensures plan[i].node in v && plan[i].id !in v[plan[i].node]
  {
  }

  ghost predicate ModelPlan(env: Env, m: Model, plan: seq<RankCall>) {
    && |plan| == m.pipelineParallel && |plan| <= |AliveOf(env.members)|
    && forall i :: 0 <= i < |plan| ==>
         plan[i] == CallOf(m, AliveOf(env.members), i, m.path, [], env.backend)
  }

  lemma NetEffectFrame(env: Env, v: Views, m: Model, plan: seq<RankCall>, outs: seq<Outcome>)
    requires ViewsOk(env, v) && ModelPlan(env, m, plan) && DistinctIds(plan) && |plan| == |outs|
    ensures var v': Views := NetEffect(v, plan, outs).1;
            ViewsOk(env, v') && OthersSame(v, v', m.name)
  {
    var v': Views := NetEffect(v, plan, outs).1;
    AddRanksKeys(v, plan, outs, AllLoaded(v, plan, outs), |plan|);
    forall n, id | n in v' && id in v'[n] ensures IdOf(id, v'[n][id].modelName) {
      NetEffectAt(v, plan, outs, n, id);
    }
    forall n, id, x | x != m.name
      ensures (Has(v, n, id, x) <==> Has(v', n, id, x)) && (Has(v, n, id, x) ==> v'[n][id] == v[n][id])
    {
      if n in v {
        NetEffectAt(v, plan, outs, n, id);
        if !SameAt(v, v', n, id) {
          var i: nat :| i < |plan| && plan[i].node == n && plan[i].id == id
            && Leaves(v, plan[i], outs[i], AllLoaded(v, plan, outs)).Some?;
          LeavesOnFreeId(v, plan, outs, i);
        }
      }
    }
  }

  lemma NetEffectStates(env: Env, v: Views, m: Model, plan: seq<RankCall>, outs: seq<Outcome>, status: Status)
    requires ViewsOk(env, v) && NoInstance(v, m.name) && ModelPlan(env, m, plan) && DistinctIds(plan)
             && |plan| == |outs|
    requires m.endpoint == "" && m.pipelineParallel > 1
    requires status == if NetEffect(v, plan, outs).0 then Online else StatusError
    ensures StatesTrue(env, m.(status := status), NetEffect(v, plan, outs).1)
  {
    var (success, v') := NetEffect(v, plan, outs);
    var m' := m.(status := status);
    if success {
      forall n, id ensures Has(v', n, id, m.name) <==> exists r: nat :: IsRank(env, m', n, id, r) {
        SuccessAt(env, v, m, plan, outs, n, id);
        assert forall r: nat :: IsRank(env, m', n, id, r) <==> IsRank(env, m, n, id, r);
      }
      forall n, id, r: nat | Has(v', n, id, m.name) && IsRank(env, m', n, id, r)
        ensures v'[n][id].state == Ready && v'[n][id].ppRank == r && v'[n][id].port == Rank0Port(m') + r
      {
        AddRanksShows(v, plan, outs, true, |plan|, r);
      }
    } else {
      forall n, id | Has(v', n, id, m.name) ensures v'[n][id].state == Error {
        AddRanksKeys(v, plan, outs, false, |plan|);
        NetEffectAt(v, plan, outs, n, id);
        assert !Has(v, n, id, m.name);
      }
    }
  }

  lemma NetEffectBuilt(env: Env, v: Views, m: Model, plan: seq<RankCall>, outs: seq<Outcome>)
    requires NoInstance(v, m.name) && ModelPlan(env, m, plan) && DistinctIds(plan) && |plan| == |outs|
    ensures AllBuilt(m, NetEffect(v, plan, outs).1)
  {
    var v': Views := NetEffect(v, plan, outs).1;
    AddRanksKeys(v, plan, outs, AllLoaded(v, plan, outs), |plan|);
    forall n, id | Has(v', n, id, m.name) ensures BuiltFrom(v'[n][id], m) {
      NetEffectAt(v, plan, outs, n, id);
      assert !Has(v, n, id, m.name);
    }
  }

  /** After a deployment from scratch the model's instances are the records its ranks left. */
  lemma NetEffectStatus(env: Env, v: Views, m: Model, plan: seq<RankCall>, outs: seq<Outcome>, status: Status)
    requires ViewsOk(env, v) && NoInstance(v, m.name) && ModelPlan(env, m, plan) && DistinctIds(plan)
             && |plan| == |outs|
    requires m.endpoint == "" && m.pipelineParallel > 1
    requires status == if NetEffect(v, plan, outs).0 then Online else StatusError
    ensures StatusTrue(env, m.(status := status), NetEffect(v, plan, outs).1)
  {
    NetEffectStates(env, v, m, plan, outs, status);
    NetEffectBuilt(env, v, m, plan, outs);
    assert AllBuilt(m.(status := status), NetEffect(v, plan, outs).1);
  }

  lemma SuccessAt(env: Env, v: Views, m: Model, plan: seq<RankCall>, outs: seq<Outcome>, n: Node, id: string)
    requires ViewsOk(env, v) && NoInstance(v, m.name) && ModelPlan(env, m, plan) && DistinctIds(plan)
             && |plan| == |outs|
    requires AllLoaded(v, plan, outs)
    ensures Has(NetEffect(v, plan, outs).1, n, id, m.name) <==> exists r: nat :: IsRank(env, m, n, id, r)
  {
    var v': Views := NetEffect(v, plan, outs).1;
    AddRanksKeys(v, plan, outs, true, |plan|);
    if r: nat :| IsRank(env, m, n, id, r) {
      assert Accepted(v, plan[r], outs[r]);
      AddRanksShows(v, plan, outs, true, |plan|, r);
    } else if n in v {
      NetEffectAt(v, plan, outs, n, id);
      assert !Has(v, n, id, m.name);
      if !SameAt(v, v', n, id) {
        var i: nat :| i < |plan| && plan[i].node == n && plan[i].id == id;
        assert IsRank(env, m, n, id, i);
      }
    }
  }

  lemma AfterDeployEffect(env: Env, v: Views, m: Model, a: Answers)
    requires ViewsOk(env, v) && NoInstance(v, m.name)
    ensures var (ok, v') := AfterDeploy(env, v, m, a);
            && ViewsOk(env, v') && OthersSame(v, v', m.name)
            && StatusTrue(env, m.(status := if ok then Online else StatusError), v')
  {
    if m.endpoint == "" {
      if m.pipelineParallel > 1 {
        var nodes := FirstAlive(env.members, m.pipelineParallel);
        if |nodes| >= m.pipelineParallel {
          var plan := PlanOf(m, nodes, m.path, [], env.backend);
          var outs := OutcomesOf(plan, a.rank);
          forall i | 0 <= i < |plan| ensures plan[i] == CallOf(m, AliveOf(env.members), i, m.path, [], env.backend) {
            PlanNodesReached(env, m.pipelineParallel, i);
          }
          PlanHasDistinctIds(plan, m, nodes, m.path, [], env.backend);
          NetEffectFrame(env, v, m, plan, outs);
          NetEffectStatus(env, v, m, plan, outs, if NetEffect(v, plan, outs).0 then Online else StatusError);
        }
      } else {
        var loads := a.load(WebSpec(m, m.path));
        LocalDeployEffect(env, v, m, loads, if loads then Online else StatusError);
      }
    }
  }

  // ---------- Every handler keeps the invariant ----------

  /** Storing a model whose status is true, after only its own instances changed. */
  lemma StoreKeeps(env: Env, s: State, m: Model, v': Views)
    requires Inv(env, s) && ViewsOk(env, v') && OthersSame(s.views, v', m.name) && StatusTrue(env, m, v')
    ensures Inv(env, State(s.models[m.name := m], v'))
  {
    forall n, id | n in v' && id in v'[n] ensures v'[n][id].modelName in s.models[m.name := m] {
      var x := v'[n][id].modelName;
      assert Has(v', n, id, x);
      assert x != m.name ==> Has(s.views, n, id, x);
    }
    forall name | name in s.models && name != m.name ensures StatusTrue(env, s.models[name], v') {
      StatusTrueFrame(env, s.models[name], s.views, v', m.name);
    }
  }

  lemma DeployAndStoreKeeps(env: Env, s: State, m: Model, a: Answers, v: Views)
    requires Inv(env, s) && ViewsOk(env, v) && OthersSame(s.views, v, m.name) && NoInstance(v, m.name)
    ensures var (ok, v') := AfterDeploy(env, v, m, a);
            Inv(env, State(s.models[m.name := m.(status := if ok then Online else StatusError)], v'))
  {
    AfterDeployEffect(env, v, m, a);
    var (ok, v') := AfterDeploy(env, v, m, a);
    forall n, id, x | x != m.name
      ensures (Has(s.views, n, id, x) <==> Has(v', n, id, x))
              && (Has(s.views, n, id, x) ==> v'[n][id] == s.views[n][id])
    {
      assert Has(s.views, n, id, x) <==> Has(v, n, id, x);
    }
    StoreKeeps(env, s, m.(status := if ok then Online else StatusError), v');
  }

  lemma RegisterKeeps(env: Env, s: State, req: ModelReq, pathExists: bool, a: Answers)
    requires Inv(env, s)
    ensures Inv(env, Register(env, s, req, pathExists, a).0)
  {
    if req.name !in s.models {
      forall n, id ensures !Has(s.views, n, id, req.name) {
      }
      DeployAndStoreKeeps(env, s, NewModel(req), a, s.views);
    }
  }

  /** An edit that needs no new deployment leaves the status true. */
  lemma QuietEditKeepsStatus(env: Env, m: Model, req: ModelReq, v: Views)
    requires StatusTrue(env, m, v) && (!Edited(m, req).1 || m.status == Disabled)
    ensures StatusTrue(env, Edited(m, req).0, v)
  {
    var m' := Edited(m, req).0;
    if m.status != Disabled {
      assert forall n, id, r: nat :: IsRank(env, m', n, id, r) <==> IsRank(env, m, n, id, r);
      if m.endpoint == "" && m.pipelineParallel > 1 && m.status == Online {
        forall n, id ensures Has(v, n, id, m'.name) <==> exists r: nat :: IsRank(env, m', n, id, r) {
          assert (exists r: nat :: IsRank(env, m', n, id, r)) <==> (exists r: nat :: IsRank(env, m, n, id, r));
        }
      }
    }
  }

  lemma PutAgain(models: map<string, Model>, name: string, m: Model, m': Model)
    ensures models[name := m][name := m'] == models[name := m']
  {
  }

  lemma UpdateKeeps(env: Env, s: State, name: string, req: ModelReq, a: Answers)
    requires Inv(env, s)
    ensures Inv(env, Update(env, s, name, req, a).0)
  {
    if name in s.models {
      var (m, redeploy) := Edited(s.models[name], req);
      if Validates(m) {
        if redeploy && m.status != Disabled {
          AfterStopEffect(env, s.views, name);
          DeployAndStoreKeeps(env, s, m, a, AfterStop(env, s.views, name));
          PutAgain(s.models, name, m, m.(status := Online));
          PutAgain(s.models, name, m, m.(status := StatusError));
        } else {
          QuietEditKeepsStatus(env, s.models[name], req, s.views);
          StoreKeeps(env, s, m, s.views);
        }
      }
    }
  }

  lemma ToggleKeeps(env: Env, s: State, name: string, a: Answers)
    requires Inv(env, s)
    ensures Inv(env, Toggle(env, s, name, a).0)
  {
    if name in s.models {
      var m := s.models[name];
      if m.status == Disabled {
        DeployAndStoreKeeps(env, s, m, a, s.views);
      } else {
        AfterStopEffect(env, s.views, name);
        StoreKeeps(env, s, m.(status := Disabled), AfterStop(env, s.views, name));
      }
    }
  }

  lemma DeleteKeeps(env: Env, s: State, name: string)
    requires Inv(env, s)
    ensures Inv(env, Delete(env, s, name).0)
  {
    if name in s.models {
      var v': Views := AfterStop(env, s.views, name);
      AfterStopEffect(env, s.views, name);
      forall n, id | n in v' && id in v'[n] ensures v'[n][id].modelName in s.models - {name} {
        assert Has(v', n, id, v'[n][id].modelName) && !Has(v', n, id, name);
        assert Has(s.views, n, id, v'[n][id].modelName);
      }
      forall x | x in s.models && x != name ensures StatusTrue(env, s.models[x], v') {
        StatusTrueFrame(env, s.models[x], s.views, v', name);
      }
    }
  }

  // ---------- What the handlers do, in the request's own terms ----------

  predicate KnownEngine(engine: string) {
    engine == "fake" || engine == "vllm" || engine == "sglang" || engine == "llamacpp"
  }

  /** When a registration is turned down. */
  lemma RegisterReplies(env: Env, s: State, req: ModelReq, pathExists: bool, a: Answers)
    ensures var reply := Register(env, s, req, pathExists, a).1;
            var malformed := req.name == "" || !KnownEngine(req.engine) || (req.path == "" && req.endpoint == "")
                             || (req.pp > 1 && |AliveOf(env.members)| < req.pp);
            var unusable := (req.path != "" && !pathExists) || req.tp < 0 || req.pp < 0;
            && (reply == BadRequest <==> malformed || (req.name !in s.models && unusable))
            && (reply == Conflict <==> !malformed && req.name in s.models)
            && (reply.Created? <==> !malformed && req.name !in s.models && !unusable)
            && (!reply.Created? ==> Register(env, s, req, pathExists, a).0 == s)
  {
  }

  /** What a registration stores. */
  lemma RegisterStores(env: Env, s: State, req: ModelReq, pathExists: bool, a: Answers)
    requires Register(env, s, req, pathExists, a).1.Created?
    ensures var (s', reply) := Register(env, s, req, pathExists, a);
            && req.name in s'.models && s'.models == s.models[req.name := s'.models[req.name]]
            && var m := s'.models[req.name];
               && m.name == req.name && m.engine == req.engine && m.path == req.path && m.endpoint == req.endpoint
               && m.quant == req.quant && m.tensorParallel == req.tp && m.pipelineParallel == req.pp
               && m.port == req.port && m.description == req.description
               && m.version == (if req.version == "" then "v1" else req.version)
               && m.replicas == (if req.replicas == 0 then 1 else req.replicas)
               && (req.vram > 0 ==> m.vramBytes == req.vram)
               && (req.vram == 0 && req.estimate.Some? ==> m.vramBytes == req.estimate.value)
               && m.status == reply.status && (reply.status == Online || reply.status == StatusError)
  {
  }

  /** The load the model asks for on this node succeeds. */
  predicate LoadsFor(m: Model, a: Answers) {
    a.load(DeploySpec(m.path, m.engine, m.vramBytes, m.tensorParallel, m.pipelineParallel, m.quant, 0, 0, "", []))
  }

  /** Rank i's call, field by field, to the i-th alive member. */
  predicate Orders(env: Env, m: Model, call: RankCall, i: nat) {
    i < |AliveOf(env.members)| && IsRankCall(call, m, AliveOf(env.members)[i], i, m.path, [], env.backend)
  }

  lemma OrdersIsPlanned(env: Env, m: Model, i: nat, call: RankCall)
    requires 1 < m.pipelineParallel <= |AliveOf(env.members)| && i < m.pipelineParallel
    ensures var plan := PlanOf(m, FirstAlive(env.members, m.pipelineParallel), m.path, [], env.backend);
            Orders(env, m, call, i) <==> call == plan[i]
  {
    var nodes := FirstAlive(env.members, m.pipelineParallel);
    PlanNodesReached(env, m.pipelineParallel, i);
    var planned := CallOf(m, nodes, i, m.path, [], env.backend);
    assert Orders(env, m, planned, i);
    if Orders(env, m, call, i) {
      assert call.spec == planned.spec;
    }
  }

  predicate WillLoad(v: Views, a: Answers, call: RankCall) {
    call.node in v && call.id !in v[call.node] && a.rank(call) == Loads
  }

  /** A pipeline is deployed on the first alive members, rank by rank as the model orders, and succeeds
      exactly if every id is free and every one of these calls loads. */
  lemma PipelineVerdict(env: Env, v: Views, m: Model, a: Answers)
    requires m.endpoint == "" && m.pipelineParallel > 1
    ensures AfterDeploy(env, v, m, a).0 <==>
              && m.pipelineParallel <= |AliveOf(env.members)|
              && forall call: RankCall, i: nat ::
                   i < m.pipelineParallel && Orders(env, m, call, i) ==> WillLoad(v, a, call)
  {
    if m.pipelineParallel <= |AliveOf(env.members)| {
      var plan := PlanOf(m, FirstAlive(env.members, m.pipelineParallel), m.path, [], env.backend);
      var outs := OutcomesOf(plan, a.rank);
      assert AfterDeploy(env, v, m, a).0 <==> forall i: nat :: i < |plan| ==> WillLoad(v, a, plan[i]);
      if AfterDeploy(env, v, m, a).0 {
        forall call: RankCall, i: nat | i < m.pipelineParallel && Orders(env, m, call, i) ensures WillLoad(v, a, call) {
          OrdersIsPlanned(env, m, i, call);
        }
      } else {
        var i: nat :| i < |plan| && !WillLoad(v, a, plan[i]);
        OrdersIsPlanned(env, m, i, plan[i]);
      }
    }
  }

  /** The instance a registration of a single-node model leaves is the one the stored model describes. */
  lemma RegisterShowsInstance(env: Env, s: State, req: ModelReq, pathExists: bool, a: Answers)
    requires env.self in s.views && Register(env, s, req, pathExists, a).1.Created? && req.endpoint == "" && req.pp <= 1
    ensures var s' := Register(env, s, req, pathExists, a).0;
            var id := "inst-" + req.name + "-web";
            && req.name in s'.models && env.self in s'.views && id in s'.views[env.self]
            && var loads := LoadsFor(s'.models[req.name], a);
               && s'.models[req.name].status == (if loads then Online else StatusError)
               && IsWebRecord(s'.views[env.self][id], s'.models[req.name], if loads then Ready else Error)
  {
  }

  /** The request changes a parameter that running instances depend on. */
  predicate AsksForRedeploy(m: Model, req: ModelReq) {
    || (req.engine != "" && req.engine != m.engine)
    || (req.path != "" && req.path != m.path)
    || (req.endpoint != "" && req.endpoint != m.endpoint)
    || (req.quant != "" && req.quant != m.quant)
    || req.tp > 0 || (req.pp > 0 && req.pp != m.pipelineParallel) || req.port > 0
  }

  /** What an edit stores: what the request gives, and the old value of everything it leaves out. */
  lemma UpdateStores(env: Env, s: State, name: string, req: ModelReq, a: Answers)
    requires name in s.models && s.models[name].name == name && Update(env, s, name, req, a).1.OK?
    ensures var s' := Update(env, s, name, req, a).0;
            && s'.models == s.models[name := s'.models[name]]
            && var was, m := s.models[name], s'.models[name];
               && m.name == name
               && m.engine == (if req.engine != "" then req.engine else was.engine)
               && m.path == (if req.path != "" then req.path else was.path)
               && m.endpoint == (if req.endpoint != "" then req.endpoint else was.endpoint)
               && m.quant == (if req.quant != "" then req.quant else was.quant)
               && m.description == (if req.description != "" then req.description else was.description)
               && m.version == (if req.version != "" then req.version else was.version)
               && m.tensorParallel == (if req.tp > 0 then req.tp else was.tensorParallel)
               && m.pipelineParallel == (if req.pp > 0 then req.pp else was.pipelineParallel)
               && m.port == (if req.port > 0 then req.port else was.port)
               && m.replicas == (if req.replicas > 0 then req.replicas else was.replicas)
               && (req.vram > 0 ==> m.vramBytes == req.vram)
               && (req.vram == 0 && (req.estimate.None? || was.vramBytes > 0) ==> m.vramBytes == was.vramBytes)
               && (req.vram == 0 && req.estimate.Some? && was.vramBytes == 0 ==> m.vramBytes == req.estimate.value)
  {
  }

  /** An edit stops and deploys anew exactly if the model is enabled and the request changes something
      running instances depend on; any other edit touches neither instances nor status. */
  lemma UpdateRedeploys(env: Env, s: State, name: string, req: ModelReq, a: Answers)
    requires name in s.models && s.models[name].name == name && Update(env, s, name, req, a).1.OK?
    ensures var (s', reply) := Update(env, s, name, req, a);
            var was := s.models[name];
            && name in s'.models && reply.status == s'.models[name].status
            && if AsksForRedeploy(was, req) && was.status != Disabled then
                 var m := s'.models[name].(status := was.status);
                 var (ok, v) := AfterDeploy(env, AfterStop(env, s.views, name), m, a);
                 s'.views == v && reply.status == if ok then Online else StatusError
               else
                 s'.views == s.views && reply.status == was.status
  {
  }

  /** When an edit is turned down; it then changes nothing. */
  lemma UpdateReplies(env: Env, s: State, name: string, req: ModelReq, a: Answers)
    ensures var (s', reply) := Update(env, s, name, req, a);
            && (reply.NotFound? <==> name !in s.models)
            && (reply.NotFound? || reply == BadRequest || reply.OK?)
            && (!reply.OK? ==> s' == s)
            && (name in s.models ==>
                  var m := s.models[name];
                  var engine := if req.engine != "" then req.engine else m.engine;
                  reply == BadRequest <==>
                    || m.name == "" || (m.path == "" && req.path == "" && m.endpoint == "" && req.endpoint == "")
                    || (engine != "" && !KnownEngine(engine))
                    || (req.tp <= 0 && m.tensorParallel < 0) || (req.pp <= 0 && m.pipelineParallel < 0))
  {
  }

  /** A single-node model edited in engine, path, quantisation, GPUs or port has a fresh instance of the
      new model, and the status is the load's verdict. */
  lemma EditedModelRuns(env: Env, s: State, name: string, req: ModelReq, a: Answers)
    requires env.self in s.views && name in s.models && s.models[name].name == name
    requires s.models[name].status != Disabled && s.models[name].endpoint == "" && req.endpoint == ""
    requires s.models[name].pipelineParallel <= 1 && req.pp <= 1 && AsksForRedeploy(s.models[name], req)
    ensures var (s', reply) := Update(env, s, name, req, a);
            var id := "inst-" + name + "-web";
            || reply == BadRequest
            || (name in s'.models && env.self in s'.views && id in s'.views[env.self]
                && var loads := LoadsFor(s'.models[name], a);
                   && reply == OK(if loads then Online else StatusError)
                   && IsWebRecord(s'.views[env.self][id], s'.models[name], if loads then Ready else Error))
  {
  }

  /** A toggle disables an enabled model and deploys a disabled one; the reply is the stored status. */
  lemma ToggleFlips(env: Env, s: State, name: string, a: Answers)
    requires name in s.models && s.models[name].name == name
    ensures var (s', reply) := Toggle(env, s, name, a);
            var was := s.models[name];
            && name in s'.models && s'.models == s.models[name := was.(status := s'.models[name].status)]
            && reply == OK(s'.models[name].status)
            && (s'.models[name].status == Disabled <==> was.status != Disabled)
            && (was.status != Disabled ==> s'.views == AfterStop(env, s.views, name))
            && (was.status == Disabled ==> s'.views == AfterDeploy(env, s.views, was, a).1)
  {
  }

  lemma DeleteRemoves(env: Env, s: State, name: string)
    ensures var (s', reply) := Delete(env, s, name);
            && s'.models == s.models - {name} && (reply.NotFound? <==> name !in s.models)
            && (reply == NoContent || reply.NotFound?)
            && s'.views == if name in s.models then AfterStop(env, s.views, name) else s.views
  {
  }

  /** A listing with a Loading and no Ready instance of the model shows it deploying, failed ones or not. */
  lemma LoadingShowsDeploying(m: Model, v: map<string, Instance>, id: string)
    requires m.status != Disabled && m.endpoint == ""
    requires id in v && v[id].modelName == m.name && v[id].state == Loading
    requires forall i :: i in v && v[i].modelName == m.name ==> v[i].state != Ready
    ensures Derived(m, v) == Deploying
  {
    assert exists i :: i in v && v[i].modelName == m.name && v[i].state == Loading;
  }

  // ---------- Runs ----------

  datatype Request =
    | RegisterReq(req: ModelReq, pathExists: bool, a: Answers)
    | UpdateReq(name: string, req: ModelReq, a: Answers)
    | ToggleReq(name: string, a: Answers)
    | DeleteReq(name: string)

  function Handle(env: Env, s: State, r: Request): (State, Reply) {
    match r
    case RegisterReq(req, pathExists, a) => Register(env, s, req, pathExists, a)
    case UpdateReq(name, req, a) => Update(env, s, name, req, a)
    case ToggleReq(name, a) => Toggle(env, s, name, a)
    case DeleteReq(name) => Delete(env, s, name)
  }

  ghost function Fresh(env: Env): State {
    State(map[], map n | n in Reached(env) :: map[])
  }

  ghost function RunOf(env: Env, requests: seq<Request>): State {
    if requests == [] then Fresh(env)
    else Handle(env, RunOf(env, requests[..|requests| - 1]), requests[|requests| - 1]).0
  }

  lemma HandleKeeps(env: Env, s: State, r: Request)
    ensures Inv(env, s) ==> Inv(env, Handle(env, s, r).0)
  {
    if Inv(env, s) {
      match r
      case RegisterReq(req, pathExists, a) => RegisterKeeps(env, s, req, pathExists, a);
      case UpdateReq(name, req, a) => UpdateKeeps(env, s, name, req, a);
      case ToggleReq(name, a) => ToggleKeeps(env, s, name, a);
      case DeleteReq(name) => DeleteKeeps(env, s, name);
    }
  }

  lemma {:induction false} RunKeeps(env: Env, requests: seq<Request>)
    ensures Inv(env, RunOf(env, requests))
    decreases |requests|
  {
    if requests != [] {
      RunKeeps(env, requests[..|requests| - 1]);
      HandleKeeps(env, RunOf(env, requests[..|requests| - 1]), requests[|requests| - 1]);
    }
  }

  /** Over every run of handlers from an empty cluster: a model that is disabled, or served elsewhere,
      or not registered has no instance on any agent. */
  lemma NoStrayInstances(env: Env, requests: seq<Request>, name: string)
    requires var s := RunOf(env, requests);
             name in s.models ==> s.models[name].status == Disabled || s.models[name].endpoint != ""
    ensures NoInstance(RunOf(env, requests).views, name)
  {
    RunKeeps(env, requests);
    var s := RunOf(env, requests);
    if name !in s.models {
      forall n, id ensures !Has(s.views, n, id, name) {
      }
    }
  }

  /** An online pipeline model has exactly its ranks, Ready and in order, on the first alive members. */
  lemma OnlinePipelineIsWhole(env: Env, requests: seq<Request>, name: string, n: Node, id: string)
    requires var s := RunOf(env, requests);
             name in s.models && s.models[name].status == Online && s.models[name].endpoint == ""
               && s.models[name].pipelineParallel > 1
    ensures var s := RunOf(env, requests);
            var m := s.models[name];
            && m.pipelineParallel <= |AliveOf(env.members)|
            && (Has(s.views, n, id, name) <==>
                  exists r: nat :: r < m.pipelineParallel && n == AliveOf(env.members)[r] && id == PPInstanceId(name, r)
                                   && n in s.views && id in s.views[n] && s.views[n][id].state == Ready
                                   && s.views[n][id].ppRank == r && s.views[n][id].port == Rank0Port(m) + r)
  {
    RunKeeps(env, requests);
    var s := RunOf(env, requests);
    var m := s.models[name];
    assert m.name == name && StatusTrue(env, m, s.views);
    if Has(s.views, n, id, name) {
      var r: nat :| IsRank(env, m, n, id, r);
    } else if r: nat :| r < m.pipelineParallel && n == AliveOf(env.members)[r] && id == PPInstanceId(name, r) {
      assert IsRank(env, m, n, id, r);
    }
  }

  /** The status the list derives from this node's instances is the stored one for every model that is
      not an online or failed pipeline. */
  lemma DerivedIsStored(env: Env, requests: seq<Request>, name: string)
    requires var s := RunOf(env, requests);
             name in s.models && (s.models[name].pipelineParallel <= 1 || s.models[name].endpoint != ""
                                  || s.models[name].status == Disabled)
    ensures var s := RunOf(env, requests);
            env.self in s.views && Derived(s.models[name], s.views[env.self]) == s.models[name].status
  {
    RunKeeps(env, requests);
    var s := RunOf(env, requests);
    var m, v := s.models[name], s.views[env.self];
    assert StatusTrue(env, m, s.views);
    if m.status != Disabled && m.endpoint == "" {
      var id0 := WebInstanceId(name);
      assert Has(s.views, env.self, id0, name);
      forall id | id in v && v[id].modelName == name ensures id == id0 {
        assert Has(s.views, env.self, id, name);
      }
    }
  }

  /** For an online pipeline model the list shows it online exactly when this node holds a rank, and
      offline otherwise: the derivation looks at local instances only. */
  lemma DerivedForPipeline(env: Env, requests: seq<Request>, name: string)
    requires var s := RunOf(env, requests);
             name in s.models && s.models[name].status == Online && s.models[name].endpoint == ""
               && s.models[name].pipelineParallel > 1
    ensures var s := RunOf(env, requests);
            var m := s.models[name];
            && env.self in s.views && m.pipelineParallel <= |AliveOf(env.members)|
            && Derived(m, s.views[env.self])
               == if env.self in AliveOf(env.members)[..m.pipelineParallel] then Online else Offline
  {
    RunKeeps(env, requests);
    var s := RunOf(env, requests);
    var m, v, alive := s.models[name], s.views[env.self], AliveOf(env.members);
    assert StatusTrue(env, m, s.views);
    if env.self in alive[..m.pipelineParallel] {
      var r: nat :| r < m.pipelineParallel && alive[r] == env.self;
      assert IsRank(env, m, env.self, PPInstanceId(name, r), r);
      assert Has(s.views, env.self, PPInstanceId(name, r), name);
    } else {
      forall id, r: nat ensures !IsRank(env, m, env.self, id, r) {
        assert r < m.pipelineParallel ==> alive[r] == alive[..m.pipelineParallel][r];
      }
      forall id | id in v ensures v[id].modelName != name {
        assert !Has(s.views, env.self, id, name);
      }
    }
  }

  lemma ThreeAlive(a: Node, b: Node, c: Node)
    ensures AliveOf([Member(a, true), Member(b, true), Member(c, true)]) == [a, b, c]
  {
    var ms := [Member(a, true), Member(b, true), Member(c, true)];
    assert ms[..2] == [Member(a, true), Member(b, true)] && ms[..2][..1] == [Member(a, true)]
           && ms[..2][..1][..0] == [];
    assert AliveOf(ms[..2][..1]) == [a] && AliveOf(ms[..2]) == [a, b];
  }

  /** A registration whose ranks all load, on members that have nothing yet, succeeds. */
  lemma FreshPipelineLoads(env: Env, req: ModelReq, a: Answers)
    requires req.name != "" && req.engine in ENGINES && req.path != "" && req.endpoint == "" && req.tp >= 0
    requires 1 < req.pp <= |AliveOf(env.members)|
    requires forall call: RankCall {:trigger a.rank(call)} :: a.rank(call) == Loads
    ensures var s := RunOf(env, [RegisterReq(req, true, a)]);
            && req.name in s.models && s.models[req.name].status == Online && s.models[req.name].endpoint == ""
            && s.models[req.name].pipelineParallel == req.pp
  {
    var m, r := NewModel(req), RegisterReq(req, true, a);
    assert [r][..0] == [] && RunOf(env, []) == Fresh(env);
    var nodes, v := FirstAlive(env.members, req.pp), Fresh(env).views;
    var plan := PlanOf(m, nodes, m.path, [], env.backend);
    var outs := OutcomesOf(plan, a.rank);
    forall i: nat | i < |plan| ensures Accepted(v, plan[i], outs[i]) && outs[i] == Loads {
      PlanNodesReached(env, req.pp, i);
    }
    assert AllLoaded(v, plan, outs) && AfterDeploy(env, v, m, a).0;
  }

  /** One registration of a two-rank model at a node that is not among the first two members: stored as
      online, shown as offline. */
  lemma OnlinePipelineShownOffline(req: ModelReq, backend: string)
    requires req.name != "" && req.engine in ENGINES && req.path != "" && req.endpoint == "" && req.tp >= 0
             && req.pp == 2
    ensures exists env: Env, requests ::
              var s := RunOf(env, requests);
              && req.name in s.models && env.self in s.views
              && s.models[req.name].status == Online && Derived(s.models[req.name], s.views[env.self]) == Offline
  {
    var env := Env("c", [Member("a", true), Member("b", true), Member("c", true)], backend);
    var requests := [RegisterReq(req, true, Answers(_ => true, _ => Loads))];
    ThreeAlive("a", "b", "c");
    FreshPipelineLoads(env, req, Answers(_ => true, _ => Loads));
    DerivedForPipeline(env, requests, req.name);
    assert AliveOf(env.members)[..2] == ["a", "b"];
  }

  /** A failed pipeline is never shown online: it is shown as failed where a load failed on this node. */
  lemma DerivedForFailedPipeline(env: Env, requests: seq<Request>, name: string)
    requires var s := RunOf(env, requests);
             name in s.models && s.models[name].status == StatusError && s.models[name].endpoint == ""
               && s.models[name].pipelineParallel > 1
    ensures var s := RunOf(env, requests);
            && env.self in s.views
            && Derived(s.models[name], s.views[env.self])
               == if exists id :: Has(s.views, env.self, id, name) then StatusError else Offline
  {
    RunKeeps(env, requests);
    var s := RunOf(env, requests);
    var v := s.views[env.self];
    assert StatusTrue(env, s.models[name], s.views);
    forall id | id in v && v[id].modelName == name ensures v[id].state == Error {
      assert Has(s.views, env.self, id, name);
    }
    if id :| Has(s.views, env.self, id, name) {
      assert v[id].state == Error;
    } else {
      forall id | id in v ensures v[id].modelName != name {
        assert !Has(s.views, env.self, id, name);
      }
    }
  }

  // ---------- The handlers as they run ----------

  ghost predicate Keyed(env: Env, s: State) {
    s.views.Keys == Reached(env) && forall name :: name in s.models ==> s.models[name].name == name
  }

  class Server {
    var models: map<string, Model>
    var views: Views
    const env: Env

    function AsState(): State
      reads this
    {
      State(models, views)
    }

    /** What the handlers need; RunKeeps adds what they keep. */
    ghost predicate Valid()
      reads this
    {
      Keyed(env, AsState())
    }

    constructor (env: Env)
      ensures Valid() && this.env == env && AsState() == Fresh(env)
    {
      this.env := env;
      models, views := map[], map n | n in Reached(env) :: map[];
    }

    /** Stop, one by one, the instances of a model that one agent lists. */
    method StopOn(node: Node, name: string)
      requires node in views
      modifies this`views
      ensures views == old(views)[node := OtherModels(old(views)[node], name)]
    {
      var mine := views[node];
      ghost var v0 := mine;
      var rest := mine.Keys;
      while rest != {}
        invariant rest <= v0.Keys && mine == LeftOver(v0, rest, name)
        decreases rest
      {
        var id :| id in rest;
        if mine[id].modelName == name {
          mine := mine - {id};
        }
        rest := rest - {id};
      }
      assert mine == OtherModels(v0, name);
      views := views[node := mine];
    }

    method StopModelEverywhere(name: string)
      requires views.Keys == Reached(env)
      modifies this`views
      ensures views == AfterStop(env, old(views), name)
    {
      StopOn(env.self, name);
      for k := 0 to |env.members|
        invariant StoppedUpTo(old(views), views, env, name, k)
      {
        var node := env.members[k];
        StoppedOneMore(old(views), views, env, name, k);
        if node.node == env.self || !node.alive {
          continue;
        }
        StopOn(node.node, name);
      }
      assert env.members[..|env.members|] == env.members;
    }

    method DeployModel(m: Model, a: Answers) returns (ok: bool)
      requires views.Keys == Reached(env)
      modifies this`views
      ensures (ok, views) == AfterDeploy(env, old(views), m, a) && views.Keys == old(views.Keys)
    {
      if m.endpoint != "" {
        return true;
      }
      if m.pipelineParallel > 1 {
        var nodes := AliveMembers(env.members, m.pipelineParallel);
        var r, v := PPCoordinator.Deploy(views, m, nodes, m.path, [], env.backend, a.rank);
        if |nodes| >= m.pipelineParallel {
          var plan := PlanOf(m, nodes, m.path, [], env.backend);
          AddRanksKeys(views, plan, OutcomesOf(plan, a.rank), r.Ok?, |plan|);
        }
        ok, views := r.Ok?, v;
        return;
      }
      var id := WebInstanceId(m.name);
      var mine := views[env.self] - {id};
      ok := a.load(WebSpec(m, m.path));
      views := views[env.self := mine[id := WebRecord(m, ok)]];
      assert mine[id := WebRecord(m, ok)] == old(views)[env.self][id := WebRecord(m, ok)];
    }

    method SetStatus(name: string, status: Status)
      modifies this`models
      ensures models == if name in old(models) then old(models)[name := old(models)[name].(status := status)]
                        else old(models)
    {
      if name in models {
        models := models[name := models[name].(status := status)];
      }
    }

    /** Deploy a stored model and persist how it went. */
    method DeployStored(m: Model, a: Answers) returns (status: Status)
      requires views.Keys == Reached(env) && m.name in models && models[m.name].(status := m.status) == m
      modifies this
      ensures (AsState(), status) == DeployAndStore(env, old(AsState()), m, a) && views.Keys == old(views.Keys)
    {
      var ok := DeployModel(m, a);
      status := if ok then Online else StatusError;
      SetStatus(m.name, status);
    }

    method RegisterModel(req: ModelReq, pathExists: bool, a: Answers) returns (reply: Reply)
      requires Valid()
      modifies this
      ensures Valid() && (AsState(), reply) == Register(env, old(AsState()), req, pathExists, a)
      ensures old(Inv(env, AsState())) ==> Inv(env, AsState())
    {
      HandleKeeps(env, AsState(), RegisterReq(req, pathExists, a));
      if req.name == "" || req.engine !in ENGINES || (req.path == "" && req.endpoint == "") {
        return BadRequest;
      }
      if req.pp > 1 {
        var alive := AliveMembers(env.members, 0);
        if |alive| < req.pp {
          return BadRequest;
        }
      }
      if req.name in models {
        return Conflict;
      }
      var m := NewModel(req);
      if (m.path != "" && !pathExists) || !Validates(m) {
        return BadRequest;
      }
      models := models[m.name := m];
      var status := DeployStored(m, a);
      PutAgain(old(models), m.name, m, m.(status := status));
      return Reply.Created(status);
    }

    method UpdateModel(name: string, req: ModelReq, a: Answers) returns (reply: Reply)
      requires Valid()
      modifies this
      ensures Valid() && (AsState(), reply) == Update(env, old(AsState()), name, req, a)
      ensures old(Inv(env, AsState())) ==> Inv(env, AsState())
    {
      HandleKeeps(env, AsState(), UpdateReq(name, req, a));
      if name !in models {
        return Reply.NotFound;
      }
      var (m, needRedeploy) := Edited(models[name], req);
      if !Validates(m) {
        return BadRequest;
      }
      models := models[m.name := m];
      if needRedeploy && m.status != Disabled {
        StopModelEverywhere(name);
        SetStatus(name, Deploying);
        var status := DeployStored(m, a);
        PutAgain(old(models)[m.name := m], name, m.(status := Deploying), m.(status := status));
        return Reply.OK(status);
      }
      return Reply.OK(m.status);
    }

    method ToggleModel(name: string, a: Answers) returns (reply: Reply)
      requires Valid()
      modifies this
      ensures Valid() && (AsState(), reply) == Toggle(env, old(AsState()), name, a)
      ensures old(Inv(env, AsState())) ==> Inv(env, AsState())
    {
      HandleKeeps(env, AsState(), ToggleReq(name, a));
      if name !in models {
        return Reply.NotFound;
      }
      var m := models[name];
      if m.status == Disabled {
        SetStatus(name, Deploying);
        var status := DeployStored(m, a);
        PutAgain(old(models), name, m.(status := Deploying), m.(status := status));
        return Reply.OK(status);
      }
      StopModelEverywhere(name);
      SetStatus(name, Disabled);
      return Reply.OK(Disabled);
    }

    method DeleteModel(name: string) returns (reply: Reply)
      requires Valid()
      modifies this
      ensures Valid() && (AsState(), reply) == Delete(env, old(AsState()), name)
      ensures old(Inv(env, AsState())) ==> Inv(env, AsState())
    {
      HandleKeeps(env, AsState(), DeleteReq(name));
      if name !in models {
        return Reply.NotFound;
      }
      StopModelEverywhere(name);
      models := models - {name};
      return NoContent;
    }
  }

  /** What is left of a listing once all but `rest` of it has been looked at. */
  ghost function LeftOver(v: map<string, Instance>, rest: set<string>, name: string): map<string, Instance> {
    map id | id in v && (id in rest || v[id].modelName != name) :: v[id]
  }

  lemma OtherModelsTwice(v: map<string, Instance>, name: string)
    ensures OtherModels(OtherModels(v, name), name) == OtherModels(v, name)
  {
  }

  /** This node and the first k members, if alive, have stopped the model. */
  ghost predicate StoppedUpTo(v: Views, v': Views, env: Env, name: string, k: nat)
    requires k <= |env.members|
  {
    && v'.Keys == v.Keys == Reached(env)
    && forall n :: n in v ==>
         v'[n] == if n == env.self || n in AliveOf(env.members[..k]) then OtherModels(v[n], name) else v[n]
  }

  lemma StoppedOneMore(v: Views, v': Views, env: Env, name: string, k: nat)
    requires k < |env.members| && StoppedUpTo(v, v', env, name, k)
    ensures var m := env.members[k];
            if m.node == env.self || !m.alive then StoppedUpTo(v, v', env, name, k + 1)
            else m.node in v' && StoppedUpTo(v, v'[m.node := OtherModels(v'[m.node], name)], env, name, k + 1)
  {
    assert env.members[..k + 1][..k] == env.members[..k];
    if env.members[k].alive {
      AliveIsReached(env, k);
      OtherModelsTwice(v[env.members[k].node], name);
    }
  }

  lemma AliveIsReached(env: Env, k: nat)
    requires k < |env.members| && env.members[k].alive
    ensures env.members[k].node in AliveOf(env.members[..k + 1]) && env.members[k].node in Reached(env)
  {
    assert env.members[..k + 1][..k] == env.members[..k];
    AliveOfPrefix(env.members, k + 1);
  }

  /** A listing: the values of the view, in some order. */
  ghost predicate Listing(insts: seq<Instance>, v: map<string, Instance>) {
    && (forall id :: id in v ==> v[id] in insts)
    && (forall i :: 0 <= i < |insts| ==> exists id :: id in v && v[id] == insts[i])
  }

  method DeriveModelStatus(m: Model, insts: seq<Instance>, ghost v: map<string, Instance>) returns (status: Status)
    requires Listing(insts, v)
    ensures status == Derived(m, v)
  {
    if m.status == Disabled {
      return Disabled;
    }
    if m.endpoint != "" {
      return m.status;
    }
    var ready, loading, failed := false, false, false;
    for k := 0 to |insts|
      invariant ready <==> exists i :: 0 <= i < k && insts[i].modelName == m.name && insts[i].state == Ready
      invariant loading <==> exists i :: 0 <= i < k && insts[i].modelName == m.name && insts[i].state == Loading
      invariant failed <==> exists i :: 0 <= i < k && insts[i].modelName == m.name && insts[i].state == Error
    {
      if insts[k].modelName != m.name {
        continue;
      }
      match insts[k].state {
        case Ready => ready := true;
        case Loading => loading := true;
        case Error => failed := true;
        case Stopped =>
      }
    }
    ListedState(m.name, Ready, insts, v);
    ListedState(m.name, Loading, insts, v);
    ListedState(m.name, Error, insts, v);
    return if ready then Online else if loading then Deploying else if failed then StatusError else Offline;
  }

  lemma ListedState(name: string, state: InstanceState, insts: seq<Instance>, v: map<string, Instance>)
    requires Listing(insts, v)
    ensures (exists i :: 0 <= i < |insts| && insts[i].modelName == name && insts[i].state == state)
            <==> (exists id :: id in v && v[id].modelName == name && v[id].state == state)
  {
    if id :| id in v && v[id].modelName == name && v[id].state == state {
      assert v[id] in insts;
      var i :| 0 <= i < |insts| && insts[i] == v[id];
    }
  }
}
