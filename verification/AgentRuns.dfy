/** One agent under concurrent calls. DeployInstance holds the mutex only to reserve and to
    commit; StopInstance unloads the engine after letting it go. Deployments, stops and the
    health loop (whose actions are stops and deployments) interleave at those boundaries. */
module AgentRuns {
  import opened AgentModel
  import opened SelfHeal

  /** `inflight`: deployers between reservation and commit. `live`: engines committed and not yet
      unloaded. `unloading`: engines a stop has taken and not yet unloaded. `stopping`: records a
      stop has removed and not yet marked. `cutShort`: records a stop removed while still Loading. */
  datatype System = System(
    a: AgentState, inflight: set<Token>, live: set<Token>,
    unloading: set<Token>, stopping: set<Token>, cutShort: set<Token>)

  datatype Step =
    | Begin(id: string, modelName: string, spec: DeploySpec)
    | LoadOk(t: Token)
    | LoadFail(t: Token)
    | BeginStop(id: string)
    | Unload(t: Token)
    | FinishStop(t: Token)

  const INITIAL := System(EMPTY_AGENT, {}, {}, {}, {}, {})

  ghost predicate Enabled(s: System, step: Step) {
    match step
    case Begin(_, _, _) => true
    case LoadOk(t) => t in s.inflight && t in s.a.recs
    case LoadFail(t) => t in s.inflight && t in s.a.recs
    case BeginStop(_) => true
    case Unload(t) => t in s.unloading
    case FinishStop(t) => t in s.stopping && t in s.a.recs
  }

  ghost function Apply(s: System, step: Step): System
    requires Enabled(s, step)
  {
    match step
    case Begin(id, modelName, spec) =>
      var (a', t) := Reserve(s.a, id, modelName, spec);
      if t.None? then s else s.(a := a', inflight := s.inflight + {t.value})
    case LoadOk(t) => s.(a := CommitReady(s.a, t), inflight := s.inflight - {t}, live := s.live + {t})
    case LoadFail(t) => s.(a := CommitError(s.a, t), inflight := s.inflight - {t})
    case BeginStop(id) =>
      var (a', r) := Remove(s.a, id);
      if r.NotFound? then s
      else
        s.(a := a', stopping := s.stopping + {r.rec},
           unloading := s.unloading + (if r.eng.Some? then {r.eng.value} else {}),
           cutShort := s.cutShort + (if r.rec in s.inflight then {r.rec} else {}))
    case Unload(t) => s.(unloading := s.unloading - {t}, live := s.live - {t})
    case FinishStop(t) => s.(a := MarkStopped(s.a, t), stopping := s.stopping - {t})
  }

  ghost predicate Next(s: System, s': System) {
    exists step :: Enabled(s, step) && s' == Apply(s, step)
  }

  ghost predicate IsRun(run: seq<System>) {
    && |run| > 0 && run[0] == INITIAL
    && forall i :: 0 <= i < |run| - 1 ==> Next(run[i], run[i + 1])
  }

  /** The instance map points at this record. */
  predicate Listed(a: AgentState, t: Token) {
    t in a.recs && a.recs[t].id in a.instances && a.instances[a.recs[t].id] == t
  }

  ghost function ReadyRecords(a: AgentState): set<Token> {
    set t | t in a.recs && Listed(a, t) && a.recs[t].state == Ready
  }

  /** Live engines that are neither those of a Ready record nor on their way out. */
  ghost function Surplus(s: System): set<Token> {
    s.live - s.unloading - ReadyRecords(s.a)
  }

  ghost predicate Shape(s: System) {
    && s.a.Wf()
    && s.inflight <= s.a.recs.Keys && s.live <= s.a.recs.Keys && s.unloading <= s.live
    && s.stopping <= s.a.recs.Keys && s.cutShort <= s.a.recs.Keys
    && s.inflight !! s.live
  }

  /** What holds of one record. */
  ghost predicate RecordInv(s: System, t: Token)
    requires t in s.a.recs
  {
    var state := s.a.recs[t].state;
    if Listed(s.a, t) then
      && (state == Loading <==> t in s.inflight) && state != Stopped
      && (state == Ready ==> t in s.live && t !in s.unloading && s.a.recs[t].id in s.a.engines)
      && t !in s.stopping && t !in s.cutShort
    else t in s.inflight ==> t in s.cutShort
  }

  ghost predicate Inv(s: System) {
    && Shape(s)
    && (forall t :: t in s.a.recs ==> RecordInv(s, t))
    && (forall id :: id in s.a.engines ==> s.a.engines[id] in s.live && s.a.engines[id] !in s.unloading)
  }

  ghost predicate Bounded(s: System) {
    |Surplus(s)| + |s.inflight * s.cutShort| <= |s.cutShort|
  }

  // ---------- What each section does to the tables ----------

  lemma ReserveListing(a: AgentState, id: string, modelName: string, spec: DeploySpec)
    requires a.Wf() && id !in a.instances
    ensures var a' := Reserve(a, id, modelName, spec).0;
            && a'.Wf() && a'.recs.Keys == a.recs.Keys + {a.next} && Listed(a', a.next)
            && (forall t :: t in a.recs ==> a'.recs[t] == a.recs[t] && (Listed(a', t) <==> Listed(a, t)))
            && ReadyRecords(a') == ReadyRecords(a)
  {
    var a' := Reserve(a, id, modelName, spec).0;
    forall t | t in a.recs ensures Listed(a', t) <==> Listed(a, t) {
      assert t != a.next;
    }
  }

  lemma SetStateListing(a: AgentState, t: Token, state: InstanceState, engines: map<string, Token>)
    requires a.Wf() && t in a.recs && (engines == a.engines || engines == a.engines[a.recs[t].id := t])
    ensures var a' := a.(recs := a.recs[t := a.recs[t].(state := state)], engines := engines);
            && a'.Wf() && a'.recs.Keys == a.recs.Keys
            && (forall r :: Listed(a', r) <==> Listed(a, r))
            && ReadyRecords(a')
               == if Listed(a, t) && state == Ready then ReadyRecords(a) + {t} else ReadyRecords(a) - {t}
  {
    var a' := a.(recs := a.recs[t := a.recs[t].(state := state)], engines := engines);
    forall r ensures Listed(a', r) <==> Listed(a, r) {
    }
  }

  lemma RemoveListing(a: AgentState, id: string)
    requires a.Wf() && id in a.instances
    ensures var a' := Remove(a, id).0;
            && a'.Wf() && a'.recs == a.recs
            && (forall t :: Listed(a', t) <==> Listed(a, t) && t != a.instances[id])
            && ReadyRecords(a') == ReadyRecords(a) - {a.instances[id]}
  {
    var a' := Remove(a, id).0;
    forall t ensures Listed(a', t) <==> Listed(a, t) && t != a.instances[id] {
    }
  }

  // ---------- Every step keeps the invariant ----------

  lemma BeginKeeps(s: System, step: Step)
    requires Inv(s) && step.Begin?
    ensures Inv(Apply(s, step))
    ensures Bounded(s) ==> Bounded(Apply(s, step))
  {
    var s' := Apply(s, step);
    if step.id !in s.a.instances {
      ReserveListing(s.a, step.id, step.modelName, step.spec);
      assert Inv(s') by {
        forall t | t in s'.a.recs ensures RecordInv(s', t) {
          assert t != s.a.next ==> RecordInv(s, t);
        }
      }
      assert s.a.next !in s.cutShort;
      assert s'.inflight * s'.cutShort == s.inflight * s.cutShort;
      assert Surplus(s') == Surplus(s);
    }
  }

  lemma LoadOkInv(s: System, step: Step)
    requires Inv(s) && step.LoadOk? && Enabled(s, step)
    ensures Inv(Apply(s, step))
  {
    var s', t := Apply(s, step), step.t;
    SetStateListing(s.a, t, Ready, s.a.engines[s.a.recs[t].id := t]);
    forall r | r in s'.a.recs ensures RecordInv(s', r) {
      assert RecordInv(s, r);
    }
  }

  /** A commit by a listed deployer adds a Ready record with its engine; one by a deployer whose
      record was removed adds surplus. */
  lemma SurplusAfterLoadOk(s: System, t: Token)
    requires Shape(s) && t in s.inflight
    ensures |Surplus(Apply(s, LoadOk(t)))| <= |Surplus(s)| + if Listed(s.a, t) then 0 else 1
  {
    var s' := Apply(s, LoadOk(t));
    SetStateListing(s.a, t, Ready, s.a.engines[s.a.recs[t].id := t]);
    if Listed(s.a, t) {
      CountSubset(Surplus(s'), Surplus(s));
    } else {
      CountSubset(Surplus(s'), Surplus(s) + {t});
    }
  }

  lemma LoadOkBounded(s: System, t: Token)
    requires Shape(s) && t in s.inflight && RecordInv(s, t) && Bounded(s)
    ensures Bounded(Apply(s, LoadOk(t)))
  {
    SurplusAfterLoadOk(s, t);
    CountRemoved(s.inflight, s.cutShort, t);
  }

  lemma CountRemoved(a: set<Token>, b: set<Token>, t: Token)
    requires t in a
    ensures |(a - {t}) * b| == |a * b| - if t in b then 1 else 0
  {
    assert (a - {t}) * b == a * b - {t};
  }

  lemma CountAdded(a: set<Token>, b: set<Token>, t: Token)
    requires t !in b
    ensures |b + {t}| == |b| + 1
    ensures |a * (b + {t})| == |a * b| + if t in a then 1 else 0
  {
    if t in a {
      assert a * (b + {t}) == a * b + {t};
    } else {
      assert a * (b + {t}) == a * b;
    }
  }

  lemma {:induction false} CountSubset(a: set<Token>, b: set<Token>)
    requires a <= b
    ensures |a| <= |b|
  {
    assert b == a + (b - a);
  }

  lemma LoadFailInv(s: System, step: Step)
    requires Inv(s) && step.LoadFail? && Enabled(s, step)
    ensures Inv(Apply(s, step))
  {
    var s', t := Apply(s, step), step.t;
    SetStateListing(s.a, t, Error, s.a.engines);
    forall r | r in s'.a.recs ensures RecordInv(s', r) {
      assert RecordInv(s, r);
    }
  }

  lemma SurplusAfterLoadFail(s: System, t: Token)
    requires Shape(s) && t in s.inflight
    ensures Surplus(Apply(s, LoadFail(t))) == Surplus(s)
  {
    SetStateListing(s.a, t, Error, s.a.engines);
  }

  lemma LoadFailBounded(s: System, t: Token)
    requires Shape(s) && t in s.inflight && RecordInv(s, t) && Bounded(s)
    ensures Bounded(Apply(s, LoadFail(t)))
  {
    SurplusAfterLoadFail(s, t);
    CountRemoved(s.inflight, s.cutShort, t);
  }

  lemma BeginStopInv(s: System, step: Step)
    requires Inv(s) && step.BeginStop?
    ensures Inv(Apply(s, step))
  {
    var s', id := Apply(s, step), step.id;
    if id in s.a.instances {
      RemoveListing(s.a, id);
      forall r | r in s'.a.recs ensures RecordInv(s', r) {
        assert RecordInv(s, r);
        assert Listed(s'.a, r) ==> s.a.recs[r].id != id;
      }
      forall i | i in s'.a.engines ensures s'.a.engines[i] in s'.live && s'.a.engines[i] !in s'.unloading {
        assert s.a.recs[s.a.engines[i]].id == i;
      }
    }
  }

  /** Whatever engine the stop takes, the surplus does not grow: if it is not the engine of the
      removed Ready record then it was itself surplus, and the two trade places. */
  lemma SurplusAfterStop(s: System, id: string)
    requires Shape(s) && id in s.a.instances && RecordInv(s, s.a.instances[id])
    requires id in s.a.engines ==> s.a.engines[id] in s.live && s.a.engines[id] !in s.unloading
    ensures |Surplus(Apply(s, BeginStop(id)))| <= |Surplus(s)|
  {
    var s', rec := Apply(s, BeginStop(id)), s.a.instances[id];
    RemoveListing(s.a, id);
    if id !in s.a.engines || s.a.engines[id] == rec || s.a.recs[rec].state != Ready {
      CountSubset(Surplus(s'), Surplus(s));
    } else {
      var eng := s.a.engines[id];
      assert !Listed(s.a, eng) && eng in Surplus(s);
      CountSubset(Surplus(s'), Surplus(s) - {eng} + {rec});
    }
  }

  lemma BeginStopBounded(s: System, id: string)
    requires Shape(s) && Bounded(s)
    requires id in s.a.instances ==> RecordInv(s, s.a.instances[id])
    requires id in s.a.engines ==> s.a.engines[id] in s.live && s.a.engines[id] !in s.unloading
    ensures Bounded(Apply(s, BeginStop(id)))
  {
    if id in s.a.instances {
      var rec := s.a.instances[id];
      var s' := Apply(s, BeginStop(id));
      SurplusAfterStop(s, id);
      CountAdded(s.inflight, s.cutShort, rec);
      assert s'.inflight == s.inflight && s'.cutShort == if rec in s.inflight then s.cutShort + {rec} else s.cutShort;
    }
  }

  lemma UnloadKeeps(s: System, step: Step)
    requires Inv(s) && step.Unload? && Enabled(s, step) && Bounded(s)
    ensures Inv(Apply(s, step)) && Bounded(Apply(s, step))
  {
    var s' := Apply(s, step);
    assert Surplus(s') == Surplus(s);
    forall r | r in s'.a.recs ensures RecordInv(s', r) {
      assert RecordInv(s, r);
    }
  }

  lemma FinishStopKeeps(s: System, step: Step)
    requires Inv(s) && step.FinishStop? && Enabled(s, step) && Bounded(s)
    ensures Inv(Apply(s, step)) && Bounded(Apply(s, step))
  {
    var s', t := Apply(s, step), step.t;
    assert RecordInv(s, t);
    SetStateListing(s.a, t, Stopped, s.a.engines);
    forall r | r in s'.a.recs ensures RecordInv(s', r) {
      assert RecordInv(s, r);
    }
    assert Surplus(s') == Surplus(s);
  }

  lemma StepKeeps(s: System, step: Step)
    requires Inv(s) && Bounded(s) && Enabled(s, step)
    ensures Inv(Apply(s, step)) && Bounded(Apply(s, step))
  {
    match step
    case Begin(_, _, _) => BeginKeeps(s, step);
    case LoadOk(t) =>
      assert RecordInv(s, t);
      LoadOkInv(s, step);
      LoadOkBounded(s, t);
    case LoadFail(t) =>
      assert RecordInv(s, t);
      LoadFailInv(s, step);
      LoadFailBounded(s, t);
    case BeginStop(id) =>
      BeginStopInv(s, step);
      assert id in s.a.instances ==> RecordInv(s, s.a.instances[id]);
      BeginStopBounded(s, id);
    case Unload(_) => UnloadKeeps(s, step);
    case FinishStop(_) => FinishStopKeeps(s, step);
  }

  lemma {:induction false} RunKeeps(run: seq<System>, i: nat)
    requires IsRun(run) && i < |run|
    ensures Inv(run[i]) && Bounded(run[i])
  {
    if i == 0 {
      assert ReadyRecords(INITIAL.a) == {};
    } else {
      RunKeeps(run, i - 1);
      assert Next(run[i - 1], run[(i - 1) + 1]);
      var step :| Enabled(run[i - 1], step) && run[i] == Apply(run[i - 1], step);
      StepKeeps(run[i - 1], step);
    }
  }

  /** In every reachable state a live engine is stored under the id of a listed Ready instance and the
      one its own deployer made is live; the two are the same unless a stop cut a load short. A listed
      record is Loading exactly while its own deployer is in flight. */
  lemma ReadyHasEngine(run: seq<System>, i: nat, id: string)
    requires IsRun(run) && i < |run| && id in run[i].a.instances
    ensures var s := run[i];
            && s.a.instances[id] in s.a.recs
            && (s.a.Rec(id).state == Ready ==>
                  id in s.a.engines && s.a.engines[id] in s.live && s.a.instances[id] in s.live)
            && (s.a.Rec(id).state == Ready && s.cutShort == {} ==> s.a.engines[id] == s.a.instances[id])
            && (s.a.Rec(id).state == Loading <==> s.a.instances[id] in s.inflight)
            && s.a.Rec(id).state != Stopped
  {
    RunKeeps(run, i);
    var s := run[i];
    assert Listed(s.a, s.a.instances[id]) && RecordInv(s, s.a.instances[id]);
    if id in s.a.engines && s.cutShort == {} {
      Accounts(s);
      assert s.a.engines[id] in ReadyRecords(s.a);
    }
  }

  lemma CountThree(live: set<Token>, ready: set<Token>, unloading: set<Token>)
    requires ready <= live && unloading <= live && ready !! unloading
    ensures |live| == |ready| + |unloading| + |live - unloading - ready|
  {
    assert live == (ready + unloading) + (live - unloading - ready);
    assert |live| == |ready + unloading| + |live - unloading - ready|;
  }

  /** Engine accounting over every interleaving: live engines are the Ready records, plus those
      being unloaded, plus a surplus of at most one per stop that cut a load short. */
  lemma EngineAccounting(run: seq<System>, i: nat)
    requires IsRun(run) && i < |run|
    ensures var s := run[i];
            && |ReadyRecords(s.a)| + |s.unloading| <= |s.live|
            && |s.live| <= |ReadyRecords(s.a)| + |s.unloading| + |s.cutShort|
            && (s.cutShort == {} ==> s.live == ReadyRecords(s.a) + s.unloading)
  {
    RunKeeps(run, i);
    Accounts(run[i]);
  }

  lemma Accounts(s: System)
    requires Inv(s) && Bounded(s)
    ensures |ReadyRecords(s.a)| + |s.unloading| <= |s.live| <= |ReadyRecords(s.a)| + |s.unloading| + |s.cutShort|
    ensures s.cutShort == {} ==> s.live == ReadyRecords(s.a) + s.unloading
  {
    assert forall t :: t in ReadyRecords(s.a) ==> RecordInv(s, t);
    CountThree(s.live, ReadyRecords(s.a), s.unloading);
    if s.cutShort == {} {
      assert |Surplus(s)| == 0 && Surplus(s) == {};
    }
  }

  // ---------- Which engines are lost ----------

  /** A live engine no table holds and no stop is unloading. */
  ghost predicate Lost(s: System, e: Token) {
    && e in s.live && e !in s.unloading
    && (forall id :: id in s.a.engines ==> s.a.engines[id] != e)
  }

  ghost function LostEngines(s: System): set<Token> {
    set e | e in s.live && Lost(s, e)
  }

  /** The commit of t finds the engine e already stored under its id. */
  ghost predicate FindsEngine(s: System, t: Token, e: Token) {
    t in s.a.recs && s.a.recs[t].id in s.a.engines && s.a.engines[s.a.recs[t].id] == e
  }

  /** An engine is lost exactly by the commit that finds it under its own id, and then stays lost. */
  lemma LostStep(s: System, step: Step, e: Token)
    requires Inv(s) && Enabled(s, step)
    ensures Lost(Apply(s, step), e) <==> Lost(s, e) || (step.LoadOk? && FindsEngine(s, step.t, e))
  {
    match step
    case Begin(_, _, _) =>
    case LoadOk(t) => LostByCommit(s, t, e);
    case LoadFail(_) =>
    case BeginStop(id) => LostByStop(s, id, e);
    case Unload(_) =>
    case FinishStop(_) =>
  }

  lemma LostByCommit(s: System, t: Token, e: Token)
    requires Inv(s) && Enabled(s, LoadOk(t))
    ensures Lost(Apply(s, LoadOk(t)), e) <==> Lost(s, e) || FindsEngine(s, t, e)
  {
    var s', id := Apply(s, LoadOk(t)), s.a.recs[t].id;
    assert s'.a.engines[id] == t;
    if i :| i in s.a.engines && s.a.engines[i] == e {
      assert s.a.recs[e].id == i;
      if i != id {
        assert i in s'.a.engines && s'.a.engines[i] == e;
      }
    }
  }

  lemma LostByStop(s: System, id: string, e: Token)
    requires Inv(s)
    ensures Lost(Apply(s, BeginStop(id)), e) <==> Lost(s, e)
  {
    var s' := Apply(s, BeginStop(id));
    if i :| i in s.a.engines && s.a.engines[i] == e {
      if i != id {
        assert i in s'.a.engines && s'.a.engines[i] == e;
      }
    }
  }

  ghost predicate Overwrites(s: System, s': System, t: Token, e: Token) {
    Enabled(s, LoadOk(t)) && s' == Apply(s, LoadOk(t)) && FindsEngine(s, t, e)
  }

  ghost predicate OverwritesEngine(s: System, s': System, e: Token) {
    exists t :: Overwrites(s, s', t, e)
  }

  /** Some commit before the i-th state found e under its id. */
  ghost predicate WasOverwritten(run: seq<System>, i: nat, e: Token)
    requires i < |run|
  {
    exists j :: 0 <= j < i && OverwrittenAt(run, j, e)
  }

  ghost predicate OverwrittenAt(run: seq<System>, j: nat, e: Token)
    requires j + 1 < |run|
  {
    OverwritesEngine(run[j], run[j + 1], e)
  }

  ghost predicate IsOverwriting(s: System, s': System) {
    exists t, e :: Overwrites(s, s', t, e)
  }

  /** How many commits found an engine under their id. */
  ghost function Overwritings(run: seq<System>, i: nat): nat
    requires i < |run|
  {
    if i == 0 then 0 else Overwritings(run, i - 1) + if IsOverwriting(run[i - 1], run[i]) then 1 else 0
  }

  lemma LostAfterNext(s: System, s': System, e: Token)
    requires Inv(s) && Next(s, s')
    ensures Lost(s', e) <==> Lost(s, e) || OverwritesEngine(s, s', e)
  {
    var step :| Enabled(s, step) && s' == Apply(s, step);
    LostStep(s, step, e);
    assert step.LoadOk? && FindsEngine(s, step.t, e) ==> Overwrites(s, s', step.t, e);
    if t :| Overwrites(s, s', t, e) {
      LostStep(s, LoadOk(t), e);
    }
  }

  lemma OverwrittenNext(run: seq<System>, i: nat, e: Token)
    requires 0 < i < |run|
    ensures WasOverwritten(run, i, e) <==> WasOverwritten(run, i - 1, e) || OverwritesEngine(run[i - 1], run[i], e)
  {
    assert OverwrittenAt(run, i - 1, e) <==> OverwritesEngine(run[i - 1], run[i], e);
  }

  /** In every run the lost engines are exactly those that some commit found under its id. */
  lemma {:induction false} LostIffOverwritten(run: seq<System>, i: nat, e: Token)
    requires IsRun(run) && i < |run|
    ensures Lost(run[i], e) <==> WasOverwritten(run, i, e)
    decreases i
  {
    if i > 0 {
      LostIffOverwritten(run, i - 1, e);
      RunKeeps(run, i - 1);
      assert Next(run[i - 1], run[(i - 1) + 1]);
      LostAfterNext(run[i - 1], run[i], e);
      OverwrittenNext(run, i, e);
    }
  }

  /** A lost engine keeps its memory for ever: no step of any call unloads it. */
  lemma LostForever(run: seq<System>, i: nat, j: nat, e: Token)
    requires IsRun(run) && i <= j < |run| && Lost(run[i], e)
    ensures Lost(run[j], e)
  {
    LostIffOverwritten(run, i, e);
    LostIffOverwritten(run, j, e);
  }

  lemma CommitLosesOne(s: System, s': System, t: Token, e: Token)
    requires Inv(s) && Overwrites(s, s', t, e)
    ensures |LostEngines(s')| == |LostEngines(s)| + 1
  {
    forall x ensures Lost(s', x) <==> Lost(s, x) || x == e {
      LostStep(s, LoadOk(t), x);
    }
    assert LostEngines(s') == LostEngines(s) + {e};
  }

  lemma OneMoreLost(s: System, s': System)
    requires Inv(s) && Next(s, s')
    ensures |LostEngines(s')| == |LostEngines(s)| + if IsOverwriting(s, s') then 1 else 0
  {
    if t, e :| Overwrites(s, s', t, e) {
      CommitLosesOne(s, s', t, e);
    } else {
      forall e ensures Lost(s', e) <==> Lost(s, e) {
        LostAfterNext(s, s', e);
      }
      assert LostEngines(s') == LostEngines(s);
    }
  }

  lemma {:induction false} LostCount(run: seq<System>, i: nat)
    requires IsRun(run) && i < |run|
    ensures |LostEngines(run[i])| == Overwritings(run, i)
  {
    if i > 0 {
      LostCount(run, i - 1);
      RunKeeps(run, i - 1);
      assert Next(run[i - 1], run[(i - 1) + 1]);
      OneMoreLost(run[i - 1], run[i]);
    }
  }

  lemma {:induction false} DistinctEngines(engines: map<string, Token>)
    requires forall i, j :: i in engines && j in engines && engines[i] == engines[j] ==> i == j
    ensures |engines.Values| == |engines|
    decreases |engines|
  {
    if id :| id in engines {
      var rest := engines - {id};
      assert |rest| == |engines| - 1 by {
        assert rest.Keys == engines.Keys - {id};
      }
      DistinctEngines(rest);
      forall t | t in engines.Values ensures t in rest.Values + {engines[id]} {
        var i :| i in engines && engines[i] == t;
        assert i != id ==> i in rest && rest[i] == t;
      }
      forall t | t in rest.Values ensures t in engines.Values && t != engines[id] {
        var i :| i in rest && rest[i] == t;
        assert i in engines && engines[i] == t;
      }
      assert engines.Values == rest.Values + {engines[id]};
    }
  }

  /** The exact balance: live engines are those in the table, those being unloaded, and one for every
      commit that found an engine under its id. */
  lemma EngineBalance(run: seq<System>, i: nat)
    requires IsRun(run) && i < |run|
    ensures |run[i].live| == |run[i].a.engines| + |run[i].unloading| + Overwritings(run, i)
  {
    RunKeeps(run, i);
    LostCount(run, i);
    var s := run[i];
    assert forall id :: id in s.a.engines ==> s.a.recs[s.a.engines[id]].id == id;
    DistinctEngines(s.a.engines);
    assert LostEngines(s) == s.live - s.unloading - s.a.engines.Values;
    CountThree(s.live, s.a.engines.Values, s.unloading);
  }

  ghost predicate LosesOne(s: System, id: string) {
    Lost(s, 0) && |s.cutShort| == 1 && |s.live| == 2 && Listed(s.a, 1) && id in s.a.instances && s.a.instances[id] == 1
  }

  ghost predicate Reachable(s: System) {
    exists run :: IsRun(run) && run[|run| - 1] == s
  }

  lemma ReachStart()
    ensures Reachable(INITIAL)
  {
    assert IsRun([INITIAL]);
  }

  lemma ReachStep(s: System, step: Step)
    requires Reachable(s) && Enabled(s, step)
    ensures Reachable(Apply(s, step))
  {
    var run :| IsRun(run) && run[|run| - 1] == s;
    var run' := run + [Apply(s, step)];
    forall i | 0 <= i < |run'| - 1 ensures Next(run'[i], run'[i + 1]) {
      if i < |run| - 1 {
        assert Next(run[i], run[i + 1]);
      }
    }
    assert IsRun(run');
  }

  /** Deploy, stop while loading, deploy again: two deployers are in flight for one id. */
  lemma TwoInFlight(id: string, spec: DeploySpec) returns (s: System)
    ensures Reachable(s) && s.a.Wf() && s.inflight == {0, 1} && s.live == {} && s.unloading == {} && s.stopping == {}
            && s.cutShort == {0}
    ensures s.a.recs.Keys == {0, 1} && s.a.recs[0].id == id && s.a.recs[1].id == id
    ensures s.a.instances == map[id := 1] && s.a.engines == map[]
  {
    ReachStart();
    ReachStep(INITIAL, Begin(id, "m", spec));
    var s1 := Apply(INITIAL, Begin(id, "m", spec));
    ReachStep(s1, BeginStop(id));
    var s2 := Apply(s1, BeginStop(id));
    ReachStep(s2, FinishStop(0));
    var s3 := Apply(s2, FinishStop(0));
    ReachStep(s3, Begin(id, "m", spec));
    s := Apply(s3, Begin(id, "m", spec));
  }

  /** If the first of them commits before the second, its engine is lost. */
  lemma SurplusIsReached(id: string, spec: DeploySpec)
    ensures exists s :: Reachable(s) && LosesOne(s, id)
  {
    var s := TwoInFlight(id, spec);
    ReachStep(s, LoadOk(0));
    var s1 := Apply(s, LoadOk(0));
    ReachStep(s1, LoadOk(1));
    var s2 := Apply(s1, LoadOk(1));
    assert s2.a.engines == map[id := 1] && s2.live == {0, 1};
  }

  // ---------- What a stop during a load does to self-heal ----------

  /** Nothing is going on, and the listed record is in Error while another deployer's engine is stored
      under its id. */
  ghost predicate Hidden(s: System, id: string) {
    && s.inflight == {} && s.unloading == {} && s.stopping == {}
    && id in s.a.instances && s.a.instances[id] in s.a.recs && s.a.Rec(id).state == Error
    && id in s.a.engines && s.a.engines[id] != s.a.instances[id]
  }

  /** Two deployers in flight for one id: the second load fails, then the first one succeeds. */
  lemma HiddenIsReached(id: string, spec: DeploySpec)
    ensures exists s :: Reachable(s) && Hidden(s, id)
  {
    var s := TwoInFlight(id, spec);
    ReachStep(s, LoadFail(1));
    var s1 := Apply(s, LoadFail(1));
    ReachStep(s1, LoadOk(0));
    var s2 := Apply(s1, LoadOk(0));
    assert s2.a.instances == map[id := 1] && s2.a.engines == map[id := 0];
  }

  /** From there self-heal never repairs the instance as long as that engine answers its probes, even
      if every load would succeed. */
  lemma HiddenIsNeverHealed(s: System, id: string, rounds: seq<Round>, modelsDir: string)
    requires Reachable(s) && Hidden(s, id)
    requires Orders(rounds, s.a.instances.Keys) && AlwaysHealthy(rounds, s.a.engines[id])
    ensures s.a.Wf()
    ensures var a' := HealthRounds(s.a, rounds, modelsDir); id in a'.instances && a'.Rec(id).state == Error
  {
    var run :| IsRun(run) && run[|run| - 1] == s;
    RunKeeps(run, |run| - 1);
    HealthyIsUntouched(s.a, rounds, modelsDir, id);
  }
}
