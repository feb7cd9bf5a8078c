/** The router under concurrent requests and registrations: what a split Resolve returns, what the
    load counters count, and how evenly requests spread. */
module RouterRuns {
  import opened Common
  import opened Router

  /** Requests by number, with the engine each has acquired and not released. */
  datatype System = System(r: State, active: map<nat, Engine>)

  datatype Step =
    | AddEngine(model: string, e: Engine, spare: nat)
    | DropEngine(model: string, e: Engine)
    | Begin(req: nat, e: Engine)
    | End(req: nat)

  /** Each request brackets its engine once: Acquire, then Release. */
  ghost predicate Enabled(s: System, step: Step) {
    && s.r.Valid()
    && match step
       case Begin(req, _) => req !in s.active
       case End(req) => req in s.active
       case _ => true
  }

  ghost function Apply(s: System, step: Step): System
    requires Enabled(s, step)
  {
    match step
    case AddEngine(model, e, spare) => s.(r := Register(s.r, model, e, spare))
    case DropEngine(model, e) => s.(r := Unregister(s.r, model, e))
    case Begin(req, e) => System(Acquire(s.r, e), s.active[req := e])
    case End(req) => System(Release(s.r, s.active[req]), s.active - {req})
  }

  ghost predicate Next(s: System, s': System, step: Step) {
    Enabled(s, step) && s' == Apply(s, step)
  }

  /** A run with the steps taken. */
  ghost predicate IsRun(run: seq<System>, steps: seq<Step>) {
    && |run| == |steps| + 1 && run[0].r.Valid()
    && forall i :: 0 <= i < |steps| ==> Next(run[i], run[i + 1], steps[i])
  }

  lemma {:induction false} RunValid(run: seq<System>, steps: seq<Step>, i: nat)
    requires IsRun(run, steps) && i < |run|
    ensures run[i].r.Valid()
  {
    if i > 0 {
      RunValid(run, steps, i - 1);
      assert Next(run[i - 1], run[(i - 1) + 1], steps[i - 1]);
      match steps[i - 1]
      case AddEngine(model, e, spare) => RegisterEffect(run[i - 1].r, model, e, spare);
      case DropEngine(model, e) => UnregisterEffect(run[i - 1].r, model, e);
      case _ =>
    }
  }

  // ---------- A Resolve split at its unlock ----------

  /** Registered for the model in some state from the first to the i-th. */
  ghost predicate SeenBy(run: seq<System>, i: nat, model: string, e: Engine)
    requires i < |run|
  {
    exists j :: 0 <= j <= i && e in run[j].r.List(model)
  }

  /** The captured header lies in its array, and no other model has taken the array over. */
  ghost predicate Held(s: State, model: string, h: Slice) {
    && h.arr in s.arrays && h.len <= |s.arrays[h.arr]|
    && (forall m :: m in s.heads && m != model ==> s.heads[m].arr != h.arr)
  }

  /** The header is held, and every cell it covers has an engine seen for the model. */
  ghost predicate HeaderOk(run: seq<System>, i: nat, model: string, h: Slice)
    requires i < |run|
  {
    && Held(run[i].r, model, h)
    && (forall k :: 0 <= k < h.len ==> SeenBy(run, i, model, run[i].r.arrays[h.arr][k]))
  }

  /** A cell of the captured array holds what it held, or an engine registered for the model before or
      after the step. */
  ghost predicate CellOk(s: State, s': State, model: string, h: Slice, k: nat)
    requires Held(s, model, h) && Held(s', model, h) && k < h.len
  {
    var c := s'.arrays[h.arr][k];
    c == s.arrays[h.arr][k] || c in s.List(model) || c in s'.List(model)
  }

  lemma CellAfterRegister(s: State, model: string, h: Slice, m: string, e: Engine, spare: nat)
    requires s.Valid() && Held(s, model, h)
    ensures var s' := Register(s, m, e, spare);
            Held(s', model, h) && forall k: nat :: k < h.len ==> CellOk(s, s', model, h, k)
  {
    RegisterEffect(s, m, e, spare);
    var s' := Register(s, m, e, spare);
    if m == model {
      assert s'.List(model)[|s.List(model)|] == e;
    }
  }

  lemma CellAfterUnregister(s: State, model: string, h: Slice, m: string, e: Engine)
    requires s.Valid() && Held(s, model, h)
    ensures var s' := Unregister(s, m, e);
            Held(s', model, h) && forall k: nat :: k < h.len ==> CellOk(s, s', model, h, k)
  {
    var s' := Unregister(s, m, e);
    if e in s.List(m) && m == model && s.heads[m].arr == h.arr {
      var a, i, len := s.arrays[h.arr], Find(s.List(m), e), s.heads[m].len;
      forall k: nat | k < h.len ensures CellOk(s, s', model, h, k) {
        if i <= k < len - 1 {
          assert s.List(model)[k + 1] == a[k + 1];
        }
      }
    }
  }

  lemma CellAfterStep(s: System, s': System, step: Step, model: string, h: Slice)
    requires Next(s, s', step) && Held(s.r, model, h)
    ensures Held(s'.r, model, h) && forall k: nat :: k < h.len ==> CellOk(s.r, s'.r, model, h, k)
  {
    match step
    case AddEngine(m, e, spare) => CellAfterRegister(s.r, model, h, m, e, spare);
    case DropEngine(m, e) => CellAfterUnregister(s.r, model, h, m, e);
    case _ =>
  }

  lemma {:induction false} HeaderStaysOk(run: seq<System>, steps: seq<Step>, i: nat, model: string, h: Slice)
    requires IsRun(run, steps) && i < |run| && Capture(run[0].r, model) == Some(h)
    ensures HeaderOk(run, i, model, h)
  {
    if i == 0 {
      var list := run[0].r.List(model);
      forall k | 0 <= k < h.len ensures SeenBy(run, 0, model, run[0].r.arrays[h.arr][k]) {
        assert list[k] == run[0].r.arrays[h.arr][k] && list[k] in list;
      }
    } else {
      HeaderStaysOk(run, steps, i - 1, model, h);
      assert Next(run[i - 1], run[(i - 1) + 1], steps[i - 1]);
      var s, s' := run[i - 1], run[i];
      CellAfterStep(s, s', steps[i - 1], model, h);
      forall k: nat | k < h.len ensures SeenBy(run, i, model, s'.r.arrays[h.arr][k]) {
        assert CellOk(s.r, s'.r, model, h, k);
        assert SeenBy(run, i - 1, model, s.r.arrays[h.arr][k]);
        assert forall e :: SeenBy(run, i - 1, model, e) ==> SeenBy(run, i, model, e);
      }
    }
  }

  /** However registrations move the shared cells between the unlock and the copy, every engine a
      Resolve returns was registered for the model at some moment in between. */
  lemma ResolveReturnsRegistered(run: seq<System>, steps: seq<Step>, model: string, h: Slice, e: Engine)
    requires IsRun(run, steps) && Capture(run[0].r, model) == Some(h)
    requires e in StableByLoad(run[|steps|].r, CopyOf(run[|steps|].r, h))
    ensures SeenBy(run, |steps|, model, e)
  {
    var last := run[|steps|].r;
    HeaderStaysOk(run, steps, |steps|, model, h);
    StableByLoadSorts(last, CopyOf(last, h));
    assert e in multiset(StableByLoad(last, CopyOf(last, h)));
    var k :| 0 <= k < |CopyOf(last, h)| && CopyOf(last, h)[k] == e;
    assert last.arrays[h.arr][k] == e;
  }

  /** Without an unregistration of the model, one step leaves the captured cells alone. */
  lemma CellsKept(s: System, s': System, step: Step, model: string, h: Slice)
    requires Next(s, s', step) && (step.DropEngine? ==> step.model != model) && Held(s.r, model, h)
    requires model in s.r.heads && (s.r.heads[model].arr == h.arr ==> h.len <= s.r.heads[model].len)
    ensures CopyOf(s'.r, h) == CopyOf(s.r, h)
    ensures model in s'.r.heads && (s'.r.heads[model].arr == h.arr ==> h.len <= s'.r.heads[model].len)
  {
    match step
    case AddEngine(m, e, spare) => assert h.arr < s.r.nextArr;
    case DropEngine(m, e) =>
    case _ =>
  }

  /** With no unregistration of the model in between, the copy is the captured list itself, whatever
      was registered meanwhile, so the result is its stable load-ascending permutation. */
  lemma {:induction false} CopyIsCapturedList(run: seq<System>, steps: seq<Step>, i: nat, model: string, h: Slice)
    requires IsRun(run, steps) && i < |run| && Capture(run[0].r, model) == Some(h)
    requires forall j :: 0 <= j < |steps| && steps[j].DropEngine? ==> steps[j].model != model
    ensures CopyOf(run[i].r, h) == run[0].r.List(model)
    ensures model in run[i].r.heads && (run[i].r.heads[model].arr == h.arr ==> h.len <= run[i].r.heads[model].len)
  {
    if i > 0 {
      CopyIsCapturedList(run, steps, i - 1, model, h);
      HeaderStaysOk(run, steps, i - 1, model, h);
      assert Next(run[i - 1], run[(i - 1) + 1], steps[i - 1]);
      CellsKept(run[i - 1], run[i], steps[i - 1], model, h);
    }
  }

  lemma ResolveWithoutUnregister(run: seq<System>, steps: seq<Step>, model: string, h: Slice)
    requires IsRun(run, steps) && Capture(run[0].r, model) == Some(h)
    requires forall j :: 0 <= j < |steps| && steps[j].DropEngine? ==> steps[j].model != model
    ensures var last, captured := run[|steps|].r, run[0].r.List(model);
            var result := StableByLoad(last, CopyOf(last, h));
            StableSorted(last, result, captured) && multiset(result) == multiset(captured)
  {
    CopyIsCapturedList(run, steps, |steps|, model, h);
    StableByLoadSorts(run[|steps|].r, CopyOf(run[|steps|].r, h));
  }

  // ---------- What the counters count ----------

  ghost function ActiveOn(s: System, e: Engine): set<nat> {
    set req | req in s.active && s.active[req] == e
  }

  lemma ActiveAfterBegin(s: System, s': System, req: nat, e: Engine, on: Engine)
    requires req !in s.active && s'.active == s.active[req := on]
    ensures |ActiveOn(s', e)| == |ActiveOn(s, e)| + if on == e then 1 else 0
  {
    assert ActiveOn(s', e) == if on == e then ActiveOn(s, e) + {req} else ActiveOn(s, e);
  }

  lemma ActiveAfterEnd(s: System, s': System, req: nat, e: Engine)
    requires req in s.active && s'.active == s.active - {req}
    ensures |ActiveOn(s', e)| == |ActiveOn(s, e)| - if s.active[req] == e then 1 else 0
  {
    assert ActiveOn(s', e) == ActiveOn(s, e) - {req};
    assert req in ActiveOn(s, e) <==> s.active[req] == e;
  }

  lemma ActiveAfter(s: System, s': System, step: Step, e: Engine)
    requires Next(s, s', step)
    ensures |ActiveOn(s', e)| ==
            match step
            case Begin(_, on) => |ActiveOn(s, e)| + if on == e then 1 else 0
            case End(req) => |ActiveOn(s, e)| - if s.active[req] == e then 1 else 0
            case _ => |ActiveOn(s, e)|
  {
    match step
    case Begin(req, on) => ActiveAfterBegin(s, s', req, e, on);
    case End(req) => ActiveAfterEnd(s, s', req, e);
    case _ => assert ActiveOn(s', e) == ActiveOn(s, e);
  }

  /** In every run the counter of an engine never exceeds its requests in flight, despite the clamp. */
  lemma {:induction false} LoadAtMostActive(run: seq<System>, steps: seq<Step>, i: nat, e: Engine)
    requires IsRun(run, steps) && run[0] == System(INITIAL, map[]) && i < |run|
    ensures 0 <= run[i].r.LoadOf(e) <= |ActiveOn(run[i], e)|
  {
    if i > 0 {
      LoadAtMostActive(run, steps, i - 1, e);
      var s, s', step := run[i - 1], run[i], steps[i - 1];
      assert Next(run[i - 1], run[(i - 1) + 1], step);
      ActiveAfter(s, s', step, e);
      LoadAfter(s, s', step, e);
    }
  }

  lemma LoadAfter(s: System, s': System, step: Step, e: Engine)
    requires Next(s, s', step)
    ensures s'.r.LoadOf(e) ==
            match step
            case AddEngine(_, _, _) => s.r.LoadOf(e)
            case DropEngine(_, e') => if e' == e then 0 else s.r.LoadOf(e)
            case Begin(_, e') => s.r.LoadOf(e) + if e' == e then 1 else 0
            case End(req) => s.r.LoadOf(e) - if s.active[req] == e && s.r.LoadOf(e) > 0 then 1 else 0
  {
    match step
    case DropEngine(m, e') => UnregisterKeepsOthers(s.r, m, e');
    case _ =>
  }

  /** The counter is exact as long as the engine is not unregistered while it has requests in flight. */
  lemma {:induction false} LoadIsActive(run: seq<System>, steps: seq<Step>, i: nat, e: Engine)
    requires IsRun(run, steps) && run[0] == System(INITIAL, map[]) && i < |run|
    requires forall j :: 0 <= j < i && steps[j].DropEngine? && steps[j].e == e ==> ActiveOn(run[j], e) == {}
    ensures run[i].r.LoadOf(e) == |ActiveOn(run[i], e)|
  {
    if i > 0 {
      LoadIsActive(run, steps, i - 1, e);
      var s, s', step := run[i - 1], run[i], steps[i - 1];
      assert Next(run[i - 1], run[(i - 1) + 1], step);
      ActiveAfter(s, s', step, e);
      LoadAfter(s, s', step, e);
    } else {
      assert ActiveOn(run[0], e) == {};
    }
  }

  /** Unregistering an engine that has requests in flight makes its counter wrong at once. */
  lemma UnregisterWhileActiveUndercounts(run: seq<System>, steps: seq<Step>, i: nat, e: Engine)
    requires IsRun(run, steps) && i < |steps| && steps[i].DropEngine? && steps[i].e == e && ActiveOn(run[i], e) != {}
    ensures run[i + 1].r.LoadOf(e) < |ActiveOn(run[i + 1], e)|
  {
    assert Next(run[i], run[i + 1], steps[i]);
    ActiveAfter(run[i], run[i + 1], steps[i], e);
    LoadAfter(run[i], run[i + 1], steps[i], e);
  }

  // ---------- Balance ----------

  /** Arrivals at a fixed list of engines: `pending` requests have been given an engine by Resolve and
      have not yet acquired it. */
  datatype Arrivals = Arrivals(r: State, pending: multiset<Engine>)

  ghost predicate Arrives(a: Arrivals, a': Arrivals, list: seq<Engine>) {
    || (list != [] && a' == a.(pending := a.pending + multiset{StableByLoad(a.r, list)[0]}))
    || (exists e :: e in a.pending && a' == Arrivals(Acquire(a.r, e), a.pending - multiset{e}))
  }

  ghost predicate IsArrivalRun(run: seq<Arrivals>, list: seq<Engine>, w: nat) {
    && |run| > 0 && run[0].pending == multiset{} && (forall e :: e in list ==> run[0].r.LoadOf(e) == 0)
    && (forall i :: 0 <= i < |run| - 1 ==> Arrives(run[i], run[i + 1], list))
    && (forall i :: 0 <= i < |run| ==> |run[i].pending| <= w)
  }

  ghost predicate Even(a: Arrivals, list: seq<Engine>, w: nat) {
    forall e, f :: e in list && f in list ==> a.r.LoadOf(e) + a.pending[e] <= a.r.LoadOf(f) + w
  }

  lemma PickedIsLeast(s: State, list: seq<Engine>, f: Engine)
    requires f in list
    ensures s.LoadOf(StableByLoad(s, list)[0]) <= s.LoadOf(f)
  {
    StableByLoadSorts(s, list);
    var out := StableByLoad(s, list);
    assert f in multiset(list) && f in multiset(out);
    var k :| 0 <= k < |out| && out[k] == f;
  }

  lemma CountWithin(p: multiset<Engine>, e: Engine)
    ensures p[e] <= |p|
  {
    if e in p {
      var one := multiset{}[e := p[e]];
      assert p == one + (p - one);
    }
  }

  lemma EvenStep(a: Arrivals, a': Arrivals, list: seq<Engine>, w: nat)
    requires Arrives(a, a', list) && Even(a, list, w) && |a'.pending| <= w
    ensures Even(a', list, w)
  {
    forall e, f | e in list && f in list ensures a'.r.LoadOf(e) + a'.pending[e] <= a'.r.LoadOf(f) + w {
      assert a.r.LoadOf(e) + a.pending[e] <= a.r.LoadOf(f) + w;
      if a'.r == a.r {
        CountWithin(a'.pending, e);
        PickedIsLeast(a.r, list, f);
      }
    }
  }

  lemma EvenBoundsLoads(a: Arrivals, list: seq<Engine>, w: nat)
    requires Even(a, list, w)
    ensures forall e, f :: e in list && f in list ==> a.r.LoadOf(e) - a.r.LoadOf(f) <= w
  {
    forall e, f | e in list && f in list ensures a.r.LoadOf(e) - a.r.LoadOf(f) <= w {
      assert a.r.LoadOf(e) + a.pending[e] <= a.r.LoadOf(f) + w;
    }
  }

  /** Balance: if at most w requests are ever between Resolve and Acquire, no engine is ever more than w
      requests ahead of another. */
  lemma {:induction false} LoadsStayBalanced(run: seq<Arrivals>, list: seq<Engine>, w: nat, i: nat)
    requires IsArrivalRun(run, list, w) && i < |run|
    ensures Even(run[i], list, w)
    ensures forall e, f :: e in list && f in list ==> run[i].r.LoadOf(e) - run[i].r.LoadOf(f) <= w
  {
    if i > 0 {
      LoadsStayBalanced(run, list, w, i - 1);
      assert Arrives(run[i - 1], run[(i - 1) + 1], list);
      EvenStep(run[i - 1], run[i], list, w);
    }
    EvenBoundsLoads(run[i], list, w);
  }
}
