/** The gateway's local router: engines by model, in slices whose backing arrays are edited in place,
    and a count of active requests an engine.

    `Resolve` reads a slice header under the lock, lets the lock go, and copies and sorts later. So the
    backing arrays are explicit here: `arrays` is the heap of them, a `Slice` a header into one. */
module Router {
  import opened Common

  /** An engine's identity; NIL fills the unused cells of a backing array. */
  type Engine = nat

  const NIL: Engine := 0

  datatype Slice = Slice(arr: nat, len: nat)

  datatype State = State(arrays: map<nat, seq<Engine>>, heads: map<string, Slice>, load: map<Engine, int>, nextArr: nat)
  {
    /** Every header lies within its own array, and no two models share one. */
    ghost predicate Valid() {
      && (forall a :: a in arrays ==> a < nextArr)
      && (forall m :: m in heads ==> heads[m].arr in arrays && 0 < heads[m].len <= |arrays[heads[m].arr]|)
      && (forall m, m' :: m in heads && m' in heads && m != m' ==> heads[m].arr != heads[m'].arr)
    }

    /** The engines registered for a model now. */
    function List(model: string): seq<Engine> {
      if model in heads && heads[model].arr in arrays && heads[model].len <= |arrays[heads[model].arr]|
      then arrays[heads[model].arr][..heads[model].len]
      else []
    }

    function LoadOf(e: Engine): int {
      if e in load then load[e] else 0
    }
  }

  const INITIAL := State(map[], map[], map[], 0)

  // ---------- The sections run under the lock ----------

  function Blank(n: nat): (s: seq<Engine>)
    ensures |s| == n
  {
    seq(n, _ => NIL)
  }

  /** append of one engine: in place if there is room, else into a new array with `spare` free cells. */
  function Register(s: State, model: string, e: Engine, spare: nat): State
    requires s.Valid()
  {
    if model in s.heads && s.heads[model].len < |s.arrays[s.heads[model].arr]| then
      var h := s.heads[model];
      var a: seq<Engine> := s.arrays[h.arr][h.len := e];
      s.(arrays := s.arrays[h.arr := a], heads := s.heads[model := Slice(h.arr, h.len + 1)])
    else
      var list := if model in s.heads then s.arrays[s.heads[model].arr] else [];
      s.(arrays := s.arrays[s.nextArr := list + [e] + Blank(spare)],
         heads := s.heads[model := Slice(s.nextArr, |list| + 1)],
         nextArr := s.nextArr + 1)
  }

  function Find(list: seq<Engine>, e: Engine): (i: nat)
    ensures i <= |list| && (i < |list| ==> list[i] == e) && e !in list[..i]
  {
    if list == [] || list[0] == e then 0
    else
      var j := Find(list[1..], e);
      assert list[..1 + j] == [list[0]] + list[1..][..j];
      1 + j
  }

  /** append(list[:i], list[i+1:]...): later cells move down, the last one keeps its old content. */
  function ShiftDown(a: seq<Engine>, i: nat, len: nat): (b: seq<Engine>)
    requires i < len <= |a|
    ensures |b| == |a|
    ensures forall k :: 0 <= k < |a| ==> b[k] == if i <= k < len - 1 then a[k + 1] else a[k]
  {
    a[..i] + a[i + 1..len] + a[len - 1..]
  }

  function Unregister(s: State, model: string, e: Engine): State
    requires s.Valid()
  {
    var s1 := s.(load := s.load - {e});
    if e !in s.List(model) then s1
    else
      var h, i := s.heads[model], Find(s.List(model), e);
      var s2 := s1.(arrays := s.arrays[h.arr := ShiftDown(s.arrays[h.arr], i, h.len)]);
      if h.len == 1 then s2.(heads := s.heads - {model}) else s2.(heads := s.heads[model := Slice(h.arr, h.len - 1)])
  }

  function Acquire(s: State, e: Engine): State {
    s.(load := s.load[e := s.LoadOf(e) + 1])
  }

  function Release(s: State, e: Engine): State {
    if s.LoadOf(e) > 0 then s.(load := s.load[e := s.LoadOf(e) - 1]) else s
  }

  /** The header Resolve takes away; a missing model gives an empty one. */
  function Capture(s: State, model: string): Option<Slice> {
    if model in s.heads then Some(s.heads[model]) else None
  }

  /** What copying through that header yields later. */
  function CopyOf(s: State, h: Slice): seq<Engine> {
    if h.arr in s.arrays && h.len <= |s.arrays[h.arr]| then s.arrays[h.arr][..h.len] else []
  }

  // ---------- Stable sort by load ----------

  function Insert(s: State, e: Engine, sorted: seq<Engine>): (r: seq<Engine>)
    ensures |r| == |sorted| + 1
  {
    if sorted == [] || s.LoadOf(e) <= s.LoadOf(sorted[0]) then [e] + sorted
    else [sorted[0]] + Insert(s, e, sorted[1..])
  }

  function StableByLoad(s: State, list: seq<Engine>): (r: seq<Engine>)
    ensures |r| == |list|
  {
    if list == [] then [] else Insert(s, list[0], StableByLoad(s, list[1..]))
  }

  ghost predicate Ascending(s: State, list: seq<Engine>) {
    forall i, j :: 0 <= i <= j < |list| ==> s.LoadOf(list[i]) <= s.LoadOf(list[j])
  }

  /** The engines of one load, in the order they are listed. */
  function OfLoad(s: State, list: seq<Engine>, v: int): seq<Engine> {
    if list == [] then [] else (if s.LoadOf(list[0]) == v then [list[0]] else []) + OfLoad(s, list[1..], v)
  }

  /** A stable ascending arrangement of a list. */
  ghost predicate StableSorted(s: State, sorted: seq<Engine>, list: seq<Engine>) {
    Ascending(s, sorted) && forall v {:trigger OfLoad(s, sorted, v)} :: OfLoad(s, sorted, v) == OfLoad(s, list, v)
  }

  lemma FirstIsLeast(s: State, sorted: seq<Engine>, e: Engine, rest: seq<Engine>)
    requires Ascending(s, sorted) && sorted != [] && s.LoadOf(e) > s.LoadOf(sorted[0])
    requires multiset(rest) == multiset{e} + multiset(sorted[1..])
    ensures forall k :: 0 <= k < |rest| ==> s.LoadOf(sorted[0]) <= s.LoadOf(rest[k])
  {
    forall k | 0 <= k < |rest| ensures s.LoadOf(sorted[0]) <= s.LoadOf(rest[k]) {
      assert rest[k] in multiset(rest);
      assert rest[k] == e || rest[k] in sorted[1..];
    }
  }

  lemma {:induction false} InsertSorts(s: State, e: Engine, sorted: seq<Engine>)
    requires Ascending(s, sorted)
    ensures Ascending(s, Insert(s, e, sorted)) && multiset(Insert(s, e, sorted)) == multiset{e} + multiset(sorted)
    decreases sorted
  {
    if sorted != [] && s.LoadOf(e) > s.LoadOf(sorted[0]) {
      InsertSorts(s, e, sorted[1..]);
      assert sorted == [sorted[0]] + sorted[1..];
      FirstIsLeast(s, sorted, e, Insert(s, e, sorted[1..]));
    }
  }

  lemma {:induction false} InsertIsStable(s: State, e: Engine, sorted: seq<Engine>, v: int)
    ensures OfLoad(s, Insert(s, e, sorted), v) == OfLoad(s, [e] + sorted, v)
    decreases sorted
  {
    assert ([e] + sorted)[1..] == sorted;
    if sorted != [] && s.LoadOf(e) > s.LoadOf(sorted[0]) {
      var rest := Insert(s, e, sorted[1..]);
      InsertIsStable(s, e, sorted[1..], v);
      assert ([sorted[0]] + rest)[1..] == rest && ([e] + sorted[1..])[1..] == sorted[1..];
    }
  }

  lemma {:induction false} StableByLoadIsStable(s: State, list: seq<Engine>, v: int)
    ensures OfLoad(s, StableByLoad(s, list), v) == OfLoad(s, list, v)
    decreases list
  {
    if list != [] {
      var sub := StableByLoad(s, list[1..]);
      StableByLoadIsStable(s, list[1..], v);
      InsertIsStable(s, list[0], sub, v);
      assert ([list[0]] + sub)[1..] == sub;
    }
  }

  lemma {:induction false} StableByLoadAscends(s: State, list: seq<Engine>)
    ensures Ascending(s, StableByLoad(s, list)) && multiset(StableByLoad(s, list)) == multiset(list)
    decreases list
  {
    if list != [] {
      StableByLoadAscends(s, list[1..]);
      InsertSorts(s, list[0], StableByLoad(s, list[1..]));
      assert list == [list[0]] + list[1..];
    }
  }

  lemma StableByLoadSorts(s: State, list: seq<Engine>)
    ensures StableSorted(s, StableByLoad(s, list), list) && multiset(StableByLoad(s, list)) == multiset(list)
  {
    StableByLoadAscends(s, list);
    forall v ensures OfLoad(s, StableByLoad(s, list), v) == OfLoad(s, list, v) {
      StableByLoadIsStable(s, list, v);
    }
  }

  /** A stable sort has only one possible result, so any implementation gives this one. */
  lemma {:induction false} StableSortUnique(s: State, a: seq<Engine>, b: seq<Engine>)
    requires Ascending(s, a) && StableSorted(s, b, a)
    ensures a == b
    decreases |a|
  {
    assert forall v {:trigger OfLoad(s, a, v)} :: OfLoad(s, a, v) == OfLoad(s, b, v);
    assert a != [] ==> OfLoad(s, a, s.LoadOf(a[0])) != [];
    assert b != [] ==> OfLoad(s, b, s.LoadOf(b[0])) != [];
    if a != [] {
      var v := s.LoadOf(a[0]);
      OfLoadMember(s, b, v);
      OfLoadMember(s, a, s.LoadOf(b[0]));
      assert a[0] == OfLoad(s, a, v)[0] == OfLoad(s, b, v)[0] == b[0];
      forall u ensures OfLoad(s, b[1..], u) == OfLoad(s, a[1..], u) {
        var first := if v == u then [a[0]] else [];
        assert OfLoad(s, a[1..], u) == OfLoad(s, a, u)[|first|..];
        assert OfLoad(s, b[1..], u) == OfLoad(s, b, u)[|first|..];
      }
      StableSortUnique(s, a[1..], b[1..]);
    }
  }

  lemma {:induction false} OfLoadMember(s: State, list: seq<Engine>, v: int)
    requires OfLoad(s, list, v) != []
    ensures exists i :: 0 <= i < |list| && s.LoadOf(list[i]) == v
    decreases list
  {
    if s.LoadOf(list[0]) != v {
      OfLoadMember(s, list[1..], v);
      var i :| 0 <= i < |list[1..]| && s.LoadOf(list[1..][i]) == v;
      assert list[i + 1] == list[1..][i];
    }
  }

  // ---------- What each section does ----------

  lemma RegisterKeepsOthers(s: State, model: string, e: Engine, spare: nat)
    requires s.Valid()
    ensures var s' := Register(s, model, e, spare);
            && s'.Valid() && s'.load == s.load
            && (forall m :: m != model ==> s'.List(m) == s.List(m))
  {
    var s' := Register(s, model, e, spare);
    forall m | m != model ensures s'.List(m) == s.List(m) {
      if m in s.heads {
        assert s.heads[m].arr < s.nextArr;
      }
    }
  }

  lemma RegisterEffect(s: State, model: string, e: Engine, spare: nat)
    requires s.Valid()
    ensures var s' := Register(s, model, e, spare);
            && s'.Valid() && s'.load == s.load
            && s'.List(model) == s.List(model) + [e]
            && (forall m :: m != model ==> s'.List(m) == s.List(m))
  {
    RegisterKeepsOthers(s, model, e, spare);
  }

  function RemoveFirst(list: seq<Engine>, e: Engine): seq<Engine> {
    if e in list then list[..Find(list, e)] + list[Find(list, e) + 1..] else list
  }

  /** Tables with one array replaced by one of the same length, and its header shortened or gone. */
  ghost predicate Shrunk(s: State, s': State, model: string, b: seq<Engine>)
    requires model in s.heads && s.heads[model].arr in s.arrays
  {
    var h := s.heads[model];
    && s'.nextArr == s.nextArr && s'.arrays == s.arrays[h.arr := b] && |b| == |s.arrays[h.arr]|
    && s'.heads == if h.len <= 1 then s.heads - {model} else s.heads[model := Slice(h.arr, h.len - 1)]
  }

  lemma ShrunkIsValid(s: State, s': State, model: string, b: seq<Engine>)
    requires s.Valid() && model in s.heads && Shrunk(s, s', model, b)
    ensures s'.Valid()
  {
  }

  lemma UnregisterShrinks(s: State, model: string, e: Engine)
    requires s.Valid() && e in s.List(model)
    ensures var h, i := s.heads[model], Find(s.List(model), e);
            i < h.len && Shrunk(s, Unregister(s, model, e), model, ShiftDown(s.arrays[h.arr], i, h.len))
  {
    assert Find(s.List(model), e) < |s.List(model)|;
  }

  lemma UnregisterIsValid(s: State, model: string, e: Engine)
    requires s.Valid()
    ensures Unregister(s, model, e).Valid() && Unregister(s, model, e).load == s.load - {e}
  {
    if e in s.List(model) {
      var h, i := s.heads[model], Find(s.List(model), e);
      UnregisterShrinks(s, model, e);
      ShrunkIsValid(s, Unregister(s, model, e), model, ShiftDown(s.arrays[h.arr], i, h.len));
    }
  }

  lemma UnregisterKeepsList(s: State, model: string, e: Engine, m: string)
    requires s.Valid() && m != model
    ensures Unregister(s, model, e).List(m) == s.List(m)
  {
    if e in s.List(model) {
      UnregisterShrinks(s, model, e);
      assert m in s.heads ==> s.heads[m].arr != s.heads[model].arr;
    }
  }

  lemma UnregisterKeepsOthers(s: State, model: string, e: Engine)
    requires s.Valid()
    ensures var s' := Unregister(s, model, e);
            && s'.Valid() && s'.load == s.load - {e}
            && (forall m :: m != model ==> s'.List(m) == s.List(m))
  {
    UnregisterIsValid(s, model, e);
    forall m | m != model ensures Unregister(s, model, e).List(m) == s.List(m) {
      UnregisterKeepsList(s, model, e, m);
    }
  }

  lemma ShiftDownRemoves(a: seq<Engine>, i: nat, len: nat)
    requires i < len <= |a|
    ensures ShiftDown(a, i, len)[..len - 1] == a[..len][..i] + a[..len][i + 1..]
  {
  }

  lemma UnregisterEffect(s: State, model: string, e: Engine)
    requires s.Valid()
    ensures Unregister(s, model, e).Valid() && Unregister(s, model, e).List(model) == RemoveFirst(s.List(model), e)
  {
    UnregisterIsValid(s, model, e);
    if e in s.List(model) {
      var h, i := s.heads[model], Find(s.List(model), e);
      UnregisterShrinks(s, model, e);
      ShiftDownRemoves(s.arrays[h.arr], i, h.len);
    }
  }

  // ---------- The router object ----------

  datatype ResolveError = NotDeployed | UnknownModel

  class LocalRouter {
    var arrays: map<nat, seq<Engine>>
    var heads: map<string, Slice>
    var load: map<Engine, int>
    var nextArr: nat

    function AsState(): State
      reads this
    {
      State(arrays, heads, load, nextArr)
    }

    constructor ()
      ensures AsState() == INITIAL && AsState().Valid()
    {
      arrays, heads, load, nextArr := map[], map[], map[], 0;
    }

    /** `spare` is how far append over-allocates. */
    method RegisterEngine(model: string, e: Engine, spare: nat)
      requires AsState().Valid()
      modifies this
      ensures AsState().Valid() && AsState() == Register(old(AsState()), model, e, spare)
    {
      ghost var s' := Register(AsState(), model, e, spare);
      assert s'.Valid() by {
        RegisterKeepsOthers(AsState(), model, e, spare);
      }
      if model in heads && heads[model].len < |arrays[heads[model].arr]| {
        var h := heads[model];
        var a: seq<Engine> := arrays[h.arr][h.len := e];
        arrays, heads := arrays[h.arr := a], heads[model := Slice(h.arr, h.len + 1)];
      } else {
        var list := if model in heads then arrays[heads[model].arr] else [];
        arrays, heads, nextArr :=
          arrays[nextArr := list + [e] + Blank(spare)], heads[model := Slice(nextArr, |list| + 1)], nextArr + 1;
      }
      assert AsState() == s';
    }

    method UnregisterEngine(model: string, e: Engine)
      requires AsState().Valid()
      modifies this
      ensures AsState().Valid() && AsState() == Unregister(old(AsState()), model, e)
    {
      ghost var s' := Unregister(AsState(), model, e);
      assert s'.Valid() by {
        UnregisterIsValid(AsState(), model, e);
      }
      var list, i := AsState().List(model), 0;
      while i < |list| && list[i] != e
        invariant i <= |list| && e !in list[..i]
      {
        assert list[..i + 1] == list[..i] + [list[i]];
        i := i + 1;
      }
      UnregisterAt(AsState(), model, e, i);
      if i < |list| {
        var h := heads[model];
        arrays := arrays[h.arr := ShiftDown(arrays[h.arr], i, h.len)];
        heads := if h.len == 1 then heads - {model} else heads[model := Slice(h.arr, h.len - 1)];
      }
      load := load - {e};
      assert AsState() == s';
    }

    method AcquireEngine(e: Engine)
      modifies this
      ensures AsState() == Acquire(old(AsState()), e)
    {
      load := load[e := AsState().LoadOf(e) + 1];
    }

    method ReleaseEngine(e: Engine)
      modifies this
      ensures AsState() == Release(old(AsState()), e)
    {
      if AsState().LoadOf(e) > 0 {
        load := load[e := AsState().LoadOf(e) - 1];
      }
    }

    /** Resolve when nothing intervenes. `ready` are the engines of the local agent's Ready instances of
        the model, asked only when no engine is registered; `known` tells whether the repository has
        the model. */
    method Resolve(model: string, ready: seq<Engine>, known: bool) returns (r: Result<seq<Engine>, ResolveError>)
      requires AsState().Valid()
      ensures var list := if AsState().List(model) != [] then AsState().List(model) else ready;
              r == if list != [] then Ok(StableByLoad(AsState(), list))
                   else Err(if known then NotDeployed else UnknownModel)
    {
      var h := Capture(AsState(), model);
      var engines := if h.Some? then CopyOf(AsState(), h.value) else [];
      if |engines| == 0 {
        engines := engines + ready;
        assert engines == ready;
      }
      if |engines| == 0 {
        return Err(if known then NotDeployed else UnknownModel);
      }
      return Ok(StableByLoad(AsState(), engines));
    }
  }

  /** The search found `e` at i, or ran off the end. */
  lemma UnregisterAt(s: State, model: string, e: Engine, i: nat)
    requires s.Valid() && i <= |s.List(model)| && e !in s.List(model)[..i]
    requires i < |s.List(model)| ==> s.List(model)[i] == e
    ensures i == |s.List(model)| ==> Unregister(s, model, e) == s.(load := s.load - {e})
    ensures i < |s.List(model)| ==>
              var h := s.heads[model];
              Unregister(s, model, e) ==
              State(s.arrays[h.arr := ShiftDown(s.arrays[h.arr], i, h.len)],
                    if h.len == 1 then s.heads - {model} else s.heads[model := Slice(h.arr, h.len - 1)],
                    s.load - {e}, s.nextArr)
  {
    var list := s.List(model);
    if i < |list| {
      assert e in list;
      FindIs(list, e, i);
    } else {
      assert list[..i] == list;
    }
  }

  lemma FindIs(list: seq<Engine>, e: Engine, i: nat)
    requires i < |list| && list[i] == e && e !in list[..i]
    ensures Find(list, e) == i
  {
    var j := Find(list, e);
    assert forall k :: 0 <= k < i ==> list[k] == list[..i][k] != e;
    assert forall k :: 0 <= k < j ==> list[k] == list[..j][k] != e;
  }
}
