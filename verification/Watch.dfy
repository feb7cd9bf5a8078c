/** Change notification: watchers with a key prefix receive the keys of successful writes through a
    channel of sixteen places; a notification that finds the channel full is dropped. */
module Watch {
  import opened Common

  const CAPACITY := 16

  datatype Watcher = Watcher(ch: nat, prefix: string)

  /** `chans` holds the buffered keys of every channel ever made, `received` what was read from it. */
  datatype State = State(
    db: map<string, string>, wat: seq<Watcher>,
    chans: map<nat, seq<string>>, received: map<nat, seq<string>>, next: nat)

  const INITIAL := State(map[], [], map[], map[], 0)

  predicate Matches(w: Watcher, key: string) {
    w.prefix == "" || HasPrefix(key, w.prefix)
  }

  /** One select with a default branch. */
  function Offer(chans: map<nat, seq<string>>, w: Watcher, key: string): map<nat, seq<string>> {
    if Matches(w, key) && w.ch in chans && |chans[w.ch]| < CAPACITY then chans[w.ch := chans[w.ch] + [key]] else chans
  }

  function Notified(chans: map<nat, seq<string>>, wat: seq<Watcher>, key: string): map<nat, seq<string>>
    decreases wat
  {
    if wat == [] then chans else Offer(Notified(chans, wat[..|wat| - 1], key), wat[|wat| - 1], key)
  }

  /** The watcher list without the first entry for this channel. */
  function Without(wat: seq<Watcher>, ch: nat): seq<Watcher>
    decreases wat
  {
    if wat == [] then [] else if wat[0].ch == ch then wat[1..] else [wat[0]] + Without(wat[1..], ch)
  }

  /** A write carries whether the database accepted it. */
  datatype Op = Put(key: string, value: string, ok: bool) | Delete(key: string, ok: bool)
              | Subscribe(prefix: string) | Cancel(ch: nat) | Receive(ch: nat)

  function Apply(s: State, op: Op): State {
    match op
    case Put(key, value, ok) =>
      if ok then s.(db := s.db[key := value], chans := Notified(s.chans, s.wat, key)) else s
    case Delete(key, ok) =>
      if ok then s.(db := s.db - {key}, chans := Notified(s.chans, s.wat, key)) else s
    case Subscribe(prefix) =>
      s.(wat := s.wat + [Watcher(s.next, prefix)], chans := s.chans[s.next := []], received := s.received[s.next := []],
         next := s.next + 1)
    case Cancel(ch) => s.(wat := Without(s.wat, ch))
    case Receive(ch) =>
      if ch in s.chans && ch in s.received && s.chans[ch] != [] then
        s.(chans := s.chans[ch := s.chans[ch][1..]], received := s.received[ch := s.received[ch] + [s.chans[ch][0]]])
      else s
  }

  function Exec(ops: seq<Op>): State {
    if ops == [] then INITIAL else Apply(Exec(ops[..|ops| - 1]), ops[|ops| - 1])
  }

  // ---------- The store object ----------

  class Store {
    var db: map<string, string>
    var wat: seq<Watcher>
    var chans: map<nat, seq<string>>
    var received: map<nat, seq<string>>
    var next: nat

    function AsState(): State
      reads this
    {
      State(db, wat, chans, received, next)
    }

    constructor ()
      ensures AsState() == INITIAL
    {
      db, wat, chans, received, next := map[], [], map[], map[], 0;
    }

    method Put(key: string, value: string, ok: bool)
      modifies this
      ensures AsState() == Apply(old(AsState()), Op.Put(key, value, ok))
    {
      if ok {
        db := db[key := value];
        Notify(key);
      }
    }

    method Delete(key: string, ok: bool)
      modifies this
      ensures AsState() == Apply(old(AsState()), Op.Delete(key, ok))
    {
      if ok {
        db := db - {key};
        Notify(key);
      }
    }

    method Notify(key: string)
      modifies this`chans
      ensures chans == Notified(old(chans), wat, key)
    {
      for i := 0 to |wat|
        invariant chans == Notified(old(chans), wat[..i], key)
      {
        var w := wat[i];
        assert wat[..i + 1][..i] == wat[..i];
        if w.prefix == "" || HasPrefix(key, w.prefix) {
          if w.ch in chans && |chans[w.ch]| < CAPACITY {
            chans := chans[w.ch := chans[w.ch] + [key]];
          }
        }
      }
      assert wat[..|wat|] == wat;
    }

    method Watch(prefix: string) returns (ch: nat)
      modifies this
      ensures AsState() == Apply(old(AsState()), Subscribe(prefix)) && ch == old(next)
    {
      ch := next;
      next := next + 1;
      chans, received := chans[ch := []], received[ch := []];
      wat := wat + [Watcher(ch, prefix)];
    }

    method Cancel(ch: nat)
      modifies this
      ensures AsState() == Apply(old(AsState()), Op.Cancel(ch))
    {
      for i := 0 to |wat|
        invariant wat == old(wat) && Without(wat, ch) == wat[..i] + Without(wat[i..], ch)
      {
        assert wat[i..][1..] == wat[i + 1..] && wat[i..][0] == wat[i];
        if wat[i].ch == ch {
          wat := wat[..i] + wat[i + 1..];
          return;
        }
        assert wat[..i] + ([wat[i]] + Without(wat[i + 1..], ch)) == wat[..i + 1] + Without(wat[i + 1..], ch);
      }
      assert wat[..|wat|] + [] == wat;
    }
  }

  // ---------- What a watcher sees ----------

  /** The key a successful write announces. */
  function Announced(op: Op): Option<string> {
    match op
    case Put(key, _, ok) => if ok then Some(key) else None
    case Delete(key, ok) => if ok then Some(key) else None
    case _ => None
  }

  ghost predicate Subscribed(s: State, ch: nat, key: string) {
    AnyMatch(s.wat, ch, key)
  }

  /** The matching changes made while the channel was subscribed, in order. */
  ghost function Changes(ops: seq<Op>, ch: nat): seq<string> {
    if ops == [] then []
    else
      var before, op := ops[..|ops| - 1], ops[|ops| - 1];
      Changes(before, ch) +
      if Announced(op).Some? && Subscribed(Exec(before), ch, Announced(op).value) then [Announced(op).value] else []
  }

  /** Those of them that found room. */
  ghost function Taken(ops: seq<Op>, ch: nat): seq<string> {
    if ops == [] then []
    else
      var before, op := ops[..|ops| - 1], ops[|ops| - 1];
      Taken(before, ch) + if Takes(Exec(before), ch, op) then [Announced(op).value] else []
  }

  /** How many of them found the buffer full. */
  ghost function Dropped(ops: seq<Op>, ch: nat): nat {
    if ops == [] then 0
    else
      var before, op := ops[..|ops| - 1], ops[|ops| - 1];
      var s := Exec(before);
      Dropped(before, ch) +
      if Announced(op).Some? && Subscribed(s, ch, Announced(op).value) && ch in s.chans && |s.chans[ch]| >= CAPACITY
         then 1 else 0
  }

  /** What the watcher has read, then what waits for it. */
  function Seen(s: State, ch: nat): seq<string>
    requires ch in s.chans && ch in s.received
  {
    s.received[ch] + s.chans[ch]
  }

  predicate IsSubsequence(a: seq<string>, b: seq<string>)
    decreases |b|
  {
    if a == [] then true
    else if b == [] then false
    else
      var m, n := |a| - 1, |b| - 1;
      (a[m] == b[n] && IsSubsequence(a[..m], b[..n])) || IsSubsequence(a, b[..n])
  }

  lemma SubsequenceAppend(a: seq<string>, b: seq<string>, x: string)
    requires IsSubsequence(a, b)
    ensures IsSubsequence(a + [x], b + [x]) && IsSubsequence(a, b + [x])
  {
    assert (a + [x])[..|a|] == a && (b + [x])[..|b|] == b;
  }

  lemma {:induction false} FullLengthSubsequence(a: seq<string>, b: seq<string>)
    requires IsSubsequence(a, b)
    ensures |a| <= |b| && (|a| == |b| ==> a == b)
    decreases |b|
  {
    if a != [] {
      var m, n := |a| - 1, |b| - 1;
      if IsSubsequence(a, b[..n]) {
        FullLengthSubsequence(a, b[..n]);
      } else {
        FullLengthSubsequence(a[..m], b[..n]);
      }
    }
  }

  ghost predicate Valid(s: State) {
    && s.chans.Keys == s.received.Keys
    && (forall ch: nat :: ch in s.chans <==> ch < s.next)
    && (forall ch :: ch in s.chans ==> |s.chans[ch]| <= CAPACITY)
    && (forall i :: 0 <= i < |s.wat| ==> s.wat[i].ch < s.next)
    && (forall i, j :: 0 <= i < j < |s.wat| ==> s.wat[i].ch != s.wat[j].ch)
  }

  lemma {:induction false} WithoutKeepsOthers(wat: seq<Watcher>, ch: nat)
    requires forall i, j :: 0 <= i < j < |wat| ==> wat[i].ch != wat[j].ch
    ensures forall w :: w in Without(wat, ch) <==> w in wat && w.ch != ch
    ensures forall i, j :: 0 <= i < j < |Without(wat, ch)| ==> Without(wat, ch)[i].ch != Without(wat, ch)[j].ch
    decreases wat
  {
    if wat != [] && wat[0].ch != ch {
      WithoutKeepsOthers(wat[1..], ch);
    }
  }

  ghost predicate AnyMatch(wat: seq<Watcher>, ch: nat, key: string) {
    exists w :: w in wat && w.ch == ch && Matches(w, key)
  }

  /** The last watcher, if it is the channel's, is its only one. */
  lemma LastMatch(wat: seq<Watcher>, ch: nat, key: string)
    requires wat != [] && forall i, j :: 0 <= i < j < |wat| ==> wat[i].ch != wat[j].ch
    ensures var n := |wat| - 1;
            if wat[n].ch == ch then !AnyMatch(wat[..n], ch, key) && (AnyMatch(wat, ch, key) <==> Matches(wat[n], key))
            else AnyMatch(wat, ch, key) <==> AnyMatch(wat[..n], ch, key)
  {
    assert wat == wat[..|wat| - 1] + [wat[|wat| - 1]];
  }

  /** A notification offers the key to each subscribed channel once and touches no other. */
  lemma {:induction false} NotifiedAt(chans: map<nat, seq<string>>, wat: seq<Watcher>, key: string, ch: nat)
    requires forall i, j :: 0 <= i < j < |wat| ==> wat[i].ch != wat[j].ch
    ensures Notified(chans, wat, key).Keys == chans.Keys
    ensures ch in chans ==>
              Notified(chans, wat, key)[ch] ==
              if AnyMatch(wat, ch, key) && |chans[ch]| < CAPACITY then chans[ch] + [key] else chans[ch]
    decreases wat
  {
    if wat != [] {
      NotifiedAt(chans, wat[..|wat| - 1], key, ch);
      LastMatch(wat, ch, key);
    }
  }

  /** A watcher is told of the keys that extend its prefix, the empty one being extended by all. */
  lemma MatchesIffExtends(w: Watcher, key: string)
    ensures Matches(w, key) <==> exists rest :: key == w.prefix + rest
  {
    if Matches(w, key) {
      assert key == w.prefix + key[|w.prefix|..];
    }
    if rest :| key == w.prefix + rest {
      assert key[..|w.prefix|] == w.prefix;
    }
  }

  /** In terms of key, prefix and number of places: the channel of a live watcher gains the key exactly if
      the key extends the prefix and fewer than sixteen keys wait. */
  lemma HearsItsPrefix(chans: map<nat, seq<string>>, wat: seq<Watcher>, key: string, ch: nat, prefix: string)
    requires forall i, j :: 0 <= i < j < |wat| ==> wat[i].ch != wat[j].ch
    requires Watcher(ch, prefix) in wat && ch in chans
    ensures ch in Notified(chans, wat, key)
    ensures Notified(chans, wat, key)[ch] ==
            if (exists rest :: key == prefix + rest) && |chans[ch]| < 16 then chans[ch] + [key] else chans[ch]
  {
    NotifiedAt(chans, wat, key, ch);
    MatchesIffExtends(Watcher(ch, prefix), key);
    OnlyWatcher(wat, Watcher(ch, prefix), key);
  }

  lemma OnlyWatcher(wat: seq<Watcher>, w: Watcher, key: string)
    requires forall i, j :: 0 <= i < j < |wat| ==> wat[i].ch != wat[j].ch
    requires w in wat
    ensures AnyMatch(wat, w.ch, key) <==> Matches(w, key)
  {
    var i :| 0 <= i < |wat| && wat[i] == w;
    forall u | u in wat && u.ch == w.ch ensures u == w {
      var j :| 0 <= j < |wat| && wat[j] == u;
      assert i == j;
    }
  }

  /** A subscription adds a watcher of exactly its prefix, with an empty channel of its own. */
  lemma SubscribeListens(s: State, prefix: string)
    ensures var s' := Apply(s, Subscribe(prefix));
            && s'.wat == s.wat + [Watcher(s.next, prefix)] && s'.chans == s.chans[s.next := []]
            && s'.db == s.db && s'.next == s.next + 1
  {
  }

  /** What a write does to the keys and values: all of it if the database took it, otherwise nothing. */
  lemma WritesAreKept(s: State, key: string, value: string)
    ensures Apply(s, Op.Put(key, value, true)).db == s.db[key := value]
    ensures Apply(s, Op.Delete(key, true)).db == s.db - {key}
    ensures Apply(s, Op.Put(key, value, false)) == Apply(s, Op.Delete(key, false)) == s
  {
  }

  lemma {:induction false} ExecValid(ops: seq<Op>)
    ensures Valid(Exec(ops))
    decreases |ops|
  {
    if ops != [] {
      var s, op := Exec(ops[..|ops| - 1]), ops[|ops| - 1];
      ExecValid(ops[..|ops| - 1]);
      match op
      case Put(key, _, _) => forall ch { NotifiedAt(s.chans, s.wat, key, ch); }
      case Delete(key, _) => forall ch { NotifiedAt(s.chans, s.wat, key, ch); }
      case Subscribe(_) =>
      case Cancel(ch) =>
        WithoutKeepsOthers(s.wat, ch);
        assert forall i :: 0 <= i < |Without(s.wat, ch)| ==> Without(s.wat, ch)[i] in s.wat;
      case Receive(_) =>
    }
  }

  ghost predicate Takes(s: State, ch: nat, op: Op) {
    Announced(op).Some? && Subscribed(s, ch, Announced(op).value) && ch in s.chans && |s.chans[ch]| < CAPACITY
  }

  /** One operation adds one key to what a channel holds and has delivered, or nothing. */
  lemma SeenStep(s: State, ch: nat, op: Op)
    requires Valid(s) && ch < s.next
    ensures var s' := Apply(s, op);
            && ch in s.chans && ch in s'.chans && ch in s'.received
            && Seen(s', ch) == if Takes(s, ch, op) then Seen(s, ch) + [Announced(op).value] else Seen(s, ch)
  {
    if Announced(op).Some? {
      var key := Announced(op).value;
      NotifiedAt(s.chans, s.wat, key, ch);
      assert s.received[ch] + (s.chans[ch] + [key]) == Seen(s, ch) + [key];
    } else if op.Receive? && op.ch == ch && s.chans[ch] != [] {
      assert s.chans[ch] == [s.chans[ch][0]] + s.chans[ch][1..];
    }
  }

  ghost predicate SeesChanges(s: State, ch: nat, changes: seq<string>, dropped: nat) {
    && ch in s.chans && ch in s.received && |s.chans[ch]| <= CAPACITY
    && IsSubsequence(Seen(s, ch), changes) && |Seen(s, ch)| + dropped == |changes|
  }

  /** One operation on a channel that was already there. */
  lemma SeesChangesStep(s: State, ch: nat, op: Op, changes: seq<string>, dropped: nat)
    requires Valid(s) && Valid(Apply(s, op)) && ch < s.next && SeesChanges(s, ch, changes, dropped)
    ensures if Announced(op).Some? && Subscribed(s, ch, Announced(op).value)
            then SeesChanges(Apply(s, op), ch, changes + [Announced(op).value],
                             dropped + if |s.chans[ch]| >= CAPACITY then 1 else 0)
            else SeesChanges(Apply(s, op), ch, changes, dropped)
  {
    SeenStep(s, ch, op);
    if Announced(op).Some? {
      SubsequenceAppend(Seen(s, ch), changes, Announced(op).value);
    }
  }

  /** What every watcher has read, followed by what waits in its channel, is an in-order subsequence of
      the matching changes since it subscribed; exactly the changes that found the channel full are
      missing; at most sixteen wait. */
  lemma {:induction false} WatcherSeesChanges(ops: seq<Op>, ch: nat)
    requires ch < Exec(ops).next
    ensures SeesChanges(Exec(ops), ch, Changes(ops, ch), Dropped(ops, ch))
    decreases |ops|
  {
    var before, op := ops[..|ops| - 1], ops[|ops| - 1];
    var s := Exec(before);
    ExecValid(before);
    ExecValid(ops);
    if ch == s.next {
      ChangesNeedSubscription(before, ch);
      assert Changes(ops, ch) == [] && Seen(Exec(ops), ch) == [];
    } else {
      WatcherSeesChanges(before, ch);
      SeesChangesStep(s, ch, op, Changes(before, ch), Dropped(before, ch));
      assert Changes(before, ch) + [] == Changes(before, ch);
    }
  }

  /** What a watcher has read, followed by what waits, is exactly the changes that found room. */
  lemma {:induction false} SeenIsTaken(ops: seq<Op>, ch: nat)
    requires ch < Exec(ops).next
    ensures ch in Exec(ops).chans && ch in Exec(ops).received && Seen(Exec(ops), ch) == Taken(ops, ch)
    decreases |ops|
  {
    var before, op := ops[..|ops| - 1], ops[|ops| - 1];
    ExecValid(before);
    ExecValid(ops);
    if ch == Exec(before).next {
      NothingTaken(before, ch);
      assert Seen(Exec(ops), ch) == [];
    } else {
      SeenIsTaken(before, ch);
      SeenStep(Exec(before), ch, op);
    }
  }

  lemma {:induction false} NothingTaken(ops: seq<Op>, ch: nat)
    requires ch >= Exec(ops).next
    ensures Taken(ops, ch) == []
    decreases |ops|
  {
    if ops != [] {
      ExecValid(ops[..|ops| - 1]);
      NothingTaken(ops[..|ops| - 1], ch);
    }
  }

  /** Before it subscribes a channel has no changes. */
  lemma {:induction false} ChangesNeedSubscription(ops: seq<Op>, ch: nat)
    requires ch >= Exec(ops).next
    ensures Changes(ops, ch) == [] && Dropped(ops, ch) == 0
    decreases |ops|
  {
    if ops != [] {
      var before := ops[..|ops| - 1];
      ExecValid(before);
      ChangesNeedSubscription(before, ch);
      forall key ensures !Subscribed(Exec(before), ch, key) {
        forall w | w in Exec(before).wat ensures w.ch != ch {
          var i :| 0 <= i < |Exec(before).wat| && Exec(before).wat[i] == w;
        }
      }
    }
  }

  /** Nothing is missing if and only if no notification ever found the channel full. */
  lemma CompleteIffNeverFull(ops: seq<Op>, ch: nat)
    requires ch < Exec(ops).next
    ensures var s := Exec(ops);
            ch in s.chans && ch in s.received && (Seen(s, ch) == Changes(ops, ch) <==> Dropped(ops, ch) == 0)
  {
    WatcherSeesChanges(ops, ch);
    FullLengthSubsequence(Seen(Exec(ops), ch), Changes(ops, ch));
  }

  // ---------- Cancelling one watcher ----------

  function DropCancels(ops: seq<Op>, ch: nat): seq<Op> {
    if ops == [] then []
    else
      var before, op := DropCancels(ops[..|ops| - 1], ch), ops[|ops| - 1];
      if op == Op.Cancel(ch) then before else before + [op]
  }

  /** Two states that differ at most in what concerns one channel. */
  ghost predicate SameButFor(s: State, t: State, ch: nat) {
    && s.db == t.db && s.next == t.next
    && s.chans.Keys == t.chans.Keys && s.received.Keys == t.received.Keys
    && (forall w: Watcher :: w.ch != ch ==> (w in s.wat <==> w in t.wat))
    && (forall c :: c in s.chans && c != ch ==> s.chans[c] == t.chans[c])
    && (forall c :: c in s.received && c != ch ==> s.received[c] == t.received[c])
  }

  lemma NotifySame(s: State, t: State, ch: nat, key: string)
    requires Valid(s) && Valid(t) && SameButFor(s, t, ch)
    ensures Notified(s.chans, s.wat, key).Keys == s.chans.Keys == Notified(t.chans, t.wat, key).Keys
    ensures forall c :: c in s.chans && c != ch ==> Notified(s.chans, s.wat, key)[c] == Notified(t.chans, t.wat, key)[c]
  {
    NotifiedAt(s.chans, s.wat, key, ch);
    NotifiedAt(t.chans, t.wat, key, ch);
    forall c | c in s.chans && c != ch ensures Notified(s.chans, s.wat, key)[c] == Notified(t.chans, t.wat, key)[c] {
      NotifiedAt(s.chans, s.wat, key, c);
      NotifiedAt(t.chans, t.wat, key, c);
      assert AnyMatch(s.wat, c, key) <==> AnyMatch(t.wat, c, key);
    }
  }

  lemma CancelSame(s: State, t: State, ch: nat, c: nat)
    requires Valid(s) && Valid(t) && SameButFor(s, t, ch)
    ensures SameButFor(Apply(s, Op.Cancel(c)), Apply(t, Op.Cancel(c)), ch)
    ensures c == ch ==> SameButFor(Apply(s, Op.Cancel(c)), t, ch)
  {
    WithoutKeepsOthers(s.wat, c);
    WithoutKeepsOthers(t.wat, c);
  }

  lemma SubscribeSame(s: State, t: State, ch: nat, prefix: string)
    requires Valid(s) && Valid(t) && SameButFor(s, t, ch)
    ensures SameButFor(Apply(s, Subscribe(prefix)), Apply(t, Subscribe(prefix)), ch)
  {
    var s', t' := Apply(s, Subscribe(prefix)), Apply(t, Subscribe(prefix));
    forall w: Watcher | w.ch != ch ensures w in s'.wat <==> w in t'.wat {
      assert w in s'.wat <==> w in s.wat || w == Watcher(s.next, prefix);
      assert w in t'.wat <==> w in t.wat || w == Watcher(t.next, prefix);
    }
  }

  lemma ReceiveSame(s: State, t: State, ch: nat, c: nat)
    requires SameButFor(s, t, ch)
    ensures SameButFor(Apply(s, Receive(c)), Apply(t, Receive(c)), ch)
  {
  }

  lemma ApplySame(s: State, t: State, ch: nat, op: Op)
    requires Valid(s) && Valid(t) && SameButFor(s, t, ch)
    ensures op != Op.Cancel(ch) ==> SameButFor(Apply(s, op), Apply(t, op), ch)
    ensures op == Op.Cancel(ch) ==> SameButFor(Apply(s, op), t, ch)
  {
    match op
    case Put(key, _, _) => NotifySame(s, t, ch, key);
    case Delete(key, _) => NotifySame(s, t, ch, key);
    case Subscribe(prefix) => SubscribeSame(s, t, ch, prefix);
    case Cancel(c) => CancelSame(s, t, ch, c);
    case Receive(c) => ReceiveSame(s, t, ch, c);
  }

  /** A run and the same run in which one watcher is never cancelled look alike to all the others. */
  lemma {:induction false} CancelIsInvisibleToOthers(ops: seq<Op>, ch: nat)
    ensures SameButFor(Exec(ops), Exec(DropCancels(ops, ch)), ch)
    decreases |ops|
  {
    if ops != [] {
      var before, op := ops[..|ops| - 1], ops[|ops| - 1];
      CancelIsInvisibleToOthers(before, ch);
      ExecValid(before);
      ExecValid(DropCancels(before, ch));
      ApplySame(Exec(before), Exec(DropCancels(before, ch)), ch, op);
      assert op != Op.Cancel(ch) ==> DropCancels(ops, ch)[..|DropCancels(ops, ch)| - 1] == DropCancels(before, ch);
    }
  }
}
