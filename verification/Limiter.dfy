/** The gateway's token bucket. Time and tokens are reals and the clock does not run backwards. */
module Limiter {

  function Min(a: real, b: real): real {
    if a < b then a else b
  }

  /** The bucket's content after the elapsed time has been credited. */
  function Refilled(rate: real, burst: real, tokens: real, elapsed: real): real {
    Min(burst, tokens + elapsed * rate)
  }

  ghost predicate Clock(times: seq<real>) {
    forall i, j :: 0 <= i <= j < |times| ==> times[i] <= times[j]
  }

  class TokenBucket {
    const rate: real
    const burst: real
    var tokens: real
    var lastFill: real

    /** The calls made so far and what they were answered. */
    ghost var times: seq<real>
    ghost var answers: seq<bool>

    ghost predicate Valid()
      reads this
    {
      rate > 0.0 ==>
        && burst == rate >= 1.0 && 0.0 <= tokens <= burst
        && Clock(times) && answers == Decisions(burst, Earned(rate, times))
        && if times == [] then tokens == burst
           else tokens == Level(burst, Earned(rate, times), answers) && lastFill == times[|times| - 1]
    }

    constructor (rate: int, now: real)
      ensures Valid() && lastFill == now && times == [] && answers == []
      ensures rate <= 0 ==> this.rate == 0.0 && burst == tokens == 1.0
      ensures rate > 0 ==> this.rate == burst == tokens == rate as real
    {
      if rate <= 0 {
        this.rate, this.burst, this.tokens := 0.0, 1.0, 1.0;
      } else {
        this.rate, this.burst, this.tokens := rate as real, rate as real, rate as real;
      }
      this.lastFill, this.times, this.answers := now, [], [];
    }

    /** `now` is what the clock says inside the critical section. */
    method Allow(now: real) returns (ok: bool)
      requires Valid() && now >= lastFill
      modifies this
      ensures Valid() && times == old(times) + [now] && answers == old(answers) + [ok]
      ensures rate <= 0.0 ==> ok && tokens == old(tokens) && lastFill == old(lastFill)
      ensures rate > 0.0 ==>
                var filled := Refilled(rate, burst, old(tokens), now - old(lastFill));
                lastFill == now && ok == (filled >= 1.0) && tokens == if ok then filled - 1.0 else filled
    {
      times := times + [now];
      if rate <= 0.0 {
        answers := answers + [true];
        return true;
      }
      var elapsed := now - lastFill;
      CallExtendsRun(rate, old(times), answers, tokens, lastFill, now);
      tokens := Refilled(rate, burst, tokens, elapsed);
      lastFill := now;
      ok := tokens >= 1.0;
      if tokens >= 1.0 {
        tokens := tokens - 1.0;
      }
      answers := answers + [ok];
    }
  }

  // ---------- Buckets under any decisions ----------

  function Earn(rate: real, t: real): real {
    rate * t
  }

  /** Tokens earned by the clock up to each call, counted from time zero. */
  function Earned(rate: real, times: seq<real>): (e: seq<real>)
    ensures |e| == |times| && forall i :: 0 <= i < |e| ==> e[i] == Earn(rate, times[i])
  {
    seq(|times|, i requires 0 <= i < |times| => Earn(rate, times[i]))
  }

  lemma ElapsedEarns(rate: real, from: real, now: real)
    requires rate >= 0.0 && from <= now
    ensures (now - from) * rate == Earn(rate, now) - Earn(rate, from) >= 0.0
  {
  }

  lemma EarnedAppend(rate: real, times: seq<real>, now: real)
    ensures Earned(rate, times + [now]) == Earned(rate, times) + [Earn(rate, now)]
  {
    var e, e' := Earned(rate, times), Earned(rate, times + [now]);
    forall i | 0 <= i < |e| ensures e'[i] == e[i] {
      assert (times + [now])[i] == times[i];
    }
  }

  function Cost(d: bool): real {
    if d then 1.0 else 0.0
  }

  /** What a bucket of this capacity, full at first, holds when the last call is decided. */
  function LevelAt(cap: real, e: seq<real>, ds: seq<bool>): real
    requires 0 < |e| == |ds| + 1
    decreases |e|, 0
  {
    if |e| == 1 then cap
    else
      var k := |e| - 1;
      Min(cap, Level(cap, e[..k], ds) + (e[k] - e[k - 1]))
  }

  /** What it holds after the calls were decided as `ds`; below zero if it was overdrawn. */
  function Level(cap: real, e: seq<real>, ds: seq<bool>): real
    requires 0 < |e| == |ds|
    decreases |e|, 1
  {
    LevelAt(cap, e, ds[..|ds| - 1]) - Cost(ds[|ds| - 1])
  }

  /** The decisions of the limiter: accept whenever there is a whole token. */
  function Decisions(cap: real, e: seq<real>): (ds: seq<bool>)
    ensures |ds| == |e|
  {
    if e == [] then []
    else
      var ds := Decisions(cap, e[..|e| - 1]);
      ds + [LevelAt(cap, e, ds) >= 1.0]
  }

  /** One call of the limiter is one step of `Decisions`. */
  lemma CallExtendsRun(rate: real, times: seq<real>, ds: seq<bool>, tokens: real, last: real, now: real)
    requires rate > 0.0 && last <= now && ds == Decisions(rate, Earned(rate, times))
    requires if times == [] then tokens == rate
             else tokens == Level(rate, Earned(rate, times), ds) && last == times[|times| - 1]
    requires 0.0 <= tokens <= rate && Clock(times)
    ensures var filled := Refilled(rate, rate, tokens, now - last);
            var e', ds' := Earned(rate, times + [now]), ds + [filled >= 1.0];
            && Clock(times + [now]) && 0.0 <= filled <= rate
            && ds' == Decisions(rate, e') && Level(rate, e', ds') == filled - Cost(filled >= 1.0)
  {
    var e, e' := Earned(rate, times), Earned(rate, times + [now]);
    EarnedAppend(rate, times, now);
    ElapsedEarns(rate, last, now);
    assert e'[..|e|] == e;
    var filled := Refilled(rate, rate, tokens, now - last);
    assert LevelAt(rate, e', ds) == filled;
    assert (ds + [filled >= 1.0])[..|ds|] == ds;
  }

  function Accepted(ds: seq<bool>): nat {
    if ds == [] then 0 else Accepted(ds[..|ds| - 1]) + if ds[|ds| - 1] then 1 else 0
  }

  /** No call is accepted without a whole token. */
  ghost predicate NeverOverdraws(cap: real, e: seq<real>, ds: seq<bool>)
    requires |e| == |ds|
  {
    forall k :: 0 <= k < |ds| && ds[k] ==> LevelAt(cap, e[..k + 1], ds[..k]) >= 1.0
  }

  ghost predicate WindowOk(cap: real, e: seq<real>, ds: seq<bool>, i: nat, j: nat)
    requires i <= j < |e| == |ds|
  {
    Accepted(ds[i..j + 1]) as real <= cap + (e[j] - e[i])
  }

  ghost predicate WithinEveryWindow(cap: real, e: seq<real>, ds: seq<bool>)
    requires |e| == |ds|
  {
    forall i: nat, j: nat :: i <= j < |ds| ==> WindowOk(cap, e, ds, i, j)
  }

  /** Credit left, when the last call is decided, by the window that starts at call i. */
  ghost function Credit(cap: real, e: seq<real>, ds: seq<bool>, i: nat): real
    requires i < |e| == |ds| + 1
  {
    cap + (e[|e| - 1] - e[i]) - Accepted(ds[i..]) as real
  }

  lemma CreditStep(cap: real, e: seq<real>, ds: seq<bool>, i: nat)
    requires 1 < |e| == |ds| + 1 && i < |e| - 1
    ensures var k := |e| - 1;
            Credit(cap, e, ds, i) == Credit(cap, e[..k], ds[..k - 1], i) + (e[k] - e[k - 1]) - Cost(ds[k - 1])
  {
    var k := |e| - 1;
    assert ds[i..][..|ds[i..]| - 1] == ds[..k - 1][i..];
  }

  /** The level is the least credit over all windows that end now. */
  lemma {:induction false} LevelIsLeastCredit(cap: real, e: seq<real>, ds: seq<bool>)
    requires 0 < |e| == |ds| + 1
    ensures forall i: nat :: i < |e| ==> LevelAt(cap, e, ds) <= Credit(cap, e, ds, i)
    ensures exists i: nat :: i < |e| && LevelAt(cap, e, ds) == Credit(cap, e, ds, i)
    decreases |e|
  {
    var k := |e| - 1;
    assert Credit(cap, e, ds, k) == cap;
    if k > 0 {
      var e', ds' := e[..k], ds[..k - 1];
      LevelIsLeastCredit(cap, e', ds');
      forall i: nat | i < k ensures LevelAt(cap, e, ds) <= Credit(cap, e, ds, i) {
        CreditStep(cap, e, ds, i);
      }
      var i0: nat :| i0 < |e'| && LevelAt(cap, e', ds') == Credit(cap, e', ds', i0);
      CreditStep(cap, e, ds, i0);
      assert LevelAt(cap, e, ds) == Credit(cap, e, ds, i0) || LevelAt(cap, e, ds) == Credit(cap, e, ds, k);
    }
  }

  /** Accepting call k breaks no window that ends there exactly when there is a whole token. */
  lemma TokenIffWindows(cap: real, e: seq<real>, ds: seq<bool>, k: nat)
    requires k < |e| == |ds| && ds[k]
    ensures LevelAt(cap, e[..k + 1], ds[..k]) >= 1.0 <==> forall i: nat :: i <= k ==> WindowOk(cap, e, ds, i, k)
  {
    var e', ds' := e[..k + 1], ds[..k];
    LevelIsLeastCredit(cap, e', ds');
    forall i: nat | i <= k ensures WindowOk(cap, e, ds, i, k) <==> Credit(cap, e', ds', i) >= 1.0 {
      assert ds[i..k + 1][..k - i] == ds'[i..];
    }
    var i0: nat :| i0 < |e'| && LevelAt(cap, e', ds') == Credit(cap, e', ds', i0);
    assert WindowOk(cap, e, ds, i0, k) <==> Credit(cap, e', ds', i0) >= 1.0;
  }

  lemma {:induction false} RejectedEndOk(cap: real, e: seq<real>, ds: seq<bool>, i: nat, j: nat)
    requires |e| == |ds| && cap >= 0.0 && Clock(e) && NeverOverdraws(cap, e, ds) && i <= j < |ds|
    ensures WindowOk(cap, e, ds, i, j)
    decreases j
  {
    if ds[j] {
      TokenIffWindows(cap, e, ds, j);
    } else {
      assert ds[i..j + 1][..j - i] == ds[i..j];
      if i < j {
        RejectedEndOk(cap, e, ds, i, j - 1);
      }
    }
  }

  /** Decisions never overdraw the bucket if and only if they keep within every window. */
  lemma OverdrawIffWindow(cap: real, e: seq<real>, ds: seq<bool>)
    requires |e| == |ds| && cap >= 0.0 && Clock(e)
    ensures NeverOverdraws(cap, e, ds) <==> WithinEveryWindow(cap, e, ds)
  {
    if NeverOverdraws(cap, e, ds) {
      forall i: nat, j: nat | i <= j < |ds| ensures WindowOk(cap, e, ds, i, j) {
        RejectedEndOk(cap, e, ds, i, j);
      }
    }
    if WithinEveryWindow(cap, e, ds) {
      forall k | 0 <= k < |ds| && ds[k] ensures LevelAt(cap, e[..k + 1], ds[..k]) >= 1.0 {
        TokenIffWindows(cap, e, ds, k);
      }
    }
  }

  lemma {:induction false} PrefixDecisions(cap: real, e: seq<real>, k: nat)
    requires k <= |e|
    ensures Decisions(cap, e)[..k] == Decisions(cap, e[..k])
    decreases |e|
  {
    var n := |e|;
    if k == n {
      assert e[..k] == e;
    } else {
      PrefixDecisions(cap, e[..n - 1], k);
      assert e[..n - 1][..k] == e[..k];
      assert Decisions(cap, e)[..n - 1] == Decisions(cap, e[..n - 1]);
    }
  }

  lemma LimiterComplies(cap: real, e: seq<real>)
    ensures NeverOverdraws(cap, e, Decisions(cap, e))
  {
    var ds := Decisions(cap, e);
    forall k | 0 <= k < |ds| && ds[k] ensures LevelAt(cap, e[..k + 1], ds[..k]) >= 1.0 {
      PrefixDecisions(cap, e, k);
      PrefixDecisions(cap, e, k + 1);
      assert e[..k + 1][..k] == e[..k];
      assert ds[k] == ds[..k + 1][k] == Decisions(cap, e[..k + 1])[k];
    }
  }

  /** A compliant rival may hold more tokens, but never more than it is behind in accepted calls. */
  lemma {:induction false} TokensAgainstCount(cap: real, e: seq<real>, ds: seq<bool>, k: nat)
    requires |e| == |ds| && NeverOverdraws(cap, e, ds) && k <= |ds|
    ensures Accepted(ds[..k]) <= Accepted(Decisions(cap, e[..k]))
    ensures k > 0 ==> Level(cap, e[..k], ds[..k]) - Level(cap, e[..k], Decisions(cap, e[..k]))
                      <= (Accepted(Decisions(cap, e[..k])) - Accepted(ds[..k])) as real
    decreases k
  {
    if k > 0 {
      TokensAgainstCount(cap, e, ds, k - 1);
      var own, e' := Decisions(cap, e[..k]), e[..k];
      assert e'[..k - 1] == e[..k - 1] && ds[..k][..k - 1] == ds[..k - 1] && own[..k - 1] == Decisions(cap, e[..k - 1]);
      var rival, mine := LevelAt(cap, e', ds[..k - 1]), LevelAt(cap, e', own[..k - 1]);
      assert rival - mine <= (Accepted(own[..k - 1]) - Accepted(ds[..k - 1])) as real;
      assert own[k - 1] == (mine >= 1.0);
      assert ds[k - 1] ==> rival >= 1.0 by {
        assert e[..(k - 1) + 1] == e';
      }
    }
  }

  // ---------- In terms of the rate and the clock ----------

  /** Every window of calls holds at most burst + rate * duration accepted ones. */
  ghost predicate KeepsRate(rate: real, times: seq<real>, ds: seq<bool>)
    requires |times| == |ds|
  {
    forall i, j :: 0 <= i <= j < |ds| ==> Accepted(ds[i..j + 1]) as real <= rate + rate * (times[j] - times[i])
  }

  lemma KeepsRateIsWindows(rate: real, times: seq<real>, ds: seq<bool>)
    requires rate > 0.0 && Clock(times) && |times| == |ds|
    ensures Clock(Earned(rate, times))
    ensures KeepsRate(rate, times, ds) <==> WithinEveryWindow(rate, Earned(rate, times), ds)
  {
    var e := Earned(rate, times);
    forall i, j | 0 <= i <= j < |times| ensures e[j] - e[i] == rate * (times[j] - times[i]) >= 0.0 {
    }
    if KeepsRate(rate, times, ds) {
      forall i: nat, j: nat | i <= j < |ds| ensures WindowOk(rate, e, ds, i, j) {
        assert Accepted(ds[i..j + 1]) as real <= rate + rate * (times[j] - times[i]);
      }
    }
    if WithinEveryWindow(rate, e, ds) {
      forall i, j | 0 <= i <= j < |ds| ensures Accepted(ds[i..j + 1]) as real <= rate + rate * (times[j] - times[i]) {
        assert WindowOk(rate, e, ds, i, j);
      }
    }
  }

  /** Sliding-window bound: the limiter keeps its rate over every window of every run. */
  lemma AllowKeepsRate(rate: real, times: seq<real>)
    requires rate > 0.0 && Clock(times)
    ensures KeepsRate(rate, times, Decisions(rate, Earned(rate, times)))
  {
    var e := Earned(rate, times);
    KeepsRateIsWindows(rate, times, Decisions(rate, e));
    LimiterComplies(rate, e);
    OverdrawIffWindow(rate, e, Decisions(rate, e));
  }

  /** Optimality: of all ways to answer the same calls that keep the rate over every window, none has
      accepted more calls than the limiter after any number of them. */
  lemma AllowIsOptimal(rate: real, times: seq<real>, ds: seq<bool>, k: nat)
    requires rate > 0.0 && Clock(times) && |times| == |ds| && KeepsRate(rate, times, ds) && k <= |ds|
    ensures Accepted(ds[..k]) <= Accepted(Decisions(rate, Earned(rate, times))[..k])
  {
    var e := Earned(rate, times);
    KeepsRateIsWindows(rate, times, ds);
    OverdrawIffWindow(rate, e, ds);
    TokensAgainstCount(rate, e, ds, k);
    PrefixDecisions(rate, e, k);
  }
}
