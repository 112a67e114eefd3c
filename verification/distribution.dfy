/** The two passes that spread the available current `IsetBalanced` over the
    charging slots (main.cpp, CalcBalancedCurrent, "distribute" part).

    Pass 1 (`Pin`) repeatedly scans the slots from the start; a charging slot
    whose ceiling is at most the current average is pinned to its ceiling, a
    slot that is still in its solar start window is pinned to the minimum, and
    every pin restarts the scan. Pass 2 (`Share`) hands each remaining slot the
    average of what is left. The running budget is a plain int (`MaxBalanced`);
    the per-slot values are uint16_t, so every store wraps explicitly. */
module Distribution {
  import opened Types
  import opened Tables

  datatype PinResult = PinResult(bal: seq<u16>, done: seq<bool>, budget: int, k: nat, solarPinned: bool)

  datatype ShareResult = ShareResult(bal: seq<u16>, done: seq<bool>, budget: int, k: nat)

  /** Pass 1, resumed at slot n with k slots still counted as active. */
  function Pin(ch: seq<bool>, solarNew: seq<bool>, bmax: seq<u16>, minDeci: u16,
               bal: seq<u16>, done: seq<bool>, budget: int, k: nat, n: nat): (r: PinResult)
    requires |solarNew| == |bmax| == |bal| == |done| == |ch|
    requires n <= |ch|
    ensures |r.bal| == |r.done| == |ch|
    decreases k, |ch| - n
  {
    if n == |ch| || k == 0 then PinResult(bal, done, budget, k, false)
    else if ch[n] && !done[n] then
      if solarNew[n] then
        var r := Pin(ch, solarNew, bmax, minDeci, bal[n := minDeci], done[n := true], budget - minDeci, k - 1, 0);
        r.(solarPinned := true)
      else if CDiv(budget, k) >= bmax[n] then
        Pin(ch, solarNew, bmax, minDeci, bal[n := bmax[n]], done[n := true], budget - bmax[n], k - 1, 0)
      else
        Pin(ch, solarNew, bmax, minDeci, bal, done, budget, k, n + 1)
    else
      Pin(ch, solarNew, bmax, minDeci, bal, done, budget, k, n + 1)
  }

  /** Pass 1 touches only charging slots still waiting for a value; a slot it
      serves gets the minimum (solar start) or exactly its own ceiling. */
  lemma {:induction false} PinServes(ch: seq<bool>, solarNew: seq<bool>, bmax: seq<u16>, minDeci: u16,
                                     bal: seq<u16>, done: seq<bool>, budget: int, k: nat, n: nat)
    requires |solarNew| == |bmax| == |bal| == |done| == |ch|
    requires n <= |ch|
    ensures var r := Pin(ch, solarNew, bmax, minDeci, bal, done, budget, k, n);
              && (forall i :: 0 <= i < |ch| && !(ch[i] && !done[i]) ==> r.bal[i] == bal[i] && r.done[i] == done[i])
              && (forall i :: 0 <= i < |ch| && ch[i] && !done[i] ==>
                    r.bal[i] == (if r.done[i] then (if solarNew[i] then minDeci else bmax[i]) else bal[i]))
    decreases k, |ch| - n
  {
    if n == |ch| || k == 0 {
    } else if ch[n] && !done[n] {
      if solarNew[n] {
        PinServes(ch, solarNew, bmax, minDeci, bal[n := minDeci], done[n := true], budget - minDeci, k - 1, 0);
      } else if CDiv(budget, k) >= bmax[n] {
        PinServes(ch, solarNew, bmax, minDeci, bal[n := bmax[n]], done[n := true], budget - bmax[n], k - 1, 0);
      } else {
        PinServes(ch, solarNew, bmax, minDeci, bal, done, budget, k, n + 1);
      }
    } else {
      PinServes(ch, solarNew, bmax, minDeci, bal, done, budget, k, n + 1);
    }
  }

  /** Pass 1 takes what it hands out from the budget, and counts one active
      slot less per slot it serves. */
  lemma {:induction false} PinAccounts(ch: seq<bool>, solarNew: seq<bool>, bmax: seq<u16>, minDeci: u16,
                                       bal: seq<u16>, done: seq<bool>, budget: int, k: nat, n: nat)
    requires |solarNew| == |bmax| == |bal| == |done| == |ch|
    requires n <= |ch|
    ensures var r := Pin(ch, solarNew, bmax, minDeci, bal, done, budget, k, n);
              && r.budget + SumIf(r.bal, r.done) == budget + SumIf(bal, done)
              && k - r.k == Count(Unset(ch, done)) - Count(Unset(ch, r.done))
    decreases k, |ch| - n
  {
    if n == |ch| || k == 0 {
    } else if ch[n] && !done[n] {
      if solarNew[n] {
        UnsetServe(ch, done, n);
        SumIfSelect(bal, done, n, minDeci);
        PinAccounts(ch, solarNew, bmax, minDeci, bal[n := minDeci], done[n := true], budget - minDeci, k - 1, 0);
      } else if CDiv(budget, k) >= bmax[n] {
        UnsetServe(ch, done, n);
        SumIfSelect(bal, done, n, bmax[n]);
        PinAccounts(ch, solarNew, bmax, minDeci, bal[n := bmax[n]], done[n := true], budget - bmax[n], k - 1, 0);
      } else {
        PinAccounts(ch, solarNew, bmax, minDeci, bal, done, budget, k, n + 1);
      }
    } else {
      PinAccounts(ch, solarNew, bmax, minDeci, bal, done, budget, k, n + 1);
    }
  }

  /** When pass 1 stops with active slots left, none of them would be pinned at
      the final average: each one's ceiling is above it. */
  lemma {:induction false} PinSettles(ch: seq<bool>, solarNew: seq<bool>, bmax: seq<u16>, minDeci: u16,
                                      bal: seq<u16>, done: seq<bool>, budget: int, k: nat, n: nat)
    requires |solarNew| == |bmax| == |bal| == |done| == |ch|
    requires n <= |ch|
    requires k == 0 || forall i :: 0 <= i < n && ch[i] && !done[i] ==> !solarNew[i] && CDiv(budget, k) < bmax[i]
    ensures var r := Pin(ch, solarNew, bmax, minDeci, bal, done, budget, k, n);
              r.k == 0 || forall i :: 0 <= i < |ch| && ch[i] && !r.done[i] ==>
                            !solarNew[i] && CDiv(r.budget, r.k) < bmax[i]
    decreases k, |ch| - n
  {
    if n == |ch| || k == 0 {
    } else if ch[n] && !done[n] {
      if solarNew[n] {
        PinSettles(ch, solarNew, bmax, minDeci, bal[n := minDeci], done[n := true], budget - minDeci, k - 1, 0);
      } else if CDiv(budget, k) >= bmax[n] {
        PinSettles(ch, solarNew, bmax, minDeci, bal[n := bmax[n]], done[n := true], budget - bmax[n], k - 1, 0);
      } else {
        PinSettles(ch, solarNew, bmax, minDeci, bal, done, budget, k, n + 1);
      }
    } else {
      PinSettles(ch, solarNew, bmax, minDeci, bal, done, budget, k, n + 1);
    }
  }

  /** Without slots in their solar start window, pass 1 never overdraws a
      non-negative budget and reports no solar pin. */
  lemma {:induction false} PinKeepsBudget(ch: seq<bool>, solarNew: seq<bool>, bmax: seq<u16>, minDeci: u16,
                                          bal: seq<u16>, done: seq<bool>, budget: int, k: nat, n: nat)
    requires |solarNew| == |bmax| == |bal| == |done| == |ch|
    requires n <= |ch|
    requires forall i :: 0 <= i < |ch| ==> !solarNew[i]
    requires budget >= 0
    ensures var r := Pin(ch, solarNew, bmax, minDeci, bal, done, budget, k, n);
              r.budget >= 0 && !r.solarPinned
    decreases k, |ch| - n
  {
    if n == |ch| || k == 0 {
    } else if ch[n] && !done[n] {
      if CDiv(budget, k) >= bmax[n] {
        DivAtMost(budget, k);
        PinKeepsBudget(ch, solarNew, bmax, minDeci, bal[n := bmax[n]], done[n := true], budget - bmax[n], k - 1, 0);
      } else {
        PinKeepsBudget(ch, solarNew, bmax, minDeci, bal, done, budget, k, n + 1);
      }
    } else {
      PinKeepsBudget(ch, solarNew, bmax, minDeci, bal, done, budget, k, n + 1);
    }
  }

  /** Pass 2, resumed at slot n: every remaining charging slot gets the
      average of the remaining budget. */
  function Share(ch: seq<bool>, bal: seq<u16>, done: seq<bool>, budget: int, k: nat, n: nat): (r: ShareResult)
    requires |bal| == |done| == |ch|
    requires n <= |ch|
    ensures |r.bal| == |r.done| == |ch|
    decreases |ch| - n
  {
    if n == |ch| || k == 0 then ShareResult(bal, done, budget, k)
    else if ch[n] && !done[n] then
      var w := Wrap16(CDiv(budget, k));
      Share(ch, bal[n := w], done[n := true], budget - w, k - 1, n + 1)
    else
      Share(ch, bal, done, budget, k, n + 1)
  }

  /** Pass 2 touches only waiting charging slots from n on. */
  lemma {:induction false} ShareFrame(ch: seq<bool>, bal: seq<u16>, done: seq<bool>, budget: int, k: nat, n: nat)
    requires |bal| == |done| == |ch|
    requires n <= |ch|
    ensures var r := Share(ch, bal, done, budget, k, n);
              forall i :: 0 <= i < |ch| && !(n <= i && ch[i] && !done[i]) ==> r.bal[i] == bal[i] && r.done[i] == done[i]
    decreases |ch| - n
  {
    if n == |ch| || k == 0 {
    } else if ch[n] && !done[n] {
      var w := Wrap16(CDiv(budget, k));
      ShareFrame(ch, bal[n := w], done[n := true], budget - w, k - 1, n + 1);
    } else {
      ShareFrame(ch, bal, done, budget, k, n + 1);
    }
  }

  /** Pass 2 takes what it hands out from the budget and never overdraws a
      non-negative budget. */
  lemma {:induction false} ShareAccounts(ch: seq<bool>, bal: seq<u16>, done: seq<bool>, budget: int, k: nat, n: nat)
    requires |bal| == |done| == |ch|
    requires n <= |ch|
    ensures var r := Share(ch, bal, done, budget, k, n);
              && r.budget + SumIf(r.bal, r.done) == budget + SumIf(bal, done)
              && (budget >= 0 ==> r.budget >= 0)
    decreases |ch| - n
  {
    if n == |ch| || k == 0 {
    } else if ch[n] && !done[n] {
      var w := Wrap16(CDiv(budget, k));
      SumIfSelect(bal, done, n, w);
      DivAtMost(budget, k);
      ShareAccounts(ch, bal[n := w], done[n := true], budget - w, k - 1, n + 1);
    } else {
      ShareAccounts(ch, bal, done, budget, k, n + 1);
    }
  }

  /** No waiting slot from n on: the suffix of the waiting mask counts zero. */
  lemma NoneWaiting(ch: seq<bool>, done: seq<bool>, n: nat)
    requires |done| == |ch| && n <= |ch|
    requires Count(Unset(ch, done)[n..]) == 0
    ensures forall i :: n <= i < |ch| && ch[i] ==> done[i]
  {
    var u := Unset(ch, done);
    CountBound(u[n..]);
    forall i | n <= i < |ch| && ch[i] ensures done[i] {
      assert u[n..][i - n] == u[i];
    }
  }

  /** With at least as many active slots counted as there are waiting slots,
      pass 2 serves every waiting slot and counts each one off. */
  lemma {:induction false} ShareServesAll(ch: seq<bool>, bal: seq<u16>, done: seq<bool>, budget: int, k: nat, n: nat)
    requires |bal| == |done| == |ch|
    requires n <= |ch|
    requires k >= Count(Unset(ch, done)[n..])
    ensures var r := Share(ch, bal, done, budget, k, n);
              && r.k == k - Count(Unset(ch, done)[n..])
              && forall i :: n <= i < |ch| && ch[i] ==> r.done[i]
    decreases |ch| - n
  {
    if n == |ch| {
    } else if k == 0 {
      NoneWaiting(ch, done, n);
    } else if ch[n] && !done[n] {
      var w := Wrap16(CDiv(budget, k));
      CountSuffix(Unset(ch, done), n);
      assert Unset(ch, done[n := true])[n + 1..] == Unset(ch, done)[n + 1..];
      ShareServesAll(ch, bal[n := w], done[n := true], budget - w, k - 1, n + 1);
      ShareFrame(ch, bal[n := w], done[n := true], budget - w, k - 1, n + 1);
    } else {
      CountSuffix(Unset(ch, done), n);
      ShareServesAll(ch, bal, done, budget, k, n + 1);
      ShareFrame(ch, bal, done, budget, k, n + 1);
    }
  }

  lemma DivAtMost(a: int, k: int)
    requires k >= 1
    ensures 0 <= a ==> 0 <= a / k <= a
  {
  }

  /** x*k < k with k positive forces x below one. */
  lemma BelowOne(x: int, k: int)
    requires k >= 1 && x * k < k
    ensures x < 1
  {
    if x >= 1 {
      MulLe(1, x, k);
    }
  }

  /** One step of pass 2 keeps the budget between q and q+1 per remaining slot. */
  lemma DivStep(b: int, k: int, q: int)
    requires k >= 1 && q >= 0
    requires q * k <= b <= (q + 1) * k
    ensures q <= b / k <= q + 1
    ensures q * (k - 1) <= b - b / k <= (q + 1) * (k - 1)
  {
    var a, r := b / k, b % k;
    assert b == a * k + r && 0 <= r < k;
    assert (q - a) * k == q * k - a * k;
    BelowOne(q - a, k);
    assert (a - q - 1) * k == a * k - (q + 1) * k;
    BelowOne(a - q - 1, k);
    assert b - a == a * (k - 1) + r;
    if a == q {
      assert q * (k - 1) <= b - a;
      assert b - a <= q * (k - 1) + (k - 1);
    } else {
      assert a == q + 1;
      assert r == 0;
      assert b - a == (q + 1) * (k - 1);
    }
  }

  lemma MulLe(x: int, y: int, k: int)
    requires x <= y && k >= 0
    ensures x * k <= y * k
  {
  }

  /** Pass 2 hands out q or q+1 to every slot when the budget is between q and
      q+1 per counted slot. */
  lemma {:induction false} ShareNearAverage(ch: seq<bool>, bal: seq<u16>, done: seq<bool>,
                                            budget: int, k: nat, n: nat, q: int)
    requires |bal| == |done| == |ch| && n <= |ch|
    requires 0 <= q < 0xFFFF
    requires q * k <= budget <= (q + 1) * k
    requires k >= Count(Unset(ch, done)[n..])
    ensures var r := Share(ch, bal, done, budget, k, n);
              && (forall i :: n <= i < |ch| && ch[i] && !done[i] ==> q <= r.bal[i] <= q + 1)
              && q * r.k <= r.budget <= (q + 1) * r.k
    decreases |ch| - n
  {
    if n == |ch| {
    } else if k == 0 {
      NoneWaiting(ch, done, n);
    } else if ch[n] && !done[n] {
      DivStep(budget, k, q);
      var w := Wrap16(CDiv(budget, k));
      assert w == budget / k;
      CountSuffix(Unset(ch, done), n);
      assert Unset(ch, done[n := true])[n + 1..] == Unset(ch, done)[n + 1..];
      ShareNearAverage(ch, bal[n := w], done[n := true], budget - w, k - 1, n + 1, q);
      ShareFrame(ch, bal[n := w], done[n := true], budget - w, k - 1, n + 1);
    } else {
      CountSuffix(Unset(ch, done), n);
      ShareNearAverage(ch, bal, done, budget, k, n + 1, q);
    }
  }

  datatype Distribution = Distribution(bal: seq<u16>, solarPinned: bool)

  /** Both passes, starting with no slot served. */
  function Distribute(ch: seq<bool>, solarNew: seq<bool>, bmax: seq<u16>, minDeci: u16,
                      bal: seq<u16>, budget: int, k: nat): (r: Distribution)
    requires |solarNew| == |bmax| == |bal| == |ch|
    ensures |r.bal| == |ch|
    ensures forall i :: 0 <= i < |ch| && !ch[i] ==> r.bal[i] == bal[i]
  {
    var p := Pin(ch, solarNew, bmax, minDeci, bal, AllFalse(|ch|), budget, k, 0);
    var s := Share(ch, p.bal, p.done, p.budget, p.k, 0);
    PinServes(ch, solarNew, bmax, minDeci, bal, AllFalse(|ch|), budget, k, 0);
    ShareFrame(ch, p.bal, p.done, p.budget, p.k, 0);
    Distribution(s.bal, p.solarPinned)
  }

  lemma {:induction false} SumIfAgree(v: seq<int>, w: seq<int>, m: seq<bool>)
    requires |v| == |w| == |m|
    requires forall i :: 0 <= i < |m| && m[i] ==> v[i] == w[i]
    ensures SumIf(v, m) == SumIf(w, m)
  {
    if |v| > 0 {
      SumIfAgree(v[1..], w[1..], m[1..]);
    }
  }

  /** With at least as many slots counted as are charging, the two passes
      serve exactly the charging slots and hand out budget minus what is left. */
  lemma DistributeAccounts(ch: seq<bool>, solarNew: seq<bool>, bmax: seq<u16>, minDeci: u16,
                           bal: seq<u16>, budget: int, k: nat)
    requires |solarNew| == |bmax| == |bal| == |ch|
    requires k >= Count(ch)
    ensures var p := Pin(ch, solarNew, bmax, minDeci, bal, AllFalse(|ch|), budget, k, 0);
            var s := Share(ch, p.bal, p.done, p.budget, p.k, 0);
              && s.done == ch
              && SumIf(s.bal, ch) == budget - s.budget
              && s.k == k - Count(ch)
  {
    var F := AllFalse(|ch|);
    var p := Pin(ch, solarNew, bmax, minDeci, bal, F, budget, k, 0);
    var s := Share(ch, p.bal, p.done, p.budget, p.k, 0);
    assert Unset(ch, F) == ch;
    PinServes(ch, solarNew, bmax, minDeci, bal, F, budget, k, 0);
    PinAccounts(ch, solarNew, bmax, minDeci, bal, F, budget, k, 0);
    assert Unset(ch, p.done)[0..] == Unset(ch, p.done);
    ShareFrame(ch, p.bal, p.done, p.budget, p.k, 0);
    ShareAccounts(ch, p.bal, p.done, p.budget, p.k, 0);
    ShareServesAll(ch, p.bal, p.done, p.budget, p.k, 0);
    SumIfNone(bal, F);
    assert s.done == ch;
  }

  /** When pass 1 leaves slots waiting, pass 2 starts from an average q that
      lies below the ceiling of every waiting slot. */
  lemma PinLeavesAverage(ch: seq<bool>, solarNew: seq<bool>, bmax: seq<u16>, minDeci: u16,
                         bal: seq<u16>, budget: int, k: nat)
    requires |solarNew| == |bmax| == |bal| == |ch|
    requires forall i :: 0 <= i < |ch| ==> !solarNew[i]
    requires budget >= 0 && k >= Count(ch)
    requires Count(Unset(ch, Pin(ch, solarNew, bmax, minDeci, bal, AllFalse(|ch|), budget, k, 0).done)) > 0
    ensures var p := Pin(ch, solarNew, bmax, minDeci, bal, AllFalse(|ch|), budget, k, 0);
              && p.k >= Count(Unset(ch, p.done)[0..])
              && p.k >= 1 && p.budget >= 0
              && forall i :: 0 <= i < |ch| && ch[i] && !p.done[i] ==> p.budget / p.k < bmax[i]
  {
    var F := AllFalse(|ch|);
    var p := Pin(ch, solarNew, bmax, minDeci, bal, F, budget, k, 0);
    assert Unset(ch, F) == ch;
    PinAccounts(ch, solarNew, bmax, minDeci, bal, F, budget, k, 0);
    PinSettles(ch, solarNew, bmax, minDeci, bal, F, budget, k, 0);
    PinKeepsBudget(ch, solarNew, bmax, minDeci, bal, F, budget, k, 0);
    assert Unset(ch, p.done)[0..] == Unset(ch, p.done);
  }

  /** The starting average of pass 2 fits a register and brackets the
      remaining budget. */
  lemma {:induction false} PinAverageFits(ch: seq<bool>, solarNew: seq<bool>, bmax: seq<u16>, minDeci: u16,
                                          bal: seq<u16>, budget: int, k: nat)
    requires |solarNew| == |bmax| == |bal| == |ch|
    requires forall i :: 0 <= i < |ch| ==> !solarNew[i]
    requires budget >= 0 && k >= Count(ch)
    requires Count(Unset(ch, Pin(ch, solarNew, bmax, minDeci, bal, AllFalse(|ch|), budget, k, 0).done)) > 0
    ensures var p := Pin(ch, solarNew, bmax, minDeci, bal, AllFalse(|ch|), budget, k, 0);
              && p.k >= 1
              && 0 <= p.budget / p.k < 0xFFFF
              && (p.budget / p.k) * p.k <= p.budget <= (p.budget / p.k + 1) * p.k
  {
    var p := Pin(ch, solarNew, bmax, minDeci, bal, AllFalse(|ch|), budget, k, 0);
    PinLeavesAverage(ch, solarNew, bmax, minDeci, bal, budget, k);
    CountBound(Unset(ch, p.done));
    var j :| 0 <= j < |ch| && Unset(ch, p.done)[j];
    assert p.budget / p.k < bmax[j];
    DivStepStart(p.budget, p.k);
  }

  /** Outside the solar start window every charging slot stays within its
      ceiling, and slots pinned in pass 1 get exactly their ceiling. */
  lemma DistributeBounded(ch: seq<bool>, solarNew: seq<bool>, bmax: seq<u16>, minDeci: u16,
                          bal: seq<u16>, budget: int, k: nat)
    requires |solarNew| == |bmax| == |bal| == |ch|
    requires forall i :: 0 <= i < |ch| ==> !solarNew[i]
    requires budget >= 0 && k >= Count(ch)
    ensures var r := Distribute(ch, solarNew, bmax, minDeci, bal, budget, k);
            var p := Pin(ch, solarNew, bmax, minDeci, bal, AllFalse(|ch|), budget, k, 0);
              && (forall i :: 0 <= i < |ch| && ch[i] ==> r.bal[i] <= bmax[i])
              && (forall i :: 0 <= i < |ch| && ch[i] && p.done[i] ==> r.bal[i] == bmax[i])
  {
    var F := AllFalse(|ch|);
    var r := Distribute(ch, solarNew, bmax, minDeci, bal, budget, k);
    var p := Pin(ch, solarNew, bmax, minDeci, bal, F, budget, k, 0);
    var s := Share(ch, p.bal, p.done, p.budget, p.k, 0);
    assert r.bal == s.bal;
    PinServes(ch, solarNew, bmax, minDeci, bal, F, budget, k, 0);
    ShareFrame(ch, p.bal, p.done, p.budget, p.k, 0);
    if Count(Unset(ch, p.done)) > 0 {
      PinLeavesAverage(ch, solarNew, bmax, minDeci, bal, budget, k);
      PinAverageFits(ch, solarNew, bmax, minDeci, bal, budget, k);
      ShareNearAverage(ch, p.bal, p.done, p.budget, p.k, 0, p.budget / p.k);
    } else {
      NoneWaiting(ch, p.done, 0);
      assert Unset(ch, p.done)[0..] == Unset(ch, p.done);
    }
  }

  /** When every counted slot is charging and the ceilings can absorb the
      budget, the charging slots together get exactly the budget. */
  lemma DistributeExhausts(ch: seq<bool>, solarNew: seq<bool>, bmax: seq<u16>, minDeci: u16,
                           bal: seq<u16>, budget: int, k: nat)
    requires |solarNew| == |bmax| == |bal| == |ch|
    requires forall i :: 0 <= i < |ch| ==> !solarNew[i]
    requires budget >= 0 && k == Count(ch) && budget <= SumIf(bmax, ch)
    ensures SumIf(Distribute(ch, solarNew, bmax, minDeci, bal, budget, k).bal, ch) == budget
  {
    var F := AllFalse(|ch|);
    var p := Pin(ch, solarNew, bmax, minDeci, bal, F, budget, k, 0);
    var s := Share(ch, p.bal, p.done, p.budget, p.k, 0);
    assert Distribute(ch, solarNew, bmax, minDeci, bal, budget, k).bal == s.bal;
    DistributeAccounts(ch, solarNew, bmax, minDeci, bal, budget, k);
    assert s.k == 0;
    if Count(Unset(ch, p.done)) > 0 {
      PinLeavesAverage(ch, solarNew, bmax, minDeci, bal, budget, k);
      PinAverageFits(ch, solarNew, bmax, minDeci, bal, budget, k);
      ShareNearAverage(ch, p.bal, p.done, p.budget, p.k, 0, p.budget / p.k);
    } else {
      PinPinsAll(ch, solarNew, bmax, minDeci, bal, budget, k);
      ShareAccounts(ch, p.bal, p.done, p.budget, p.k, 0);
      ShareServesAll(ch, p.bal, p.done, p.budget, p.k, 0);
      assert Unset(ch, p.done)[0..] == Unset(ch, p.done);
      assert p.k == 0;
    }
    assert s.budget == 0;
  }

  /** When pass 1 pins every charging slot to its ceiling and the ceilings can
      absorb the budget, nothing is left over. */
  lemma PinPinsAll(ch: seq<bool>, solarNew: seq<bool>, bmax: seq<u16>, minDeci: u16,
                   bal: seq<u16>, budget: int, k: nat)
    requires |solarNew| == |bmax| == |bal| == |ch|
    requires forall i :: 0 <= i < |ch| ==> !solarNew[i]
    requires budget >= 0 && k >= Count(ch) && budget <= SumIf(bmax, ch)
    requires Count(Unset(ch, Pin(ch, solarNew, bmax, minDeci, bal, AllFalse(|ch|), budget, k, 0).done)) == 0
    ensures Pin(ch, solarNew, bmax, minDeci, bal, AllFalse(|ch|), budget, k, 0).budget == 0
  {
    var F := AllFalse(|ch|);
    var p := Pin(ch, solarNew, bmax, minDeci, bal, F, budget, k, 0);
    PinServes(ch, solarNew, bmax, minDeci, bal, F, budget, k, 0);
    PinAccounts(ch, solarNew, bmax, minDeci, bal, F, budget, k, 0);
    PinKeepsBudget(ch, solarNew, bmax, minDeci, bal, F, budget, k, 0);
    NoneWaiting(ch, p.done, 0);
    assert Unset(ch, p.done)[0..] == Unset(ch, p.done);
    SumIfNone(bal, F);
    assert p.done == ch;
    SumIfAgree(p.bal, bmax, ch);
  }

  /** Outside the solar start window the distribution is fair: every charging
      slot stays within its ceiling, slots pinned in pass 1 get exactly their
      ceiling, and the charging slots together get no more than the budget;
      exactly the budget when every counted slot is charging and the ceilings
      can absorb it. */
  lemma DistributeWithinCeilings(ch: seq<bool>, solarNew: seq<bool>, bmax: seq<u16>, minDeci: u16,
                                 bal: seq<u16>, budget: int, k: nat)
    requires |solarNew| == |bmax| == |bal| == |ch|
    requires forall i :: 0 <= i < |ch| ==> !solarNew[i]
    requires budget >= 0 && k >= Count(ch)
    ensures var r := Distribute(ch, solarNew, bmax, minDeci, bal, budget, k);
            var p := Pin(ch, solarNew, bmax, minDeci, bal, AllFalse(|ch|), budget, k, 0);
              && !r.solarPinned
              && (forall i :: 0 <= i < |ch| && ch[i] ==> r.bal[i] <= bmax[i])
              && (forall i :: 0 <= i < |ch| && ch[i] && p.done[i] ==> r.bal[i] == bmax[i])
              && 0 <= SumIf(r.bal, ch) <= budget
              && (k == Count(ch) && budget <= SumIf(bmax, ch) ==> SumIf(r.bal, ch) == budget)
  {
    var F := AllFalse(|ch|);
    var p := Pin(ch, solarNew, bmax, minDeci, bal, F, budget, k, 0);
    PinKeepsBudget(ch, solarNew, bmax, minDeci, bal, F, budget, k, 0);
    ShareAccounts(ch, p.bal, p.done, p.budget, p.k, 0);
    DistributeAccounts(ch, solarNew, bmax, minDeci, bal, budget, k);
    DistributeBounded(ch, solarNew, bmax, minDeci, bal, budget, k);
    SumIfNonNeg(Distribute(ch, solarNew, bmax, minDeci, bal, budget, k).bal, ch);
    if k == Count(ch) && budget <= SumIf(bmax, ch) {
      DistributeExhausts(ch, solarNew, bmax, minDeci, bal, budget, k);
    }
  }

  /** The starting point of pass 2 satisfies the bracket of ShareNearAverage. */
  lemma DivStepStart(b: int, k: int)
    requires b >= 0 && k >= 1
    ensures (b / k) * k <= b <= (b / k + 1) * k
  {
  }
}
