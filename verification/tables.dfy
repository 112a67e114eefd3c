/** Masks over the eight slot tables: which slots are charging, which are
    still to be served, and sums and counts over a selection. */
module Tables {
  import opened Types

  /** Which slots are charging (state C). */
  function Charging(st: seq<ChargeState>): (m: seq<bool>)
    ensures |m| == |st|
    ensures forall i :: 0 <= i < |st| ==> (m[i] <==> st[i] == C)
  {
    seq(|st|, i requires 0 <= i < |st| => st[i] == C)
  }

  /** Slots that are charging and whose current is not yet set. */
  function Unset(ch: seq<bool>, done: seq<bool>): (m: seq<bool>)
    requires |done| == |ch|
    ensures |m| == |ch|
    ensures forall i :: 0 <= i < |ch| ==> (m[i] <==> ch[i] && !done[i])
  {
    seq(|ch|, i requires 0 <= i < |ch| => ch[i] && !done[i])
  }

  function AllFalse(n: nat): (m: seq<bool>)
    ensures |m| == n
    ensures forall i :: 0 <= i < n ==> !m[i]
  {
    seq(n, i => false)
  }

  /** Number of selected entries. */
  function Count(m: seq<bool>): nat {
    if |m| == 0 then 0 else (if m[0] then 1 else 0) + Count(m[1..])
  }

  /** Sum of the selected entries. */
  function SumIf(v: seq<int>, m: seq<bool>): int
    requires |v| == |m|
  {
    if |v| == 0 then 0 else (if m[0] then v[0] else 0) + SumIf(v[1..], m[1..])
  }

  lemma {:induction false} CountBound(m: seq<bool>)
    ensures Count(m) <= |m|
    ensures Count(m) == 0 <==> forall i :: 0 <= i < |m| ==> !m[i]
  {
    if |m| > 0 {
      CountBound(m[1..]);
      assert forall i :: 1 <= i < |m| ==> m[i] == m[1..][i - 1];
    }
  }

  /** Clearing one selected entry lowers the count by one. */
  lemma {:induction false} CountClear(m: seq<bool>, i: nat)
    requires i < |m| && m[i]
    ensures Count(m[i := false]) == Count(m) - 1
  {
    if i > 0 {
      assert m[i := false][1..] == m[1..][i - 1 := false];
      CountClear(m[1..], i - 1);
    } else {
      assert m[i := false][1..] == m[1..];
    }
  }

  /** Counting a suffix peels off its first entry. */
  lemma CountSuffix(m: seq<bool>, n: nat)
    requires n < |m|
    ensures Count(m[n..]) == (if m[n] then 1 else 0) + Count(m[n + 1..])
  {
    assert m[n..][1..] == m[n + 1..];
  }

  /** A suffix counts no more than the whole mask. */
  lemma {:induction false} CountSuffixLe(m: seq<bool>, n: nat)
    requires n <= |m|
    ensures Count(m[n..]) <= Count(m)
  {
    if n > 0 {
      assert m[1..][n - 1..] == m[n..];
      CountSuffixLe(m[1..], n - 1);
    } else {
      assert m[0..] == m;
    }
  }

  /** Selecting one more slot adds its new value to the sum. */
  lemma {:induction false} SumIfSelect(v: seq<int>, m: seq<bool>, i: nat, x: int)
    requires |v| == |m| && i < |v| && !m[i]
    ensures SumIf(v[i := x], m[i := true]) == SumIf(v, m) + x
  {
    if i > 0 {
      assert v[i := x][1..] == v[1..][i - 1 := x];
      assert m[i := true][1..] == m[1..][i - 1 := true];
      SumIfSelect(v[1..], m[1..], i - 1, x);
    } else {
      assert v[i := x][1..] == v[1..];
      assert m[i := true][1..] == m[1..];
    }
  }

  /** Changing an unselected slot does not change the sum. */
  lemma {:induction false} SumIfUnselected(v: seq<int>, m: seq<bool>, i: nat, x: int)
    requires |v| == |m| && i < |v| && !m[i]
    ensures SumIf(v[i := x], m) == SumIf(v, m)
  {
    if i > 0 {
      assert v[i := x][1..] == v[1..][i - 1 := x];
      SumIfUnselected(v[1..], m[1..], i - 1, x);
    } else {
      assert v[i := x][1..] == v[1..];
    }
  }

  /** Nothing selected, nothing summed. */
  lemma {:induction false} SumIfNone(v: seq<int>, m: seq<bool>)
    requires |v| == |m|
    requires forall i :: 0 <= i < |m| ==> !m[i]
    ensures SumIf(v, m) == 0
  {
    if |v| > 0 {
      SumIfNone(v[1..], m[1..]);
    }
  }

  /** Sums of natural numbers are natural. */
  lemma {:induction false} SumIfNonNeg(v: seq<int>, m: seq<bool>)
    requires |v| == |m|
    requires forall i :: 0 <= i < |v| ==> v[i] >= 0
    ensures SumIf(v, m) >= 0
  {
    if |v| > 0 {
      SumIfNonNeg(v[1..], m[1..]);
    }
  }

  /** Marking a to-be-served slot as served. */
  lemma UnsetServe(ch: seq<bool>, done: seq<bool>, i: nat)
    requires |done| == |ch| && i < |ch| && ch[i] && !done[i]
    ensures Unset(ch, done[i := true]) == Unset(ch, done)[i := false]
    ensures Count(Unset(ch, done[i := true])) == Count(Unset(ch, done)) - 1
  {
    assert Unset(ch, done[i := true]) == Unset(ch, done)[i := false];
    CountClear(Unset(ch, done), i);
  }
}
