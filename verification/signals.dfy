/** Pure signal helpers of the controller: the pilot duty for a charge current
    (the duty-cycle table of Annex A of IEC 61851-1), the pilot level read from
    the sampled control-pilot voltage, the cable capacity from the proximity
    pin, the error number of an error bit set, and the firmware version
    comparison. */
module Signals {
  import opened Types

  /** Lowest charge current (A) the duty table covers. */
  const MIN_CURRENT: nat := 6

  /** Duty (1024 = 100%) for a charge current in 0.1 A. Below 51 A the duty in
      per mille is current/0.6, up to 80 A it is current/2.5 + 640; anything
      else gets the 6 A duty. The double arithmetic of the controller truncates
      to the same integers as the divisions here: 0.6 is stored slightly below
      its value, so the quotient lies above the exact one but never reaches the
      next integer, and 2.5 is exact. */
  function DutyFor(current: u16): (d: nat)
    ensures 102 <= d <= 983
  {
    var perMille :=
      if MIN_CURRENT * 10 <= current <= 510 then current * 10 / 6
      else if 510 < current <= 800 then current * 2 / 5 + 640
      else 100;
    perMille * 1024 / 1000
  }

  /** Any current outside the table gets the 6 A fallback duty, 102. */
  lemma DutyFallback(current: u16)
    requires current < MIN_CURRENT * 10 || current > 800
    ensures DutyFor(current) == 102
  {
  }

  /** Truncating division by a positive constant is monotone. */
  lemma DivMonotone(a: int, b: int, k: int)
    requires 0 <= a <= b && k >= 1
    ensures a / k <= b / k
  {
    var qa, qb := a / k, b / k;
    assert qa * k <= a && b < qb * k + k;
    assert qa * k < (qb + 1) * k;
    MulLtCancel(qa, qb + 1, k);
  }

  /** x*k < y*k with k positive means x < y. */
  lemma MulLtCancel(x: int, y: int, k: int)
    requires k >= 1 && x * k < y * k
    ensures x < y
  {
    if x >= y {
      MulLe(y, x, k);
    }
  }

  /** Within the lower segment of the table the duty never falls as the
      current rises. */
  lemma {:induction false} DutyMonotoneLow(a: u16, b: u16)
    requires MIN_CURRENT * 10 <= a <= b <= 510
    ensures DutyFor(a) <= DutyFor(b)
  {
    DivMonotone(a * 10, b * 10, 6);
    DivMonotone(a * 10 / 6 * 1024, b * 10 / 6 * 1024, 1000);
  }

  /** Within the upper segment of the table the duty never falls as the
      current rises. */
  lemma {:induction false} DutyMonotoneHigh(a: u16, b: u16)
    requires 510 < a <= b <= 800
    ensures DutyFor(a) <= DutyFor(b)
  {
    DivMonotone(a * 2, b * 2, 5);
    DivMonotone((a * 2 / 5 + 640) * 1024, (b * 2 / 5 + 640) * 1024, 1000);
  }

  /** The two segments do not join monotonically: 51.1 A gets a lower duty
      than 51.0 A. */
  lemma DutyDropsAcrossSegments()
    ensures DutyFor(511) == 864 && DutyFor(510) == 870
    ensures DutyFor(511) < DutyFor(510)
  {
  }

  /** Pilot levels by millivolt band of the lowest and highest sample. */
  function LevelOf(lo: int, hi: int): PilotLevel {
    if lo >= 3055 then Pilot12V
    else if lo >= 2735 && hi < 3055 then Pilot9V
    else if lo >= 2400 && hi < 2735 then Pilot6V
    else if lo >= 2000 && hi < 2400 then Pilot3V
    else if lo > 100 && hi < 300 then PilotDiode
    else PilotNok
  }

  /** Every sample lies in [lo, hi). */
  predicate AllIn(samples: seq<int>, lo: int, hi: int) {
    forall i :: 0 <= i < |samples| ==> lo <= samples[i] < hi
  }

  /** Classifies the 25 control-pilot samples (in mV): scans them for the
      lowest and highest value, starting from 3300 and 0, and maps the pair to
      a level. A level other than "not ok" is reported exactly when every
      sample lies in that level's band. */
  method ClassifyPilot(samples: seq<int>) returns (level: PilotLevel)
    requires |samples| == 25
    requires forall i :: 0 <= i < |samples| ==> 0 <= samples[i] < 0x1_0000_0000
    ensures level == Pilot12V <==> AllIn(samples, 3055, 0x1_0000_0000)
    ensures level == Pilot9V <==> AllIn(samples, 2735, 3055)
    ensures level == Pilot6V <==> AllIn(samples, 2400, 2735)
    ensures level == Pilot3V <==> AllIn(samples, 2000, 2400)
    ensures level == PilotDiode <==> AllIn(samples, 101, 300)
  {
    var lo, hi := 3300, 0;
    var argLo, argHi := 0, 0;
    var n := 0;
    while n < 25
      invariant 0 <= n <= 25
      invariant forall i :: 0 <= i < n ==> lo <= samples[i] <= hi
      invariant lo <= 3300 && 0 <= argLo < 25 && (lo == 3300 || lo == samples[argLo])
      invariant 0 <= argHi < 25 && (n > 0 ==> hi == samples[argHi])
    {
      if samples[n] < lo {
        lo, argLo := samples[n], n;
      }
      if samples[n] > hi || n == 0 {
        hi, argHi := samples[n], n;
      }
      n := n + 1;
    }
    level := LevelOf(lo, hi);
  }

  /** Cable capacity (A) from the proximity-pin voltage: the coding resistor
      of a socket cable selects 16, 32 or 63 A, no resistor means 13 A, and a
      fixed cable always uses the configured maximum current. */
  function CableCapacity(mv: int, fixedCable: bool, maxCurrent: u16): (cap: u16)
    ensures fixedCable ==> cap == maxCurrent
    ensures !fixedCable ==> (cap == 16 <==> 1200 < mv < 1400)
    ensures !fixedCable ==> (cap == 32 <==> 500 < mv < 700)
    ensures !fixedCable ==> (cap == 63 <==> 200 < mv < 400)
    ensures !fixedCable ==> (cap == 13 <==> !(1200 < mv < 1400 || 500 < mv < 700 || 200 < mv < 400))
  {
    var c0 := 13;
    var c1 := if 1200 < mv < 1400 then 16 else c0;
    var c2 := if 500 < mv < 700 then 32 else c1;
    var c3 := if 200 < mv < 400 then 63 else c2;
    if fixedCable then maxCurrent else c3
  }

  /** Powers of two. */
  function Pow2(n: nat): (p: nat)
    ensures p >= 1
  {
    if n == 0 then 1 else 2 * Pow2(n - 1)
  }

  /** Error number of an error bit set: the position of its highest set bit
      (1 for bit 0), 0 when no bit is set. */
  method ErrorId(code: u8) returns (count: nat)
    ensures count == 0 <==> code == 0
    ensures count <= 8
    ensures code != 0 ==> Pow2(count - 1) <= code < Pow2(count)
  {
    count := 0;
    var x: nat := code;
    while x != 0
      invariant count <= 8 && x < Pow2(8 - count)
      invariant x * Pow2(count) <= code < (x + 1) * Pow2(count)
      invariant count == 0 <==> x == code
      invariant count > 0 ==> Pow2(count - 1) <= code
      decreases x
    {
      ShiftStep(x, count, code);
      count := count + 1;
      x := x / 2;
    }
  }

  lemma MulLe(a: int, b: int, p: int)
    requires a <= b && p >= 0
    ensures a * p <= b * p
  {
  }

  /** Halving x doubles the unit of the bracket x*p <= code < (x+1)*p. */
  lemma HalveBracket(x: nat, p: nat, code: int)
    requires p >= 1 && x * p <= code < (x + 1) * p
    ensures (x / 2) * (2 * p) <= code < (x / 2 + 1) * (2 * p)
  {
    var h := x / 2;
    MulLe(2 * h, x, p);
    MulLe(x + 1, 2 * h + 2, p);
    assert (2 * h) * p == h * (2 * p);
    assert (2 * h + 2) * p == (h + 1) * (2 * p);
  }

  /** A positive number below 2^m needs m >= 1. */
  lemma BelowPow2(x: nat, m: nat)
    requires 0 < x < Pow2(m)
    ensures m >= 1 && x / 2 < Pow2(m - 1)
  {
  }

  /** One right shift of the remaining bits keeps the bracket of ErrorId. */
  lemma ShiftStep(x: nat, count: nat, code: nat)
    requires x > 0 && count <= 8 && x < Pow2(8 - count)
    requires x * Pow2(count) <= code < (x + 1) * Pow2(count)
    ensures count < 8
    ensures Pow2(count) <= code
    ensures (x / 2) * Pow2(count + 1) <= code < (x / 2 + 1) * Pow2(count + 1)
    ensures x / 2 < Pow2(8 - (count + 1))
  {
    BelowPow2(x, 8 - count);
    MulLe(1, x, Pow2(count));
    HalveBracket(x, Pow2(count), code);
    assert Pow2(count + 1) == 2 * Pow2(count);
  }

  /** A firmware version as scanned from "vX.Y.Z[-RCn]": the number of fields
      matched and the three numbers (the text scanning itself is not part of
      this model). */
  datatype Scanned = Scanned(hit: int, major: int, minor: int, patch: int)

  /** Whether the latest release should replace the running firmware: both
      versions must be plain three-number releases, compared field by field. */
  function FwNeedsUpdate(latest: Scanned, cur: Scanned): bool {
    if latest.hit != 3 || cur.hit != 3 then false
    else if cur.major > latest.major then false
    else if cur.major < latest.major then true
    else if cur.minor > latest.minor then false
    else if cur.minor < latest.minor then true
    else cur.patch < latest.patch
  }

  /** Lexicographic order of (major, minor, patch). */
  predicate Older(a: Scanned, b: Scanned) {
    [a.major, a.minor, a.patch] != [b.major, b.minor, b.patch] &&
    exists i :: 0 <= i < 3 && [a.major, a.minor, a.patch][i] < [b.major, b.minor, b.patch][i] &&
      [a.major, a.minor, a.patch][..i] == [b.major, b.minor, b.patch][..i]
  }

  /** An update is wanted exactly when both versions are plain releases and
      the running one is older; so a release never replaces a newer or equal
      one, and a release-candidate build is never updated. */
  lemma FwNeedsUpdateMeansOlder(latest: Scanned, cur: Scanned)
    ensures FwNeedsUpdate(latest, cur) <==> latest.hit == 3 && cur.hit == 3 && Older(cur, latest)
    ensures FwNeedsUpdate(latest, cur) ==> !FwNeedsUpdate(cur, latest)
  {
    var a := [cur.major, cur.minor, cur.patch];
    var b := [latest.major, latest.minor, latest.patch];
    assert a[..0] == b[..0];
    if cur.major == latest.major {
      assert a[..1] == b[..1];
      if cur.minor == latest.minor {
        assert a[..2] == b[..2];
      }
    }
    if Older(cur, latest) {
      var i :| 0 <= i < 3 && a[i] < b[i] && a[..i] == b[..i];
      if i > 0 { assert a[0] == a[..i][0]; }
      if i > 1 { assert a[1] == a[..i][1]; }
    }
  }
}
