/** The current allocation engine of the master (main.cpp IsCurrentAvailable
    and CalcBalancedCurrent): whether one more EVSE can start at MinCurrent,
    and the pipeline that computes IsetBalanced and spreads it over the
    charging slots. All currents are in 0.1 A. IsetBalanced and Isum are
    int16_t in the controller, so every store into IsetBalanced goes through
    ToI16. */
module Allocation {
  import opened Types
  import opened Tables
  import Distribution
  import Transitions

  /** Figures of the charging slots taken at the start of a computation. */
  datatype Figures = Figures(active: nat, activeMax: int, total: int, baseload: int, baseloadEv: int)

  function Ch(e: Evse): seq<bool>
    requires WellFormed(e)
  {
    Charging(e.lb.balancedState)
  }

  /** Number of charging slots, sum of their ceilings and of their currents,
      and the loads that are not EV charging: on the mains, and (never
      negative) on the EV sub-panel. */
  function FiguresOf(e: Evse): (f: Figures)
    requires WellFormed(e)
    ensures f.active == Count(Ch(e)) && f.active <= NR_EVSES
    ensures f.total == SumIf(e.lb.balanced, Ch(e)) && f.total >= 0
    ensures f.activeMax == SumIf(e.lb.balancedMax, Ch(e)) && f.activeMax >= 0
    ensures f.baseload == e.meter.mainsImeasured - f.total
    ensures f.baseloadEv >= 0 && f.baseloadEv >= e.meter.evImeasured - f.total
    ensures f.baseloadEv == 0 || f.baseloadEv == e.meter.evImeasured - f.total
  {
    var ch := Ch(e);
    CountBound(ch);
    SumIfNonNeg(e.lb.balanced, ch);
    SumIfNonNeg(e.lb.balancedMax, ch);
    var total := SumIf(e.lb.balanced, ch);
    var ev := e.meter.evImeasured - total;
    Figures(Count(ch), SumIf(e.lb.balancedMax, ch), total, e.meter.mainsImeasured - total, if ev < 0 then 0 else ev)
  }

  /** When MaxCircuit bounds the EVSEs: on a master, or without load
      balancing when an EV meter is fitted and the mode is not Normal. */
  predicate CircuitApplies(e: Evse, s: Settings) {
    (s.loadBl == 0 && s.evMeter && e.mode != MODE_NORMAL) || s.loadBl == 1
  }

  /** When a start must be possible on one phase only. */
  predicate MustBeSinglePhase(e: Evse, s: Settings) {
    s.enableC2 == AlwaysOff || (e.mode == MODE_SOLAR && s.enableC2 == SolarOff)
    || (e.mode == MODE_SOLAR && s.enableC2 == Auto && e.cp.switching == AfterSwitch)
  }

  /** Whether an OCPP limit governs this charge point (load balancing off). */
  predicate OcppSuspends(s: Settings) {
    s.loadBl == 0 && s.ocppLimit.Some? && s.ocppLimit.value < s.minCurrent * 10
  }

  function Min(a: int, b: int): int {
    if a < b then a else b
  }

  /** Slots counted when asking for one more EVSE. */
  function OneMore(active: nat): nat {
    if active + 1 > NR_EVSES then NR_EVSES else active + 1
  }

  /** Solar start rule: with nothing charging, the export must exceed
      StartCurrent; with EVSEs charging, each must be able to keep MinCurrent
      and the import must stay below ImportCurrent after giving them only
      MinCurrent. */
  predicate SolarAllows(e: Evse, s: Settings, f: Figures) {
    e.mode != MODE_SOLAR ||
      (!(f.active == 0 && e.meter.isum >= -(s.startCurrent * 10))
       && f.active * s.minCurrent * 10 <= f.total
       && !(f.active > 0 && e.meter.isum > s.importCurrent * 10 + f.total - f.active * s.minCurrent * 10))
  }

  /** Phases a new start must find MinCurrent on. */
  function StartPhases(e: Evse, s: Settings): nat {
    if MustBeSinglePhase(e, s) then 1 else 3
  }

  /** Whether one more EVSE could start at MinCurrent: the solar start rule,
      then MaxMains, MaxCircuit and MaxSumMains with every charging EVSE
      lowered to MinCurrent, then the OCPP limit. A start it allows keeps the
      mains, the circuit and the summed mains within their limits at
      MinCurrent for every counted EVSE; in Solar mode with nothing charging
      it needs an export of more than StartCurrent. */
  function IsCurrentAvailable(e: Evse, s: Settings): (ok: bool)
    requires WellFormed(e)
    ensures var f := FiguresOf(e); var a1 := OneMore(f.active);
      ok ==>
        && (e.mode != MODE_NORMAL ==> a1 * (s.minCurrent * 10) + f.baseload <= s.maxMains * 10)
        && (CircuitApplies(e, s) ==> a1 * (s.minCurrent * 10) + f.baseloadEv <= s.maxCircuit * 10)
        && (e.mode != MODE_NORMAL && s.maxSumMains != 0 ==>
              StartPhases(e, s) * a1 * s.minCurrent * 10 + e.meter.isum <= s.maxSumMains * 10)
        && !OcppSuspends(s)
        && (e.mode == MODE_SOLAR && f.active > 0 ==>
              e.meter.isum <= s.importCurrent * 10 + f.total - f.active * s.minCurrent * 10)
    ensures e.mode == MODE_SOLAR && Count(Ch(e)) == 0 && e.meter.isum >= -(s.startCurrent * 10) ==> !ok
    ensures e.mode == MODE_SOLAR && ok ==> Count(Ch(e)) * s.minCurrent * 10 <= SumIf(e.lb.balanced, Ch(e))
  {
    var f := FiguresOf(e);
    var a1 := OneMore(f.active);
    if !SolarAllows(e, s, f) then false
    else if e.mode != MODE_NORMAL && a1 * (s.minCurrent * 10) + f.baseload > s.maxMains * 10 then false
    else if CircuitApplies(e, s) && a1 * (s.minCurrent * 10) + f.baseloadEv > s.maxCircuit * 10 then false
    else if e.mode != MODE_NORMAL && s.maxSumMains != 0
            && StartPhases(e, s) * a1 * s.minCurrent * 10 + e.meter.isum > s.maxSumMains * 10 then false
    else if OcppSuspends(s) then false
    else true
  }

  /** Conversely, a start is available whenever the solar start rule holds
      and MinCurrent for one more EVSE fits MaxMains, MaxCircuit and
      MaxSumMains, unless OCPP suspends the charge point. */
  lemma AvailableWhenFits(e: Evse, s: Settings)
    requires WellFormed(e)
    requires var f := FiguresOf(e);
      e.mode == MODE_SOLAR ==>
        && !(f.active == 0 && e.meter.isum >= -(s.startCurrent * 10))
        && f.active * s.minCurrent * 10 <= f.total
        && (f.active > 0 ==> e.meter.isum <= s.importCurrent * 10 + f.total - f.active * s.minCurrent * 10)
    requires var f := FiguresOf(e); var a1 := OneMore(f.active);
      && (e.mode != MODE_NORMAL ==> a1 * (s.minCurrent * 10) + f.baseload <= s.maxMains * 10)
      && (CircuitApplies(e, s) ==> a1 * (s.minCurrent * 10) + f.baseloadEv <= s.maxCircuit * 10)
      && (e.mode != MODE_NORMAL && s.maxSumMains != 0 ==>
            StartPhases(e, s) * a1 * s.minCurrent * 10 + e.meter.isum <= s.maxSumMains * 10)
    requires !OcppSuspends(s)
    ensures IsCurrentAvailable(e, s)
  {
  }

  /** In Normal mode only the circuit of a master and an OCPP limit can
      refuse a start. */
  lemma NormalModeAlwaysAvailable(e: Evse, s: Settings)
    requires WellFormed(e)
    requires e.mode == MODE_NORMAL && s.loadBl != 1 && !OcppSuspends(s)
    ensures IsCurrentAvailable(e, s)
  {
  }

  /** More room never refuses a start that less room allowed: raising
      MaxMains or MaxCircuit, or lowering the measured loads, keeps a start
      available. */
  lemma AvailableMonotone(e: Evse, s: Settings, e2: Evse, s2: Settings)
    requires WellFormed(e) && WellFormed(e2)
    requires e2.mode == e.mode && e2.lb == e.lb && e2.cp.switching == e.cp.switching
    requires s2 == s.(maxMains := s2.maxMains, maxCircuit := s2.maxCircuit)
    requires s2.maxMains >= s.maxMains && s2.maxCircuit >= s.maxCircuit
    requires e2.meter.mainsImeasured <= e.meter.mainsImeasured && e2.meter.evImeasured <= e.meter.evImeasured
    requires e2.meter.isum == e.meter.isum
    requires IsCurrentAvailable(e, s)
    ensures IsCurrentAvailable(e2, s2)
  {
    assert Ch(e2) == Ch(e);
  }

  /** The start check reads only the mode, the phase-switch progress, the
      meters and the slot currents and states. */
  lemma AvailableFrame(e: Evse, e2: Evse, s: Settings)
    requires WellFormed(e) && WellFormed(e2)
    requires e2.mode == e.mode && e2.cp.switching == e.cp.switching && e2.meter == e.meter
    requires e2.lb.balanced == e.lb.balanced && e2.lb.balancedState == e.lb.balancedState
    ensures IsCurrentAvailable(e2, s) == IsCurrentAvailable(e, s)
  {
    assert Ch(e2) == Ch(e);
  }

  /** The ceiling before OCPP and override: the cable capacity while
      charging on a socket whose cable is weaker than MaxCurrent, MaxCurrent
      otherwise (stored in the uint16_t ChargeCurrent). */
  function CableCeiling(e: Evse, s: Settings): (b: u16)
    requires WellFormed(e)
    ensures e.lb.balancedState[0] == C && s.maxCurrent > e.cp.maxCapacity && !s.fixedCable ==>
      b == Wrap16(e.cp.maxCapacity * 10)
    ensures !(e.lb.balancedState[0] == C && s.maxCurrent > e.cp.maxCapacity && !s.fixedCable) ==>
      b == Wrap16(s.maxCurrent * 10)
  {
    if e.lb.balancedState[0] == C && s.maxCurrent > e.cp.maxCapacity && !s.fixedCable
    then Wrap16(e.cp.maxCapacity * 10) else Wrap16(s.maxCurrent * 10)
  }

  /** The per-EVSE ceiling ChargeCurrent: MaxCurrent, or the cable capacity
      while charging on a socket whose cable is weaker; an OCPP limit lowers
      it (to 0 below MinCurrent); an override replaces it. */
  function ChargeCeiling(e: Evse, s: Settings): (cc: u16)
    requires WellFormed(e)
    ensures e.overrideCurrent != 0 ==> cc == e.overrideCurrent
    ensures e.overrideCurrent == 0 ==> cc <= s.maxCurrent * 10
    ensures e.overrideCurrent == 0 && e.lb.balancedState[0] == C && s.maxCurrent > e.cp.maxCapacity && !s.fixedCable
            ==> cc <= e.cp.maxCapacity * 10
    ensures e.overrideCurrent == 0 && OcppSuspends(s) ==> cc == 0
    ensures e.overrideCurrent == 0 && s.loadBl == 0 && s.ocppLimit.Some? ==> cc <= s.ocppLimit.value
    ensures e.overrideCurrent == 0 && !(s.loadBl == 0 && s.ocppLimit.Some?) ==> cc == CableCeiling(e, s)
    ensures e.overrideCurrent == 0 && s.loadBl == 0 && s.ocppLimit.Some? && !OcppSuspends(s) ==>
      cc == Min(CableCeiling(e, s), s.ocppLimit.value)
  {
    var base := CableCeiling(e, s);
    var limited :=
      if s.loadBl == 0 && s.ocppLimit.Some? then
        (if s.ocppLimit.value < s.minCurrent * 10 then 0 else Min(base, s.ocppLimit.value))
      else base;
    if e.overrideCurrent != 0 then e.overrideCurrent else limited
  }

  datatype Headroom = Headroom(idiff: int, limited: bool)

  /** Smart and Solar headroom Idifference: what MaxMains (and MaxCircuit
      where it applies) still allow per phase, lowered to the MaxSumMains
      share per phase when that is smaller; `limited` records the latter.
      Phases default to 3 while undetected. Normal mode has no headroom. */
  function HeadroomOf(e: Evse, s: Settings): (h: Headroom)
    ensures e.mode == MODE_NORMAL ==> h == Headroom(0, false)
    ensures e.mode != MODE_NORMAL ==> h.idiff <= s.maxMains * 10 - e.meter.mainsImeasured
    ensures e.mode != MODE_NORMAL && CircuitApplies(e, s) ==> h.idiff <= s.maxCircuit * 10 - e.meter.evImeasured
    ensures h.limited ==> (s.maxSumMains != 0 &&
              h.idiff == CDiv(s.maxSumMains * 10 - e.meter.isum, if e.meter.phasesCharging == 0 then 3 else e.meter.phasesCharging))
    ensures e.mode != MODE_NORMAL && s.maxSumMains != 0 ==>
              h.idiff <= CDiv(s.maxSumMains * 10 - e.meter.isum, if e.meter.phasesCharging == 0 then 3 else e.meter.phasesCharging)
    ensures e.mode != MODE_NORMAL && !h.limited ==>
              h.idiff == s.maxMains * 10 - e.meter.mainsImeasured
              || (CircuitApplies(e, s) && h.idiff == s.maxCircuit * 10 - e.meter.evImeasured)
    ensures e.mode != MODE_NORMAL ==>
              (h.limited <==>
                 (s.maxSumMains != 0 &&
                  CDiv(s.maxSumMains * 10 - e.meter.isum, if e.meter.phasesCharging == 0 then 3 else e.meter.phasesCharging)
                  < (if CircuitApplies(e, s) then Min(s.maxMains * 10 - e.meter.mainsImeasured, s.maxCircuit * 10 - e.meter.evImeasured)
                     else s.maxMains * 10 - e.meter.mainsImeasured)))
  {
    if e.mode == MODE_NORMAL then Headroom(0, false)
    else
      var phases := if e.meter.phasesCharging == 0 then 3 else e.meter.phasesCharging;
      var mains := s.maxMains * 10 - e.meter.mainsImeasured;
      var d := if CircuitApplies(e, s) then Min(mains, s.maxCircuit * 10 - e.meter.evImeasured) else mains;
      var share := CDiv(s.maxSumMains * 10 - e.meter.isum, phases);
      if s.maxSumMains != 0 && d > share then Headroom(share, true) else Headroom(d, false)
  }

  function Clamp(x: int, lo: int, hi: int): int
    requires lo <= hi
  {
    if x < lo then lo else if x > hi then hi else x
  }

  /** Smart/Solar damping when no new EVSE asks for current: with fresh
      phase data, Smart mode rises by a quarter of a positive headroom, and
      both modes fall by a negative headroom in full; the result is held
      within [0, 80 A]. Without fresh data the target is only held there. */
  function Damp(tgt: i16, idiff: int, mode: u8, isFresh: bool): (r: i16)
    ensures 0 <= r <= 800
    ensures !isFresh ==> r == Clamp(tgt, 0, 800)
    ensures isFresh && idiff > 0 && mode == MODE_SMART && tgt + idiff / 4 < 0x8000 ==> r == Clamp(tgt + idiff / 4, 0, 800)
    ensures isFresh && idiff > 0 && mode != MODE_SMART ==> r == Clamp(tgt, 0, 800)
    ensures isFresh && idiff <= 0 && -0x8000 <= tgt + idiff ==> r == Clamp(tgt + idiff, 0, 800)
  {
    var stepped :=
      if !isFresh then tgt
      else if idiff > 0 then (if mode == MODE_SMART then ToI16(tgt + CDiv(idiff, 4)) else tgt)
      else ToI16(tgt + idiff);
    if stepped < 0 then 0 else if stepped > 800 then 800 else stepped
  }

  /** With isFresh data in Smart mode, damping never overshoots: it moves the
      target by at most a quarter of a positive headroom, and by no more than
      a negative headroom. */
  lemma DampTowardHeadroom(tgt: i16, idiff: int)
    requires 0 <= tgt <= 800 && -0x8000 <= idiff < 0x8000
    ensures idiff > 0 ==> tgt <= Damp(tgt, idiff, MODE_SMART, true) <= tgt + idiff / 4
    ensures idiff <= 0 ==> tgt + idiff <= Damp(tgt, idiff, MODE_SMART, true) <= tgt
  {
  }

  /** Solar stepping change for a grid import IsumImport (negative = export):
      +0.5 A with more than 1 A of export and headroom, else +0.1 A on export;
      on import, half of it above 2 A, 0.5 A above 1 A, 0.1 A above 0.3 A, and
      nothing at 0.3 A or less. */
  function SolarDelta(isumImport: int, idiff: int): int {
    if isumImport < 0 then (if isumImport < -10 && idiff > 10 then 5 else 1)
    else if isumImport > 20 then -CDiv(isumImport, 2)
    else if isumImport > 10 then -5
    else if isumImport > 3 then -1
    else 0
  }

  /** One Solar step: applied only with headroom and isFresh phase data. */
  function SolarStep(tgt: i16, isumImport: int, idiff: int, isFresh: bool): (r: i16)
    ensures !(idiff > 0 && isFresh) ==> r == tgt
  {
    if idiff > 0 && isFresh then ToI16(tgt + SolarDelta(isumImport, idiff)) else tgt
  }

  /** A Solar step always moves against the grid flow, by the step of its
      band: export raises the target by 0.5 A when it exceeds 1 A with more
      than 1 A of headroom and by 0.1 A otherwise; import lowers it by half
      of itself above 2 A, by 0.5 A above 1 A and by 0.1 A above 0.3 A; a
      small import within the dead band leaves it alone. */
  lemma SolarStepAgainstFlow(tgt: i16, isumImport: int, idiff: int)
    requires idiff > 0
    requires 0 <= tgt <= 800 && isumImport <= 0x8000
    ensures var r := SolarStep(tgt, isumImport, idiff, true);
      && (isumImport < 0 ==> tgt < r <= tgt + 5)
      && (isumImport > 3 ==> r < tgt)
      && (0 <= isumImport <= 3 ==> r == tgt)
      && (isumImport < -10 && idiff > 10 ==> r == tgt + 5)
      && (isumImport < 0 && !(isumImport < -10 && idiff > 10) ==> r == tgt + 1)
      && (isumImport > 20 ==> r == tgt - isumImport / 2)
      && (10 < isumImport <= 20 ==> r == tgt - 5)
      && (3 < isumImport <= 10 ==> r == tgt - 1)
  {
  }

  /** Smart mode with a new EVSE asking: the target is set to what MaxMains
      and MaxCircuit leave over the base loads, and to the MaxSumMains share
      of three phases when that is smaller. */
  function SmartJoin(e: Evse, s: Settings, f: Figures): (r: i16)
    ensures var cap := Min(s.maxMains * 10 - f.baseload, s.maxCircuit * 10 - f.baseloadEv);
      -0x8000 <= cap < 0x8000 ==> r <= cap
    ensures s.maxSumMains != 0 && -0x8000 <= CDiv(s.maxSumMains * 10 - e.meter.isum, 3) ==>
      r <= CDiv(s.maxSumMains * 10 - e.meter.isum, 3)
    ensures var cap := Min(s.maxMains * 10 - f.baseload, s.maxCircuit * 10 - f.baseloadEv);
            var share := CDiv(s.maxSumMains * 10 - e.meter.isum, 3);
      -0x8000 <= cap < 0x8000 && -0x8000 <= share < 0x8000 ==>
        r == cap || (s.maxSumMains != 0 && r == share)
  {
    var j := ToI16(Min(s.maxMains * 10 - f.baseload, s.maxCircuit * 10 - f.baseloadEv));
    if s.maxSumMains != 0 then ToI16(Min(j, CDiv(s.maxSumMains * 10 - e.meter.isum, 3))) else j
  }

  /** The target IsetBalanced before the hard clamps. Normal mode takes
      MaxCircuit minus the EV base load on a master and ChargeCurrent
      otherwise; Smart and Solar damp the previous target (unless a new EVSE
      asks), Solar then steps it against the grid flow, and Smart resets it
      for a joining EVSE. */
  function Target(e: Evse, s: Settings, mod: bool, h: Headroom, f: Figures): (r: i16)
    requires WellFormed(e)
    ensures e.mode == MODE_NORMAL && s.loadBl == 1 && -0x8000 <= s.maxCircuit * 10 - f.baseloadEv < 0x8000 ==>
      r == s.maxCircuit * 10 - f.baseloadEv
    ensures e.mode == MODE_NORMAL && s.loadBl != 1 && e.chargeCurrent < 0x8000 ==> r == e.chargeCurrent
    ensures e.mode == MODE_SMART && !mod ==> 0 <= r <= 800
    ensures e.mode != MODE_NORMAL && !mod && !e.meter.phasesFresh ==> r == Clamp(e.lb.isetBalanced, 0, 800)
    ensures e.mode == MODE_SMART && mod && f.active == 0 ==> r == e.lb.isetBalanced
    ensures e.mode == MODE_SOLAR && mod && !(h.idiff > 0 && e.meter.phasesFresh) ==> r == e.lb.isetBalanced
  {
    if e.mode == MODE_NORMAL then
      if s.loadBl == 1 then ToI16(s.maxCircuit * 10 - f.baseloadEv) else ToI16(e.chargeCurrent)
    else
      var i1 := if !mod then Damp(e.lb.isetBalanced, h.idiff, e.mode, e.meter.phasesFresh) else e.lb.isetBalanced;
      if e.mode == MODE_SOLAR then SolarStep(i1, e.meter.isum - 10 * s.importCurrent, h.idiff, e.meter.phasesFresh)
      else if mod && f.active > 0 then SmartJoin(e, s, f)
      else i1
  }

  /** Smart damping of the target, stated on the target: with fresh phase
      data it rises by at most a quarter of a positive headroom and falls by
      no more than a negative one. */
  lemma {:induction false} TargetSmartDamps(e: Evse, s: Settings, h: Headroom, f: Figures)
    requires WellFormed(e) && e.mode == MODE_SMART && e.meter.phasesFresh
    requires 0 <= e.lb.isetBalanced <= 800 && -0x8000 <= h.idiff < 0x8000
    ensures var r := Target(e, s, false, h, f);
      && (h.idiff > 0 ==> e.lb.isetBalanced <= r <= e.lb.isetBalanced + h.idiff / 4)
      && (h.idiff <= 0 ==> e.lb.isetBalanced + h.idiff <= r <= e.lb.isetBalanced)
  {
    DampTowardHeadroom(e.lb.isetBalanced, h.idiff);
  }

  /** A joining EVSE in Smart mode resets the target to no more than what
      MaxMains and MaxCircuit leave over the base loads and the three-phase
      MaxSumMains share, and to exactly the smallest of those that applies. */
  lemma {:induction false} TargetSmartJoin(e: Evse, s: Settings, h: Headroom, f: Figures)
    requires WellFormed(e) && e.mode == MODE_SMART && f.active > 0
    requires var cap := Min(s.maxMains * 10 - f.baseload, s.maxCircuit * 10 - f.baseloadEv);
      -0x8000 <= cap < 0x8000
    requires -0x8000 <= CDiv(s.maxSumMains * 10 - e.meter.isum, 3) < 0x8000
    ensures var r := Target(e, s, true, h, f);
      && r <= s.maxMains * 10 - f.baseload && r <= s.maxCircuit * 10 - f.baseloadEv
      && (s.maxSumMains != 0 ==> r <= CDiv(s.maxSumMains * 10 - e.meter.isum, 3))
      && (r == Min(s.maxMains * 10 - f.baseload, s.maxCircuit * 10 - f.baseloadEv)
          || (s.maxSumMains != 0 && r == CDiv(s.maxSumMains * 10 - e.meter.isum, 3)))
  {
    assert Target(e, s, true, h, f) == SmartJoin(e, s, f);
  }

  /** In Solar mode, with headroom and fresh data, the target moves against
      the grid flow from IsetBalanced by the step of its band, as
      SolarStepAgainstFlow states it. */
  lemma {:induction false} TargetSolarAgainstFlow(e: Evse, s: Settings, mod: bool, h: Headroom, f: Figures)
    requires WellFormed(e) && e.mode == MODE_SOLAR && e.meter.phasesFresh && 0 < h.idiff
    requires 0 <= e.lb.isetBalanced <= 800 && e.meter.isum - 10 * s.importCurrent <= 0x8000
    ensures var r := Target(e, s, mod, h, f); var b := e.lb.isetBalanced; var imp := e.meter.isum - 10 * s.importCurrent;
      && (imp < 0 ==> b < r <= b + 5)
      && (imp > 3 ==> r < b)
      && (0 <= imp <= 3 ==> r == b)
      && (imp < -10 && h.idiff > 10 ==> r == b + 5)
      && (imp < 0 && !(imp < -10 && h.idiff > 10) ==> r == b + 1)
      && (imp > 20 ==> r == b - imp / 2)
      && (10 < imp <= 20 ==> r == b - 5)
      && (3 < imp <= 10 ==> r == b - 1)
  {
    var i1 := if !mod then Damp(e.lb.isetBalanced, h.idiff, e.mode, true) else e.lb.isetBalanced;
    assert i1 == e.lb.isetBalanced;
    SolarStepAgainstFlow(i1, e.meter.isum - 10 * s.importCurrent, h.idiff);
  }

  /** The hard clamps: MaxMains over the base load (with a mains meter, outside
      Normal mode) and MaxCircuit over the EV base load (where it applies).
      Each clamp stores a minimum into the int16_t target, so a limit below
      -3276.8 A would wrap; for limits that fit, the target never rises, it
      ends within every limit that applies, and it is left alone when it
      already fits. */
  function Guard(e: Evse, s: Settings, tgt: i16, f: Figures): (r: i16)
    ensures s.maxMains * 10 - f.baseload >= -0x8000 && s.maxCircuit * 10 - f.baseloadEv >= -0x8000 ==>
      && r <= tgt
      && (s.mainsMeter && e.mode != MODE_NORMAL ==> r <= s.maxMains * 10 - f.baseload)
      && (CircuitApplies(e, s) ==> r <= s.maxCircuit * 10 - f.baseloadEv)
    ensures ((s.mainsMeter && e.mode != MODE_NORMAL) ==> tgt <= s.maxMains * 10 - f.baseload)
         && (CircuitApplies(e, s) ==> tgt <= s.maxCircuit * 10 - f.baseloadEv)
         ==> r == tgt
    ensures s.maxMains * 10 - f.baseload >= -0x8000 && s.maxCircuit * 10 - f.baseloadEv >= -0x8000 ==>
      || r == tgt
      || (s.mainsMeter && e.mode != MODE_NORMAL && r == s.maxMains * 10 - f.baseload)
      || (CircuitApplies(e, s) && r == s.maxCircuit * 10 - f.baseloadEv)
  {
    var g1 := if s.mainsMeter && e.mode != MODE_NORMAL then ToI16(Min(tgt, s.maxMains * 10 - f.baseload)) else tgt;
    if CircuitApplies(e, s) then ToI16(Min(g1, s.maxCircuit * 10 - f.baseloadEv)) else g1
  }

  /** The phase count the detection reports: 3 while undetected. */
  function ReportedPhases(detected: nat): nat {
    if detected == 0 then 3 else detected
  }

  /** Whether a Solar shortage should stop the charge: a stop time is set,
      the grid import is positive, and stopping would not free so much that
      StartCurrent restarts at once. */
  predicate SolarStopWanted(e: Evse, s: Settings, f: Figures, detected: nat) {
    s.stopTime != 0 && e.meter.isum - 10 * s.importCurrent > 0
    && e.meter.isum > (f.active * s.minCurrent * ReportedPhases(detected) - s.startCurrent) * 10
  }

  /** Whether a Solar shortage switches to single-phase charging instead. */
  predicate SwitchesPhases(s: Settings, detected: nat) {
    detected > 1 && s.enableC2 == Auto && s.loadBl == 0
  }

  /** Solar part of a shortage: stop the charge later (SolarStopTimer = StopTime
      minutes, unless already running), or switch to one phase (the EV is told
      to stop and the switch is marked pending), or cancel the stop timer
      when the sun suffices. The phase detection runs when the stop is
      considered, and its result is recorded. */
  function SolarShortage(e: Evse, s: Settings, f: Figures, detected: nat): (r: Evse)
    requires WellFormed(e)
    ensures WellFormed(r)
    ensures r.mode == e.mode
    ensures r.lb == e.lb.(balancedState := r.lb.balancedState, solarStopTimer := r.lb.solarStopTimer)
    ensures r.lb.balancedState[1..] == e.lb.balancedState[1..]
    ensures r.lb.balancedState[0] == e.lb.balancedState[0] || r.lb.balancedState[0] == C1
    ensures !SolarStopWanted(e, s, f, detected) ==> r.lb.solarStopTimer == 0
    ensures SolarStopWanted(e, s, f, detected) && !SwitchesPhases(s, detected) ==>
      r.lb.solarStopTimer == (if e.lb.solarStopTimer == 0 then Wrap16(s.stopTime * 60) else e.lb.solarStopTimer)
    ensures SolarStopWanted(e, s, f, detected) && SwitchesPhases(s, detected) ==>
      r.cp.switching == GoingToSwitch && r.cp.state != C
  {
    var considered := s.stopTime != 0 && e.meter.isum - 10 * s.importCurrent > 0;
    var e1 := if considered then e.(meter := e.meter.(phasesCharging := detected)) else e;
    if SolarStopWanted(e, s, f, detected) then
      if SwitchesPhases(s, detected) then
        var e2 := if e1.cp.state == C then Transitions.SetState(e1, s, C1) else e1;
        e2.(cp := e2.cp.(switching := GoingToSwitch))
      else if e1.lb.solarStopTimer == 0 then e1.(lb := e1.lb.(solarStopTimer := Wrap16(s.stopTime * 60)))
      else e1
    else e1.(lb := e1.lb.(solarStopTimer := 0))
  }

  /** A hard shortage: even MinCurrent for every charging EVSE breaks MaxMains
      or MaxCircuit, or MaxSumMains limits without a grace time. */
  predicate HardShortage(e: Evse, s: Settings, f: Figures, tgt: int, limited: bool) {
    (s.mainsMeter && e.mode != MODE_NORMAL && tgt > s.maxMains * 10 - f.baseload)
    || (CircuitApplies(e, s) && tgt > s.maxCircuit * 10 - f.baseloadEv)
    || (s.maxSumMainsTime == 0 && limited)
  }

  /** The shortage check with charging EVSEs. A target below MinCurrent for
      each of them is raised to exactly that floor; in Solar mode the stop
      timer or phase switch is handled; a hard shortage counts in NoCurrent
      (not while a phase switch is pending, which may cure it), and a soft
      one caused by MaxSumMains starts its timer. Without a shortage the
      stop timers and NoCurrent are cleared. */
  function Shortage(e: Evse, s: Settings, f: Figures, limited: bool, detected: nat): (r: Evse)
    requires WellFormed(e)
    ensures WellFormed(r)
    ensures r.mode == e.mode
    ensures r.lb == e.lb.(isetBalanced := r.lb.isetBalanced, balancedState := r.lb.balancedState, solarStopTimer := r.lb.solarStopTimer,
                          maxSumMainsTimer := r.lb.maxSumMainsTimer, noCurrent := r.lb.noCurrent)
    ensures r.lb.balancedState[1..] == e.lb.balancedState[1..]
    ensures r.lb.balancedState[0] == e.lb.balancedState[0] || r.lb.balancedState[0] == C1
    ensures e.mode != MODE_SOLAR ==> r.lb.balancedState == e.lb.balancedState
    ensures var floor := f.active * s.minCurrent * 10;
      && (e.lb.isetBalanced < floor ==> r.lb.isetBalanced == ToI16(floor))
      && (e.lb.isetBalanced >= floor ==>
            r.lb.isetBalanced == e.lb.isetBalanced && r.lb.solarStopTimer == 0 && r.lb.maxSumMainsTimer == 0 && r.lb.noCurrent == 0)
    ensures var floor := f.active * s.minCurrent * 10;
      e.lb.isetBalanced < floor ==>
        (r.lb.noCurrent == (if HardShortage(e, s, f, ToI16(floor), limited) && r.cp.switching != GoingToSwitch
                            then Wrap8(e.lb.noCurrent + 1) else e.lb.noCurrent))
    ensures var floor := f.active * s.minCurrent * 10;
      e.lb.isetBalanced < floor ==>
        (r.lb.maxSumMainsTimer ==
           (if !(HardShortage(e, s, f, ToI16(floor), limited) && r.cp.switching != GoingToSwitch)
               && limited && s.maxSumMainsTime != 0 && e.lb.maxSumMainsTimer == 0
            then s.maxSumMainsTime * 60 else e.lb.maxSumMainsTimer))
  {
    var floor := f.active * s.minCurrent * 10;
    if e.lb.isetBalanced < floor then
      var e1 := e.(lb := e.lb.(isetBalanced := ToI16(floor)));
      var e2 := if e.mode == MODE_SOLAR then SolarShortage(e1, s, f, detected) else e1;
      if HardShortage(e, s, f, ToI16(floor), limited) && e2.cp.switching != GoingToSwitch then
        e2.(lb := e2.lb.(noCurrent := Wrap8(e2.lb.noCurrent + 1)))
      else if limited && s.maxSumMainsTime != 0 && e2.lb.maxSumMainsTimer == 0 then
        e2.(lb := e2.lb.(maxSumMainsTimer := s.maxSumMainsTime * 60))
      else e2
    else e.(lb := e.lb.(solarStopTimer := 0, maxSumMainsTimer := 0, noCurrent := 0))
  }

  /** Slots still in their solar start window (Solar mode only). */
  function SolarNew(e: Evse, s: Settings): (m: seq<bool>)
    requires WellFormed(e)
    ensures |m| == NR_EVSES
    ensures forall i :: 0 <= i < NR_EVSES ==> (m[i] <==> e.mode == MODE_SOLAR && e.lb.nodes[i].intTimer < s.solarStartTime)
  {
    seq(NR_EVSES, i requires 0 <= i < NR_EVSES => e.mode == MODE_SOLAR && e.lb.nodes[i].intTimer < s.solarStartTime)
  }

  /** Caps the target at the sum of the charging ceilings and spreads it over
      the slots charging now; a slot pinned for its solar start sets the
      target back to the total current before this computation. */
  function Spread(e: Evse, s: Settings, f: Figures): (r: Evse)
    requires WellFormed(e)
    ensures WellFormed(r)
    ensures r == e.(lb := r.lb) && r.lb == e.lb.(balanced := r.lb.balanced, isetBalanced := r.lb.isetBalanced)
    ensures forall i :: 0 <= i < NR_EVSES && e.lb.balancedState[i] != C ==> r.lb.balanced[i] == e.lb.balanced[i]
  {
    var tgt := if e.lb.isetBalanced > f.activeMax then ToI16(f.activeMax) else e.lb.isetBalanced;
    var d := Distribution.Distribute(Ch(e), SolarNew(e, s), e.lb.balancedMax, Wrap16(s.minCurrent * 10),
                                     e.lb.balanced, tgt, f.active);
    e.(lb := e.lb.(balanced := d.bal, isetBalanced := if d.solarPinned then ToI16(f.total) else tgt))
  }

  /** With nothing charging, the stop timers and the hard-shortage count are
      cleared; the currents, slot tables and everything outside the balance
      record are kept. */
  function ResetTimers(e: Evse): (r: Evse)
    ensures r.lb.solarStopTimer == 0 && r.lb.maxSumMainsTimer == 0 && r.lb.noCurrent == 0
    ensures r.lb.isetBalanced == e.lb.isetBalanced && r.lb.balanced == e.lb.balanced
    ensures r.lb.balancedMax == e.lb.balancedMax && r.lb.balancedState == e.lb.balancedState
    ensures r.lb.balancedError == e.lb.balancedError && r.lb.nodes == e.lb.nodes && r.lb.nodeNewMode == e.lb.nodeNewMode
    ensures r == e.(lb := r.lb)
  {
    e.(lb := e.lb.(solarStopTimer := 0, maxSumMainsTimer := 0, noCurrent := 0))
  }

  /** Everything after the ceiling: the target, the hard clamps, the
      shortage check and the spreading over the charging slots. */
  function Allocate(e: Evse, s: Settings, mod: bool, detected: nat): (r: Evse)
    requires WellFormed(e)
    ensures WellFormed(r)
    ensures r.mode == e.mode && r.chargeCurrent == e.chargeCurrent
    ensures r.lb == e.lb.(balanced := r.lb.balanced, isetBalanced := r.lb.isetBalanced, balancedState := r.lb.balancedState,
                          solarStopTimer := r.lb.solarStopTimer, maxSumMainsTimer := r.lb.maxSumMainsTimer, noCurrent := r.lb.noCurrent)
    ensures r.lb.balancedState[1..] == e.lb.balancedState[1..]
    ensures Count(Ch(e)) == 0 ==>
      r.lb.solarStopTimer == 0 && r.lb.maxSumMainsTimer == 0 && r.lb.noCurrent == 0 && r.lb.balanced == e.lb.balanced
    ensures forall i :: 0 <= i < NR_EVSES && e.lb.balancedState[i] != C ==> r.lb.balanced[i] == e.lb.balanced[i]
  {
    var f := FiguresOf(e);
    var h := HeadroomOf(e, s);
    var e2 := e.(lb := e.lb.(isetBalanced := Guard(e, s, Target(e, s, mod, h, f), f)));
    if f.active > 0 && (e.meter.phasesFresh || e.mode == MODE_NORMAL) then
      Spread(Shortage(e2, s, f, h.limited, detected), s, f)
    else if f.active == 0 then ResetTimers(e2)
    else e2
  }

  /** The state with the ceiling ChargeCurrent computed and recorded as the
      master's own slot ceiling. */
  function WithCeiling(e: Evse, s: Settings): (r: Evse)
    requires WellFormed(e)
    ensures WellFormed(r)
    ensures e.overrideCurrent != 0 ==> r.chargeCurrent == e.overrideCurrent
    ensures e.overrideCurrent == 0 ==> r.chargeCurrent <= s.maxCurrent * 10
    ensures r.lb.balancedMax[0] == r.chargeCurrent && r.lb.balancedMax[1..] == e.lb.balancedMax[1..]
    ensures r.lb == e.lb.(balancedMax := r.lb.balancedMax) && r == e.(chargeCurrent := r.chargeCurrent, lb := r.lb)
  {
    var cc := ChargeCeiling(e, s);
    e.(chargeCurrent := cc, lb := e.lb.(balancedMax := e.lb.balancedMax[0 := cc]))
  }

  /** One run of the allocation. `mod` says that a new EVSE asks to start;
      `detected` is what the phase detection would report if it runs. The
      phase data is consumed, the master's ceiling is recorded, and only
      charging slots get a new current; with nothing charging the stop
      timers and the shortage count are cleared. */
  function CalcBalancedCurrent(e: Evse, s: Settings, mod: bool, detected: nat): (r: Evse)
    requires WellFormed(e)
    ensures WellFormed(r)
    ensures r.lb.nodes == e.lb.nodes && r.lb.balancedError == e.lb.balancedError && r.mode == e.mode
    ensures r.lb.nodeNewMode == e.lb.nodeNewMode
    ensures !r.meter.phasesFresh
    ensures r.chargeCurrent == ChargeCeiling(e, s)
    ensures r.lb.balancedMax == e.lb.balancedMax[0 := ChargeCeiling(e, s)]
    ensures r.lb.balancedState[1..] == e.lb.balancedState[1..]
    ensures Count(Ch(e)) == 0 ==>
      r.lb.solarStopTimer == 0 && r.lb.maxSumMainsTimer == 0 && r.lb.noCurrent == 0 && r.lb.balanced == e.lb.balanced
    ensures forall i :: 0 <= i < NR_EVSES && e.lb.balancedState[i] != C ==> r.lb.balanced[i] == e.lb.balanced[i]
  {
    var e1 := WithCeiling(e, s);
    assert Ch(e1) == Ch(e);
    var e3 := Allocate(e1, s, mod, detected);
    e3.(meter := e3.meter.(phasesFresh := false))
  }

  /** Outside Solar mode, spreading a non-negative target over the charging
      slots gives each at most its ceiling and hands out exactly the target
      as capped at ActiveMax. */
  lemma {:induction false} SpreadWithinCeilings(e: Evse, s: Settings, f: Figures)
    requires WellFormed(e) && e.mode != MODE_SOLAR && e.lb.isetBalanced >= 0
    requires f.active == Count(Ch(e)) && f.activeMax == SumIf(e.lb.balancedMax, Ch(e)) < 0x8000
    ensures var r := Spread(e, s, f);
      && (forall i :: 0 <= i < NR_EVSES && e.lb.balancedState[i] == C ==> r.lb.balanced[i] <= e.lb.balancedMax[i])
      && SumIf(r.lb.balanced, Ch(e)) == r.lb.isetBalanced
      && 0 <= r.lb.isetBalanced <= f.activeMax
  {
    SumIfNonNeg(e.lb.balancedMax, Ch(e));
    var budget := if e.lb.isetBalanced > f.activeMax then ToI16(f.activeMax) else e.lb.isetBalanced;
    Distribution.DistributeWithinCeilings(Ch(e), SolarNew(e, s), e.lb.balancedMax, Wrap16(s.minCurrent * 10),
                                          e.lb.balanced, budget, f.active);
  }

  /** After a shortage check the target is never negative: it is at least
      MinCurrent for every charging EVSE (while that fits int16_t). */
  lemma ShortageNonNegative(e: Evse, s: Settings, f: Figures, limited: bool, detected: nat)
    requires WellFormed(e) && f.active <= NR_EVSES && 80 * s.minCurrent < 0x8000
    ensures Shortage(e, s, f, limited, detected).lb.isetBalanced >= f.active * s.minCurrent * 10 >= 0
  {
    var floor := f.active * s.minCurrent * 10;
    MulLe(f.active, NR_EVSES, s.minCurrent * 10);
    assert 0 <= floor < 0x8000;
    var r := Shortage(e, s, f, limited, detected);
    if e.lb.isetBalanced < floor {
      assert r.lb.isetBalanced == ToI16(floor) == floor;
    }
  }

  /** Allocate's part of CalcDistributesWithinCeilings. */
  lemma {:induction false} AllocateWithinCeilings(e: Evse, s: Settings, mod: bool, detected: nat)
    requires WellFormed(e) && e.mode != MODE_SOLAR
    requires Count(Ch(e)) > 0 && (e.meter.phasesFresh || e.mode == MODE_NORMAL)
    requires 80 * s.minCurrent < 0x8000
    requires SumIf(e.lb.balancedMax, Ch(e)) < 0x8000
    ensures var r := Allocate(e, s, mod, detected);
      && (forall i :: 0 <= i < NR_EVSES && e.lb.balancedState[i] == C ==> r.lb.balanced[i] <= e.lb.balancedMax[i])
      && SumIf(r.lb.balanced, Ch(e)) == r.lb.isetBalanced
      && 0 <= r.lb.isetBalanced <= SumIf(e.lb.balancedMax, Ch(e))
  {
    var f := FiguresOf(e);
    var h := HeadroomOf(e, s);
    var e2 := e.(lb := e.lb.(isetBalanced := Guard(e, s, Target(e, s, mod, h, f), f)));
    var sh := Shortage(e2, s, f, h.limited, detected);
    assert Ch(sh) == Ch(e) by {
      assert sh.lb.balancedState == e.lb.balancedState;
    }
    ShortageNonNegative(e2, s, f, h.limited, detected);
    SpreadWithinCeilings(sh, s, f);
  }

  /** Outside Solar mode, with EVSEs charging and data to act on, the
      allocation spreads exactly IsetBalanced over the charging slots: each
      gets at most its ceiling, and IsetBalanced is at most ActiveMax, the
      sum of their ceilings. Holds while the sums fit the int16_t target. */
  lemma {:induction false} CalcDistributesWithinCeilings(e: Evse, s: Settings, mod: bool, detected: nat)
    requires WellFormed(e) && e.mode != MODE_SOLAR
    requires Count(Ch(e)) > 0 && (e.meter.phasesFresh || e.mode == MODE_NORMAL)
    requires 80 * s.minCurrent < 0x8000
    requires SumIf(e.lb.balancedMax[0 := ChargeCeiling(e, s)], Ch(e)) < 0x8000
    ensures var r := CalcBalancedCurrent(e, s, mod, detected);
      && (forall i :: 0 <= i < NR_EVSES && e.lb.balancedState[i] == C ==> r.lb.balanced[i] <= r.lb.balancedMax[i])
      && SumIf(r.lb.balanced, Ch(e)) == r.lb.isetBalanced
      && 0 <= r.lb.isetBalanced <= SumIf(r.lb.balancedMax, Ch(e))
  {
    var e1 := WithCeiling(e, s);
    assert Ch(e1) == Ch(e);
    AllocateWithinCeilings(e1, s, mod, detected);
  }

  lemma MulLe(a: int, b: int, p: int)
    requires a <= b && p >= 0
    ensures a * p <= b * p
  {
  }

  /** A shortage raises the target to MinCurrent for every charging EVSE and
      counts in NoCurrent when even that breaks MaxMains or MaxCircuit
      (outside Solar, where no phase switch is pending). */
  lemma ShortageRaisesToFloor(e: Evse, s: Settings, f: Figures, limited: bool, detected: nat)
    requires WellFormed(e) && e.mode != MODE_SOLAR && e.cp.switching != GoingToSwitch
    requires e.lb.isetBalanced < f.active * s.minCurrent * 10 < 0x8000
    requires HardShortage(e, s, f, f.active * s.minCurrent * 10, limited)
    ensures var r := Shortage(e, s, f, limited, detected);
      r.lb.isetBalanced == f.active * s.minCurrent * 10 && r.lb.noCurrent == Wrap8(e.lb.noCurrent + 1)
  {
  }
}
