/** Entry actions of the charge-point states (main.cpp setState), the forced
    stops (setStatePowerUnavailable, setAccess) and the mode change (setMode).
    Hardware effects are appended to `out`; what the hardware ends up doing is
    read back as the last command of each kind. */
module Transitions {
  import opened Types
  import Signals

  /** Writes a pilot duty and remembers it as the current PWM value. */
  function SetCpDuty(e: Evse, duty: nat): Evse {
    e.(out := e.out + [CpDuty(duty)], cp := e.cp.(currentPwm := duty))
  }

  /** Sets the pilot PWM for a charge current in 0.1 A, per the duty table. */
  function SetCurrent(e: Evse, current: u16): (r: Evse)
    ensures r.cp.currentPwm == Signals.DutyFor(current) && 102 <= r.cp.currentPwm <= 983
    ensures r.out == e.out + [CpDuty(r.cp.currentPwm)]
    ensures r == e.(out := r.out, cp := e.cp.(currentPwm := r.cp.currentPwm))
  {
    SetCpDuty(e, Signals.DutyFor(current))
  }

  /** Selects commands of one kind. */
  predicate IsContactor1(c: Command) { c.Contactor1? }
  predicate IsContactor2(c: Command) { c.Contactor2? }
  predicate IsDuty(c: Command) { c.CpDuty? }
  predicate IsPilotLine(c: Command) { c.PilotDisconnect? || c.PilotConnect? }

  /** The last command of a kind: what that output is currently doing. */
  function LastWhere(cmds: seq<Command>, p: Command -> bool): (r: Option<Command>)
    ensures r.Some? ==> p(r.value) && r.value in cmds
    ensures r.None? <==> forall i :: 0 <= i < |cmds| ==> !p(cmds[i])
    decreases |cmds|
  {
    if |cmds| == 0 then None
    else if p(cmds[|cmds| - 1]) then Some(cmds[|cmds| - 1])
    else LastWhere(cmds[..|cmds| - 1], p)
  }

  /** Appending commands: the last one of a kind comes from the appended part
      if it holds one, and from before otherwise. */
  lemma {:induction false} LastWhereAppend(s: seq<Command>, t: seq<Command>, p: Command -> bool)
    ensures LastWhere(s + t, p) == (if LastWhere(t, p).Some? then LastWhere(t, p) else LastWhere(s, p))
    decreases |t|
  {
    if |t| > 0 {
      assert (s + t)[..|s + t| - 1] == s + t[..|t| - 1];
      LastWhereAppend(s, t[..|t| - 1], p);
    } else {
      assert s + t == s;
    }
  }

  /** Whether contactor 2 must stay open: it is absent or always off, or it is
      off in Solar mode. */
  function ForceSinglePhase(c2: EnableC2, mode: u8): (r: bool)
    ensures r <==> c2 == NotPresent || c2 == AlwaysOff || (c2 == SolarOff && mode == MODE_SOLAR)
  {
    match c2
    case NotPresent => true
    case AlwaysOff => true
    case SolarOff => mode == MODE_SOLAR
    case Auto => false
    case AlwaysOn => false
  }

  /** The errors that only mean "no power for now". */
  const POWER_ERRORS: bv8 := NO_SUN | LESS_6A

  /** The error a failed start check raises: no sun in Solar mode, too
      little current otherwise. */
  function ShortageFlag(mode: u8): (f: bv8)
    ensures f & POWER_ERRORS == f && f != 0
  {
    if mode == MODE_SOLAR then NO_SUN else LESS_6A
  }

  /** Both contactors open, pilot at constant +12 V, sampling every ms. */
  const POWER_OFF: seq<Command> := [Contactor1(false), Contactor2(false), CpDuty(1024), Sampling(EveryMs)]

  /** Whether entering B1 disconnects the pilot: only when coming from
      neither B1 nor B with the pilot still connected. */
  predicate DisconnectsPilot(e: Evse) {
    e.cp.state != B1 && e.cp.state != B && !e.cp.pilotDisconnected
  }

  /** Entry action of B1: a charge delay of at least 3 s, possibly a 5 s
      pilot disconnect, then power off as in A. */
  function EnterB1(e: Evse): Evse {
    var d := if e.cp.chargeDelay == 0 then 3 else e.cp.chargeDelay;
    if DisconnectsPilot(e) then
      e.(out := e.out + [PilotDisconnect] + POWER_OFF,
         cp := e.cp.(currentPwm := 1024, chargeDelay := d, pilotDisconnected := true, pilotDisconnectTime := 5))
    else e.(out := e.out + POWER_OFF, cp := e.cp.(currentPwm := 1024, chargeDelay := d))
  }

  /** Entry action of a real A: power off, clear the power errors, the charge
      delay and the phase switch, and reset the master's own session data. */
  function EnterA(e: Evse): Evse
    requires |e.lb.nodes| == NR_EVSES
  {
    e.(out := e.out + POWER_OFF, errorFlags := e.errorFlags & !POWER_ERRORS,
       cp := e.cp.(currentPwm := 1024, chargeDelay := 0, switching := NoSwitch),
       lb := e.lb.(nodes := e.lb.nodes[0 := e.lb.nodes[0].(timer := 0, intTimer := 0, phases := 0, minCurrent := 0)]))
  }

  /** Entry action of B: contactors open, diode-test sampling, PWM for
      ChargeCurrent. */
  function EnterB(e: Evse): Evse {
    var d := Signals.DutyFor(e.chargeCurrent);
    e.(out := e.out + [Contactor1(false), Contactor2(false), Sampling(DiodeTest), CpDuty(d)],
       cp := e.cp.(currentPwm := d))
  }

  /** Contactor commands on entering C: a pending phase switch first opens
      contactor 2, then contactor 1 closes and, for a three-phase charge,
      contactor 2. */
  function ClosingCommands(going: bool, both: bool): seq<Command> {
    (if going then [Contactor2(false), Contactor1(true)] else [Contactor1(true)])
    + (if both then [Contactor2(true)] else [])
  }

  /** Entry action of C: ends activation mode, completes a pending phase
      switch (its stop timers reset, contactor 2 stays open), then closes the
      contactors. */
  function EnterC(e: Evse, s: Settings): Evse {
    var going := e.cp.switching == GoingToSwitch;
    var sw := if going then AfterSwitch else e.cp.switching;
    var both := !ForceSinglePhase(s.enableC2, e.mode) && sw != AfterSwitch;
    e.(out := e.out + ClosingCommands(going, both),
       cp := e.cp.(activationMode := 255, switching := sw),
       lb := if going then e.lb.(solarStopTimer := 0, maxSumMainsTimer := 0) else e.lb)
  }

  /** Entry action of C1: PWM off, a 6 s contactor timeout, a 15 s charge
      delay. */
  function EnterC1(e: Evse): Evse {
    e.(out := e.out + [CpDuty(1024), Sampling(EveryMs)],
       cp := e.cp.(currentPwm := 1024, c1Timer := 6, chargeDelay := 15))
  }

  /** The commands one state entry appends. */
  function Appended(e: Evse, s: Settings, n: ChargeState): (t: seq<Command>)
  {
    match n
    case A => POWER_OFF
    case B1 => if DisconnectsPilot(e) then [PilotDisconnect] + POWER_OFF else POWER_OFF
    case B => [Contactor1(false), Contactor2(false), Sampling(DiodeTest), CpDuty(Signals.DutyFor(e.chargeCurrent))]
    case C =>
      var going := e.cp.switching == GoingToSwitch;
      ClosingCommands(going, !ForceSinglePhase(s.enableC2, e.mode) && e.cp.switching == NoSwitch)
    case C1 => [CpDuty(1024), Sampling(EveryMs)]
    case _ => []
  }

  /** The entry action of a state, before the state is stored. Only the
      master's own node record changes among the slot tables, and nothing but
      the commands of the entry is emitted. */
  function EntryAction(e: Evse, s: Settings, n: ChargeState): (r: Evse)
    requires WellFormed(e)
    ensures |r.lb.nodes| == NR_EVSES && r.lb.nodes[1..] == e.lb.nodes[1..]
    ensures r.lb.balanced == e.lb.balanced && r.lb.balancedMax == e.lb.balancedMax
    ensures r.lb.balancedState == e.lb.balancedState && r.lb.balancedError == e.lb.balancedError
    ensures r.lb.isetBalanced == e.lb.isetBalanced && r.lb.noCurrent == e.lb.noCurrent
    ensures r.lb.nodeNewMode == e.lb.nodeNewMode
    ensures r.mode == e.mode && r.chargeCurrent == e.chargeCurrent && r.overrideCurrent == e.overrideCurrent
    ensures r.meter == e.meter && r.cp.accessBit == e.cp.accessBit && r.cp.maxCapacity == e.cp.maxCapacity
    ensures r.cp.accessTimer == e.cp.accessTimer
    ensures r.out == e.out + Appended(e, s, n)
  {
    match n
    case A => EnterA(e)
    case B1 => EnterB1(e)
    case B => EnterB(e)
    case C => EnterC(e, s)
    case C1 => EnterC1(e)
    case _ => e
  }

  /** Entering state n: the entry action, then the new state is stored both
      as State and as the master's slot 0. Nothing else among the slot
      tables, the meter readings, the mode and the currents changes. */
  function SetState(e: Evse, s: Settings, n: ChargeState): (r: Evse)
    requires WellFormed(e)
    ensures WellFormed(r)
    ensures r.cp.state == n && r.lb.balancedState == e.lb.balancedState[0 := n]
    ensures r.lb.nodes[1..] == e.lb.nodes[1..]
    ensures r.lb.balanced == e.lb.balanced && r.lb.balancedMax == e.lb.balancedMax
    ensures r.lb.balancedError == e.lb.balancedError
    ensures r.lb.isetBalanced == e.lb.isetBalanced && r.lb.noCurrent == e.lb.noCurrent
    ensures r.lb.nodeNewMode == e.lb.nodeNewMode
    ensures r.mode == e.mode && r.chargeCurrent == e.chargeCurrent && r.overrideCurrent == e.overrideCurrent
    ensures r.meter == e.meter && r.cp.accessBit == e.cp.accessBit && r.cp.maxCapacity == e.cp.maxCapacity
    ensures r.cp.accessTimer == e.cp.accessTimer
    ensures r.out == e.out + Appended(e, s, n)
  {
    var e2 := EntryAction(e, s, n);
    e2.(cp := e2.cp.(state := n), lb := e2.lb.(balancedState := e2.lb.balancedState[0 := n]))
  }

  /** The timers and flags a state entry sets. B1 waits at least 3 s before
      another state and, coming from neither B1 nor B, has the pilot
      disconnected. A clears the power errors, the charge delay, the phase
      switch and the master's session counters. C1 allows the EV 6 s to stop
      and delays the next charge by 15 s. C ends activation mode and turns a
      pending phase switch into a completed one. */
  lemma SetStateTimers(e: Evse, s: Settings, n: ChargeState)
    requires WellFormed(e)
    ensures var r := SetState(e, s, n);
      && r.errorFlags == (if n == A then e.errorFlags & !POWER_ERRORS else e.errorFlags)
      && r.cp.chargeDelay == (match n
                              case A => 0
                              case B1 => if e.cp.chargeDelay == 0 then 3 else e.cp.chargeDelay
                              case C1 => 15
                              case _ => e.cp.chargeDelay)
      && (n == C1 ==> r.cp.c1Timer == 6)
      && (n == A ==> r.cp.switching == NoSwitch && r.lb.nodes[0].intTimer == 0 && r.lb.nodes[0].timer == 0)
      && (n == B1 && e.cp.state != B1 && e.cp.state != B ==> r.cp.pilotDisconnected)
      && (n == C ==> r.cp.activationMode == 255 &&
                     r.cp.switching == (if e.cp.switching == GoingToSwitch then AfterSwitch else e.cp.switching))
  {
  }

  /** A command followed only by commands of other kinds is the last of its
      kind. */
  lemma LastIs(pre: seq<Command>, x: Command, post: seq<Command>, p: Command -> bool)
    requires p(x)
    requires forall i :: 0 <= i < |post| ==> !p(post[i])
    ensures LastWhere(pre + [x] + post, p) == Some(x)
  {
    LastWhereAppend(pre + [x], post, p);
    LastWhereAppend(pre, [x], p);
  }

  /** After the power-off commands both contactors are open and the pilot is
      at a constant +12 V. */
  lemma PowerOffLeaves(pre: seq<Command>)
    ensures LastWhere(pre + POWER_OFF, IsContactor1) == Some(Contactor1(false))
    ensures LastWhere(pre + POWER_OFF, IsContactor2) == Some(Contactor2(false))
    ensures LastWhere(pre + POWER_OFF, IsDuty) == Some(CpDuty(1024))
  {
    assert pre + POWER_OFF == pre + [Contactor1(false)] + [Contactor2(false), CpDuty(1024), Sampling(EveryMs)];
    LastIs(pre, Contactor1(false), [Contactor2(false), CpDuty(1024), Sampling(EveryMs)], IsContactor1);
    assert pre + POWER_OFF == (pre + [Contactor1(false)]) + [Contactor2(false)] + [CpDuty(1024), Sampling(EveryMs)];
    LastIs(pre + [Contactor1(false)], Contactor2(false), [CpDuty(1024), Sampling(EveryMs)], IsContactor2);
    assert pre + POWER_OFF == (pre + [Contactor1(false), Contactor2(false)]) + [CpDuty(1024)] + [Sampling(EveryMs)];
    LastIs(pre + [Contactor1(false), Contactor2(false)], CpDuty(1024), [Sampling(EveryMs)], IsDuty);
  }

  /** In A, B and B1 both contactors are open afterwards. */
  lemma SetStateOpensContactors(e: Evse, s: Settings, n: ChargeState)
    requires WellFormed(e)
    requires n == A || n == B || n == B1
    ensures LastWhere(SetState(e, s, n).out, IsContactor1) == Some(Contactor1(false))
    ensures LastWhere(SetState(e, s, n).out, IsContactor2) == Some(Contactor2(false))
  {
    var t := Appended(e, s, n);
    if n == B {
      var d := CpDuty(Signals.DutyFor(e.chargeCurrent));
      assert e.out + t == e.out + [Contactor1(false)] + [Contactor2(false), Sampling(DiodeTest), d];
      LastIs(e.out, Contactor1(false), [Contactor2(false), Sampling(DiodeTest), d], IsContactor1);
      assert e.out + t == (e.out + [Contactor1(false)]) + [Contactor2(false)] + [Sampling(DiodeTest), d];
      LastIs(e.out + [Contactor1(false)], Contactor2(false), [Sampling(DiodeTest), d], IsContactor2);
    } else if n == B1 && DisconnectsPilot(e) {
      assert e.out + t == (e.out + [PilotDisconnect]) + POWER_OFF;
      PowerOffLeaves(e.out + [PilotDisconnect]);
    } else {
      PowerOffLeaves(e.out);
    }
  }

  /** In C contactor 1 is closed. Contactor 2 is closed too unless a
      single-phase charge is forced or a phase switch is under way; after a
      completed switch it keeps its earlier command, and the entry that
      completes a pending switch opens it. */
  lemma SetStateClosesContactors(e: Evse, s: Settings)
    requires WellFormed(e)
    ensures var r := SetState(e, s, C);
      && LastWhere(r.out, IsContactor1) == Some(Contactor1(true))
      && (!ForceSinglePhase(s.enableC2, e.mode) && e.cp.switching == NoSwitch ==>
            LastWhere(r.out, IsContactor2) == Some(Contactor2(true)))
      && (e.cp.switching == AfterSwitch || (ForceSinglePhase(s.enableC2, e.mode) && e.cp.switching == NoSwitch) ==>
            LastWhere(r.out, IsContactor2) == LastWhere(e.out, IsContactor2))
      && (e.cp.switching == GoingToSwitch ==> LastWhere(r.out, IsContactor2) == Some(Contactor2(false)))
  {
    var t := Appended(e, s, C);
    LastWhereAppend(e.out, t, IsContactor1);
    LastWhereAppend(e.out, t, IsContactor2);
    if e.cp.switching == GoingToSwitch {
      assert t == [Contactor2(false), Contactor1(true)];
    } else if !ForceSinglePhase(s.enableC2, e.mode) && e.cp.switching == NoSwitch {
      assert t == [Contactor1(true), Contactor2(true)];
    } else {
      assert t == [Contactor1(true)];
    }
  }

  /** A, B1 and C1 leave the pilot at a constant +12 V; B drives the PWM duty
      of ChargeCurrent. */
  lemma SetStateDuty(e: Evse, s: Settings, n: ChargeState)
    requires WellFormed(e)
    requires n == A || n == B || n == B1 || n == C1
    ensures var r := SetState(e, s, n);
      var d := if n == B then Signals.DutyFor(e.chargeCurrent) else 1024;
      LastWhere(r.out, IsDuty) == Some(CpDuty(d)) && r.cp.currentPwm == d
  {
    var t := Appended(e, s, n);
    if n == B {
      LastWhereAppend(e.out, t, IsDuty);
      assert t == [Contactor1(false), Contactor2(false), Sampling(DiodeTest), CpDuty(Signals.DutyFor(e.chargeCurrent))];
    } else if n == C1 {
      LastWhereAppend(e.out, t, IsDuty);
      assert t == [CpDuty(1024), Sampling(EveryMs)];
    } else if n == B1 && DisconnectsPilot(e) {
      assert e.out + t == (e.out + [PilotDisconnect]) + POWER_OFF;
      PowerOffLeaves(e.out + [PilotDisconnect]);
    } else {
      PowerOffLeaves(e.out);
    }
  }

  /** Power is no longer available: a charging EV is told to stop (C1), a
      connected one goes to B1; A and C1 stay as they are. Afterwards the
      controller is never in C. */
  function SetStatePowerUnavailable(e: Evse, s: Settings): (r: Evse)
    requires WellFormed(e)
    ensures WellFormed(r)
    ensures r.cp.state == (if e.cp.state == A || e.cp.state == C1 then e.cp.state
                           else if e.cp.state == C then C1 else B1)
    ensures r.cp.state != C
    ensures e.cp.state == A || e.cp.state == C1 ==> r == e
    ensures r.mode == e.mode && r.errorFlags == e.errorFlags && r.cp.accessBit == e.cp.accessBit
    ensures r.lb.balanced == e.lb.balanced && r.lb.nodes[1..] == e.lb.nodes[1..]
  {
    if e.cp.state == A then e
    else if e.cp.state == C then SetState(e, s, C1)
    else if e.cp.state != C1 then SetState(e, s, B1)
    else e
  }

  /** Grants or revokes access. Revoking stops a charging EV (C1) and parks a
      connected one in B1; granting changes nothing else. */
  function SetAccess(e: Evse, s: Settings, access: bool): (r: Evse)
    requires WellFormed(e)
    ensures WellFormed(r)
    ensures r.cp.accessBit == access
    ensures access ==> r == e.(cp := e.cp.(accessBit := true))
    ensures !access ==> r.cp.state == (if e.cp.state == C then C1 else if e.cp.state == B then B1 else e.cp.state)
    ensures e.cp.state != C && e.cp.state != B ==> r == e.(cp := e.cp.(accessBit := access))
    ensures r.mode == e.mode && r.errorFlags == e.errorFlags && r.lb.balanced == e.lb.balanced
    ensures r.overrideCurrent == e.overrideCurrent && r.lb.nodeNewMode == e.lb.nodeNewMode
    ensures NodesKept(e, r)
  {
    var e1 := e.(cp := e.cp.(accessBit := access));
    if !access then
      if e1.cp.state == C then SetState(e1, s, C1)
      else if e1.cp.state != C1 && e1.cp.state == B then SetState(e1, s, B1)
      else e1
    else e1
  }

  /** What the master knows about its nodes (slots 1..7) is the same in both
      states. */
  predicate NodesKept(e: Evse, r: Evse)
    requires WellFormed(e) && WellFormed(r)
  {
    forall i :: 1 <= i < NR_EVSES ==>
      && r.lb.nodes[i] == e.lb.nodes[i]
      && r.lb.balancedState[i] == e.lb.balancedState[i]
      && r.lb.balancedError[i] == e.lb.balancedError[i]
  }

  /** Whether a mode change must briefly revoke access: contactor 2 is
      configured off in Solar mode and the change enters or leaves Solar. */
  predicate PausesForPhases(s: Settings, mode: u8, newMode: u8) {
    s.enableC2 == SolarOff && ((mode != MODE_SOLAR && newMode == MODE_SOLAR) || (mode == MODE_SOLAR && newMode != MODE_SOLAR))
  }

  /** Changes the mode. Without a mains meter only Normal mode can be chosen;
      any other request is ignored. Otherwise access follows the delayed-start
      setting, Solar drops an override current, Smart clears the power errors
      and both stop timers, the charge delay is cleared, a changed mode is
      announced to the nodes (NodeNewMode = mode + 1) and the mode is stored.
      When contactor 2 is configured off in Solar mode, entering or leaving
      Solar revokes access for a moment, which stops a running charge. */
  function SetMode(e: Evse, s: Settings, newMode: u8, delayedStart: bool): (r: Evse)
    requires WellFormed(e)
    ensures WellFormed(r)
    ensures !s.mainsMeter && newMode != MODE_NORMAL ==> r == e
    ensures s.mainsMeter || newMode == MODE_NORMAL ==>
      && r.mode == newMode
      && r.cp.chargeDelay == 0
      && (newMode == MODE_SOLAR ==> r.overrideCurrent == 0)
      && (newMode != MODE_SOLAR ==> r.overrideCurrent == e.overrideCurrent)
      && (newMode == MODE_SMART ==> r.errorFlags & POWER_ERRORS == 0 && r.lb.solarStopTimer == 0 && r.lb.maxSumMainsTimer == 0)
      && r.lb.nodeNewMode == (if e.mode != newMode then Wrap8(newMode + 1) else e.lb.nodeNewMode)
      && r.cp.accessBit == (!delayedStart || PausesForPhases(s, e.mode, newMode))
    ensures NodesKept(e, r)
  {
    if !s.mainsMeter && newMode != MODE_NORMAL then e
    else
      var e3 := ModeAccess(e, s, newMode, delayedStart);
      var e5 := ModeStore(e3, newMode);
      if PausesForPhases(s, e.mode, newMode) then SetAccess(e5, s, true) else e5
  }

  /** First half of a mode change: access follows the delayed-start setting,
      Solar drops an override current, and a change into or out of Solar with
      contactor 2 configured off in Solar revokes access. */
  function ModeAccess(e: Evse, s: Settings, newMode: u8, delayedStart: bool): (r: Evse)
    requires WellFormed(e)
    ensures WellFormed(r) && NodesKept(e, r)
    ensures r.mode == e.mode && r.lb.nodeNewMode == e.lb.nodeNewMode
    ensures r.cp.accessBit == (!delayedStart && !PausesForPhases(s, e.mode, newMode))
    ensures newMode == MODE_SOLAR ==> r.overrideCurrent == 0
    ensures newMode != MODE_SOLAR ==> r.overrideCurrent == e.overrideCurrent
    ensures PausesForPhases(s, e.mode, newMode) && e.cp.state == C ==> r.cp.state == C1
  {
    var e1 := SetAccess(e, s, !delayedStart);
    var e2 := if newMode == MODE_SOLAR then e1.(overrideCurrent := 0) else e1;
    if PausesForPhases(s, e2.mode, newMode) then SetAccess(e2, s, false) else e2
  }

  /** Second half of a mode change: Smart clears the power errors and both
      stop timers, the charge delay is dropped, a changed mode is announced
      to the nodes and the mode is stored. */
  function ModeStore(e: Evse, newMode: u8): (r: Evse)
    requires WellFormed(e)
    ensures WellFormed(r) && NodesKept(e, r)
    ensures r.mode == newMode && r.cp.chargeDelay == 0
    ensures r.cp.state == e.cp.state && r.cp.accessBit == e.cp.accessBit && r.overrideCurrent == e.overrideCurrent
    ensures newMode == MODE_SMART ==> r.errorFlags & POWER_ERRORS == 0 && r.lb.solarStopTimer == 0 && r.lb.maxSumMainsTimer == 0
    ensures r.lb.nodeNewMode == (if e.mode != newMode then Wrap8(newMode + 1) else e.lb.nodeNewMode)
  {
    var e4 := if newMode == MODE_SMART
              then e.(errorFlags := e.errorFlags & !POWER_ERRORS,
                      lb := e.lb.(solarStopTimer := 0, maxSumMainsTimer := 0))
              else e;
    e4.(mode := newMode, cp := e4.cp.(chargeDelay := 0),
        lb := e4.lb.(nodeNewMode := if e4.mode != newMode then Wrap8(newMode + 1) else e4.lb.nodeNewMode))
  }

  /** With contactor 2 configured off in Solar mode, entering or leaving Solar
      mode while charging stops the charge (C1), so that the contactors can be
      switched for the new phase count; access ends up granted. */
  lemma SetModeSolarOffPausesCharge(e: Evse, s: Settings, newMode: u8, delayedStart: bool)
    requires WellFormed(e)
    requires s.mainsMeter && PausesForPhases(s, e.mode, newMode)
    requires e.cp.state == C
    ensures SetMode(e, s, newMode, delayedStart).cp.state == C1
    ensures SetMode(e, s, newMode, delayedStart).cp.accessBit
  {
  }
}
