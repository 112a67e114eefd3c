/** The periodic tasks of the charge point: the 10 ms pilot state machine
    (main.cpp Timer10ms, hardware version 3) and the one-second housekeeping
    (main.cpp Timer1S). The sampled pilot level, the proximity-pin voltage,
    the temperature and the phase count the detection would report are
    inputs of a tick. */
module Ticks {
  import opened Types
  import Signals
  import Transitions
  import Allocation

  /** 10 ms ticks a pilot level must persist before B becomes C, or before C
      gives up on an unexpected level. */
  const STATE_DELAY: nat := 50

  /** Seconds before activation mode starts after entering B. */
  const ACTIVATION_DELAY: u8 := 30

  /** The start check with the inputs it reads. */
  predicate Available(e: Evse, s: Settings)
    requires WellFormed(e)
  {
    Allocation.IsCurrentAvailable(e, s)
  }

  /** The pilot went back to 12 V in A, COMM_B or B1: the EV is unplugged.
      The RFID lock is armed for a granted session, the state returns to A
      and any charge delay is dropped. */
  function Unplugged(e: Evse, s: Settings): (r: Evse)
    requires WellFormed(e)
    ensures WellFormed(r)
    ensures r.cp.state == A && r.cp.chargeDelay == 0 && r.cp.accessBit == e.cp.accessBit
    ensures (s.rfidReader == 1 || s.rfidReader == 2) && e.cp.accessTimer == 0 && e.cp.accessBit ==>
      r.cp.accessTimer == s.rfidLockTime
    ensures !((s.rfidReader == 1 || s.rfidReader == 2) && e.cp.accessTimer == 0 && e.cp.accessBit) ==>
      r.cp.accessTimer == e.cp.accessTimer
  {
    var lock := (s.rfidReader == 1 || s.rfidReader == 2) && e.cp.accessTimer == 0 && e.cp.accessBit;
    var e1 := if lock then e.(cp := e.cp.(accessTimer := s.rfidLockTime)) else e;
    var e2 := if e1.cp.state != A then Transitions.SetState(e1, s, A) else e1;
    e2.(cp := e2.cp.(chargeDelay := 0))
  }

  /** Current an EV starts with in B: the cable capacity when the cable is
      weaker than MaxCurrent, MinCurrent otherwise. */
  function StartCurrent(s: Settings, capacity: u16): (c: u16)
    ensures s.maxCurrent > capacity ==> c == Wrap16(capacity * 10)
    ensures s.maxCurrent <= capacity ==> c == Wrap16(s.minCurrent * 10)
  {
    if s.maxCurrent > capacity then Wrap16(capacity * 10) else Wrap16(s.minCurrent * 10)
  }

  /** An EV is connected (9 V) and may charge: the cable is read and the
      start current chosen; a node asks its master (COMM_B); otherwise B is
      entered if one more EVSE can start, with activation mode armed and the
      RFID lock timer stopped, and the shortage is flagged if not. */
  function Connect(e: Evse, s: Settings, ppMv: int): (r: Evse)
    requires WellFormed(e)
    ensures WellFormed(r)
    ensures r.cp.maxCapacity == Signals.CableCapacity(ppMv, s.fixedCable, s.maxCurrent) && !r.cp.diodeCheck
    ensures r.chargeCurrent == StartCurrent(s, r.cp.maxCapacity)
    ensures s.loadBl > 1 ==> r.cp.state == CommB
    ensures s.loadBl <= 1 && Available(e, s) ==>
      && r.cp.state == B && r.cp.activationMode == ACTIVATION_DELAY && r.cp.accessTimer == 0
      && r.lb.balanced[0] == r.chargeCurrent && r.lb.balancedMax[0] == Wrap16(r.cp.maxCapacity * 10)
    ensures s.loadBl <= 1 && !Available(e, s) ==>
      r.cp.state == e.cp.state && r.errorFlags == e.errorFlags | Transitions.ShortageFlag(e.mode)
  {
    var cap := Signals.CableCapacity(ppMv, s.fixedCable, s.maxCurrent);
    var e1 := e.(chargeCurrent := StartCurrent(s, cap), cp := e.cp.(diodeCheck := false, maxCapacity := cap));
    Allocation.AvailableFrame(e, e1, s);
    if s.loadBl > 1 then Transitions.SetState(e1, s, CommB)
    else if Available(e1, s) then
      var e2 := e1.(lb := e1.lb.(balancedMax := e1.lb.balancedMax[0 := Wrap16(cap * 10)],
                                 balanced := e1.lb.balanced[0 := e1.chargeCurrent]));
      var e3 := Transitions.SetState(e2, s, B);
      e3.(cp := e3.cp.(activationMode := ACTIVATION_DELAY, accessTimer := 0))
    else e1.(errorFlags := e1.errorFlags | Transitions.ShortageFlag(e1.mode))
  }

  /** Whether a connected EV may go on towards charging. */
  predicate MayConnect(e: Evse) {
    e.errorFlags == 0 && e.cp.chargeDelay == 0 && e.cp.accessBit
  }

  /** A, COMM_B and B1. A disconnected pilot is reconnected once its time is
      up and it reads about 0 V; otherwise 12 V means unplugged, 9 V with no
      error, no charge delay and access connects (not while waiting for the
      master in COMM_B), and 9 V otherwise parks the EV in B1. */
  function Idle(e: Evse, s: Settings, pilot: PilotLevel, ppMv: int): (r: Evse)
    requires WellFormed(e) && (e.cp.state == A || e.cp.state == CommB || e.cp.state == B1)
    ensures WellFormed(r)
    ensures e.cp.pilotDisconnected ==> r.cp.state == e.cp.state
    ensures !e.cp.pilotDisconnected && pilot == Pilot12V ==> r.cp.state == A && r.cp.chargeDelay == 0
    ensures r.cp.state == B ==>
      e.cp.state != CommB && !e.cp.pilotDisconnected && pilot == Pilot9V && MayConnect(e) && s.loadBl <= 1 && Available(e, s)
    ensures r.cp.state == A || r.cp.state == B || r.cp.state == B1 || r.cp.state == CommB || r.cp.state == e.cp.state
    ensures e.cp.pilotDisconnected && e.cp.pilotDisconnectTime == 0 && pilot == PilotNok ==>
      !r.cp.pilotDisconnected && r.out == e.out + [PilotConnect]
    ensures e.cp.pilotDisconnected && !(e.cp.pilotDisconnectTime == 0 && pilot == PilotNok) ==> r == e
    ensures !e.cp.pilotDisconnected && pilot == Pilot9V && MayConnect(e) && e.cp.state != CommB ==>
      && (s.loadBl > 1 ==> r.cp.state == CommB)
      && (s.loadBl <= 1 && Available(e, s) ==> r.cp.state == B)
      && (s.loadBl <= 1 && !Available(e, s) ==>
            r.cp.state == e.cp.state && r.errorFlags == e.errorFlags | Transitions.ShortageFlag(e.mode))
    ensures !e.cp.pilotDisconnected && pilot == Pilot9V && !MayConnect(e) && e.cp.state == A && e.cp.accessBit ==>
      r.cp.state == B1
  {
    if e.cp.pilotDisconnected then
      if e.cp.pilotDisconnectTime == 0 && pilot == PilotNok then
        e.(out := e.out + [PilotConnect], cp := e.cp.(pilotDisconnected := false))
      else e
    else if pilot == Pilot12V then Unplugged(e, s)
    else if pilot == Pilot9V && MayConnect(e) && e.cp.state != CommB then Connect(e, s, ppMv)
    else if pilot == Pilot9V && e.cp.state != B1 && e.cp.state != CommB && e.cp.accessBit then
      Transitions.SetState(e, s, B1)
    else e
  }

  /** The master confirmed B: enter B with activation mode armed. */
  function ConfirmB(e: Evse, s: Settings): (r: Evse)
    requires WellFormed(e)
    ensures WellFormed(r)
    ensures r.cp.state == B && r.cp.activationMode == ACTIVATION_DELAY && r.cp.accessTimer == 0
  {
    var e1 := Transitions.SetState(e, s, B);
    e1.(cp := e1.cp.(activationMode := ACTIVATION_DELAY, accessTimer := 0))
  }

  /** A master or standalone EVSE starts charging: its ceiling becomes
      ChargeCurrent and, if one more EVSE can start, its current is cleared,
      the allocation runs for a new EVSE and C is entered; otherwise the
      shortage is flagged. */
  function StartCharge(e: Evse, s: Settings, detected: nat): (r: Evse)
    requires WellFormed(e)
    ensures WellFormed(r)
    ensures Available(e, s) ==> r.cp.state == C && !r.cp.diodeCheck
    ensures !Available(e, s) ==> r.cp.state == e.cp.state && r.errorFlags == e.errorFlags | Transitions.ShortageFlag(e.mode)
  {
    var e1 := e.(lb := e.lb.(balancedMax := e.lb.balancedMax[0 := e.chargeCurrent]));
    Allocation.AvailableFrame(e, e1, s);
    if Available(e1, s) then
      var e2 := Allocation.CalcBalancedCurrent(e1.(lb := e1.lb.(balanced := e1.lb.balanced[0 := 0])), s, true, detected);
      Transitions.SetState(e2.(cp := e2.cp.(diodeCheck := false)), s, C)
    else e1.(errorFlags := e1.errorFlags | Transitions.ShortageFlag(e1.mode))
  }

  /** 6 V persisted for more than STATE_DELAY ticks in B or COMM_C: with the
      diode seen, no error and no charge delay, a node asks its master
      (COMM_C) and a master or standalone EVSE starts charging. */
  function Settle(e: Evse, s: Settings, detected: nat): (r: Evse)
    requires WellFormed(e) && (e.cp.state == B || e.cp.state == CommC)
    ensures WellFormed(r)
    ensures r.cp.state == C ==>
      e.cp.diodeCheck && e.errorFlags == 0 && e.cp.chargeDelay == 0 && s.loadBl <= 1 && Available(e, s)
    ensures r.cp.state == e.cp.state || r.cp.state == C || r.cp.state == CommC
    ensures !(e.cp.diodeCheck && e.errorFlags == 0 && e.cp.chargeDelay == 0) ==> r == e
    ensures e.cp.diodeCheck && e.errorFlags == 0 && e.cp.chargeDelay == 0 ==>
      && (s.loadBl > 1 ==> r.cp.state == CommC)
      && (s.loadBl <= 1 && Available(e, s) ==> r.cp.state == C)
      && (s.loadBl <= 1 && !Available(e, s) ==>
            r.cp.state == e.cp.state && r.errorFlags == e.errorFlags | Transitions.ShortageFlag(e.mode))
  {
    if e.cp.diodeCheck && e.errorFlags == 0 && e.cp.chargeDelay == 0 then
      if s.loadBl > 1 then (if e.cp.state != CommC then Transitions.SetState(e, s, CommC) else e)
      else StartCharge(e, s, detected)
    else e
  }

  /** B and COMM_C. 12 V returns to A; 6 V counts towards the settle delay;
      9 V restarts that count and, once the activation countdown is over,
      enters activation mode for 3 s with the PWM off; the diode level marks
      the diode as seen and moves sampling to the start of the pulse. */
  function Waiting(e: Evse, s: Settings, pilot: PilotLevel, detected: nat): (r: Evse)
    requires WellFormed(e) && (e.cp.state == B || e.cp.state == CommC)
    ensures WellFormed(r)
    ensures pilot == Pilot12V ==> r.cp.state == A
    ensures r.cp.state == C ==>
      pilot == Pilot6V && e.cp.stateTimer + 1 > STATE_DELAY &&
      e.cp.diodeCheck && e.errorFlags == 0 && e.cp.chargeDelay == 0 && s.loadBl <= 1 && Available(e, s)
    ensures r.cp.state == ActStart ==> pilot == Pilot9V && e.cp.activationMode == 0 && r.cp.activationTimer == 3
    ensures r.cp.state == A || r.cp.state == C || r.cp.state == CommC || r.cp.state == ActStart || r.cp.state == e.cp.state
    ensures pilot == PilotDiode ==> r == e.(out := e.out + [Sampling(PulseStart)], cp := e.cp.(diodeCheck := true))
    ensures pilot == Pilot9V && e.cp.activationMode == 0 ==> r.cp.state == ActStart && r.cp.activationTimer == 3
    ensures pilot == Pilot9V && e.cp.activationMode != 0 ==> r.cp.state == e.cp.state && r.cp.stateTimer == 0
    ensures pilot == Pilot6V && e.cp.stateTimer + 1 <= STATE_DELAY ==> r.cp.state == e.cp.state
    ensures (pilot == Pilot6V && STATE_DELAY < e.cp.stateTimer + 1 < 0x1_0000
             && e.cp.diodeCheck && e.errorFlags == 0 && e.cp.chargeDelay == 0) ==>
      && (s.loadBl > 1 ==> r.cp.state == CommC)
      && (s.loadBl <= 1 && Available(e, s) ==> r.cp.state == C)
  {
    if pilot == Pilot12V then Transitions.SetState(e, s, A)
    else if pilot == Pilot6V then
      var t := Wrap16(e.cp.stateTimer + 1);
      var e1 := e.(cp := e.cp.(stateTimer := t));
      Allocation.AvailableFrame(e, e1, s);
      if t > STATE_DELAY then Settle(e1, s, detected) else e1
    else if pilot == Pilot9V then
      var e1 := e.(cp := e.cp.(stateTimer := 0));
      if e1.cp.activationMode == 0 then
        var e2 := Transitions.SetState(e1, s, ActStart);
        Transitions.SetCpDuty(e2.(cp := e2.cp.(activationTimer := 3)), 0)
      else e1
    else if pilot == PilotDiode then
      e.(out := e.out + [Sampling(PulseStart)], cp := e.cp.(diodeCheck := true))
    else e
  }

  /** C1: the EV was told to stop; 12 V means it was unplugged, 9 V that it
      stopped. */
  function Stopping(e: Evse, s: Settings, pilot: PilotLevel): (r: Evse)
    requires WellFormed(e)
    ensures WellFormed(r)
    ensures r.cp.state == (if pilot == Pilot12V then A else if pilot == Pilot9V then B1 else e.cp.state)
  {
    if pilot == Pilot12V then Transitions.SetState(e, s, A)
    else if pilot == Pilot9V then Transitions.SetState(e, s, B1)
    else e
  }

  /** C: 12 V means unplugged (A), 9 V that the EV stopped (B); 6 V keeps
      charging and any other level ends the charge (B) once it has lasted
      more than STATE_DELAY ticks. Leaving C always opens both contactors;
      staying emits nothing. */
  function Charging(e: Evse, s: Settings, pilot: PilotLevel): (r: Evse)
    requires WellFormed(e) && e.cp.state == C
    ensures WellFormed(r)
    ensures r.cp.state ==
      (if pilot == Pilot12V then A
       else if pilot == Pilot9V then B
       else if pilot == Pilot6V then C
       else if Wrap16(e.cp.stateTimer + 1) > STATE_DELAY then B
       else C)
    ensures r.cp.state != C ==>
      && Transitions.LastWhere(r.out, Transitions.IsContactor1) == Some(Contactor1(false))
      && Transitions.LastWhere(r.out, Transitions.IsContactor2) == Some(Contactor2(false))
    ensures r.cp.state == C ==> r.out == e.out
    ensures pilot == Pilot6V ==> r.cp.stateTimer == 0
  {
    if pilot == Pilot12V then
      Transitions.SetStateOpensContactors(e, s, A);
      Transitions.SetState(e, s, A)
    else if pilot == Pilot9V then
      Transitions.SetStateOpensContactors(e, s, B);
      var e1 := Transitions.SetState(e, s, B);
      e1.(cp := e1.cp.(diodeCheck := false))
    else if pilot != Pilot6V then
      var t := Wrap16(e.cp.stateTimer + 1);
      if t > STATE_DELAY then
        var e1 := e.(cp := e.cp.(stateTimer := 0));
        Transitions.SetStateOpensContactors(e1, s, B);
        var e2 := Transitions.SetState(e1, s, B);
        e2.(cp := e2.cp.(diodeCheck := false))
      else e.(cp := e.cp.(stateTimer := t))
    else e.(cp := e.cp.(stateTimer := 0))
  }

  /** One 10 ms tick of the pilot state machine. The state handlers run in
      sequence, each on the state the previous one left, so one tick can
      pass through several states (A to B, COMM_B_OK to B, B to C). */
  function Tick10ms(e: Evse, s: Settings, pilot: PilotLevel, ppMv: int, detected: nat): (r: Evse)
    requires WellFormed(e)
    ensures WellFormed(r)
    ensures e.cp.state == A && !e.cp.pilotDisconnected && pilot == Pilot12V ==> r.cp.state == A
    ensures e.cp.state == C1 ==> r.cp.state == (if pilot == Pilot12V then A else if pilot == Pilot9V then B1 else C1)
  {
    var st := e.cp.state;
    var e1 := if st == A || st == CommB || st == B1 then Idle(e, s, pilot, ppMv) else e;
    var e2 := if e1.cp.state == CommBOk then ConfirmB(e1, s) else e1;
    var e3 := if e2.cp.state == B || e2.cp.state == CommC then Waiting(e2, s, pilot, detected) else e2;
    var e4 := if e3.cp.state == C1 then Stopping(e3, s, pilot) else e3;
    var e5 :=
      if e4.cp.state == ActStart && e4.cp.activationTimer == 0 then
        var b := Transitions.SetState(e4, s, B);
        b.(cp := b.cp.(activationMode := 255))
      else e4;
    var e6 :=
      if e5.cp.state == CommCOk then Transitions.SetState(e5.(cp := e5.cp.(diodeCheck := false)), s, C)
      else e5;
    if e6.cp.state == C then Charging(e6, s, pilot) else e6
  }

  /** An EV plugged into an idle EVSE that may charge reaches B within one
      tick: Idle connects it, and the 9 V level that Waiting then sees keeps
      it there while activation mode counts down. */
  lemma {:induction false} TickConnects(e: Evse, s: Settings, ppMv: int, detected: nat)
    requires WellFormed(e) && e.cp.state == A && !e.cp.pilotDisconnected && MayConnect(e)
    requires s.loadBl <= 1 && Available(e, s)
    ensures Tick10ms(e, s, Pilot9V, ppMv, detected).cp.state == B
  {
    var e1 := Idle(e, s, Pilot9V, ppMv);
    assert e1 == Connect(e, s, ppMv);
    assert e1.cp.state == B && e1.cp.activationMode == ACTIVATION_DELAY;
    var e3 := Waiting(e1, s, Pilot9V, detected);
    assert e3.cp.state == B;
  }

  /** From C a tick can only end in A, B or C, as Charging says: the earlier
      handlers do not touch C. */
  lemma TickFromCharging(e: Evse, s: Settings, pilot: PilotLevel, ppMv: int, detected: nat)
    requires WellFormed(e) && e.cp.state == C
    ensures Tick10ms(e, s, pilot, ppMv, detected) == Charging(e, s, pilot)
  {
  }

  /** Charging starts from B only after the pilot held 6 V for the settle
      delay with the diode seen, no error, no charge delay, on a master or
      standalone EVSE, and only if one more EVSE can start. */
  lemma {:induction false} ChargeStartsOnlyWhenAllowed(e: Evse, s: Settings, pilot: PilotLevel, ppMv: int, detected: nat)
    requires WellFormed(e) && e.cp.state == B
    ensures Tick10ms(e, s, pilot, ppMv, detected).cp.state == C ==>
      && pilot == Pilot6V && e.cp.diodeCheck && e.errorFlags == 0 && e.cp.chargeDelay == 0
      && s.loadBl <= 1 && Available(e, s)
  {
    if Tick10ms(e, s, pilot, ppMv, detected).cp.state == C {
      var w := Waiting(e, s, pilot, detected);
      if w.cp.state != C {
        assert false;
      }
      Allocation.AvailableFrame(e, e.(cp := e.cp.(stateTimer := Wrap16(e.cp.stateTimer + 1))), s);
    }
  }

  /** Conversely, once those conditions hold and the 6 V level has lasted
      past the settle delay, the tick starts charging. */
  lemma {:induction false} ChargeStartsWhenAllowed(e: Evse, s: Settings, ppMv: int, detected: nat)
    requires WellFormed(e) && e.cp.state == B
    requires STATE_DELAY < e.cp.stateTimer + 1 < 0x1_0000
    requires e.cp.diodeCheck && e.errorFlags == 0 && e.cp.chargeDelay == 0
    requires s.loadBl <= 1 && Available(e, s)
    ensures Tick10ms(e, s, Pilot6V, ppMv, detected).cp.state == C
  {
    var e1 := e.(cp := e.cp.(stateTimer := Wrap16(e.cp.stateTimer + 1)));
    Allocation.AvailableFrame(e, e1, s);
    assert StartCharge(e1, s, detected).cp.state == C;
    assert Waiting(e, s, Pilot6V, detected).cp.state == C;
  }

  /** Activation countdowns: ActivationMode counts down to 0 (255 means
      off and stays), ActivationTimer counts down to 0. */
  function Countdowns(e: Evse): (r: Evse)
    ensures r == e.(cp := r.cp) && r.cp == e.cp.(activationMode := r.cp.activationMode, activationTimer := r.cp.activationTimer)
    ensures e.cp.activationMode == 255 ==> r.cp.activationMode == 255
    ensures r.cp.activationMode <= e.cp.activationMode && r.cp.activationTimer <= e.cp.activationTimer
    ensures e.cp.activationMode != 0 && e.cp.activationMode != 255 ==> r.cp.activationMode == e.cp.activationMode - 1
    ensures e.cp.activationTimer != 0 ==> r.cp.activationTimer == e.cp.activationTimer - 1
  {
    var m := if e.cp.activationMode != 0 && e.cp.activationMode != 255 then e.cp.activationMode - 1 else e.cp.activationMode;
    var t := if e.cp.activationTimer != 0 then e.cp.activationTimer - 1 else 0;
    e.(cp := e.cp.(activationMode := m, activationTimer := t))
  }

  /** C1: the EV gets C1Timer seconds to stop; then B1 is entered, which
      opens the contactors whether or not the EV stopped. */
  function C1Timeout(e: Evse, s: Settings): (r: Evse)
    requires WellFormed(e) && e.cp.state == C1
    ensures WellFormed(r)
    ensures e.cp.c1Timer != 0 ==> r == e.(cp := e.cp.(c1Timer := e.cp.c1Timer - 1))
    ensures e.cp.c1Timer == 0 ==>
      && r.cp.state == B1
      && Transitions.LastWhere(r.out, Transitions.IsContactor1) == Some(Contactor1(false))
      && Transitions.LastWhere(r.out, Transitions.IsContactor2) == Some(Contactor2(false))
  {
    if e.cp.c1Timer != 0 then e.(cp := e.cp.(c1Timer := e.cp.c1Timer - 1))
    else
      Transitions.SetStateOpensContactors(e, s, B1);
      Transitions.SetState(e, s, B1)
  }

  /** A stop timer ran out: a charging EV is told to stop and the error is
      raised. */
  function StopExpired(e: Evse, s: Settings, flag: bv8): (r: Evse)
    requires WellFormed(e)
    ensures WellFormed(r)
    ensures r.cp.state == (if e.cp.state == C then C1 else e.cp.state)
    ensures r.errorFlags == e.errorFlags | flag
    ensures r.lb.solarStopTimer == e.lb.solarStopTimer && r.lb.maxSumMainsTimer == e.lb.maxSumMainsTimer
    ensures r.cp.state == e.cp.state || r.cp.state == PowerCut(e.cp.state)
  {
    var e1 := if e.cp.state == C then Transitions.SetState(e, s, C1) else e;
    e1.(errorFlags := e1.errorFlags | flag)
  }

  /** The Solar stop timer and the MaxSumMains timer count down once a second;
      the one that reaches 0 stops the charge with NO_SUN or LESS_6A. */
  function StopTimers(e: Evse, s: Settings): (r: Evse)
    requires WellFormed(e)
    ensures WellFormed(r)
    ensures r.lb.solarStopTimer == (if e.lb.solarStopTimer > 0 then e.lb.solarStopTimer - 1 else 0)
    ensures r.lb.maxSumMainsTimer == (if e.lb.maxSumMainsTimer > 0 then e.lb.maxSumMainsTimer - 1 else 0)
    ensures e.lb.solarStopTimer == 1 || e.lb.maxSumMainsTimer == 1 ==> r.cp.state != C
    ensures e.lb.solarStopTimer == 1 ==> r.errorFlags & NO_SUN != 0
    ensures e.lb.maxSumMainsTimer == 1 ==> r.errorFlags & LESS_6A != 0
    ensures e.lb.solarStopTimer != 1 && e.lb.maxSumMainsTimer != 1 ==> r.cp.state == e.cp.state && r.errorFlags == e.errorFlags
    ensures r.cp.state == C ==> e.cp.state == C
    ensures r.cp.state == e.cp.state || r.cp.state == PowerCut(e.cp.state)
  {
    var e1 :=
      if e.lb.solarStopTimer != 0 then
        var t := e.(lb := e.lb.(solarStopTimer := e.lb.solarStopTimer - 1));
        if t.lb.solarStopTimer == 0 then StopExpired(t, s, NO_SUN) else t
      else e;
    if e1.lb.maxSumMainsTimer != 0 then
      var t := e1.(lb := e1.lb.(maxSumMainsTimer := e1.lb.maxSumMainsTimer - 1));
      if t.lb.maxSumMainsTimer == 0 then StopExpired(t, s, LESS_6A) else t
    else e1
  }

  /** The charge delay and the pilot-disconnect time count down. The RFID
      lock timer only runs in A, and re-locks the EVSE when it expires. */
  function Delays(e: Evse, s: Settings): (r: Evse)
    requires WellFormed(e)
    ensures WellFormed(r)
    ensures r.cp.chargeDelay == (if e.cp.chargeDelay > 0 then e.cp.chargeDelay - 1 else 0)
    ensures e.cp.state != A ==> r.cp.accessTimer == 0
    ensures e.cp.state == A && e.cp.accessTimer == 1 ==> !r.cp.accessBit
    ensures r.cp.state == e.cp.state && r.errorFlags == e.errorFlags
    ensures r.cp.pilotDisconnectTime == (if e.cp.pilotDisconnectTime > 0 then e.cp.pilotDisconnectTime - 1 else 0)
    ensures e.cp.state == A && e.cp.accessTimer > 1 ==>
      r.cp.accessTimer == e.cp.accessTimer - 1 && r.cp.accessBit == e.cp.accessBit
  {
    var e1 := e.(cp := e.cp.(chargeDelay := if e.cp.chargeDelay > 0 then e.cp.chargeDelay - 1 else 0,
                             pilotDisconnectTime := if e.cp.pilotDisconnectTime > 0 then e.cp.pilotDisconnectTime - 1 else 0));
    if e1.cp.accessTimer != 0 && e1.cp.state == A then
      var e2 := e1.(cp := e1.cp.(accessTimer := e1.cp.accessTimer - 1));
      if e2.cp.accessTimer == 0 then Transitions.SetAccess(e2, s, false) else e2
    else e1.(cp := e1.cp.(accessTimer := 0))
  }

  /** Errors that cleared: TEMP_HIGH once the temperature is 10 degrees below
      the limit, and the power errors when one more EVSE could start and
      this EVSE is standalone or the master. */
  function ClearErrors(e: Evse, s: Settings, temp: int): (r: Evse)
    requires WellFormed(e)
    ensures r == e.(errorFlags := r.errorFlags)
    ensures r.errorFlags & !(TEMP_HIGH | Transitions.POWER_ERRORS) == e.errorFlags & !(TEMP_HIGH | Transitions.POWER_ERRORS)
    ensures temp < s.maxTemp - 10 ==> r.errorFlags & TEMP_HIGH == 0
    ensures temp >= s.maxTemp - 10 ==> r.errorFlags & TEMP_HIGH == e.errorFlags & TEMP_HIGH
    ensures e.errorFlags & Transitions.POWER_ERRORS != 0 && s.loadBl < 2 && Available(e, s) ==>
      r.errorFlags & Transitions.POWER_ERRORS == 0
    ensures !(s.loadBl < 2 && Available(e, s)) ==>
      r.errorFlags & Transitions.POWER_ERRORS == e.errorFlags & Transitions.POWER_ERRORS
  {
    var f1 := if temp < s.maxTemp - 10 && e.errorFlags & TEMP_HIGH != 0 then e.errorFlags & !TEMP_HIGH else e.errorFlags;
    var f2 := if f1 & Transitions.POWER_ERRORS != 0 && s.loadBl < 2 && Available(e, s)
              then f1 & !LESS_6A & !NO_SUN else f1;
    e.(errorFlags := f2)
  }

  /** The charge timers of the slots: a charging slot's session and interval
      seconds grow by one (uint32_t), any other slot's interval restarts. */
  function ChargeTimers(e: Evse): (r: Evse)
    requires WellFormed(e)
    ensures WellFormed(r)
    ensures r == e.(lb := e.lb.(nodes := r.lb.nodes))
    ensures forall x :: 0 <= x < NR_EVSES ==>
      if e.lb.balancedState[x] == C then
        r.lb.nodes[x] == e.lb.nodes[x].(intTimer := Wrap32(e.lb.nodes[x].intTimer + 1), timer := Wrap32(e.lb.nodes[x].timer + 1))
      else r.lb.nodes[x] == e.lb.nodes[x].(intTimer := 0)
  {
    var ns := seq(NR_EVSES, x requires 0 <= x < NR_EVSES =>
      if e.lb.balancedState[x] == C then
        e.lb.nodes[x].(intTimer := Wrap32(e.lb.nodes[x].intTimer + 1), timer := Wrap32(e.lb.nodes[x].timer + 1))
      else e.lb.nodes[x].(intTimer := 0));
    e.(lb := e.lb.(nodes := ns))
  }

  /** The state setStatePowerUnavailable leads to. */
  function PowerCut(st: ChargeState): ChargeState {
    if st == A || st == C1 then st else if st == C then C1 else B1
  }

  /** A lost meter: the flag is raised and power is declared unavailable. */
  function MeterLost(e: Evse, s: Settings, flag: bv8): (r: Evse)
    requires WellFormed(e)
    ensures WellFormed(r)
    ensures r.errorFlags == e.errorFlags | flag && r.cp.state == PowerCut(e.cp.state)
    ensures r.meter == e.meter
  {
    var e1 := Transitions.SetStatePowerUnavailable(e, s);
    e1.(errorFlags := e1.errorFlags | flag)
  }

  /** Whether the mains timer is supervised: a standalone EVSE or master with
      a mains meter, or any node. */
  predicate MainsSupervised(s: Settings) {
    (s.mainsMeter && s.loadBl < 2) || s.loadBl > 1
  }

  /** The mains timer ran out while supervised, the error is not raised yet
      and it matters: outside Normal mode or on a node. */
  predicate MainsTrips(e: Evse, s: Settings) {
    MainsSupervised(s) && e.meter.mainsTimeout == 0 && e.errorFlags & CT_NOCOMM == 0
    && (s.loadBl > 1 || e.mode != MODE_NORMAL)
  }

  /** The EV meter timer ran out outside Normal mode and the error is not
      raised yet. */
  predicate EvTrips(e: Evse, s: Settings) {
    s.evMeter && e.meter.evTimeout == 0 && e.errorFlags & EV_NOCOMM == 0 && e.mode != MODE_NORMAL
  }

  /** Mains supervision. The mains meter of a standalone EVSE or master
      counts down (a node supervises its master's messages through the same
      timer); reaching 0 outside Normal mode (always on a node) raises
      CT_NOCOMM and stops charging. Without supervision the timer is held at
      its full value. */
  function MainsWatch(e: Evse, s: Settings): (r: Evse)
    requires WellFormed(e)
    ensures WellFormed(r)
    ensures r.errorFlags & CT_NOCOMM != 0 && e.errorFlags & CT_NOCOMM == 0 ==> r.cp.state != C && r.meter.mainsTimeout == 0
    ensures r.errorFlags & EV_NOCOMM == e.errorFlags & EV_NOCOMM && r.meter.evTimeout == e.meter.evTimeout
    ensures r.mode == e.mode
    ensures MainsTrips(e, s) ==>
      r.errorFlags == e.errorFlags | CT_NOCOMM && r.cp.state == PowerCut(e.cp.state) && r.meter == e.meter
    ensures MainsSupervised(s) && !MainsTrips(e, s) ==>
      && r.meter.mainsTimeout == (if e.meter.mainsTimeout > 0 then e.meter.mainsTimeout - 1 else 0)
      && r.errorFlags == e.errorFlags && r.cp == e.cp
    ensures !MainsSupervised(s) ==>
      r.meter.mainsTimeout == s.commTimeout && r.errorFlags == e.errorFlags && r.cp == e.cp
    ensures r.cp.state == C ==> e.cp.state == C
    ensures r.cp.state == e.cp.state || r.cp.state == PowerCut(e.cp.state)
  {
    if (s.mainsMeter && s.loadBl < 2) || s.loadBl > 1 then
      if e.meter.mainsTimeout == 0 && e.errorFlags & CT_NOCOMM == 0 && (s.loadBl > 1 || e.mode != MODE_NORMAL) then
        MeterLost(e, s, CT_NOCOMM)
      else e.(meter := e.meter.(mainsTimeout := if e.meter.mainsTimeout > 0 then e.meter.mainsTimeout - 1 else 0))
    else e.(meter := e.meter.(mainsTimeout := s.commTimeout))
  }

  /** EV meter supervision, outside Normal mode: reaching 0 raises EV_NOCOMM
      and stops charging. Without an EV meter the timer is held at its full
      value. */
  function EvWatch(e: Evse, s: Settings): (r: Evse)
    requires WellFormed(e)
    ensures WellFormed(r)
    ensures r.errorFlags & EV_NOCOMM != 0 && e.errorFlags & EV_NOCOMM == 0 ==> r.cp.state != C && r.meter.evTimeout == 0
    ensures r.errorFlags & CT_NOCOMM == e.errorFlags & CT_NOCOMM && r.meter.mainsTimeout == e.meter.mainsTimeout
    ensures r.mode == e.mode
    ensures r.cp.state == C ==> e.cp.state == C
    ensures r.cp.state == e.cp.state || r.cp.state == PowerCut(e.cp.state)
    ensures EvTrips(e, s) ==>
      r.errorFlags == e.errorFlags | EV_NOCOMM && r.cp.state == PowerCut(e.cp.state) && r.meter == e.meter
    ensures s.evMeter && !EvTrips(e, s) ==>
      && r.meter.evTimeout == (if e.meter.evTimeout > 0 then e.meter.evTimeout - 1 else 0)
      && r.errorFlags == e.errorFlags && r.cp == e.cp
    ensures !s.evMeter ==>
      r.meter.evTimeout == s.commEvTimeout && r.errorFlags == e.errorFlags && r.cp == e.cp
  {
    if s.evMeter then
      if e.meter.evTimeout == 0 && e.errorFlags & EV_NOCOMM == 0 && e.mode != MODE_NORMAL then
        MeterLost(e, s, EV_NOCOMM)
      else e.(meter := e.meter.(evTimeout := if e.meter.evTimeout > 0 then e.meter.evTimeout - 1 else 0))
    else e.(meter := e.meter.(evTimeout := s.commEvTimeout))
  }

  /** A communication error clears while its meter's timer runs, so
      afterwards a flagged meter has timed out. */
  function ClearComm(e: Evse): (r: Evse)
    ensures r == e.(errorFlags := r.errorFlags)
    ensures r.errorFlags & CT_NOCOMM != 0 ==> e.meter.mainsTimeout == 0
    ensures r.errorFlags & EV_NOCOMM != 0 ==> e.meter.evTimeout == 0
    ensures e.meter.mainsTimeout == 0 ==> r.errorFlags & CT_NOCOMM == e.errorFlags & CT_NOCOMM
    ensures e.meter.evTimeout == 0 ==> r.errorFlags & EV_NOCOMM == e.errorFlags & EV_NOCOMM
  {
    var f1 := if e.errorFlags & CT_NOCOMM != 0 && e.meter.mainsTimeout != 0 then e.errorFlags & !CT_NOCOMM else e.errorFlags;
    var f2 := if f1 & EV_NOCOMM != 0 && e.meter.evTimeout != 0 then f1 & !EV_NOCOMM else f1;
    e.(errorFlags := f2)
  }

  /** Meter supervision: a meter error newly raised in this second leaves the
      EVSE out of C. */
  function MeterWatch(e: Evse, s: Settings): (r: Evse)
    requires WellFormed(e)
    ensures WellFormed(r)
    ensures r.errorFlags & CT_NOCOMM != 0 ==> r.meter.mainsTimeout == 0
    ensures r.errorFlags & EV_NOCOMM != 0 ==> r.meter.evTimeout == 0
    ensures r.errorFlags & CT_NOCOMM != 0 && e.errorFlags & CT_NOCOMM == 0 ==> r.cp.state != C
    ensures r.errorFlags & EV_NOCOMM != 0 && e.errorFlags & EV_NOCOMM == 0 ==> r.cp.state != C
    ensures r.cp.state == C ==> e.cp.state == C
    ensures r.cp.state == e.cp.state || r.cp.state == PowerCut(e.cp.state)
    ensures MainsTrips(e, s) ==> r.errorFlags & CT_NOCOMM != 0 && r.cp.state == PowerCut(e.cp.state)
    ensures EvTrips(e, s) ==> r.errorFlags & EV_NOCOMM != 0 && r.cp.state != C
  {
    ClearComm(EvWatch(MainsWatch(e, s), s))
  }

  /** Protection: overheating raises TEMP_HIGH and stops charging; a power
      error stops charging and restarts the charge delay. Afterwards a power
      error never leaves the EVSE charging. */
  function Protect(e: Evse, s: Settings, temp: int): (r: Evse)
    requires WellFormed(e)
    ensures WellFormed(r)
    ensures r.errorFlags == (if temp > s.maxTemp then e.errorFlags | TEMP_HIGH else e.errorFlags)
    ensures temp > s.maxTemp && e.errorFlags & TEMP_HIGH == 0 ==> r.cp.state != C
    ensures r.errorFlags & Transitions.POWER_ERRORS != 0 ==>
      r.cp.state != C && r.cp.state != B && r.cp.chargeDelay == s.chargeDelayTime
    ensures r.cp.state == C ==> e.cp.state == C
    ensures r.cp.state == e.cp.state || r.cp.state == PowerCut(e.cp.state)
  {
    var e1 :=
      if temp > s.maxTemp && e.errorFlags & TEMP_HIGH == 0 then
        var p := Transitions.SetStatePowerUnavailable(e, s);
        p.(errorFlags := p.errorFlags | TEMP_HIGH)
      else e;
    if e1.errorFlags & Transitions.POWER_ERRORS != 0 then
      var p := Transitions.SetStatePowerUnavailable(e1, s);
      p.(cp := p.cp.(chargeDelay := s.chargeDelayTime))
    else e1
  }

  /** One second of housekeeping. It never starts a charge; it ends with
      every power error leaving the EVSE out of C and B with the charge
      delay restarted. */
  function Tick1S(e: Evse, s: Settings, temp: int): (r: Evse)
    requires WellFormed(e)
    ensures WellFormed(r)
    ensures r.cp.state == C ==> e.cp.state == C
    ensures r.errorFlags & Transitions.POWER_ERRORS != 0 ==>
      r.cp.state != C && r.cp.state != B && r.cp.chargeDelay == s.chargeDelayTime
  {
    var e1 := Countdowns(e);
    var e2 := if e1.cp.state == C1 then C1Timeout(e1, s) else e1;
    var e3 := StopTimers(e2, s);
    var e4 := Delays(e3, s);
    var e5 := ClearErrors(e4, s, temp);
    var e6 := ChargeTimers(e5);
    var e7 := MeterWatch(e6, s);
    Protect(e7, s, temp)
  }

  /** A second in C1 with the stop time used up ends in B1, with the
      contactors open. */
  lemma {:induction false} C1TimesOut(e: Evse, s: Settings, temp: int)
    requires WellFormed(e) && e.cp.state == C1 && e.cp.c1Timer == 0
    ensures Tick1S(e, s, temp).cp.state == B1
  {
    var e1 := Countdowns(e);
    var e2 := C1Timeout(e1, s);
    assert e2.cp.state == B1;
  }

  /** The second in which the Solar stop timer runs out stops a charge: the
      EV is told to stop (C1). */
  lemma {:induction false} SolarStopEndsCharge(e: Evse, s: Settings, temp: int)
    requires WellFormed(e) && e.cp.state == C && e.lb.solarStopTimer == 1
    ensures Tick1S(e, s, temp).cp.state == C1
  {
    var e1 := Countdowns(e);
    var e3 := StopTimers(e1, s);
    assert e3.cp.state == C1;
  }
}
