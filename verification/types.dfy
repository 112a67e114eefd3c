/** Shared vocabulary of the SmartEVSE controller core: charge-point states,
    error flags, configuration, the controller's global state and the abstract
    hardware commands the core emits. */
module Types {

  /** Number of charge-point slots the master reasons about (slot 0 is the
      master itself, slots 1..7 are nodes). */
  const NR_EVSES: nat := 8

  type u8 = x: int | 0 <= x < 0x100
  type u16 = x: int | 0 <= x < 0x1_0000
  type i16 = x: int | -0x8000 <= x < 0x8000

  /** Storing an int into a uint16_t keeps the low 16 bits. */
  function Wrap16(x: int): (r: u16)
    ensures 0 <= x < 0x1_0000 ==> r == x
    ensures 0 <= x ==> r <= x
  {
    x % 0x1_0000
  }

  /** Storing an int into a uint32_t keeps the low 32 bits. */
  function Wrap32(x: int): (r: nat)
    ensures r < 0x1_0000_0000
    ensures 0 <= x < 0x1_0000_0000 ==> r == x
  {
    x % 0x1_0000_0000
  }

  /** Storing an int into a uint8_t keeps the low 8 bits. */
  function Wrap8(x: int): (r: u8)
    ensures 0 <= x < 0x100 ==> r == x
  {
    x % 0x100
  }

  /** Reading a 16-bit register as int16_t (two's complement). */
  function ToI16(x: int): (r: i16)
    ensures -0x8000 <= x < 0x8000 ==> r == x
  {
    var w := x % 0x1_0000;
    if w < 0x8000 then w else w - 0x1_0000
  }

  /** C integer division (truncates toward zero). */
  function CDiv(a: int, b: int): (r: int)
    requires b != 0
    ensures 0 <= a && 0 < b ==> r == a / b
  {
    if (a < 0) == (b < 0) then (if a < 0 then (-a) / (-b) else a / b)
    else -((if a < 0 then -a else a) / (if b < 0 then -b else b))
  }

  /** The charge-point states. The controller stores them as a byte, so a code
      read from a node that names no state here (the optional modem states,
      garbage) is kept as `Unknown`. */
  datatype ChargeState =
    | A         // not connected
    | B         // connected, PWM on
    | C         // charging
    | D
    | CommB     // node asks the master for state B
    | CommBOk   // master confirmed state B
    | CommC     // node asks the master for state C
    | CommCOk   // master confirmed state C
    | ActStart  // activation mode
    | B1        // connected, power unavailable
    | C1        // charging, told to stop
    | Unknown(code: u8)

  /** Register value of a state, as in the state-name tables. */
  function StateCode(s: ChargeState): u8 {
    match s
    case A => 0 case B => 1 case C => 2 case D => 3
    case CommB => 4 case CommBOk => 5 case CommC => 6 case CommCOk => 7
    case ActStart => 8 case B1 => 9 case C1 => 10
    case Unknown(c) => c
  }

  /** The state a register byte names. */
  function DecodeState(b: u8): (s: ChargeState)
    ensures StateCode(s) == b
    ensures b > 10 <==> s.Unknown?
  {
    match b
    case 0 => A case 1 => B case 2 => C case 3 => D
    case 4 => CommB case 5 => CommBOk case 6 => CommC case 7 => CommCOk
    case 8 => ActStart case 9 => B1 case 10 => C1
    case _ => Unknown(b)
  }

  /** Decoding inverts the register encoding of every state with a proper code. */
  lemma DecodeStateCode(s: ChargeState)
    requires s.Unknown? ==> s.code > 10
    ensures DecodeState(StateCode(s)) == s
  {
  }

  /** Mode codes (a uint8_t in the controller, so any byte can occur). */
  const MODE_NORMAL: nat := 0
  const MODE_SMART: nat := 1
  const MODE_SOLAR: nat := 2

  /** Error flag bits. */
  const LESS_6A: bv8 := 1
  const CT_NOCOMM: bv8 := 2
  const TEMP_HIGH: bv8 := 4
  const EV_NOCOMM: bv8 := 8
  const RCM_TRIPPED: bv8 := 16
  const NO_SUN: bv8 := 32

  /** The same flags in a node's 16-bit error register. */
  function Wide(f: bv8): bv16 {
    f as bv16
  }

  /** Contactor 2 configuration. */
  datatype EnableC2 = NotPresent | AlwaysOff | SolarOff | AlwaysOn | Auto

  /** Progress of a switch from three-phase to single-phase charging. */
  datatype SinglePhase = NoSwitch | GoingToSwitch | AfterSwitch

  /** Discrete control-pilot levels. */
  datatype PilotLevel = Pilot12V | Pilot9V | Pilot6V | Pilot3V | PilotDiode | PilotNok

  /** When the pilot sampling timer fires. */
  datatype SampleAlarm =
    | EveryMs     // PWM off: sample every 1 ms
    | DiodeTest   // sample at 95% of the PWM period
    | PulseStart  // sample at 5% of the PWM period

  /** Abstract hardware and bus commands emitted by the core. */
  datatype Command =
    | Contactor1(on: bool)
    | Contactor2(on: bool)
    | CpDuty(duty: nat)                    // 0..1024, 1024 = constant +12 V
    | PilotDisconnect
    | PilotConnect
    | Sampling(alarm: SampleAlarm)
    | ReadNodeStatus(address: nat)         // read 8 status registers of a node
    | WriteNodeStatus(address: nat, values: seq<u16>)  // write from register 0x0000

  /** What the master knows about one slot. */
  datatype NodeRecord = NodeRecord(
    online: nat,         // countdown; 0 = offline
    configChanged: bv8,
    minCurrent: u8,
    phases: u8,
    timer: nat,          // seconds charged (uint32_t)
    intTimer: nat,       // seconds in the current charging interval (uint32_t)
    solarTimer: u16,     // the node's SolarStopTimer as last reported
    mode: u8)            // the node's mode as last reported

  /** Configuration snapshot. The constants that live in the build's header
      (charge delay, solar start time, communication timeouts, RFID lock time)
      are parameters here. */
  datatype Settings = Settings(
    maxMains: u16,          // A per phase
    maxSumMains: u16,       // A summed over phases, 0 = disabled
    maxSumMainsTime: u8,    // minutes, 0 = hard stop
    maxCurrent: u16,        // A
    minCurrent: u16,        // A
    maxCircuit: u16,        // A
    fixedCable: bool,       // Config: 0 socket / 1 fixed cable
    loadBl: u8,             // 0 disabled, 1 master, 2..8 node
    enableC2: EnableC2,
    startCurrent: u16,      // A of export needed to start solar charging
    stopTime: u16,          // minutes
    importCurrent: u16,     // A of grid import allowed in solar mode
    mainsMeter: bool,       // a mains meter is configured
    evMeter: bool,          // an EV meter is configured
    ocppLimit: Option<u16>, // OCPP limit in 0.1 A when OCPP governs the slot
    rfidReader: u8,
    smartSolarSwitch: bool, // external switch configured as Smart-Solar switch
    maxTemp: int,
    chargeDelayTime: u8,    // seconds of ChargeDelay after a shortage
    solarStartTime: nat,    // seconds a new solar session stays at the minimum
    commTimeout: nat,
    commEvTimeout: nat,
    rfidLockTime: u8)

  datatype Option<T> = None | Some(value: T)

  /** This charge point's own side: its state, access, pilot and timers. */
  datatype ChargePoint = ChargePoint(
    state: ChargeState,
    accessBit: bool,
    chargeDelay: u8,           // seconds before charging may (re)start
    c1Timer: u8,               // seconds left for the EV to stop in C1
    pilotDisconnected: bool,
    pilotDisconnectTime: u8,
    activationMode: u8,        // seconds until activation mode, 255 = off
    activationTimer: u8,
    accessTimer: u8,           // seconds until the RFID lock returns
    diodeCheck: bool,          // the EV's pilot diode was seen
    stateTimer: u16,           // 10 ms ticks a pilot level has persisted
    currentPwm: nat,           // duty last written to the pilot
    switching: SinglePhase,    // Switching_To_Single_Phase
    maxCapacity: u16)          // A, cable limit read from the proximity pin

  /** Meter readings and their freshness. */
  datatype Metering = Metering(
    isum: i16,                 // 0.1 A, sum of the mains phases
    mainsImeasured: int,       // 0.1 A, highest mains phase
    evImeasured: int,          // 0.1 A, highest EV-meter phase
    phasesFresh: bool,         // phasesLastUpdateFlag
    phasesCharging: nat,       // Nr_Of_Phases_Charging: 0 undetected, 1..3
    mainsTimeout: nat,         // seconds until the mains meter counts as lost
    evTimeout: nat)            // seconds until the EV meter counts as lost

  /** The master's load-balancing tables and timers. */
  datatype Balance = Balance(
    isetBalanced: i16,         // 0.1 A available to all EVSEs
    balanced: seq<u16>,        // 0.1 A per slot
    balancedMax: seq<u16>,     // 0.1 A per slot
    balancedState: seq<ChargeState>,
    balancedError: seq<bv16>,
    nodes: seq<NodeRecord>,
    solarStopTimer: u16,
    maxSumMainsTimer: u16,
    noCurrent: u8,             // count of hard shortages
    nodeNewMode: u8)           // mode + 1 to announce to the nodes, 0 = none

  /** The controller's global state. */
  datatype Evse = Evse(
    mode: u8,
    errorFlags: bv8,
    chargeCurrent: u16,        // 0.1 A
    overrideCurrent: u16,      // 0.1 A, 0 = none
    cp: ChargePoint,
    meter: Metering,
    lb: Balance,
    out: seq<Command>)

  /** The slot tables have their fixed sizes. */
  predicate Slots(b: Balance) {
    && |b.balanced| == NR_EVSES
    && |b.balancedMax| == NR_EVSES
    && |b.balancedState| == NR_EVSES
    && |b.balancedError| == NR_EVSES
    && |b.nodes| == NR_EVSES
  }

  predicate WellFormed(e: Evse) {
    Slots(e.lb)
  }
}
