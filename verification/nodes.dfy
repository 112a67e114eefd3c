/** The master's side of the load-balancing protocol with its nodes: status
    polling with the online countdown, decoding a node's status block,
    answering start requests, adopting a mode chosen on a node, and the pass
    that writes state back to the online nodes. Also a node's handling of
    the master's current broadcast. Bus transfers appear as ReadNodeStatus
    and WriteNodeStatus commands; Modbus framing and transport are not part
    of this model. Node n (1..7) sits at bus address n + 1. */
module Nodes {
  import opened Types
  import Signals
  import Transitions
  import Allocation

  /** Polls a node may leave unanswered before it counts as offline. */
  const ONLINE_POLLS: nat := 5

  /** Node slots (slot 0 is the master itself). */
  predicate IsNode(n: int) {
    1 <= n < NR_EVSES
  }

  predicate Online(e: Evse, n: nat)
    requires WellFormed(e) && n < NR_EVSES
  {
    e.lb.nodes[n].online > 0
  }

  /** Every node other than n is exactly as it was: its record, state and
      error register. */
  predicate OthersKept(e: Evse, r: Evse, n: nat)
    requires WellFormed(e) && WellFormed(r)
  {
    forall i :: 1 <= i < NR_EVSES && i != n ==>
      && r.lb.nodes[i] == e.lb.nodes[i]
      && r.lb.balancedState[i] == e.lb.balancedState[i]
      && r.lb.balancedError[i] == e.lb.balancedError[i]
  }

  // ---------------------------------------------------------------------
  // Polling

  /** Asks node n for its status. Each request uses up one unit of the
      node's online countdown; the request that takes it to zero drops the
      node: it goes back to A and gets no current. The request itself is
      sent whether or not the node is online. */
  function RequestNodeStatus(e: Evse, n: nat): (r: Evse)
    requires WellFormed(e) && IsNode(n)
    ensures WellFormed(r)
    ensures r.lb.nodes[n] == e.lb.nodes[n].(online := if Online(e, n) then e.lb.nodes[n].online - 1 else 0)
    ensures e.lb.nodes[n].online == 1 ==> r.lb.balancedState[n] == A && r.lb.balanced[n] == 0
    ensures e.lb.nodes[n].online != 1 ==>
      r.lb.balancedState[n] == e.lb.balancedState[n] && r.lb.balanced[n] == e.lb.balanced[n]
    ensures forall i :: 0 <= i < NR_EVSES && i != n ==>
      && r.lb.nodes[i] == e.lb.nodes[i]
      && r.lb.balancedState[i] == e.lb.balancedState[i]
      && r.lb.balanced[i] == e.lb.balanced[i]
    ensures r.out == e.out + [ReadNodeStatus(n + 1)]
    ensures r == e.(out := r.out, lb := e.lb.(nodes := r.lb.nodes, balancedState := r.lb.balancedState,
                                              balanced := r.lb.balanced))
  {
    var m := e.lb.nodes[n].online;
    var e1 :=
      if m == 0 then e
      else if m == 1 then
        e.(lb := e.lb.(nodes := e.lb.nodes[n := e.lb.nodes[n].(online := 0)],
                       balancedState := e.lb.balancedState[n := A], balanced := e.lb.balanced[n := 0]))
      else e.(lb := e.lb.(nodes := e.lb.nodes[n := e.lb.nodes[n].(online := m - 1)]));
    e1.(out := e1.out + [ReadNodeStatus(n + 1)])
  }

  /** k status requests to node n that all go unanswered. */
  function Polls(e: Evse, n: nat, k: nat): (r: Evse)
    requires WellFormed(e) && IsNode(n)
    ensures WellFormed(r)
    decreases k
  {
    if k == 0 then e else RequestNodeStatus(Polls(e, n, k - 1), n)
  }

  /** A node that stops answering counts down one per poll; once it has
      missed as many polls as its countdown held, it is offline, back in A
      and without current, and stays so. Until then its state and current
      are untouched. Every poll sends a request. */
  lemma {:induction false} SilentNodeGoesOffline(e: Evse, n: nat, k: nat)
    requires WellFormed(e) && IsNode(n)
    ensures var r := Polls(e, n, k); var m := e.lb.nodes[n].online;
      && r.lb.nodes[n].online == (if k <= m then m - k else 0)
      && (0 < m <= k ==> r.lb.balancedState[n] == A && r.lb.balanced[n] == 0)
      && (k < m || m == 0 ==>
            r.lb.balancedState[n] == e.lb.balancedState[n] && r.lb.balanced[n] == e.lb.balanced[n])
      && |r.out| == |e.out| + k
    decreases k
  {
    if k > 0 {
      SilentNodeGoesOffline(e, n, k - 1);
    }
  }

  // ---------------------------------------------------------------------
  // A node's status block

  /** The eight status registers of a node (0x0000..0x0007) as it reports
      them. */
  datatype NodeStatus = NodeStatus(
    state: ChargeState,
    error: bv8,
    current: u16,         // 0.1 A
    mode: u8,
    solarTimer: u16,      // s
    access: bool,
    configChanged: bv8,
    maxCurrent: u8)       // A

  /** The 16 data bytes of a node's status response. */
  function StatusBytes(st: NodeStatus): (b: seq<u8>)
    ensures |b| == 16
  {
    [0, StateCode(st.state), 0, st.error as int, st.current / 256, st.current % 256, 0, st.mode,
     st.solarTimer / 256, st.solarTimer % 256, 0, if st.access then 1 else 0, 0, st.configChanged as int,
     0, st.maxCurrent]
  }

  /** Master: a status response from node n. The node is online again for
      five polls; its state, error register, mode, solar timer and maximum
      current are taken over (the low byte of each register, the full
      timer) and its configuration-changed bits accumulate. A mode that
      differs from the master's is queued for adoption, unless the external
      switch is the Smart/Solar switch, the menu is open, or another change
      is already queued. */
  function ReceiveNodeStatus(e: Evse, s: Settings, n: nat, buf: seq<u8>, menuOpen: bool): (r: Evse)
    requires WellFormed(e) && IsNode(n) && |buf| >= 16
    ensures WellFormed(r) && OthersKept(e, r, n)
    ensures r.lb.nodes[n].online == ONLINE_POLLS
    ensures r.lb.nodes[n].configChanged == e.lb.nodes[n].configChanged | (buf[13] as bv8)
    ensures r.lb.nodeNewMode ==
      (if buf[7] != e.mode && !s.smartSolarSwitch && !menuOpen && e.lb.nodeNewMode == 0
       then Wrap8(buf[7] as int + 1) else e.lb.nodeNewMode)
    ensures r.mode == e.mode && r.lb.balanced == e.lb.balanced && r.out == e.out
  {
    var node := e.lb.nodes[n];
    var mode := buf[7];
    var queue := mode != e.mode && !s.smartSolarSwitch && !menuOpen && e.lb.nodeNewMode == 0;
    var node' := node.(online := ONLINE_POLLS, mode := mode, solarTimer := buf[8] as int * 256 + buf[9],
                       configChanged := node.configChanged | (buf[13] as bv8));
    e.(lb := e.lb.(nodes := e.lb.nodes[n := node'],
                   balancedState := e.lb.balancedState[n := DecodeState(buf[1])],
                   balancedError := e.lb.balancedError[n := Wide(buf[3] as bv8)],
                   balancedMax := e.lb.balancedMax[n := buf[15] as int * 10],
                   nodeNewMode := if queue then Wrap8(mode as int + 1) else e.lb.nodeNewMode))
  }

  /** Decoding a node's status block recovers what the node reported: its
      state (when the code names one), error bits, mode, solar timer, and
      its maximum current in 0.1 A. */
  lemma ReceiveDecodes(e: Evse, s: Settings, n: nat, st: NodeStatus, menuOpen: bool)
    requires WellFormed(e) && IsNode(n)
    requires st.state.Unknown? ==> st.state.code > 10
    ensures ReceiveNodeStatus(e, s, n, StatusBytes(st), menuOpen).lb.balancedState[n] == st.state
    ensures ReceiveNodeStatus(e, s, n, StatusBytes(st), menuOpen).lb.balancedError[n] == Wide(st.error)
    ensures ReceiveNodeStatus(e, s, n, StatusBytes(st), menuOpen).lb.nodes[n].mode == st.mode
    ensures ReceiveNodeStatus(e, s, n, StatusBytes(st), menuOpen).lb.nodes[n].solarTimer == st.solarTimer
    ensures ReceiveNodeStatus(e, s, n, StatusBytes(st), menuOpen).lb.balancedMax[n] == st.maxCurrent * 10
    ensures ReceiveNodeStatus(e, s, n, StatusBytes(st), menuOpen).lb.nodes[n].configChanged == e.lb.nodes[n].configChanged | st.configChanged
  {
    var b := StatusBytes(st);
    assert b[1] == StateCode(st.state) && b[3] == st.error as int && b[7] == st.mode;
    assert b[8] == st.solarTimer / 256 && b[9] == st.solarTimer % 256;
    assert b[13] == st.configChanged as int && b[15] == st.maxCurrent;
    ByteBack(b[13], st.configChanged);
    ByteBack(b[3], st.error);
    DecodeStateCode(st.state);
  }

  /** A byte read back as bits is the byte that was written. */
  lemma ByteBack(c: int, x: bv8)
    requires c == x as int
    ensures c as bv8 == x
  {
  }

  // ---------------------------------------------------------------------
  // Answering a node

  /** The power-shortage flags (LESS_6A, NO_SUN) and the lost-meter flag
      (CT_NOCOMM) in a node's 16-bit error register. */
  const NODE_POWER: bv16 := 0x21
  const NODE_CT_NOCOMM: bv16 := 0x02

  /** The shortage flag for a mode in a node's error register. */
  function NodeShortageFlag(mode: u8): (f: bv16)
    ensures f == Wide(Transitions.ShortageFlag(mode)) && f & NODE_POWER == f && f != 0
  {
    if mode == MODE_SOLAR then 0x20 else 0x01
  }

  /** A node's error register brought in line with the master: the shortage
      flags are cleared when current is available, and a lost mains meter on
      the master is passed on. The flag says whether the register changed. */
  function SyncErrors(err: bv16, masterFlags: bv8, current: bool): (r: (bv16, bool))
    ensures current ==> r.0 & NODE_POWER == 0
    ensures !current ==> r.0 & NODE_POWER == err & NODE_POWER
    ensures masterFlags & CT_NOCOMM != 0 ==> r.0 & NODE_CT_NOCOMM != 0
    ensures r.1 <==> r.0 != err
  {
    var clear := current && err & NODE_POWER != 0;
    var e1 := if clear then err & !NODE_POWER else err;
    var forward := masterFlags & CT_NOCOMM != 0 && e1 & NODE_CT_NOCOMM == 0;
    var e2 := if forward then e1 | NODE_CT_NOCOMM else e1;
    (e2, clear || forward)
  }

  /** Synchronising touches only the shortage flags and CT_NOCOMM; without
      a lost meter on the master, the node's own CT_NOCOMM bit is left as the
      node reported it. */
  lemma SyncTouchesOnlyItsFlags(err: bv16, masterFlags: bv8, current: bool)
    ensures SyncErrors(err, masterFlags, current).0 & !(NODE_POWER | NODE_CT_NOCOMM)
            == err & !(NODE_POWER | NODE_CT_NOCOMM)
    ensures masterFlags & CT_NOCOMM == 0 ==>
      SyncErrors(err, masterFlags, current).0 & NODE_CT_NOCOMM == err & NODE_CT_NOCOMM
  {
  }

  /** A refused start: unless a shortage flag is already set, the flag for
      the mode is raised (no sun in Solar, too little current otherwise). */
  function Refuse(err: bv16, mode: u8): (r: (bv16, bool))
    ensures r.0 & NODE_POWER != 0
    ensures err & NODE_POWER == 0 ==> r.0 & NodeShortageFlag(mode) != 0 && r.1
    ensures err & NODE_POWER != 0 ==> r == (err, false)
  {
    if err & NODE_POWER == 0 then (err | NodeShortageFlag(mode), true) else (err, false)
  }

  /** A refusal touches only the shortage flags. */
  lemma RefuseKeepsOtherBits(err: bv16, mode: u8)
    ensures Refuse(err, mode).0 & !NODE_POWER == err & !NODE_POWER
  {
  }

  /** The master's decision for one node: the new controller state, the
      state code to write to the node's register 0, and whether a write is
      due so far. */
  datatype Reply = Reply(e: Evse, code: u8, write: bool)

  /** A node asks for B (COMM_B). With current available it becomes active
      at MinCurrent and is told COMM_B_OK; otherwise it gets no current and
      a refusal. */
  function RequestB(e: Evse, n: nat, minCurrent: u16, current: bool): (a: Reply)
    requires WellFormed(e) && IsNode(n)
    ensures WellFormed(a.e) && OthersKept(e, a.e, n)
    ensures a.e == e.(lb := a.e.lb) && a.e.lb.nodes == e.lb.nodes && a.e.lb.nodeNewMode == e.lb.nodeNewMode
    ensures current ==> && a.e.lb.balancedState[n] == B && a.e.lb.balanced[n] == Wrap16(minCurrent * 10)
                        && a.code == StateCode(CommBOk) && a.write
                        && a.e.lb.balancedError[n] == e.lb.balancedError[n]
    ensures !current ==> && a.e.lb.balancedState[n] == e.lb.balancedState[n] && a.e.lb.balanced[n] == 0
                         && a.code == StateCode(e.lb.balancedState[n])
                         && (a.e.lb.balancedError[n], a.write) == Refuse(e.lb.balancedError[n], e.mode)
  {
    if current then
      Reply(e.(lb := e.lb.(balancedState := e.lb.balancedState[n := B],
                           balanced := e.lb.balanced[n := Wrap16(minCurrent * 10)])),
            StateCode(CommBOk), true)
    else
      var (err, w) := Refuse(e.lb.balancedError[n], e.mode);
      Reply(e.(lb := e.lb.(balanced := e.lb.balanced[n := 0], balancedError := e.lb.balancedError[n := err])),
            StateCode(e.lb.balancedState[n]), w)
  }

  /** A node asks for C (COMM_C). Its current is zeroed for the base-load
      figure; with current available it is marked charging, the allocation
      runs for the new EVSE and it is told COMM_C_OK; otherwise a refusal. */
  function RequestC(e: Evse, s: Settings, n: nat, current: bool, detected: nat): (a: Reply)
    requires WellFormed(e) && IsNode(n)
    ensures WellFormed(a.e) && OthersKept(e, a.e, n)
    ensures a.e.mode == e.mode && a.e.lb.nodes == e.lb.nodes && a.e.lb.nodeNewMode == e.lb.nodeNewMode
    ensures current ==> && a.e.lb.balancedState[n] == C && a.code == StateCode(CommCOk) && a.write
                        && a.e.lb.balancedError[n] == e.lb.balancedError[n]
    ensures !current ==> && a.e.lb.balancedState[n] == e.lb.balancedState[n] && a.e.lb.balanced[n] == 0
                         && a.code == StateCode(e.lb.balancedState[n])
                         && (a.e.lb.balancedError[n], a.write) == Refuse(e.lb.balancedError[n], e.mode)
  {
    var e1 := e.(lb := e.lb.(balanced := e.lb.balanced[n := 0]));
    if current then
      var e2 := e1.(lb := e1.lb.(balancedState := e1.lb.balancedState[n := C]));
      var e3 := Allocation.CalcBalancedCurrent(e2, s, true, detected);
      assert e3.lb.balancedState[1..][n - 1] == e2.lb.balancedState[1..][n - 1];
      Reply(e3, StateCode(CommCOk), true)
    else
      var (err, w) := Refuse(e1.lb.balancedError[n], e1.mode);
      Reply(e1.(lb := e1.lb.(balancedError := e1.lb.balancedError[n := err])), StateCode(e.lb.balancedState[n]), w)
  }

  /** A node back in A: its session timers, phase count and minimum
      current are reset. */
  function ResetNode(e: Evse, n: nat): (r: Evse)
    requires WellFormed(e) && IsNode(n)
    ensures WellFormed(r) && OthersKept(e, r, n)
    ensures r.lb.nodes[n] == e.lb.nodes[n].(timer := 0, intTimer := 0, phases := 0, minCurrent := 0)
    ensures r == e.(lb := e.lb.(nodes := r.lb.nodes))
  {
    e.(lb := e.lb.(nodes := e.lb.nodes[n := e.lb.nodes[n].(timer := 0, intTimer := 0, phases := 0, minCurrent := 0)]))
  }

  /** A start is granted: a request for B or C turned into that state. */
  predicate Granted(e: Evse, r: Evse, n: nat)
    requires WellFormed(e) && WellFormed(r) && n < NR_EVSES
  {
    (e.lb.balancedState[n] == CommB && r.lb.balancedState[n] == B)
    || (e.lb.balancedState[n] == CommC && r.lb.balancedState[n] == C)
  }

  /** The master's reaction to node n's state, given whether one more EVSE
      can start: a request for B or C is granted exactly when it can, a
      refused one gets no current and a shortage flag, and a node in A has
      its session data reset. The node is to be written exactly when its
      error register changed or it was granted a start. */
  function Dispatch(e: Evse, s: Settings, n: nat, current: bool, detected: nat): (a: Reply)
    requires WellFormed(e) && IsNode(n)
    ensures WellFormed(a.e) && OthersKept(e, a.e, n)
    ensures a.e.mode == e.mode && a.e.lb.nodeNewMode == e.lb.nodeNewMode
    ensures a.e.lb.nodes[n] == (if e.lb.balancedState[n] == A
                                then e.lb.nodes[n].(timer := 0, intTimer := 0, phases := 0, minCurrent := 0)
                                else e.lb.nodes[n])
    ensures e.lb.balancedState[n] == CommB ==> (a.e.lb.balancedState[n] == B <==> current)
    ensures e.lb.balancedState[n] == CommC ==> (a.e.lb.balancedState[n] == C <==> current)
    ensures e.lb.balancedState[n] == CommB && current ==>
      a.e.lb.balanced[n] == Wrap16(s.minCurrent * 10) && a.code == StateCode(CommBOk)
    ensures e.lb.balancedState[n] == CommC && current ==> a.code == StateCode(CommCOk)
    ensures (e.lb.balancedState[n] == CommB || e.lb.balancedState[n] == CommC) && !current ==>
      && a.e.lb.balanced[n] == 0 && a.e.lb.balancedState[n] == e.lb.balancedState[n]
      && a.code == StateCode(e.lb.balancedState[n])
      && (a.e.lb.balancedError[n], a.write) == Refuse(e.lb.balancedError[n], e.mode)
    ensures e.lb.balancedState[n] != CommB && e.lb.balancedState[n] != CommC ==>
      a.e.lb.balancedState[n] == e.lb.balancedState[n] && a.code == StateCode(e.lb.balancedState[n]) && !a.write
    ensures (e.lb.balancedState[n] == CommB || e.lb.balancedState[n] == CommC) && current ==> a.write
    ensures current || (e.lb.balancedState[n] != CommB && e.lb.balancedState[n] != CommC)
            || e.lb.balancedError[n] & NODE_POWER != 0 ==>
      a.e.lb.balancedError[n] == e.lb.balancedError[n]
  {
    var st := e.lb.balancedState[n];
    if st == A then Reply(ResetNode(e, n), StateCode(st), false)
    else if st == CommB then RequestB(e, n, s.minCurrent, current)
    else if st == CommC then RequestC(e, s, n, current, detected)
    else Reply(e, StateCode(st), false)
  }

  /** The write flag of the master's check matches its outcome: it is set
      exactly when the error register changed or a start was granted. */
  lemma {:induction false} WriteMeansChange(e0: bv16, e1: bv16, e2: bv16, w0: bool, w1: bool, mode: u8,
                                            requested: bool, current: bool)
    requires w0 <==> e1 != e0
    requires !current ==> e1 & NODE_POWER == e0 & NODE_POWER
    requires requested && current ==> w1 && e2 == e1
    requires requested && !current ==> (e2, w1) == Refuse(e1, mode)
    requires !requested ==> e2 == e1 && !w1
    ensures w0 || w1 <==> e2 != e0 || (requested && current)
  {
    if requested && !current && e1 & NODE_POWER == 0 {
      assert e2 & NODE_POWER != 0;
    }
  }

  /** The master's check of node n (first part), given the outcome of the
      start check made once up front: the node's error register is
      synchronised (shortage flags cleared when current is available, a
      lost mains meter passed on); then a request for B or C is granted
      exactly when current is available, a refused one gets no current and
      a shortage flag, and a node in A has its session data reset. The node
      is to be written exactly when its error register changed or it was
      granted a start. */
  function Answer(e: Evse, s: Settings, n: nat, current: bool, detected: nat): (a: Reply)
    requires WellFormed(e) && IsNode(n)
    ensures WellFormed(a.e) && OthersKept(e, a.e, n)
    ensures a.e.mode == e.mode && a.e.lb.nodeNewMode == e.lb.nodeNewMode
    ensures a.e.lb.nodes[n] == (if e.lb.balancedState[n] == A
                                then e.lb.nodes[n].(timer := 0, intTimer := 0, phases := 0, minCurrent := 0)
                                else e.lb.nodes[n])
    ensures e.lb.balancedState[n] == CommB ==> (a.e.lb.balancedState[n] == B <==> current)
    ensures e.lb.balancedState[n] == CommC ==> (a.e.lb.balancedState[n] == C <==> current)
    ensures e.lb.balancedState[n] == CommB && current ==>
      a.e.lb.balanced[n] == Wrap16(s.minCurrent * 10) && a.code == StateCode(CommBOk)
    ensures e.lb.balancedState[n] == CommC && current ==> a.code == StateCode(CommCOk)
    ensures (e.lb.balancedState[n] == CommB || e.lb.balancedState[n] == CommC) && !current ==>
      && a.e.lb.balanced[n] == 0 && a.e.lb.balancedState[n] == e.lb.balancedState[n]
      && a.code == StateCode(e.lb.balancedState[n])
      && a.e.lb.balancedError[n] & NODE_POWER != 0
    ensures e.lb.balancedState[n] != CommB && e.lb.balancedState[n] != CommC ==>
      a.e.lb.balancedState[n] == e.lb.balancedState[n] && a.code == StateCode(e.lb.balancedState[n])
  {
    var sync := SyncErrors(e.lb.balancedError[n], e.errorFlags, current);
    var e1 := e.(lb := e.lb.(balancedError := e.lb.balancedError[n := sync.0]));
    var d := Dispatch(e1, s, n, current, detected);
    Reply(d.e, d.code, sync.1 || d.write)
  }

  /** What the check does to the node's error register: with current
      available the shortage flags are cleared, a lost mains meter on the
      master is passed on, and the node is to be written exactly when the
      register changed or a start was granted. */
  lemma {:induction false} AnswerSyncsErrors(e: Evse, s: Settings, n: nat, current: bool, detected: nat)
    requires WellFormed(e) && IsNode(n)
    ensures var a := Answer(e, s, n, current, detected);
      && (current ==> a.e.lb.balancedError[n] & NODE_POWER == 0)
      && (e.errorFlags & CT_NOCOMM != 0 ==> a.e.lb.balancedError[n] & NODE_CT_NOCOMM != 0)
      && (a.write <==> a.e.lb.balancedError[n] != e.lb.balancedError[n] || Granted(e, a.e, n))
  {
    var sync := SyncErrors(e.lb.balancedError[n], e.errorFlags, current);
    var e1 := e.(lb := e.lb.(balancedError := e.lb.balancedError[n := sync.0]));
    var d := Dispatch(e1, s, n, current, detected);
    var st := e.lb.balancedState[n];
    WriteMeansChange(e.lb.balancedError[n], sync.0, d.e.lb.balancedError[n], sync.1, d.write, e.mode,
                     st == CommB || st == CommC, current);
  }

  // ---------------------------------------------------------------------
  // Writing state back to a node

  /** A mode chosen on a node and queued by the status decoding is adopted
      through the ordinary mode change; the queue is emptied either way. */
  function AdoptNodeMode(e: Evse, s: Settings, delayedStart: bool): (r: Evse)
    requires WellFormed(e)
    ensures WellFormed(r) && Transitions.NodesKept(e, r)
    ensures r.lb.nodeNewMode == 0
    ensures e.lb.nodeNewMode == 0 ==> r == e
    ensures e.lb.nodeNewMode != 0 && (s.mainsMeter || e.lb.nodeNewMode == 1) ==> r.mode == e.lb.nodeNewMode - 1
    ensures e.lb.nodeNewMode != 0 && !s.mainsMeter && e.lb.nodeNewMode != 1 ==> r.mode == e.mode
  {
    if e.lb.nodeNewMode == 0 then e
    else
      var e1 := Transitions.SetMode(e, s, e.lb.nodeNewMode - 1, delayedStart);
      e1.(lb := e1.lb.(nodeNewMode := 0))
  }

  function Abs(x: int): nat {
    if x < 0 then -x else x
  }

  /** The master's solar stop timer and the one node n last reported differ
      by more than 3 s, both read as int16_t. */
  predicate TimerOff(e: Evse, n: nat)
    requires WellFormed(e) && n < NR_EVSES
  {
    Abs(ToI16(e.lb.solarStopTimer) - ToI16(e.lb.nodes[n].solarTimer)) > 3
  }

  /** Result of processing one node: the new state, whether a write was
      sent, and the registers written from 0x0000. */
  datatype Poll = Poll(e: Evse, written: bool, values: seq<u16>)

  /** The registers for node n: state code, error register, charge current
      (always 0), the master's mode and its solar stop timer, cut to the
      first `regs`. */
  function Registers(e: Evse, n: nat, code: u8, regs: nat): (v: seq<u16>)
    requires WellFormed(e) && IsNode(n) && regs <= 5
    ensures |v| == regs
  {
    var all: seq<u16> := [code, e.lb.balancedError[n] as int, 0, e.mode, e.lb.solarStopTimer];
    all[..regs]
  }

  /** The write to node n that ends its check: sent when the check asked
      for it, when the node's mode differs from the master's (four
      registers, up to the mode), or when the solar stop timers are more
      than 3 s apart (five registers, with the timer); otherwise two
      registers would do and nothing is sent. */
  function WriteBack(e: Evse, n: nat, code: u8, write: bool): (p: Poll)
    requires WellFormed(e) && IsNode(n)
    ensures p.e == e.(out := p.e.out)
    ensures p.written <==> write || e.lb.nodes[n].mode != e.mode || TimerOff(e, n)
    ensures p.written ==> p.e.out == e.out + [WriteNodeStatus(n + 1, p.values)]
    ensures !p.written ==> p.e.out == e.out
    ensures |p.values| >= 2 && p.values[0] == code && p.values[1] == e.lb.balancedError[n] as int
    ensures e.lb.nodes[n].mode != e.mode ==> |p.values| >= 4 && p.values[3] == e.mode
    ensures TimerOff(e, n) ==> |p.values| == 5 && p.values[4] == e.lb.solarStopTimer
    ensures e.lb.nodes[n].mode == e.mode && !TimerOff(e, n) ==> |p.values| == 2
  {
    var modeOff := e.lb.nodes[n].mode != e.mode;
    var timerOff := TimerOff(e, n);
    var regs := if timerOff then 5 else if modeOff then 4 else 2;
    var values := Registers(e, n, code, regs);
    var written := write || modeOff || timerOff;
    Poll(if written then e.(out := e.out + [WriteNodeStatus(n + 1, values)]) else e, written, values)
  }

  /** Master: checks node n and writes back to it. Whether one more EVSE
      can start is decided first; Answer reacts to the node's state; a mode
      queued from a node is adopted; then WriteBack decides on the write.
      A start request is granted exactly when the start check passed, and
      the grant is always written; a node whose mode or solar timer is off
      is always written the master's; a node that is not written already
      agrees with the master. */
  method ProcessAllNodeStates(e: Evse, s: Settings, n: nat, detected: nat, delayedStart: bool) returns (p: Poll)
    requires WellFormed(e) && IsNode(n)
    ensures WellFormed(p.e) && OthersKept(e, p.e, n)
    ensures p.e.lb.nodes[n].online == e.lb.nodes[n].online && p.e.lb.nodes[n].mode == e.lb.nodes[n].mode
    ensures p.e.lb.nodeNewMode == 0
    ensures p.written ==> |p.e.out| > 0 && p.e.out[|p.e.out| - 1] == WriteNodeStatus(n + 1, p.values)
    ensures |p.values| >= 2 && p.values[1] == p.e.lb.balancedError[n] as int
    ensures p.e.lb.nodes[n].mode != p.e.mode ==> p.written && |p.values| >= 4 && p.values[3] == p.e.mode
    ensures TimerOff(p.e, n) ==> p.written && |p.values| == 5 && p.values[4] == p.e.lb.solarStopTimer
    ensures !p.written ==>
      && p.e.lb.nodes[n].mode == p.e.mode && !TimerOff(p.e, n)
      && p.e.lb.balancedError[n] == e.lb.balancedError[n]
    ensures e.lb.balancedState[n] == CommB ==> (p.e.lb.balancedState[n] == B <==> Allocation.IsCurrentAvailable(e, s))
    ensures e.lb.balancedState[n] == CommC ==> (p.e.lb.balancedState[n] == C <==> Allocation.IsCurrentAvailable(e, s))
    ensures e.lb.balancedState[n] == CommB && Allocation.IsCurrentAvailable(e, s) ==>
      p.written && p.values[0] == StateCode(CommBOk)
    ensures e.lb.balancedState[n] == CommC && Allocation.IsCurrentAvailable(e, s) ==>
      p.written && p.values[0] == StateCode(CommCOk)
    ensures (e.lb.balancedState[n] == CommB || e.lb.balancedState[n] == CommC) && !Allocation.IsCurrentAvailable(e, s) ==>
      p.e.lb.balancedState[n] == e.lb.balancedState[n] && p.e.lb.balancedError[n] & NODE_POWER != 0
  {
    var current := Allocation.IsCurrentAvailable(e, s);
    var a := Answer(e, s, n, current, detected);
    AnswerSyncsErrors(e, s, n, current, detected);
    var e1 := AdoptNodeMode(a.e, s, delayedStart);
    p := WriteBack(e1, n, a.code, a.write);
  }

  /** Result of the write pass: the new state, the node it stopped at, and
      whether that node was written. */
  datatype Sweep = Sweep(e: Evse, next: nat, updated: bool)

  /** Master: the write pass over nodes k..7. It runs only on the master
      (LoadBl 1); offline nodes are skipped, and the first node that is
      written ends the pass (the bus cycle counter then advances, so the
      next cycle resumes at the node after it). The pass
      never changes which nodes count as online, and it leaves alone the
      nodes before k, the offline ones and those after the node it stopped
      at; a pass that ends early has just written that node. */
  method UpdateNodes(e: Evse, s: Settings, k: nat, detected: nat, delayedStart: bool) returns (r: Sweep)
    requires WellFormed(e) && 1 <= k <= NR_EVSES
    ensures WellFormed(r.e) && k <= r.next <= NR_EVSES
    ensures s.loadBl != 1 ==> r == Sweep(e, NR_EVSES, false)
    ensures !r.updated ==> r.next == NR_EVSES
    ensures r.updated ==>
      && r.next < NR_EVSES && Online(e, r.next)
      && |r.e.out| > 0 && r.e.out[|r.e.out| - 1].WriteNodeStatus? && r.e.out[|r.e.out| - 1].address == r.next + 1
    ensures forall i :: 1 <= i < NR_EVSES ==> r.e.lb.nodes[i].online == e.lb.nodes[i].online
    ensures forall i :: 1 <= i < NR_EVSES && (i < k || r.next < i || !Online(e, i)) ==>
      && r.e.lb.nodes[i] == e.lb.nodes[i]
      && r.e.lb.balancedState[i] == e.lb.balancedState[i]
      && r.e.lb.balancedError[i] == e.lb.balancedError[i]
  {
    if s.loadBl != 1 {
      return Sweep(e, NR_EVSES, false);
    }
    var cur := e;
    var j := k;
    while j < NR_EVSES
      invariant k <= j <= NR_EVSES && WellFormed(cur)
      invariant forall i :: 1 <= i < NR_EVSES ==> cur.lb.nodes[i].online == e.lb.nodes[i].online
      invariant forall i :: 1 <= i < NR_EVSES && (i < k || j <= i || !Online(e, i)) ==>
        && cur.lb.nodes[i] == e.lb.nodes[i]
        && cur.lb.balancedState[i] == e.lb.balancedState[i]
        && cur.lb.balancedError[i] == e.lb.balancedError[i]
      decreases NR_EVSES - j
    {
      if Online(cur, j) {
        var p := ProcessAllNodeStates(cur, s, j, detected, delayedStart);
        if p.written {
          return Sweep(p.e, j, true);
        }
        cur := p.e;
      }
      j := j + 1;
    }
    return Sweep(cur, NR_EVSES, false);
  }

  // ---------------------------------------------------------------------
  // Node side: the master's broadcast

  /** Register i of a data block, high byte first. */
  function Reg(data: seq<u8>, i: nat): u16
    requires 2 * i + 1 < |data|
  {
    data[2 * i] as int * 256 + data[2 * i + 1]
  }

  /** The three mains currents at the end of a broadcast, each read as
      int16_t and added into the int16_t Isum one at a time: the same as
      their sum stored once. */
  function MainsSum(data: seq<u8>): (isum: i16)
    requires |data| >= 22
    ensures isum == ToI16(ToI16(Reg(data, 8)) + ToI16(Reg(data, 9)) + ToI16(Reg(data, 10)))
  {
    var c0, c1, c2 := ToI16(Reg(data, 8)), ToI16(Reg(data, 9)), ToI16(Reg(data, 10));
    var s0 := ToI16(0 + c0);
    var s1 := ToI16(s0 + c1);
    ToI16AddLeft(c0 + c1, c2);
    ToI16(s1 + c2)
  }

  /** Adding to a value stored as int16_t wraps the same as adding first. */
  lemma {:induction false} ToI16AddLeft(a: int, b: int)
    ensures ToI16(ToI16(a) + b) == ToI16(a + b)
  {
    var w := a % 0x1_0000;
    var q := a / 0x1_0000;
    assert a == q * 0x1_0000 + w;
    var t := ToI16(a);
    var m := if w < 0x8000 then q else q + 1;
    assert a == t + m * 0x1_0000;
    ShiftMod(t + b, m);
  }

  /** Adding whole multiples of 2^16 does not change the low 16 bits. */
  lemma ShiftMod(x: int, m: int)
    ensures (x + m * 0x1_0000) % 0x1_0000 == x % 0x1_0000
  {
  }

  /** Node (LoadBl 2..8): the master's broadcast of registers 0x0020 on.
      Register LoadBl - 1 is this node's current: zero stops a charging EV
      (C1); otherwise, in B or C, the pilot duty follows it. The mains meter
      counts as heard from. When the three mains-current registers follow,
      their sum becomes Isum. */
  function Broadcast(e: Evse, s: Settings, data: seq<u8>): (r: Evse)
    requires WellFormed(e) && 2 <= s.loadBl <= NR_EVSES && |data| >= 2 * s.loadBl
    ensures WellFormed(r)
    ensures r.lb.balanced[0] == Reg(data, s.loadBl - 1)
    ensures r.meter.mainsTimeout == s.commTimeout
    ensures e.cp.state == C && Reg(data, s.loadBl - 1) == 0 ==> r.cp.state == C1
    ensures e.cp.state == B || (e.cp.state == C && Reg(data, s.loadBl - 1) != 0) ==>
      && r.cp.state == e.cp.state
      && r.cp.currentPwm == Signals.DutyFor(Reg(data, s.loadBl - 1))
      && r.out == e.out + [CpDuty(Signals.DutyFor(Reg(data, s.loadBl - 1)))]
    ensures e.cp.state != B && e.cp.state != C ==> r.cp == e.cp && r.out == e.out
    ensures |data| >= 22 ==> r.meter.isum == MainsSum(data)
    ensures |data| < 22 ==> r.meter.isum == e.meter.isum
    ensures r.mode == e.mode && r.lb.nodes[1..] == e.lb.nodes[1..]
  {
    var cur := Reg(data, s.loadBl - 1);
    var e1 := e.(lb := e.lb.(balanced := e.lb.balanced[0 := cur]));
    var e2 :=
      if cur == 0 && e1.cp.state == C then Transitions.SetState(e1, s, C1)
      else if e1.cp.state == B || e1.cp.state == C then Transitions.SetCurrent(e1, cur)
      else e1;
    var e3 := e2.(meter := e2.meter.(mainsTimeout := s.commTimeout));
    if |data| >= 22 then e3.(meter := e3.meter.(isum := MainsSum(data))) else e3
  }

  /** The bytes the master broadcasts: the eight slot currents, then the
      low 16 bits of the three mains currents, each register high byte
      first. */
  function BroadcastFrame(table: seq<u16>, irms: seq<i16>): (b: seq<u8>)
    requires |table| == NR_EVSES && |irms| == 3
    ensures |b| == 22
  {
    var w0, w1, w2 := irms[0] as int % 0x1_0000, irms[1] as int % 0x1_0000, irms[2] as int % 0x1_0000;
    [table[0] / 256, table[0] % 256, table[1] / 256, table[1] % 256, table[2] / 256, table[2] % 256,
     table[3] / 256, table[3] % 256, table[4] / 256, table[4] % 256, table[5] / 256, table[5] % 256,
     table[6] / 256, table[6] % 256, table[7] / 256, table[7] % 256,
     w0 / 256, w0 % 256, w1 / 256, w1 % 256, w2 / 256, w2 % 256]
  }

  /** A register that carries the low 16 bits of an int16_t value reads
      back as that value. */
  lemma {:induction false} SignedRegisterBack(b: seq<u8>, k: nat, x: i16)
    requires 2 * k + 1 < |b|
    requires b[2 * k] == (x as int % 0x1_0000) / 256 && b[2 * k + 1] == (x as int % 0x1_0000) % 256
    ensures ToI16(Reg(b, k)) == x
  {
    var w := x as int % 0x1_0000;
    assert Reg(b, k) == w;
  }

  /** A node with LoadBl L reads entry L - 1 of the master's table as its
      current. */
  lemma {:induction false} FrameDeliversCurrent(table: seq<u16>, irms: seq<i16>, i: nat)
    requires |table| == NR_EVSES && |irms| == 3 && i < NR_EVSES
    ensures Reg(BroadcastFrame(table, irms), i) == table[i]
  {
    var b := BroadcastFrame(table, irms);
    assert b[2 * i] == table[i] / 256 && b[2 * i + 1] == table[i] % 256;
  }

  /** A node's Isum becomes the master's three mains currents summed, as
      int16_t. */
  lemma {:induction false} FrameDeliversMains(table: seq<u16>, irms: seq<i16>)
    requires |table| == NR_EVSES && |irms| == 3
    ensures MainsSum(BroadcastFrame(table, irms)) == ToI16(irms[0] as int + irms[1] + irms[2])
  {
    var b := BroadcastFrame(table, irms);
    SignedRegisterBack(b, 8, irms[0]);
    SignedRegisterBack(b, 9, irms[1]);
    SignedRegisterBack(b, 10, irms[2]);
  }
}
