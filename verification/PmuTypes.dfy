/** Types shared by the models of the power-management unit: sequencer states, targets,
    modes, the delay and timeout configuration, and the effective value of a configuration field. */
module PmuTypes {

  /** States of one domain's sequencer (rtl/pd_ctrl.sv:50-73).
      S_*: stable states and FAULT; D_*: power-down; U_*: power-up; C_CLK: clock-gate exit. */
  datatype St =
    | S_ON | S_CG | S_RET | S_OFF | S_FAULT
    | D_QWAIT | D_DENY | D_CLK | D_ISO | D_SAVE | D_RST | D_MAIN_OFF | D_TRK_OFF
    | U_ARB | U_TRK_ON | U_MAIN_ON | U_RESTORE | U_RST | U_CLK | U_ISO | U_QEXIT
    | C_CLK

  datatype Target = T_ON | T_CG | T_RET | T_OFF

  datatype Mode = Run | Idle | Sleep | DeepSleep | Shutdown

  /** FAULT_INFO.STEP: the wait that timed out; NoStep is the reset value 0. */
  datatype FaultStep =
    | NoStep | QAcceptDown | QDenyRelease | PswMainOff | PswTrickleOff
    | PswTrickleOn | PswMainOn | QAcceptUp

  type u12 = x: nat | x < 0x1000
  type u16 = x: nat | x < 0x1_0000
  type u32 = x: nat | x < 0x1_0000_0000

  const CNT_WRAP: nat := 0x2_0000   // cnt is 17 bits wide
  const HCNT_WRAP: nat := 0x1_0000  // hcnt is 16 bits wide

  /** The configuration registers a sequencer reads. */
  datatype Cfg = Cfg(
    dlyTrickle: u16, dlyMain: u16, dlyClk: u16, dlyIso: u16, dlyRet: u16, dlyRst: u16,
    tmoQch: u16, tmoPsw: u16)

  /** Effective delay: a programmed 0 counts as 1. */
  function Dly(v: u16): (r: nat)
    ensures 1 <= r <= 65535
  {
    if v == 0 then 1 else v
  }

  /** Effective timeout: a programmed 0 counts as 65536. */
  function Tmo(v: u16): (r: nat)
    ensures 1 <= r <= 65536
  {
    if v == 0 then 0x1_0000 else v
  }

  /** Per-domain parameters: retention present, depth of the synchronisers. */
  datatype Params = Params(hasRet: bool, stages: nat) {
    // A synchroniser needs two stages (the slice s[STAGES-2:0]); the settle comparison casts
    // the depth to 17 bits, so a deeper synchroniser is not representable.
    predicate Ok() {
      2 <= stages < CNT_WRAP
    }
  }

  predicate Stable(st: St) {
    st.S_ON? || st.S_CG? || st.S_RET? || st.S_OFF?
  }

  /** In the middle of a sequence: neither stable nor in FAULT. */
  predicate MidSequence(st: St) {
    !Stable(st) && !st.S_FAULT?
  }

  /** The stable state a target names. */
  function StateOf(t: Target): St {
    match t
    case T_ON => S_ON
    case T_CG => S_CG
    case T_RET => S_RET
    case T_OFF => S_OFF
  }

  /** A target as a given domain sees it: RET means OFF without retention. */
  function Effective(hasRet: bool, t: Target): Target {
    if !hasRet && t.T_RET? then T_OFF else t
  }

  /** OFF also satisfies RET; every other target must be met exactly. */
  predicate Satisfies(st: St, t: Target) {
    st == StateOf(t) || (t.T_RET? && st.S_OFF?)
  }

  function TargetIn(mode: Mode, d: nat): Target {
    match mode
    case Run => T_ON
    case Idle => if d <= 1 then T_CG else T_ON
    case Sleep => if d <= 1 then T_RET else T_CG
    case DeepSleep => if d == 0 then T_RET else T_OFF
    case Shutdown => T_OFF
  }
}
