/** The firmware-init handshake (hal/bluedroid/radiomod.c, radiomgr.c): the worker thread, the
    stack's completion callback and the caller (start, terminate, join), as atomic steps that
    interleave freely. */
module FwInit {
  import opened Base
  import opened HciPackets

  datatype Status = CmdSuccess | CmdFail | CmdPending | CmdTerminate

  datatype Outcome = VndSuccess | VndFail

  /** Inputs of one run. The `leftover` fields are the static globals as earlier runs left them:
      BT_InitDevice clears `btinit` but none of these. */
  datatype Config = Config(
    chip: int, combo: bool, script: seq<Command>, nvram: Nvram, defaultAddr: seq<Byte>,
    callbacks: bool, sysLog: bool, sspDebug: bool, autogen: bool,
    leftoverStatus: Status, leftoverEfuse: bool, leftoverOpcode: Opcode16)
  {
    /** An unknown chip has no script (`cur_script == NULL`), written `[]`. */
    ghost predicate Valid() {
      nvram.Valid() && |defaultAddr| == 6 && WellShaped(combo, script)
    }
  }

  /** What the proofs need of a script; ScriptsAreWellShaped shows it of every chip's. */
  ghost predicate WellShaped(combo: bool, script: seq<Command>) {
    && (combo ==> |script| > 1 && script[0] == GetLocalBdAddr && script[1] == SetLocalBdAddr)
    && (forall k :: 0 <= k < |script| && script[k] == GetLocalBdAddr ==> combo && k == 0)
    && (script != [] ==>
          exists k :: StartBound(combo) <= k < |script| && script[k] != SetFwSysLog && script[k] != SetSspDebugMode)
  }

  function StartBound(combo: bool): nat { if combo then 1 else 0 }

  // ----- preload scripts -----

  function Script6628(): seq<Command> {
    [GetLocalBdAddr, SetLocalBdAddr, SetLinkKeyType, SetUnitKey, SetEncryption, SetPinCodeType,
     SetVoice, SetPcm, SetRadio, SetTxPowerOffset, SetSleepTimeout, SetBtFtr, SetOscInfo, SetLpoInfo,
     SetPta, SetBlePta, Reset, SetInternalPta1, SetInternalPta2, SetRfReg100, SetFwSysLog]
  }

  function Script6630(): seq<Command> {
    [GetLocalBdAddr, SetLocalBdAddr, SetPcm, SetRadio, SetTxPowerOffset, SetSleepTimeout,
     CoexPerformanceAdjust, SetFwSysLog, SetSspDebugMode]
  }

  function Script6632(): seq<Command> {
    [GetLocalBdAddr, SetLocalBdAddr, SetPcm, SetRadio, SetTxPowerOffset, SetSleepTimeout, Reset,
     SetFwSysLog, SetSspDebugMode]
  }

  function ScriptConsys(): seq<Command> {
    [SetLocalBdAddr, SetRadio, SetTxPowerOffset, SetSleepTimeout, Reset, SetFwSysLog, SetSspDebugMode]
  }

  predicate IsConsys(chip: int) {
    chip in {0x8163, 0x8127, 0x8167, 0x6582, 0x6592, 0x6752, 0x0321, 0x0335, 0x0337, 0x6580, 0x6570,
             0x6755, 0x6797, 0x6757, 0x6759, 0x6763, 0x6758, 0x6739, 0x6771, 0x6775}
  }

  predicate IsCombo(chip: int) { chip == 0x6628 || chip == 0x6630 || chip == 0x6632 }

  /** The script the worker selects. */
  function Script(chip: int): seq<Command> {
    if chip == 0x6628 then Script6628()
    else if chip == 0x6630 then Script6630()
    else if chip == 0x6632 then Script6632()
    else if IsConsys(chip) then ScriptConsys()
    else []
  }

  lemma ScriptsAreWellShaped(chip: int)
    ensures WellShaped(IsCombo(chip), Script(chip))
    ensures Script(chip) == [] <==> !IsCombo(chip) && !IsConsys(chip)
  {
    if IsCombo(chip) {
      assert Script(chip)[1] == SetLocalBdAddr;
    } else if IsConsys(chip) {
      assert Script(chip)[0] == SetLocalBdAddr;
    }
  }

  const ZERO_ADDR: seq<Byte> := [0, 0, 0, 0, 0, 0]

  predicate IsBlank(cfg: Config, addr: seq<Byte>) { addr == cfg.defaultAddr || addr == ZERO_ADDR }

  /** Whether the run wants the module's eFUSE address: the flag may also be left set by an
      earlier run that stopped before Set_Local_BD_Addr. */
  predicate WantsEfuse(cfg: Config) { cfg.leftoverEfuse || IsBlank(cfg, cfg.nvram.addr) }

  function StartIndex(cfg: Config): nat {
    if cfg.combo && !WantsEfuse(cfg) then 1 else 0
  }

  /** Debug commands run only when their property is "1". */
  predicate Skipped(cfg: Config, c: Command) {
    (c == SetFwSysLog && !cfg.sysLog) || (c == SetSspDebugMode && !cfg.sspDebug)
  }

  /** The commands of script entries [lo, hi) that are not skipped, in script order. */
  function Planned(cfg: Config, lo: nat, hi: nat): seq<Command>
    requires hi <= |cfg.script|
    decreases hi
  {
    if hi <= lo then []
    else
      var c := cfg.script[hi - 1];
      Planned(cfg, lo, hi - 1) + if Skipped(cfg, c) then [] else [c]
  }

  /** Everything a successful run sends. */
  function Plan(cfg: Config): seq<Command> {
    Planned(cfg, StartIndex(cfg), |cfg.script|)
  }

  // ----- state -----

  /** Where the worker stands: `Blocked` is inside pthread_cond_wait, `WaitLock` is about to take
      the mutex and test the status, `SetOp` and `Xmit` are inside a command builder. */
  datatype Pc = Boot | LoopTop | Alloc | Arm | SetOp | Xmit | WaitLock | Blocked | Report | Finish | Done

  datatype Caller = Starting | Up | Notifying | Joining | Joined

  /** A transmitted command whose completion callback has not run, or has read the event but not
      yet stored its verdict under the mutex. */
  datatype Flight = OnAir(cmd: Command) | Checked(cmd: Command, ok: bool)

  /** A transmitted command, with the NVRAM copy it was built from. */
  datatype Sent = Sent(cmd: Command, nvram: Nvram)

  datatype State = State(
    pc: Pc, i: nat, status: Status, opcode: Opcode16, getEfuse: bool, nvram: Nvram,
    caller: Caller, workerRunning: bool, flights: seq<Flight>,
    // history
    sent: seq<Sent>, answers: seq<seq<Byte>>, reported: seq<Outcome>, failed: bool, notified: bool)

  /** The start of a run while commands of earlier runs may still be outstanding. */
  function Start(cfg: Config, leftover: seq<Flight>): State {
    State(Boot, 0, cfg.leftoverStatus, cfg.leftoverOpcode, cfg.leftoverEfuse, cfg.nvram,
          Starting, false, leftover, [], [], [], false, false)
  }

  function Init(cfg: Config): State { Start(cfg, []) }

  /** The inputs of the run after one that ended in s, on the same NVRAM record. */
  function NextRun(cfg: Config, s: State): Config {
    cfg.(leftoverStatus := s.status, leftoverEfuse := s.getEfuse, leftoverOpcode := s.opcode)
  }

  datatype Action =
    // worker: GORM_FW_Init_Thread
    | BootWorker | TestLoop | AllocBuffer(ok: bool) | ArmCommand
    | SetOpcode(r0: Byte, r1: Byte, r5: Byte) | Transmit(ok: bool)
    | EnterWait | SpuriousWake | ReportResult | FinishWorker
    // completion callback of flight k
    | Deliver(k: nat, evt: seq<Byte>) | Commit(k: nat)
    // caller: BT_InitDevice, then BT_Cleanup
    | SetRunning | CheckRunning | NotifyExit | Join

  predicate Enabled(cfg: Config, s: State, a: Action) {
    match a
    case BootWorker => s.pc == Boot
    case TestLoop => s.pc == LoopTop
    case AllocBuffer(ok) => s.pc == Alloc && (ok ==> cfg.callbacks)
    case ArmCommand => s.pc == Arm
    case SetOpcode(r0, _, _) => s.pc == SetOp && s.i < |cfg.script| && s.nvram.Valid() && r0 % 4 == 2
    case Transmit(ok) => s.pc == Xmit && s.i < |cfg.script| && s.nvram.Valid()
    case EnterWait => s.pc == WaitLock
    case SpuriousWake => s.pc == Blocked
    case ReportResult => s.pc == Report
    case FinishWorker => s.pc == Finish
    case Deliver(k, evt) =>
      k < |s.flights| && s.flights[k].OnAir? &&
      |evt| >= if s.flights[k].cmd == GetLocalBdAddr then 12 else 6
    case Commit(k) => k < |s.flights| && s.flights[k].Checked?
    case SetRunning => s.caller == Starting
    case CheckRunning => s.caller == Up
    case NotifyExit => s.caller == Notifying
    case Join => s.caller == Joining && s.pc == Done
  }

  /** The event test of both callbacks: a Command Complete for `opcode` with status 0. */
  predicate Accepts(evt: seq<Byte>, opcode: Opcode16)
    requires |evt| >= 6
  {
    evt[0] == 0x0E && FromStream16(evt[3], evt[4]) == opcode && evt[5] == 0
  }

  /** Set_Local_BD_Addr on a blank address, built with BD_ADDR_AUTOGEN: three bytes are random, of the
      first all but two bits (SetOpcode is enabled for such bytes only). */
  function Randomized(addr: seq<Byte>, r0: Byte, r1: Byte, r5: Byte): seq<Byte>
    requires |addr| == 6
  {
    addr[0 := r0][1 := r1][5 := r5]
  }

  /** pthread_cond_signal: a blocked worker leaves the wait and will test the status again. */
  function Signal(pc: Pc): Pc { if pc == Blocked then WaitLock else pc }

  function StepBoot(cfg: Config, s: State): State {
    if cfg.script == [] then s.(pc := Report)
    else if cfg.combo then s.(pc := LoopTop, i := StartIndex(cfg), getEfuse := WantsEfuse(cfg))
    else s.(pc := LoopTop)
  }

  function StepTestLoop(cfg: Config, s: State): State {
    if s.i >= |cfg.script| || s.status.CmdTerminate? then s.(pc := Report)
    else if Skipped(cfg, cfg.script[s.i]) then s.(i := s.i + 1)
    else s.(pc := Alloc)
  }

  function StepAlloc(s: State, ok: bool): State {
    if ok then s.(pc := Arm) else s.(pc := Report, failed := true)
  }

  function StepArm(s: State): State {
    if s.status.CmdTerminate? then s.(pc := Report) else s.(status := CmdPending, pc := SetOp)
  }

  function StepSetOpcode(cfg: Config, s: State, r0: Byte, r1: Byte, r5: Byte): State
    requires s.i < |cfg.script| && s.nvram.Valid()
  {
    var c := cfg.script[s.i];
    var t := s.(pc := Xmit, opcode := Opcode(c));
    if c != SetLocalBdAddr then t
    else if cfg.autogen && IsBlank(cfg, s.nvram.addr) then
      t.(getEfuse := false, nvram := s.nvram.(addr := Randomized(s.nvram.addr, r0, r1, r5)))
    else t.(getEfuse := false)
  }

  function StepTransmit(cfg: Config, s: State, ok: bool): State
    requires s.i < |cfg.script| && s.nvram.Valid()
  {
    var c := cfg.script[s.i];
    if ok then s.(pc := WaitLock, flights := s.flights + [OnAir(c)],
                  sent := s.sent + [Sent(c, s.nvram)])
    else s.(pc := Report, failed := true)
  }

  function StepEnterWait(s: State): State {
    match s.status
    case CmdPending => s.(pc := Blocked)
    case CmdSuccess => s.(pc := LoopTop, i := s.i + 1)
    case CmdFail => s.(pc := Report)
    case CmdTerminate => s.(pc := Report, status := CmdSuccess)
  }

  /** What the worker hands to `fwcfg_cb`. */
  function Result(cfg: Config, i: nat): Outcome {
    if cfg.script != [] && i >= |cfg.script| then VndSuccess else VndFail
  }

  function StepReport(cfg: Config, s: State): State {
    s.(pc := Finish, reported := if cfg.callbacks then s.reported + [Result(cfg, s.i)] else s.reported)
  }

  function StepDeliver(s: State, k: nat, evt: seq<Byte>): State
    requires k < |s.flights| && |evt| >= if s.flights[k].cmd == GetLocalBdAddr then 12 else 6
  {
    var c := s.flights[k].cmd;
    var ok := Accepts(evt, if c == GetLocalBdAddr then 0x1009 else s.opcode);
    var t := s.(flights := s.flights[k := Checked(c, ok)], answers := s.answers + [evt]);
    if c == GetLocalBdAddr then t.(nvram := s.nvram.(addr := AddressOf(evt))) else t
  }

  function StepCommit(s: State, k: nat): State
    requires k < |s.flights| && s.flights[k].Checked?
  {
    s.(status := if s.flights[k].ok then CmdSuccess else CmdFail, pc := Signal(s.pc),
       flights := s.flights[..k] + s.flights[k + 1..])
  }

  function StepNotify(s: State): State {
    s.(caller := Joining, status := CmdTerminate, pc := Signal(s.pc), notified := true)
  }

  function Step(cfg: Config, s: State, a: Action): State
    requires Enabled(cfg, s, a)
  {
    match a
    case BootWorker => StepBoot(cfg, s)
    case TestLoop => StepTestLoop(cfg, s)
    case AllocBuffer(ok) => StepAlloc(s, ok)
    case ArmCommand => StepArm(s)
    case SetOpcode(r0, r1, r5) => StepSetOpcode(cfg, s, r0, r1, r5)
    case Transmit(ok) => StepTransmit(cfg, s, ok)
    case EnterWait => StepEnterWait(s)
    case SpuriousWake => s.(pc := WaitLock)
    case ReportResult => StepReport(cfg, s)
    case FinishWorker => s.(pc := Done, workerRunning := false)
    case Deliver(k, evt) => StepDeliver(s, k, evt)
    case Commit(k) => StepCommit(s, k)
    case SetRunning => s.(caller := Up, workerRunning := true)
    case CheckRunning => s.(caller := if s.workerRunning then Notifying else Joining)
    case NotifyExit => StepNotify(s)
    case Join => s.(caller := Joined)
  }

  // ----- runs -----

  /** The state after the given actions, or None if one of them was not enabled. */
  ghost function Exec(cfg: Config, s: State, acts: seq<Action>): Option<State>
    decreases acts
  {
    if acts == [] then Some(s)
    else if Enabled(cfg, s, acts[0]) then Exec(cfg, Step(cfg, s, acts[0]), acts[1..])
    else None
  }
}
