/** The invariant of every interleaving of the firmware-init handshake. */
module FwInitInvariant {
  import opened Base
  import opened HciPackets
  import opened FwInit

  // ----- the invariant of every interleaving -----

  function Commands(sent: seq<Sent>): (r: seq<Command>)
    ensures |r| == |sent| && forall k :: 0 <= k < |sent| ==> r[k] == sent[k].cmd
  {
    seq(|sent|, k requires 0 <= k < |sent| => sent[k].cmd)
  }

  /** The event bytes of a Command Complete for an opcode, with status 0 (section 7.7.14). */
  predicate Completes(evt: seq<Byte>, opcode: int) {
    |evt| >= 6 && evt[0] == 0x0E && evt[4] as int * 256 + evt[3] as int == opcode && evt[5] == 0
  }

  /** Answer k is a Command Complete with status 0 for the k-th command sent. */
  predicate Good(sent: seq<Sent>, answers: seq<seq<Byte>>, k: nat)
    requires k < |answers| <= |sent|
  {
    Completes(answers[k], Opcode(sent[k].cmd))
  }

  ghost predicate AllGood(sent: seq<Sent>, answers: seq<seq<Byte>>, n: nat) {
    n <= |answers| <= |sent| && forall k: nat :: 0 <= k < n ==> Good(sent, answers, k)
  }

  predicate InLoop(pc: Pc) { pc.LoopTop? || pc.Alloc? || pc.Arm? || pc.SetOp? || pc.Xmit? }
  predicate InBuilder(pc: Pc) { pc.SetOp? || pc.Xmit? }
  predicate InWait(pc: Pc) { pc.WaitLock? || pc.Blocked? }
  predicate Leaving(pc: Pc) { pc.Report? || pc.Finish? || pc.Done? }
  predicate CleanedUp(c: Caller) { c.Joining? || c.Joined? }

  /** The worker's place in the script. */
  ghost predicate PlaceMatches(cfg: Config, lo: nat, s: State) {
    && s.i <= |cfg.script|
    && (if s.pc.Boot? then s.i == 0 else cfg.script == [] || lo <= s.i)
    && (cfg.script == [] ==> s.pc.Boot? || Leaving(s.pc))
    && ((InLoop(s.pc) && !s.pc.LoopTop?) || InWait(s.pc) ==> s.i < |cfg.script| && !Skipped(cfg, cfg.script[s.i]))
    && (s.pc.Arm? || InBuilder(s.pc) || InWait(s.pc) ==> cfg.callbacks)
    && (s.pc.Xmit? ==> s.opcode == Opcode(cfg.script[s.i]))
  }

  ghost predicate Awaits(cfg: Config, s: State, cmds: seq<Command>, done: seq<Command>) {
    s.i < |cfg.script| && !Skipped(cfg, cfg.script[s.i]) && cmds == done + [cfg.script[s.i]]
  }

  /** What has been sent: the plan up to entry i, and entry i itself while it is awaited. */
  ghost predicate SentMatches(cfg: Config, lo: nat, s: State)
    requires s.i <= |cfg.script|
  {
    var done := Planned(cfg, lo, s.i);
    var cmds := Commands(s.sent);
    match s.pc
    case Boot => cmds == []
    case WaitLock => Awaits(cfg, s, cmds, done)
    case Blocked => Awaits(cfg, s, cmds, done)
    case Report => cmds == done || Awaits(cfg, s, cmds, done)
    case Finish => cmds == done || Awaits(cfg, s, cmds, done)
    case Done => cmds == done || Awaits(cfg, s, cmds, done)
    case _ => cmds == done
  }

  /** Answers, flights and verdicts belong together. */
  ghost predicate FlightsMatch(
    pc: Pc, opcode: Opcode16, flights: seq<Flight>, sent: seq<Sent>, answers: seq<seq<Byte>>)
  {
    && |flights| <= 1
    && |answers| == |sent| - (if flights != [] && flights[0].OnAir? then 1 else 0)
    && (flights != [] ==>
        && sent != [] && flights[0].cmd == sent[|sent| - 1].cmd && opcode == Opcode(flights[0].cmd)
        && !InLoop(pc) && !pc.Boot?
        && (flights[0].Checked? ==> flights[0].ok == Good(sent, answers, |sent| - 1)))
    && (|sent| > 0 ==> AllGood(sent, answers, |sent| - 1))
    && (InLoop(pc) ==> AllGood(sent, answers, |sent|))
  }

  /** What the status says at each point of the worker. */
  ghost predicate StatusMatches(cfg: Config, s: State) {
    && (s.notified ==> CleanedUp(s.caller))
    && (Leaving(s.pc) && s.flights != [] ==> s.notified)
    && (s.status.CmdTerminate? && !s.notified ==> cfg.leftoverStatus.CmdTerminate? && s.sent == [])
    && (InBuilder(s.pc) ==> s.status.CmdPending? || (s.status.CmdTerminate? && s.notified))
    && (s.pc.Blocked? ==> s.status.CmdPending?)
    && (InWait(s.pc) && s.status.CmdPending? ==> s.flights != [])
    && (InWait(s.pc) && s.status.CmdSuccess? ==> s.flights == [] && AllGood(s.sent, s.answers, |s.sent|))
    && (InWait(s.pc) && s.status.CmdFail? ==> s.flights == [] && !AllGood(s.sent, s.answers, |s.sent|))
  }

  /** Why a worker that has left the loop left it. */
  ghost predicate ExitExplained(cfg: Config, s: State) {
    Leaving(s.pc) && cfg.script != [] ==>
      if s.i == |cfg.script| then AllGood(s.sent, s.answers, |s.sent|)
      else s.failed || s.notified || cfg.leftoverStatus.CmdTerminate? ||
           (s.flights == [] && !AllGood(s.sent, s.answers, |s.sent|))
  }

  ghost predicate ReportMatches(cfg: Config, s: State) {
    s.reported ==
      if (s.pc.Finish? || s.pc.Done?) && cfg.callbacks
      then [if cfg.script != [] && s.i >= |cfg.script| then VndSuccess else VndFail]
      else []
  }

  ghost predicate Inv(cfg: Config, lo: nat, s: State) {
    && s.nvram.Valid()
    && PlaceMatches(cfg, lo, s)
    && SentMatches(cfg, lo, s)
    && FlightsMatch(s.pc, s.opcode, s.flights, s.sent, s.answers)
    && StatusMatches(cfg, s)
    && ExitExplained(cfg, s)
    && ReportMatches(cfg, s)
  }

  // ----- every step keeps it -----

  lemma InvInit(cfg: Config)
    requires cfg.Valid()
    ensures Inv(cfg, StartIndex(cfg), Init(cfg))
  {
  }

  lemma PlannedNext(cfg: Config, lo: nat, i: nat)
    requires i < |cfg.script|
    ensures Planned(cfg, lo, i + 1) ==
            if i < lo || Skipped(cfg, cfg.script[i]) then Planned(cfg, lo, i)
            else Planned(cfg, lo, i) + [cfg.script[i]]
  {
  }

  /** Sending more and receiving more leaves the verdict on earlier commands as it was. */
  lemma GoodExtends(sent: seq<Sent>, sent': seq<Sent>, answers: seq<seq<Byte>>, answers': seq<seq<Byte>>)
    requires sent <= sent' && answers <= answers' && |answers| <= |sent| && |answers'| <= |sent'|
    ensures forall n: nat :: AllGood(sent, answers, n) ==> AllGood(sent', answers', n)
  {
    forall n: nat, k: nat | AllGood(sent, answers, n) && k < n
      ensures Good(sent', answers', k)
    {
      assert Good(sent, answers, k);
    }
  }

  lemma InvBoot(cfg: Config, lo: nat, s: State)
    requires cfg.Valid() && lo == StartIndex(cfg) && Inv(cfg, lo, s) && s.pc.Boot?
    ensures Inv(cfg, lo, StepBoot(cfg, s))
  {
  }

  lemma InvSkip(cfg: Config, lo: nat, s: State)
    requires Inv(cfg, lo, s) && s.pc.LoopTop? && s.i < |cfg.script| && Skipped(cfg, cfg.script[s.i])
    ensures Inv(cfg, lo, s.(i := s.i + 1))
  {
    PlannedNext(cfg, lo, s.i);
  }

  lemma InvLeaveLoop(cfg: Config, lo: nat, s: State, failed: bool)
    requires Inv(cfg, lo, s) && InLoop(s.pc)
    requires s.i == |cfg.script| || s.status.CmdTerminate? || failed
    ensures Inv(cfg, lo, s.(pc := Report, failed := s.failed || failed))
  {
  }

  lemma InvTestLoop(cfg: Config, lo: nat, s: State)
    requires Inv(cfg, lo, s) && s.pc.LoopTop?
    ensures Inv(cfg, lo, StepTestLoop(cfg, s))
  {
    var t := StepTestLoop(cfg, s);
    if s.i >= |cfg.script| || s.status.CmdTerminate? {
      InvLeaveLoop(cfg, lo, s, false);
      assert t == s.(pc := Report);
    } else if Skipped(cfg, cfg.script[s.i]) {
      InvSkip(cfg, lo, s);
      assert t == s.(i := s.i + 1);
    } else {
      InvEnterBody(cfg, lo, s);
      assert t == s.(pc := Alloc);
    }
  }

  lemma InvEnterBody(cfg: Config, lo: nat, s: State)
    requires Inv(cfg, lo, s) && s.pc.LoopTop? && s.i < |cfg.script| && !s.status.CmdTerminate?
    requires !Skipped(cfg, cfg.script[s.i])
    ensures Inv(cfg, lo, s.(pc := Alloc))
  {
  }

  lemma InvAlloc(cfg: Config, lo: nat, s: State, ok: bool)
    requires Inv(cfg, lo, s) && s.pc.Alloc? && (ok ==> cfg.callbacks)
    ensures Inv(cfg, lo, StepAlloc(s, ok))
  {
    if !ok {
      InvLeaveLoop(cfg, lo, s, true);
    }
  }

  lemma InvArm(cfg: Config, lo: nat, s: State)
    requires Inv(cfg, lo, s) && s.pc.Arm?
    ensures Inv(cfg, lo, StepArm(s))
  {
    if s.status.CmdTerminate? {
      InvLeaveLoop(cfg, lo, s, false);
    }
  }

  lemma InvSetOpcode(cfg: Config, lo: nat, s: State, r0: Byte, r1: Byte, r5: Byte)
    requires Inv(cfg, lo, s) && s.pc.SetOp?
    ensures Inv(cfg, lo, StepSetOpcode(cfg, s, r0, r1, r5))
  {
    var t := StepSetOpcode(cfg, s, r0, r1, r5);
    assert t == s.(pc := Xmit, opcode := Opcode(cfg.script[s.i]), getEfuse := t.getEfuse, nvram := t.nvram);
    assert t.nvram.Valid();
  }

  lemma InvTransmit(cfg: Config, lo: nat, s: State, ok: bool)
    requires Inv(cfg, lo, s) && s.pc.Xmit?
    ensures Inv(cfg, lo, StepTransmit(cfg, s, ok))
  {
    if ok {
      var t := StepTransmit(cfg, s, ok);
      assert Commands(t.sent) == Commands(s.sent) + [cfg.script[s.i]];
      GoodExtends(s.sent, t.sent, s.answers, s.answers);
    } else {
      InvLeaveLoop(cfg, lo, s, true);
    }
  }

  lemma InvAdvance(cfg: Config, lo: nat, s: State)
    requires Inv(cfg, lo, s) && s.pc.WaitLock? && s.status.CmdSuccess?
    ensures Inv(cfg, lo, s.(pc := LoopTop, i := s.i + 1))
  {
    PlannedNext(cfg, lo, s.i);
  }

  lemma InvGiveUp(cfg: Config, lo: nat, s: State)
    requires Inv(cfg, lo, s) && s.pc.WaitLock? && (s.status.CmdFail? || s.status.CmdTerminate?)
    ensures Inv(cfg, lo, StepEnterWait(s))
  {
  }

  lemma InvEnterWait(cfg: Config, lo: nat, s: State)
    requires Inv(cfg, lo, s) && s.pc.WaitLock?
    ensures Inv(cfg, lo, StepEnterWait(s))
  {
    match s.status
    case CmdSuccess => InvAdvance(cfg, lo, s);
    case CmdPending =>
    case _ => InvGiveUp(cfg, lo, s);
  }

  lemma InvReport(cfg: Config, lo: nat, s: State)
    requires Inv(cfg, lo, s) && s.pc.Report?
    ensures Inv(cfg, lo, StepReport(cfg, s))
  {
  }

  lemma InvFinish(cfg: Config, lo: nat, s: State)
    requires Inv(cfg, lo, s) && s.pc.Finish?
    ensures Inv(cfg, lo, s.(pc := Done, workerRunning := false))
  {
  }

  lemma InvSpurious(cfg: Config, lo: nat, s: State)
    requires Inv(cfg, lo, s) && s.pc.Blocked?
    ensures Inv(cfg, lo, s.(pc := WaitLock))
  {
  }

  lemma DeliverMatches(s: State, k: nat, evt: seq<Byte>)
    requires FlightsMatch(s.pc, s.opcode, s.flights, s.sent, s.answers)
    requires k < |s.flights| && s.flights[k].OnAir?
    requires |evt| >= if s.flights[k].cmd == GetLocalBdAddr then 12 else 6
    ensures var t := StepDeliver(s, k, evt); FlightsMatch(t.pc, t.opcode, t.flights, t.sent, t.answers)
  {
    GoodExtends(s.sent, s.sent, s.answers, s.answers + [evt]);
  }

  lemma DeliverStatus(cfg: Config, s: State, k: nat, evt: seq<Byte>)
    requires StatusMatches(cfg, s) && ExitExplained(cfg, s) && k < |s.flights| && s.flights[k].OnAir?
    requires |evt| >= if s.flights[k].cmd == GetLocalBdAddr then 12 else 6
    requires |s.answers| < |s.sent|
    ensures StatusMatches(cfg, StepDeliver(s, k, evt)) && ExitExplained(cfg, StepDeliver(s, k, evt))
  {
    GoodExtends(s.sent, s.sent, s.answers, s.answers + [evt]);
  }

  lemma InvDeliver(cfg: Config, lo: nat, s: State, k: nat, evt: seq<Byte>)
    requires Inv(cfg, lo, s) && k < |s.flights| && s.flights[k].OnAir?
    requires |evt| >= if s.flights[k].cmd == GetLocalBdAddr then 12 else 6
    ensures Inv(cfg, lo, StepDeliver(s, k, evt))
  {
    DeliverMatches(s, k, evt);
    DeliverStatus(cfg, s, k, evt);
  }

  lemma InvCommit(cfg: Config, lo: nat, s: State, k: nat)
    requires Inv(cfg, lo, s) && k < |s.flights| && s.flights[k].Checked?
    ensures Inv(cfg, lo, StepCommit(s, k))
  {
  }

  lemma InvNotify(cfg: Config, lo: nat, s: State)
    requires Inv(cfg, lo, s) && s.caller.Notifying?
    ensures Inv(cfg, lo, StepNotify(s))
  {
  }

  lemma InvCaller(cfg: Config, lo: nat, s: State, caller: Caller, running: bool)
    requires Inv(cfg, lo, s) && (CleanedUp(s.caller) ==> CleanedUp(caller))
    ensures Inv(cfg, lo, s.(caller := caller, workerRunning := running))
  {
  }

  lemma InvStep(cfg: Config, s: State, a: Action)
    requires cfg.Valid() && Inv(cfg, StartIndex(cfg), s) && Enabled(cfg, s, a)
    ensures Inv(cfg, StartIndex(cfg), Step(cfg, s, a))
  {
    var lo := StartIndex(cfg);
    match a
    case BootWorker => InvBoot(cfg, lo, s);
    case TestLoop => InvTestLoop(cfg, lo, s);
    case AllocBuffer(ok) => InvAlloc(cfg, lo, s, ok);
    case ArmCommand => InvArm(cfg, lo, s);
    case SetOpcode(r0, r1, r5) => InvSetOpcode(cfg, lo, s, r0, r1, r5);
    case Transmit(ok) => InvTransmit(cfg, lo, s, ok);
    case EnterWait => InvEnterWait(cfg, lo, s);
    case SpuriousWake => InvSpurious(cfg, lo, s);
    case ReportResult => InvReport(cfg, lo, s);
    case FinishWorker => InvFinish(cfg, lo, s);
    case Deliver(k, evt) => InvDeliver(cfg, lo, s, k, evt);
    case Commit(k) => InvCommit(cfg, lo, s, k);
    case SetRunning => InvCaller(cfg, lo, s, Up, true);
    case CheckRunning => InvCaller(cfg, lo, s, if s.workerRunning then Notifying else Joining, s.workerRunning);
    case NotifyExit => InvNotify(cfg, lo, s);
    case Join => InvCaller(cfg, lo, s, Joined, s.workerRunning);
  }

  lemma {:induction false} InvExec(cfg: Config, s: State, acts: seq<Action>)
    requires cfg.Valid() && Inv(cfg, StartIndex(cfg), s) && Exec(cfg, s, acts).Some?
    ensures Inv(cfg, StartIndex(cfg), Exec(cfg, s, acts).value)
    decreases acts
  {
    if acts != [] {
      InvStep(cfg, s, acts[0]);
      InvExec(cfg, Step(cfg, s, acts[0]), acts[1..]);
    }
  }

  /** s is reached from the start of a run by some interleaving. */
  ghost predicate Reaches(cfg: Config, acts: seq<Action>, s: State) {
    cfg.Valid() && Exec(cfg, Init(cfg), acts) == Some(s)
  }

  lemma ReachInv(cfg: Config, acts: seq<Action>, s: State)
    requires Reaches(cfg, acts, s)
    ensures Inv(cfg, StartIndex(cfg), s)
  {
    InvInit(cfg);
    InvExec(cfg, Init(cfg), acts);
  }
}
