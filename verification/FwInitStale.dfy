/** A run that starts while a failed verdict of an earlier run is still to be stored: the verdict may spoil
    the run, but SUCCESS stays true. */
module FwInitStale {
  import opened Base
  import opened HciPackets
  import opened FwInit
  import opened FwInitInvariant

  // ----- what no stray failure can break -----

  /** Wherever SUCCESS counts, every command sent was answered well. */
  ghost predicate VerdictsHold(cfg: Config, s: State) {
    && (InWait(s.pc) && s.status.CmdSuccess? ==> s.flights == [] && AllGood(s.sent, s.answers, |s.sent|))
    && (InBuilder(s.pc) ==> !s.status.CmdSuccess?)
    && (Leaving(s.pc) && cfg.script != [] && s.i == |cfg.script| ==> AllGood(s.sent, s.answers, |s.sent|))
  }

  /** The part of the invariant that says nothing of failures. */
  ghost predicate Sound(cfg: Config, lo: nat, s: State) {
    && s.nvram.Valid()
    && PlaceMatches(cfg, lo, s)
    && SentMatches(cfg, lo, s)
    && FlightsMatch(s.pc, s.opcode, s.flights, s.sent, s.answers)
    && ReportMatches(cfg, s)
    && VerdictsHold(cfg, s)
  }

  lemma SoundBoot(cfg: Config, lo: nat, s: State)
    requires cfg.Valid() && lo == StartIndex(cfg) && Sound(cfg, lo, s) && s.pc.Boot?
    ensures Sound(cfg, lo, StepBoot(cfg, s))
  {
  }

  lemma SoundLeaveLoop(cfg: Config, lo: nat, s: State, failed: bool)
    requires Sound(cfg, lo, s) && InLoop(s.pc)
    ensures Sound(cfg, lo, s.(pc := Report, failed := failed))
  {
  }

  lemma SoundSkip(cfg: Config, lo: nat, s: State)
    requires Sound(cfg, lo, s) && s.pc.LoopTop? && s.i < |cfg.script| && Skipped(cfg, cfg.script[s.i])
    ensures Sound(cfg, lo, s.(i := s.i + 1))
  {
    PlannedNext(cfg, lo, s.i);
  }

  lemma SoundEnterBody(cfg: Config, lo: nat, s: State)
    requires Sound(cfg, lo, s) && s.pc.LoopTop? && s.i < |cfg.script| && !Skipped(cfg, cfg.script[s.i])
    ensures Sound(cfg, lo, s.(pc := Alloc))
  {
  }

  lemma SoundTestLoop(cfg: Config, lo: nat, s: State)
    requires Sound(cfg, lo, s) && s.pc.LoopTop?
    ensures Sound(cfg, lo, StepTestLoop(cfg, s))
  {
    if s.i >= |cfg.script| || s.status.CmdTerminate? {
      SoundLeaveLoop(cfg, lo, s, s.failed);
    } else if Skipped(cfg, cfg.script[s.i]) {
      SoundSkip(cfg, lo, s);
    } else {
      SoundEnterBody(cfg, lo, s);
    }
  }

  lemma SoundAlloc(cfg: Config, lo: nat, s: State, ok: bool)
    requires Sound(cfg, lo, s) && s.pc.Alloc? && (ok ==> cfg.callbacks)
    ensures Sound(cfg, lo, StepAlloc(s, ok))
  {
    if !ok { SoundLeaveLoop(cfg, lo, s, true); }
  }

  lemma SoundArm(cfg: Config, lo: nat, s: State)
    requires Sound(cfg, lo, s) && s.pc.Arm?
    ensures Sound(cfg, lo, StepArm(s))
  {
    if s.status.CmdTerminate? { SoundLeaveLoop(cfg, lo, s, s.failed); }
  }

  lemma SoundSetOpcode(cfg: Config, lo: nat, s: State, r0: Byte, r1: Byte, r5: Byte)
    requires Sound(cfg, lo, s) && s.pc.SetOp?
    ensures Sound(cfg, lo, StepSetOpcode(cfg, s, r0, r1, r5))
  {
  }

  lemma SoundTransmit(cfg: Config, lo: nat, s: State, ok: bool)
    requires Sound(cfg, lo, s) && s.pc.Xmit?
    ensures Sound(cfg, lo, StepTransmit(cfg, s, ok))
  {
    if ok {
      var t := StepTransmit(cfg, s, ok);
      assert Commands(t.sent) == Commands(s.sent) + [cfg.script[s.i]];
      GoodExtends(s.sent, t.sent, s.answers, s.answers);
    } else {
      SoundLeaveLoop(cfg, lo, s, true);
    }
  }

  lemma SoundAdvance(cfg: Config, lo: nat, s: State)
    requires Sound(cfg, lo, s) && s.pc.WaitLock? && s.status.CmdSuccess?
    ensures Sound(cfg, lo, s.(pc := LoopTop, i := s.i + 1))
  {
    PlannedNext(cfg, lo, s.i);
  }

  lemma SoundGiveUp(cfg: Config, lo: nat, s: State, status: Status)
    requires Sound(cfg, lo, s) && s.pc.WaitLock?
    ensures Sound(cfg, lo, s.(pc := Report, status := status))
  {
  }

  lemma SoundBlock(cfg: Config, lo: nat, s: State)
    requires Sound(cfg, lo, s) && s.pc.WaitLock? && s.status.CmdPending?
    ensures Sound(cfg, lo, s.(pc := Blocked))
  {
  }

  lemma SoundEnterWait(cfg: Config, lo: nat, s: State)
    requires Sound(cfg, lo, s) && s.pc.WaitLock?
    ensures Sound(cfg, lo, StepEnterWait(s))
  {
    match s.status
    case CmdSuccess => SoundAdvance(cfg, lo, s);
    case CmdPending => SoundBlock(cfg, lo, s);
    case CmdFail => SoundGiveUp(cfg, lo, s, CmdFail);
    case CmdTerminate => SoundGiveUp(cfg, lo, s, CmdSuccess);
  }

  lemma SoundSpurious(cfg: Config, lo: nat, s: State)
    requires Sound(cfg, lo, s) && s.pc.Blocked?
    ensures Sound(cfg, lo, s.(pc := WaitLock))
  {
  }

  lemma SoundReport(cfg: Config, lo: nat, s: State)
    requires Sound(cfg, lo, s) && s.pc.Report?
    ensures Sound(cfg, lo, StepReport(cfg, s))
  {
  }

  lemma SoundFinish(cfg: Config, lo: nat, s: State)
    requires Sound(cfg, lo, s) && s.pc.Finish?
    ensures Sound(cfg, lo, s.(pc := Done, workerRunning := false))
  {
  }

  lemma DeliverVerdicts(cfg: Config, s: State, k: nat, evt: seq<Byte>)
    requires VerdictsHold(cfg, s) && k < |s.flights| && s.flights[k].OnAir? && |s.answers| < |s.sent|
    requires |evt| >= if s.flights[k].cmd == GetLocalBdAddr then 12 else 6
    ensures VerdictsHold(cfg, StepDeliver(s, k, evt))
  {
    GoodExtends(s.sent, s.sent, s.answers, s.answers + [evt]);
  }

  lemma SoundDeliver(cfg: Config, lo: nat, s: State, k: nat, evt: seq<Byte>)
    requires Sound(cfg, lo, s) && k < |s.flights| && s.flights[k].OnAir?
    requires |evt| >= if s.flights[k].cmd == GetLocalBdAddr then 12 else 6
    ensures Sound(cfg, lo, StepDeliver(s, k, evt))
  {
    DeliverMatches(s, k, evt);
    DeliverVerdicts(cfg, s, k, evt);
  }

  lemma SoundCommit(cfg: Config, lo: nat, s: State, k: nat)
    requires Sound(cfg, lo, s) && k < |s.flights| && s.flights[k].Checked?
    ensures Sound(cfg, lo, StepCommit(s, k))
  {
    var t := StepCommit(s, k);
    assert t == s.(status := t.status, pc := t.pc, flights := []);
    assert s.flights[k].ok ==> AllGood(s.sent, s.answers, |s.sent|);
  }

  /** Any failure, and any terminate, stored at any moment. */
  lemma SoundStatus(cfg: Config, lo: nat, s: State, status: Status)
    requires Sound(cfg, lo, s) && (status.CmdFail? || status.CmdTerminate?)
    ensures Sound(cfg, lo, s.(status := status, pc := Signal(s.pc)))
  {
  }

  lemma SoundCaller(cfg: Config, lo: nat, s: State, caller: Caller, running: bool, notified: bool)
    requires Sound(cfg, lo, s)
    ensures Sound(cfg, lo, s.(caller := caller, workerRunning := running, notified := notified))
  {
  }

  lemma SoundStep(cfg: Config, s: State, a: Action)
    requires cfg.Valid() && Sound(cfg, StartIndex(cfg), s) && Enabled(cfg, s, a)
    ensures Sound(cfg, StartIndex(cfg), Step(cfg, s, a))
  {
    var lo := StartIndex(cfg);
    match a
    case BootWorker => SoundBoot(cfg, lo, s);
    case TestLoop => SoundTestLoop(cfg, lo, s);
    case AllocBuffer(ok) => SoundAlloc(cfg, lo, s, ok);
    case ArmCommand => SoundArm(cfg, lo, s);
    case SetOpcode(r0, r1, r5) => SoundSetOpcode(cfg, lo, s, r0, r1, r5);
    case Transmit(ok) => SoundTransmit(cfg, lo, s, ok);
    case EnterWait => SoundEnterWait(cfg, lo, s);
    case SpuriousWake => SoundSpurious(cfg, lo, s);
    case ReportResult => SoundReport(cfg, lo, s);
    case FinishWorker => SoundFinish(cfg, lo, s);
    case Deliver(k, evt) => SoundDeliver(cfg, lo, s, k, evt);
    case Commit(k) => SoundCommit(cfg, lo, s, k);
    case NotifyExit =>
      SoundStatus(cfg, lo, s, CmdTerminate);
      SoundCaller(cfg, lo, s.(status := CmdTerminate, pc := Signal(s.pc)), Joining, s.workerRunning, true);
    case SetRunning => SoundCaller(cfg, lo, s, Up, true, s.notified);
    case CheckRunning =>
      SoundCaller(cfg, lo, s, if s.workerRunning then Notifying else Joining, s.workerRunning, s.notified);
    case Join => SoundCaller(cfg, lo, s, Joined, s.workerRunning, s.notified);
  }

  // ----- with the earlier run's verdict still to come -----

  /** The state without its oldest outstanding command. */
  function Without(s: State): State
    requires s.flights != []
  {
    s.(flights := s.flights[1..])
  }

  ghost predicate Pending(s: State) { s.flights != [] && s.flights[0].Checked? && !s.flights[0].ok }

  ghost predicate SoundSoFar(cfg: Config, s: State) {
    Sound(cfg, StartIndex(cfg), s) || Stale(cfg, s)
  }

  /** The pending verdict, and a state that is sound without it. */
  ghost predicate Stale(cfg: Config, s: State) { Pending(s) && Sound(cfg, StartIndex(cfg), Without(s)) }

  // Steps beside the pending verdict are steps of the state without it.

  lemma BootSoFar(cfg: Config, s: State)
    requires cfg.Valid() && Stale(cfg, s) && s.pc.Boot?
    ensures Stale(cfg, StepBoot(cfg, s))
  {
    assert Without(StepBoot(cfg, s)) == StepBoot(cfg, Without(s));
    SoundBoot(cfg, StartIndex(cfg), Without(s));
  }

  lemma TestLoopBeside(cfg: Config, s: State)
    requires s.flights != [] && s.pc.LoopTop?
    ensures var t := StepTestLoop(cfg, s); t.flights == s.flights && Without(t) == StepTestLoop(cfg, Without(s))
  {
    if s.i >= |cfg.script| || s.status.CmdTerminate? {
      assert StepTestLoop(cfg, Without(s)) == Without(s).(pc := Report);
    } else if Skipped(cfg, cfg.script[s.i]) {
      assert StepTestLoop(cfg, Without(s)) == Without(s).(i := s.i + 1);
    } else {
      assert StepTestLoop(cfg, Without(s)) == Without(s).(pc := Alloc);
    }
  }

  lemma TestLoopSoFar(cfg: Config, s: State)
    requires cfg.Valid() && Stale(cfg, s) && s.pc.LoopTop?
    ensures Stale(cfg, StepTestLoop(cfg, s))
  {
    TestLoopBeside(cfg, s);
    SoundTestLoop(cfg, StartIndex(cfg), Without(s));
  }

  lemma AllocSoFar(cfg: Config, s: State, ok: bool)
    requires cfg.Valid() && Stale(cfg, s) && s.pc.Alloc? && (ok ==> cfg.callbacks)
    ensures Stale(cfg, StepAlloc(s, ok))
  {
    assert Without(StepAlloc(s, ok)) == StepAlloc(Without(s), ok);
    SoundAlloc(cfg, StartIndex(cfg), Without(s), ok);
  }

  lemma ArmSoFar(cfg: Config, s: State)
    requires cfg.Valid() && Stale(cfg, s) && s.pc.Arm?
    ensures Stale(cfg, StepArm(s))
  {
    assert Without(StepArm(s)) == StepArm(Without(s));
    SoundArm(cfg, StartIndex(cfg), Without(s));
  }

  lemma SetOpcodeBeside(cfg: Config, s: State, r0: Byte, r1: Byte, r5: Byte)
    requires s.flights != [] && s.pc.SetOp? && s.i < |cfg.script| && s.nvram.Valid()
    ensures var t := StepSetOpcode(cfg, s, r0, r1, r5);
      t.flights == s.flights && Without(t) == StepSetOpcode(cfg, Without(s), r0, r1, r5)
  {
    var t := StepSetOpcode(cfg, s, r0, r1, r5);
    assert t == s.(pc := Xmit, opcode := t.opcode, getEfuse := t.getEfuse, nvram := t.nvram);
  }

  lemma SetOpcodeSoFar(cfg: Config, s: State, r0: Byte, r1: Byte, r5: Byte)
    requires cfg.Valid() && Stale(cfg, s) && s.pc.SetOp? && s.i < |cfg.script| && s.nvram.Valid()
    ensures Stale(cfg, StepSetOpcode(cfg, s, r0, r1, r5))
  {
    SetOpcodeBeside(cfg, s, r0, r1, r5);
    SoundSetOpcode(cfg, StartIndex(cfg), Without(s), r0, r1, r5);
  }

  lemma TransmitSoFar(cfg: Config, s: State, ok: bool)
    requires cfg.Valid() && Stale(cfg, s) && s.pc.Xmit? && s.i < |cfg.script| && s.nvram.Valid()
    ensures Stale(cfg, StepTransmit(cfg, s, ok))
  {
    var c := cfg.script[s.i];
    assert (s.flights + [OnAir(c)])[1..] == s.flights[1..] + [OnAir(c)];
    assert Without(StepTransmit(cfg, s, ok)) == StepTransmit(cfg, Without(s), ok);
    SoundTransmit(cfg, StartIndex(cfg), Without(s), ok);
  }

  lemma EnterWaitBeside(cfg: Config, s: State)
    requires s.flights != [] && s.pc.WaitLock?
    ensures var t := StepEnterWait(s); t.flights == s.flights && Without(t) == StepEnterWait(Without(s))
  {
    match s.status
    case CmdPending => assert StepEnterWait(Without(s)) == Without(s).(pc := Blocked);
    case CmdSuccess => assert StepEnterWait(Without(s)) == Without(s).(pc := LoopTop, i := s.i + 1);
    case CmdFail => assert StepEnterWait(Without(s)) == Without(s).(pc := Report);
    case CmdTerminate => assert StepEnterWait(Without(s)) == Without(s).(pc := Report, status := CmdSuccess);
  }

  lemma EnterWaitSoFar(cfg: Config, s: State)
    requires cfg.Valid() && Stale(cfg, s) && s.pc.WaitLock?
    ensures Stale(cfg, StepEnterWait(s))
  {
    EnterWaitBeside(cfg, s);
    SoundEnterWait(cfg, StartIndex(cfg), Without(s));
  }

  lemma ReportSoFar(cfg: Config, s: State)
    requires cfg.Valid() && Stale(cfg, s) && s.pc.Report?
    ensures Stale(cfg, StepReport(cfg, s))
  {
    assert Without(StepReport(cfg, s)) == StepReport(cfg, Without(s));
    SoundReport(cfg, StartIndex(cfg), Without(s));
  }

  lemma CallerSoFar(cfg: Config, s: State, caller: Caller, running: bool)
    requires cfg.Valid() && Stale(cfg, s)
    ensures Stale(cfg, s.(caller := caller, workerRunning := running))
  {
    assert Without(s.(caller := caller, workerRunning := running)).flights == Without(s).flights;
    SoundCaller(cfg, StartIndex(cfg), Without(s), caller, running, s.notified);
  }

  lemma NotifySoFar(cfg: Config, s: State)
    requires cfg.Valid() && Stale(cfg, s)
    ensures Stale(cfg, StepNotify(s))
  {
    var t := Without(s).(status := CmdTerminate, pc := Signal(s.pc));
    SoundStatus(cfg, StartIndex(cfg), Without(s), CmdTerminate);
    SoundCaller(cfg, StartIndex(cfg), t, Joining, s.workerRunning, true);
    assert Without(StepNotify(s)) == t.(caller := Joining, notified := true);
  }

  lemma DeliverBeside(s: State, k: nat, evt: seq<Byte>)
    requires Pending(s) && 0 < k < |s.flights| && |evt| >= if s.flights[k].cmd == GetLocalBdAddr then 12 else 6
    ensures Pending(StepDeliver(s, k, evt)) && Without(StepDeliver(s, k, evt)) == StepDeliver(Without(s), k - 1, evt)
  {
    var f := StepDeliver(s, k, evt).flights[k];
    assert s.flights[k := f][1..] == s.flights[1..][k - 1 := f];
  }

  lemma CommitBeside(s: State, k: nat)
    requires Pending(s) && 0 < k < |s.flights| && s.flights[k].Checked?
    ensures Pending(StepCommit(s, k)) && Without(StepCommit(s, k)) == StepCommit(Without(s), k - 1)
  {
    assert (s.flights[..k] + s.flights[k + 1..])[1..] == s.flights[1..][..k - 1] + s.flights[1..][k..];
  }

  lemma DeliverSoFar(cfg: Config, s: State, k: nat, evt: seq<Byte>)
    requires cfg.Valid() && Stale(cfg, s) && k < |s.flights| && s.flights[k].OnAir?
    requires |evt| >= if s.flights[k].cmd == GetLocalBdAddr then 12 else 6
    ensures Stale(cfg, StepDeliver(s, k, evt))
  {
    DeliverBeside(s, k, evt);
    SoundDeliver(cfg, StartIndex(cfg), Without(s), k - 1, evt);
  }

  /** The pending verdict is stored, or one of this run's. */
  lemma CommitSoFar(cfg: Config, s: State, k: nat)
    requires cfg.Valid() && Stale(cfg, s) && k < |s.flights| && s.flights[k].Checked?
    ensures SoundSoFar(cfg, StepCommit(s, k))
  {
    if k == 0 {
      SoundStatus(cfg, StartIndex(cfg), Without(s), CmdFail);
      assert s.flights[..0] + s.flights[1..] == s.flights[1..];
    } else {
      CommitBeside(s, k);
      SoundCommit(cfg, StartIndex(cfg), Without(s), k - 1);
    }
  }

  lemma StaleStep(cfg: Config, s: State, a: Action)
    requires cfg.Valid() && Stale(cfg, s) && Enabled(cfg, s, a)
    ensures SoundSoFar(cfg, Step(cfg, s, a))
  {
    match a
    case BootWorker => BootSoFar(cfg, s);
    case TestLoop => TestLoopSoFar(cfg, s);
    case AllocBuffer(ok) => AllocSoFar(cfg, s, ok);
    case ArmCommand => ArmSoFar(cfg, s);
    case SetOpcode(r0, r1, r5) => SetOpcodeSoFar(cfg, s, r0, r1, r5);
    case Transmit(ok) => TransmitSoFar(cfg, s, ok);
    case EnterWait => EnterWaitSoFar(cfg, s);
    case SpuriousWake => SoundSpurious(cfg, StartIndex(cfg), Without(s));
    case ReportResult => ReportSoFar(cfg, s);
    case FinishWorker => SoundFinish(cfg, StartIndex(cfg), Without(s));
    case Deliver(k, evt) => DeliverSoFar(cfg, s, k, evt);
    case Commit(k) => CommitSoFar(cfg, s, k);
    case SetRunning => CallerSoFar(cfg, s, Up, true);
    case CheckRunning => CallerSoFar(cfg, s, if s.workerRunning then Notifying else Joining, s.workerRunning);
    case NotifyExit => NotifySoFar(cfg, s);
    case Join => CallerSoFar(cfg, s, Joined, s.workerRunning);
  }

  lemma {:induction false} SoundSoFarExec(cfg: Config, s: State, acts: seq<Action>)
    requires cfg.Valid() && SoundSoFar(cfg, s) && Exec(cfg, s, acts).Some?
    ensures SoundSoFar(cfg, Exec(cfg, s, acts).value)
    decreases acts
  {
    if acts != [] {
      if Stale(cfg, s) { StaleStep(cfg, s, acts[0]); } else { SoundStep(cfg, s, acts[0]); }
      SoundSoFarExec(cfg, Step(cfg, s, acts[0]), acts[1..]);
    }
  }

  lemma SoundInit(cfg: Config)
    requires cfg.Valid()
    ensures Sound(cfg, StartIndex(cfg), Init(cfg))
  {
  }

  lemma SoundSuccess(cfg: Config, s: State)
    requires Sound(cfg, StartIndex(cfg), s) && VndSuccess in s.reported
    ensures Commands(s.sent) == Plan(cfg) && AllGood(s.sent, s.answers, |s.sent|)
  {
  }

  /** SUCCESS means what it means in a clean run. */
  lemma SuccessDespiteStaleFailure(cfg: Config, c: Command, acts: seq<Action>, s: State)
    requires cfg.Valid() && Exec(cfg, Start(cfg, [Checked(c, false)]), acts) == Some(s) && VndSuccess in s.reported
    ensures Commands(s.sent) == Plan(cfg) && AllGood(s.sent, s.answers, |s.sent|)
  {
    var s0 := Start(cfg, [Checked(c, false)]);
    assert Without(s0) == Init(cfg);
    SoundInit(cfg);
    SoundSoFarExec(cfg, s0, acts);
    SoundSuccess(cfg, if Sound(cfg, StartIndex(cfg), s) then s else Without(s));
  }
}
