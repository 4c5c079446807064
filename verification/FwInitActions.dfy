/** The firmware-init handshake by the actions of a run: what may happen at each point, what the history
    flags record, and how the caller's clean-up goes by. */
module FwInitActions {
  import opened Base
  import opened HciPackets
  import opened FwInit
  import opened FwInitInvariant
  import opened FwInitTheorems

  // ----- what the flags record -----

  lemma StepFailed(cfg: Config, s: State, a: Action)
    requires Enabled(cfg, s, a)
    ensures Step(cfg, s, a).failed <==> s.failed || a == AllocBuffer(false) || a == Transmit(false)
  {
    match a
    case TestLoop => assert StepTestLoop(cfg, s).failed == s.failed;
    case EnterWait => assert StepEnterWait(s).failed == s.failed;
    case SetOpcode(r0, r1, r5) => assert StepSetOpcode(cfg, s, r0, r1, r5).failed == s.failed;
    case Deliver(k, evt) => assert StepDeliver(s, k, evt).failed == s.failed;
    case _ =>
  }

  lemma StepNotified(cfg: Config, s: State, a: Action)
    requires Enabled(cfg, s, a)
    ensures Step(cfg, s, a).notified <==> s.notified || a == NotifyExit
  {
    match a
    case TestLoop => assert StepTestLoop(cfg, s).notified == s.notified;
    case EnterWait => assert StepEnterWait(s).notified == s.notified;
    case SetOpcode(r0, r1, r5) => assert StepSetOpcode(cfg, s, r0, r1, r5).notified == s.notified;
    case Deliver(k, evt) => assert StepDeliver(s, k, evt).notified == s.notified;
    case _ =>
  }

  /** Whether the worker was last marked as running or as gone. */
  function MarkedRunning(was: bool, acts: seq<Action>): bool {
    if acts == [] then was
    else if acts[|acts| - 1] == SetRunning then true
    else if acts[|acts| - 1] == FinishWorker then false
    else MarkedRunning(was, acts[..|acts| - 1])
  }

  lemma StepRunning(cfg: Config, s: State, a: Action)
    requires Enabled(cfg, s, a)
    ensures Step(cfg, s, a).workerRunning
         == if a == SetRunning then true else if a == FinishWorker then false else s.workerRunning
  {
    match a
    case TestLoop => assert StepTestLoop(cfg, s).workerRunning == s.workerRunning;
    case EnterWait => assert StepEnterWait(s).workerRunning == s.workerRunning;
    case SetOpcode(r0, r1, r5) => assert StepSetOpcode(cfg, s, r0, r1, r5).workerRunning == s.workerRunning;
    case Deliver(k, evt) => assert StepDeliver(s, k, evt).workerRunning == s.workerRunning;
    case _ =>
  }

  lemma {:induction false} ExecFlags(cfg: Config, s: State, acts: seq<Action>)
    requires Exec(cfg, s, acts).Some?
    ensures var t := Exec(cfg, s, acts).value;
      && (t.failed <==> s.failed || AllocBuffer(false) in acts || Transmit(false) in acts)
      && (t.notified <==> s.notified || NotifyExit in acts)
      && t.workerRunning == MarkedRunning(s.workerRunning, acts)
    decreases acts
  {
    if acts != [] {
      var a, s1 := acts[0], Step(cfg, s, acts[0]);
      StepFailed(cfg, s, a);
      StepNotified(cfg, s, a);
      StepRunning(cfg, s, a);
      ExecFlags(cfg, s1, acts[1..]);
      assert acts == [a] + acts[1..];
      MarkedFirst(s.workerRunning, a, acts[1..]);
    }
  }

  lemma {:induction false} MarkedFirst(was: bool, a: Action, acts: seq<Action>)
    ensures MarkedRunning(was, [a] + acts)
         == MarkedRunning(if a == SetRunning then true else if a == FinishWorker then false else was, acts)
    decreases acts
  {
    if acts == [] {
      assert ([a] + acts)[..0] == [];
    } else {
      assert ([a] + acts)[..|acts|] == [a] + acts[..|acts| - 1];
      MarkedFirst(was, a, acts[..|acts| - 1]);
    }
  }

  /** A run of a known chip without an allocation or transmit failure and without a terminate, in which every
      command was answered by a Command Complete with its opcode and status 0, reports SUCCESS, unless an
      earlier run's terminate was left over. */
  lemma GoodActionsReportSuccess(cfg: Config, acts: seq<Action>, s: State)
    requires Reaches(cfg, acts, s) && s.pc.Done? && cfg.callbacks && cfg.script != []
    requires !cfg.leftoverStatus.CmdTerminate?
    requires AllocBuffer(false) !in acts && Transmit(false) !in acts && NotifyExit !in acts
    requires forall k: nat {:trigger s.answers[k]} :: k < |s.answers| && k < |s.sent| ==>
      && |s.answers[k]| >= 6 && s.answers[k][0] == 0x0E && s.answers[k][5] == 0
      && s.answers[k][4] as int * 256 + s.answers[k][3] as int == Opcode(s.sent[k].cmd)
    ensures s.reported == [VndSuccess]
  {
    ExecFlags(cfg, Init(cfg), acts);
    GoodRunReportsSuccess(cfg, acts, s);
  }

  // ----- what may happen at each point -----

  /** The environment is free: a buffer or a transmission may fail whenever it is asked for, a blocked worker
      may wake for no reason, a command on air may be answered by any event long enough to be read, its
      verdict may be stored at any later moment, and the caller goes on whatever the worker does. */
  lemma EnvironmentIsFree(cfg: Config, acts: seq<Action>, s: State, evt: seq<Byte>)
    requires Reaches(cfg, acts, s) && |evt| >= 12
    ensures s.pc.Alloc? ==> Enabled(cfg, s, AllocBuffer(false))
    ensures s.pc.Alloc? && cfg.callbacks ==> Enabled(cfg, s, AllocBuffer(true))
    ensures s.pc.SetOp? ==>
      forall r0: Byte, r1: Byte, r5: Byte :: r0 % 4 == 2 ==> Enabled(cfg, s, SetOpcode(r0, r1, r5))
    ensures s.pc.Xmit? ==> Enabled(cfg, s, Transmit(false)) && Enabled(cfg, s, Transmit(true))
    ensures s.pc.Blocked? ==> Enabled(cfg, s, SpuriousWake)
    ensures forall k: nat :: k < |s.flights| ==>
      Enabled(cfg, s, if s.flights[k].OnAir? then Deliver(k, evt) else Commit(k))
    ensures s.caller.Starting? ==> Enabled(cfg, s, SetRunning)
    ensures s.caller.Up? ==> Enabled(cfg, s, CheckRunning)
    ensures s.caller.Notifying? ==> Enabled(cfg, s, NotifyExit)
  {
    ReachInv(cfg, acts, s);
    WorkerIsFree(cfg, s);
  }

  lemma WorkerIsFree(cfg: Config, s: State)
    requires PlaceMatches(cfg, StartIndex(cfg), s) && s.nvram.Valid()
    ensures s.pc.SetOp? ==>
      forall r0: Byte, r1: Byte, r5: Byte :: r0 % 4 == 2 ==> Enabled(cfg, s, SetOpcode(r0, r1, r5))
    ensures s.pc.Xmit? ==> Enabled(cfg, s, Transmit(false)) && Enabled(cfg, s, Transmit(true))
  {
  }

  // ----- clean-up -----

  /** The caller tells the worker to terminate exactly when it finds it marked as running: that is, unless the
      worker's exit came after the mark was set. */
  lemma NotifiesIffMarked(cfg: Config, acts: seq<Action>, s: State)
    requires Reaches(cfg, acts, s) && s.caller.Up?
    ensures Step(cfg, s, CheckRunning).caller == if MarkedRunning(false, acts) then Notifying else Joining
  {
    ExecFlags(cfg, Init(cfg), acts);
  }

  ghost predicate Ending(s: State, status: Status) {
    && s.pc.Done? && !s.workerRunning && !s.notified && s.flights == [] && s.status == status
    && (s.caller.Up? || s.caller.Joining? || s.caller.Joined?)
  }

  lemma EndingStep(cfg: Config, s: State, status: Status, a: Action)
    requires Ending(s, status) && Enabled(cfg, s, a)
    ensures Ending(Step(cfg, s, a), status)
  {
  }

  lemma {:induction false} EndingExec(cfg: Config, s: State, status: Status, acts: seq<Action>)
    requires Ending(s, status) && Exec(cfg, s, acts).Some?
    ensures Ending(Exec(cfg, s, acts).value, status)
    decreases acts
  {
    if acts != [] {
      EndingStep(cfg, s, status, acts[0]);
      EndingExec(cfg, Step(cfg, s, acts[0]), status, acts[1..]);
    }
  }

  /** A worker that is gone when the caller looks is not told anything: the status stays as the run left it,
      so no terminate is left for the next run. */
  lemma QuietCleanup(cfg: Config, acts: seq<Action>, s: State, more: seq<Action>, t: State)
    requires Reaches(cfg, acts, s) && s.pc.Done? && s.caller.Up? && !MarkedRunning(false, acts)
    requires Exec(cfg, s, more) == Some(t)
    ensures t.status == s.status && t.flights == [] && NotifyExit !in acts + more
    ensures t.status.CmdTerminate? ==> cfg.leftoverStatus.CmdTerminate?
  {
    ReachInv(cfg, acts, s);
    ExecFlags(cfg, Init(cfg), acts);
    EndingExec(cfg, s, s.status, more);
    ExecFlags(cfg, s, more);
  }
}
