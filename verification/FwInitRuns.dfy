/** Runs of the firmware-init handshake built step by step: what can go wrong, within one run and from
    one run to the next. */
module FwInitRuns {
  import opened Base
  import opened HciPackets
  import opened FwInit
  import opened FwInitInvariant
  import opened FwInitTheorems
  import opened FwInitStale

  // ----- putting runs together -----

  lemma ExecFirst(cfg: Config, s: State, a: Action, rest: seq<Action>)
    requires Enabled(cfg, s, a)
    ensures Exec(cfg, s, [a] + rest) == Exec(cfg, Step(cfg, s, a), rest)
  {
    assert ([a] + rest)[1..] == rest;
  }

  lemma {:induction false} ExecThen(cfg: Config, s: State, a: seq<Action>, t: State, b: seq<Action>)
    requires Exec(cfg, s, a) == Some(t)
    ensures Exec(cfg, s, a + b) == Exec(cfg, t, b)
    decreases a
  {
    if a == [] {
      assert a + b == b;
    } else {
      assert (a + b)[1..] == a[1..] + b;
      ExecThen(cfg, Step(cfg, s, a[0]), a[1..], t, b);
    }
  }

  /** Completions arrive in the order of their commands. */
  ghost predicate InOrder(acts: seq<Action>) { forall k :: 0 <= k < |acts| && acts[k].Deliver? ==> acts[k].k == 0 }

  /** A configuration in which the worker gets to work. */
  ghost predicate Live(cfg: Config) {
    cfg.Valid() && cfg.callbacks && cfg.script != [] && !cfg.leftoverStatus.CmdTerminate?
  }

  /** The first command of a run. */
  function FirstIndex(cfg: Config): nat
    requires cfg.Valid() && cfg.script != []
  {
    NextCommand(cfg, StartIndex(cfg))
  }

  lemma {:induction false} NextCommandBefore(cfg: Config, j: nat, k: nat)
    requires j <= k < |cfg.script| && !Skipped(cfg, cfg.script[k])
    ensures NextCommand(cfg, j) <= k && !Skipped(cfg, cfg.script[NextCommand(cfg, j)])
    decreases k - j
  {
    if Skipped(cfg, cfg.script[j]) { NextCommandBefore(cfg, j + 1, k); }
  }

  lemma FirstCommand(cfg: Config)
    requires cfg.Valid() && cfg.script != []
    ensures FirstIndex(cfg) < |cfg.script| && !Skipped(cfg, cfg.script[FirstIndex(cfg)])
  {
    var k :| StartBound(cfg.combo) <= k < |cfg.script|
          && cfg.script[k] != SetFwSysLog && cfg.script[k] != SetSspDebugMode;
    NextCommandBefore(cfg, StartIndex(cfg), k);
  }

  /** The worker at the top of its loop. */
  ghost predicate AtLoop(cfg: Config, s: State) {
    && s.pc.LoopTop? && s.i <= |cfg.script| && !s.status.CmdTerminate? && s.nvram.Valid() && cfg.callbacks
    && s.reported == []
  }

  /** The caller starts the worker, which gets to its loop; the caller may then stop it. */
  lemma LoopReached(cfg: Config, leftover: seq<Flight>) returns (acts: seq<Action>, s: State)
    requires cfg.Valid() && cfg.script != []
    ensures Exec(cfg, Start(cfg, leftover), acts) == Some(s) && InOrder(acts)
    ensures s == Start(cfg, leftover).(caller := Notifying, workerRunning := true, pc := LoopTop, i := StartIndex(cfg),
                                       getEfuse := if cfg.combo then WantsEfuse(cfg) else cfg.leftoverEfuse)
  {
    var s0 := Start(cfg, leftover);
    var s1 := s0.(caller := Up, workerRunning := true);
    var s2 := s1.(caller := Notifying);
    s := StepBoot(cfg, s2);
    acts := [SetRunning] + ([CheckRunning] + ([BootWorker] + []));
    ExecFirst(cfg, s0, SetRunning, [CheckRunning] + ([BootWorker] + []));
    ExecFirst(cfg, s1, CheckRunning, [BootWorker] + []);
    ExecFirst(cfg, s2, BootWorker, []);
  }

  /** Commands that are switched off are passed over. */
  lemma {:induction false} SkipTo(cfg: Config, s: State) returns (acts: seq<Action>)
    requires AtLoop(cfg, s)
    ensures Exec(cfg, s, acts) == Some(s.(i := NextCommand(cfg, s.i))) && InOrder(acts)
    decreases |cfg.script| - s.i
  {
    if s.i < |cfg.script| && Skipped(cfg, cfg.script[s.i]) {
      var rest := SkipTo(cfg, s.(i := s.i + 1));
      acts := [TestLoop] + rest;
      ExecFirst(cfg, s, TestLoop, rest);
    } else {
      acts := [];
    }
  }

  function ToBuilder(): seq<Action> { [TestLoop] + ([AllocBuffer(true)] + ([ArmCommand] + [])) }

  /** Up to the hand-over of a command. */
  lemma BuilderReached(cfg: Config, s: State) returns (t: State)
    requires AtLoop(cfg, s) && s.i < |cfg.script| && !Skipped(cfg, cfg.script[s.i])
    ensures Exec(cfg, s, ToBuilder()) == Some(t) && t == s.(pc := SetOp, status := CmdPending)
  {
    var s1, s2 := s.(pc := Alloc), s.(pc := Arm);
    t := s.(pc := SetOp, status := CmdPending);
    assert StepTestLoop(cfg, s) == s1;
    ExecFirst(cfg, s, TestLoop, [AllocBuffer(true)] + ([ArmCommand] + []));
    ExecFirst(cfg, s1, AllocBuffer(true), [ArmCommand] + []);
    ExecFirst(cfg, s2, ArmCommand, []);
  }

  function ToWait(): seq<Action> { [SetOpcode(2, 0, 0)] + ([Transmit(true)] + []) }

  /** What a builder changes. */
  lemma Built(cfg: Config, s: State)
    requires s.pc.SetOp? && s.i < |cfg.script| && s.nvram.Valid()
    ensures var t, c := StepSetOpcode(cfg, s, 2, 0, 0), cfg.script[s.i];
      && t.nvram.Valid()
      && t == s.(pc := Xmit, opcode := Opcode(c), nvram := t.nvram,
                 getEfuse := if c == SetLocalBdAddr then false else s.getEfuse)
  {
  }

  /** Up to the wait for its completion. */
  lemma WaitReached(cfg: Config, s: State) returns (t: State)
    requires s.pc.SetOp? && s.i < |cfg.script| && s.nvram.Valid()
    ensures Exec(cfg, s, ToWait()) == Some(t)
    ensures var c := cfg.script[s.i];
      && t.nvram.Valid()
      && t == s.(pc := WaitLock, opcode := Opcode(c), nvram := t.nvram,
                 getEfuse := if c == SetLocalBdAddr then false else s.getEfuse,
                 flights := s.flights + [OnAir(c)], sent := s.sent + [Sent(c, t.nvram)])
  {
    var s1 := StepSetOpcode(cfg, s, 2, 0, 0);
    t := StepTransmit(cfg, s1, true);
    Built(cfg, s);
    ExecFirst(cfg, s, SetOpcode(2, 0, 0), [Transmit(true)] + []);
    ExecFirst(cfg, s1, Transmit(true), []);
  }

  // ----- events -----

  /** A Command Complete for an opcode, with the given status. */
  function EventFor(opcode: Opcode16, status: Byte): (evt: seq<Byte>)
    ensures |evt| == 12 && (Accepts(evt, opcode) <==> status == 0) && (Completes(evt, opcode) <==> status == 0)
  {
    [0x0E, 10, 1, opcode % 256, opcode / 256, status, 0, 0, 0, 0, 0, 0]
  }

  /** The opcode the callback of a flight checks for. */
  function Checks(f: Flight, opcode: Opcode16): Opcode16 { if f.cmd == GetLocalBdAddr then 0x1009 else opcode }

  function ToAnswer(evt: seq<Byte>): seq<Action> { [Deliver(0, evt)] + ([Commit(0)] + []) }

  /** The oldest outstanding command is answered. */
  lemma Answered(cfg: Config, s: State, evt: seq<Byte>) returns (t: State)
    requires s.flights != [] && s.flights[0].OnAir? && |evt| >= 12 && s.nvram.Valid()
    ensures Exec(cfg, s, ToAnswer(evt)) == Some(t)
    ensures t == s.(status := if Accepts(evt, Checks(s.flights[0], s.opcode)) then CmdSuccess else CmdFail,
                    pc := Signal(s.pc), flights := s.flights[1..], answers := s.answers + [evt], nvram := t.nvram)
    ensures t.nvram.Valid()
  {
    var s1 := StepDeliver(s, 0, evt);
    t := StepCommit(s1, 0);
    ExecFirst(cfg, s, Deliver(0, evt), [Commit(0)] + []);
    ExecFirst(cfg, s1, Commit(0), []);
  }

  // ----- a terminate that is lost -----

  /** In the hand-over of a command: every live configuration has such a run. */
  lemma TerminateCanBeLost(cfg: Config) returns (acts: seq<Action>, s: State)
    requires Live(cfg)
    ensures Reaches(cfg, acts, s) && s.caller.Notifying? && InBuilder(s.pc) && CanSend(cfg, StepNotify(s))
  {
    acts, s := HandOverReached(cfg, []);
    TerminateLostIff(cfg, acts, s);
  }

  lemma HandOverReached(cfg: Config, leftover: seq<Flight>) returns (acts: seq<Action>, s: State)
    requires Live(cfg)
    ensures Exec(cfg, Start(cfg, leftover), acts) == Some(s) && InOrder(acts)
    ensures s.pc.SetOp? && s.caller.Notifying? && s.status.CmdPending? && s.i == FirstIndex(cfg) < |cfg.script|
    ensures s.flights == leftover && s.sent == [] && s.answers == [] && s.reported == [] && s.nvram.Valid()
    ensures s.getEfuse == if cfg.combo then WantsEfuse(cfg) else cfg.leftoverEfuse
  {
    FirstCommand(cfg);
    var a, s1 := LoopReached(cfg, leftover);
    var b := SkipTo(cfg, s1);
    var s2 := s1.(i := FirstIndex(cfg));
    s := BuilderReached(cfg, s2);
    acts := a + (b + ToBuilder());
    ExecThen(cfg, Start(cfg, leftover), a, s1, b + ToBuilder());
    ExecThen(cfg, s1, b, s2, ToBuilder());
  }

  lemma FirstWaitReached(cfg: Config, leftover: seq<Flight>) returns (acts: seq<Action>, s: State)
    requires Live(cfg)
    ensures Exec(cfg, Start(cfg, leftover), acts) == Some(s) && InOrder(acts)
    ensures s.pc.WaitLock? && s.caller.Notifying? && s.status.CmdPending? && s.i == FirstIndex(cfg) < |cfg.script|
    ensures var c := cfg.script[s.i];
      && s.flights == leftover + [OnAir(c)] && s.opcode == Opcode(c) && |s.sent| == 1 && s.sent[0].cmd == c
      && (c == SetLocalBdAddr ==> !s.getEfuse)
      && (c != SetLocalBdAddr ==> s.getEfuse == if cfg.combo then WantsEfuse(cfg) else cfg.leftoverEfuse)
    ensures s.answers == [] && s.reported == [] && s.nvram.Valid()
  {
    var a, s1 := HandOverReached(cfg, leftover);
    s := WaitReached(cfg, s1);
    acts := a + ToWait();
    ExecThen(cfg, Start(cfg, leftover), a, s1, ToWait());
  }

  /** In the wait: every live configuration with more than one command has a run in which the terminate
      lands while the worker waits for a completion on air, and another command is sent after it. */
  lemma TerminateCanBeLostInWait(cfg: Config) returns (acts: seq<Action>, s: State)
    requires Live(cfg) && FirstIndex(cfg) < |cfg.script| && NextCommand(cfg, FirstIndex(cfg) + 1) < |cfg.script|
    ensures Reaches(cfg, acts, s) && s.caller.Notifying? && s.pc.Blocked? && CanSend(cfg, StepNotify(s))
    ensures |s.flights| == 1 && s.flights[0].OnAir?
  {
    var a, s1 := FirstWaitReached(cfg, []);
    s := s1.(pc := Blocked);
    acts := a + ([EnterWait] + []);
    ExecThen(cfg, Init(cfg), a, s1, [EnterWait] + []);
    ExecFirst(cfg, s1, EnterWait, []);
    TerminateLostIff(cfg, acts, s);
  }

  // ----- a terminate that is left behind -----

  /** Every known chip has a run whose terminate lands at the top of the loop and is still there when
      the worker is done; the run after it then sends nothing. */
  lemma TerminateCanBeLeftBehind(cfg: Config) returns (acts: seq<Action>, s: State, more: seq<Action>, t: State)
    requires cfg.Valid() && cfg.script != []
    ensures Reaches(cfg, acts, s) && s.caller.Notifying? && Exec(cfg, StepNotify(s), more) == Some(t)
    ensures t.pc.Done? && t.status.CmdTerminate?
    ensures forall next: seq<Action>, u: State ::
      Reaches(NextRun(cfg, t), next, u) ==> u.sent == [] && VndSuccess !in u.reported
  {
    acts, s := LoopReached(cfg, []);
    var s1 := StepNotify(s);
    var s2 := s1.(pc := Report);
    var rest: seq<Action>;
    rest, t := Reported(cfg, s2);
    more := [TestLoop] + rest;
    ExecFirst(cfg, s1, TestLoop, rest);
    forall next: seq<Action>, u: State | Reaches(NextRun(cfg, t), next, u)
      ensures u.sent == [] && VndSuccess !in u.reported
    {
      StickyTerminate(NextRun(cfg, t), next, u);
    }
  }

  /** The worker's exit. */
  lemma Reported(cfg: Config, s: State) returns (acts: seq<Action>, t: State)
    requires s.pc.Report?
    ensures Exec(cfg, s, acts) == Some(t) && InOrder(acts)
    ensures t == StepReport(cfg, s).(pc := Done, workerRunning := false)
  {
    acts := [ReportResult] + ([FinishWorker] + []);
    t := StepReport(cfg, s).(pc := Done, workerRunning := false);
    ExecFirst(cfg, s, ReportResult, [FinishWorker] + []);
    ExecFirst(cfg, StepReport(cfg, s), FinishWorker, []);
  }

  // ----- one run after another -----

  /** Only a run that was told to terminate can end with a command outstanding; so the SUCCESS of the run
      after any other is as good as that of a first run. */
  lemma NextRunSuccess(cfg: Config, acts: seq<Action>, s: State, next: seq<Action>, t: State)
    requires Reaches(cfg, acts, s) && s.pc.Done? && !s.notified
    requires Exec(NextRun(cfg, s), Start(NextRun(cfg, s), s.flights), next) == Some(t) && VndSuccess in t.reported
    ensures s.flights == [] && Commands(t.sent) == Plan(NextRun(cfg, s)) && AllGood(t.sent, t.answers, |t.sent|)
  {
    ReachInv(cfg, acts, s);
    SuccessMeansPlanDone(NextRun(cfg, s), next, t);
  }

  /** A run stopped in the wait for its first command ends with that command outstanding, and lets the
      next run work. */
  lemma LeftoverReached(cfg: Config) returns (acts: seq<Action>, s: State)
    requires Live(cfg)
    ensures Reaches(cfg, acts, s) && s.pc.Done? && s.caller.Joined? && |s.flights| == 1 && s.flights[0].OnAir?
    ensures Live(NextRun(cfg, s))
  {
    var a, s1 := FirstWaitReached(cfg, []);
    var s2 := StepNotify(s1);
    var s3 := StepEnterWait(s2);
    var b, s4 := Reported(cfg, s3);
    s := s4.(caller := Joined);
    var c := [NotifyExit] + ([EnterWait] + (b + ([Join] + [])));
    acts := a + c;
    ExecThen(cfg, Init(cfg), a, s1, c);
    ExecFirst(cfg, s1, NotifyExit, [EnterWait] + (b + ([Join] + [])));
    ExecFirst(cfg, s2, EnterWait, b + ([Join] + []));
    ExecThen(cfg, s3, b, s4, [Join] + []);
    ExecFirst(cfg, s4, Join, []);
  }

  /** A command that goes well. */
  lemma OneCommand(cfg: Config, s: State) returns (acts: seq<Action>, t: State)
    requires AtLoop(cfg, s) && s.flights == [] && s.i < |cfg.script| && !Skipped(cfg, cfg.script[s.i])
    ensures Exec(cfg, s, acts) == Some(t) && InOrder(acts)
    ensures AtLoop(cfg, t) && t.flights == [] && t.i == s.i + 1
    ensures s.sent <= t.sent && s.answers <= t.answers && |t.answers| - |s.answers| == |t.sent| - |s.sent|
  {
    var s1 := BuilderReached(cfg, s);
    var s2 := WaitReached(cfg, s1);
    var evt := EventFor(Checks(s2.flights[0], s2.opcode), 0);
    var s3 := Answered(cfg, s2, evt);
    t := StepEnterWait(s3);
    acts := ToBuilder() + (ToWait() + (ToAnswer(evt) + ([EnterWait] + [])));
    ExecThen(cfg, s, ToBuilder(), s1, ToWait() + (ToAnswer(evt) + ([EnterWait] + [])));
    ExecThen(cfg, s1, ToWait(), s2, ToAnswer(evt) + ([EnterWait] + []));
    ExecThen(cfg, s2, ToAnswer(evt), s3, [EnterWait] + []);
    ExecFirst(cfg, s3, EnterWait, []);
  }

  /** From the loop, all goes well to the end of the script. */
  lemma {:induction false} Walk(cfg: Config, s: State) returns (acts: seq<Action>, t: State)
    requires AtLoop(cfg, s) && s.flights == []
    ensures Exec(cfg, s, acts) == Some(t) && InOrder(acts)
    ensures AtLoop(cfg, t) && t.flights == [] && t.i == |cfg.script|
    ensures s.sent <= t.sent && s.answers <= t.answers && |t.answers| - |s.answers| == |t.sent| - |s.sent|
    decreases |cfg.script| - s.i
  {
    if s.i == |cfg.script| {
      return [], s;
    }
    var a, s1 := OneEntry(cfg, s);
    var b;
    b, t := Walk(cfg, s1);
    acts := a + b;
    ExecThen(cfg, s, a, s1, b);
  }

  lemma OneEntry(cfg: Config, s: State) returns (acts: seq<Action>, t: State)
    requires AtLoop(cfg, s) && s.flights == [] && s.i < |cfg.script|
    ensures Exec(cfg, s, acts) == Some(t) && InOrder(acts)
    ensures AtLoop(cfg, t) && t.flights == [] && t.i == s.i + 1
    ensures s.sent <= t.sent && s.answers <= t.answers && |t.answers| - |s.answers| == |t.sent| - |s.sent|
  {
    if Skipped(cfg, cfg.script[s.i]) {
      acts, t := [TestLoop] + [], s.(i := s.i + 1);
      ExecFirst(cfg, s, TestLoop, []);
    } else {
      acts, t := OneCommand(cfg, s);
    }
  }

  /** How many answers are still due for earlier runs. */
  function Due(leftover: seq<Flight>): nat
    requires |leftover| <= 1
  {
    if leftover != [] && leftover[0].OnAir? then 1 else 0
  }

  /** Each command of this run was answered, after the n answers due for earlier runs, by a Command
      Complete with its opcode and status 0. */
  ghost predicate OwnAnswersGood(n: nat, sent: seq<Sent>, answers: seq<seq<Byte>>) {
    && |answers| >= n + |sent|
    && forall m :: n <= m < n + |sent| ==> Completes(answers[m], Opcode(sent[m - n].cmd))
  }

  /** SUCCESS although a command of this run was not so answered, with completions arriving in order. */
  ghost predicate FakedSuccess(cfg: Config, leftover: seq<Flight>, acts: seq<Action>, s: State)
    requires |leftover| <= 1
  {
    && Exec(cfg, Start(cfg, leftover), acts) == Some(s) && InOrder(acts)
    && VndSuccess in s.reported && !OwnAnswersGood(Due(leftover), s.sent, s.answers)
  }

  /** An earlier run's command that may still store SUCCESS: its answer or its good verdict is to come. */
  predicate MayFake(f: Flight) { f.OnAir? || f.ok }

  /** The stale SUCCESS arrives while the first command is awaited. */
  lemma StaleVerdict(cfg: Config, f: Flight, s: State) returns (acts: seq<Action>, t: State)
    requires MayFake(f) && s.flights != [] && s.flights[0] == f && s.nvram.Valid() && s.pc.WaitLock?
    ensures Exec(cfg, s, acts) == Some(t)
    ensures t == s.(status := CmdSuccess, flights := s.flights[1..], answers := t.answers, nvram := t.nvram)
    ensures |t.answers| == |s.answers| + Due([f]) && t.nvram.Valid()
    ensures forall k :: 0 <= k < |acts| && acts[k].Deliver? ==> acts[k].k == 0
  {
    if f.OnAir? {
      var good := EventFor(Checks(f, s.opcode), 0);
      acts := ToAnswer(good);
      t := Answered(cfg, s, good);
    } else {
      acts := [Commit(0)] + [];
      t := StepCommit(s, 0);
      ExecFirst(cfg, s, Commit(0), []);
      assert s.flights[..0] + s.flights[1..] == s.flights[1..];
    }
  }

  /** Past the first command, whose verdict an older one's gave. */
  lemma FirstCommandFaked(cfg: Config, f: Flight) returns (acts: seq<Action>, s: State)
    requires Live(cfg) && MayFake(f)
    ensures Exec(cfg, Start(cfg, [f]), acts) == Some(s) && InOrder(acts) && AtLoop(cfg, s) && s.flights == []
    ensures |s.sent| == 1 && |s.answers| == Due([f]) + 1 && |s.answers[Due([f])]| == 12
    ensures !Completes(s.answers[Due([f])], Opcode(s.sent[0].cmd))
  {
    var a, s1 := FirstWaitReached(cfg, [f]);
    var b, s2 := StaleVerdict(cfg, f, s1);
    var s3 := StepEnterWait(s2);
    var bad := EventFor(s1.opcode, 1);
    s := Answered(cfg, s3, bad);
    var c := b + ([EnterWait] + ToAnswer(bad));
    acts := a + c;
    ExecThen(cfg, Start(cfg, [f]), a, s1, c);
    ExecThen(cfg, s1, b, s2, [EnterWait] + ToAnswer(bad));
    ExecFirst(cfg, s2, EnterWait, ToAnswer(bad));
  }

  lemma StaleVerdictFakesSuccess(cfg: Config, f: Flight) returns (acts: seq<Action>, s: State)
    requires Live(cfg) && MayFake(f)
    ensures FakedSuccess(cfg, [f], acts, s)
  {
    var n := Due([f]);
    var a, s1 := FirstCommandFaked(cfg, f);
    var b, s2 := Walk(cfg, s1);
    var c, s3 := Reported(cfg, s2.(pc := Report));
    s := s3;
    acts := a + (b + ([TestLoop] + c));
    ExecThen(cfg, Start(cfg, [f]), a, s1, b + ([TestLoop] + c));
    ExecThen(cfg, s1, b, s2, [TestLoop] + c);
    ExecFirst(cfg, s2, TestLoop, c);
    assert s.reported == [VndSuccess];
    assert s.answers[n] == s1.answers[n] && s.sent[n - n] == s1.sent[0];
  }

  /** When a run may start with a command of an earlier run outstanding, SUCCESS can be faked exactly if
      that command's answer, or its good verdict, is still to come: it passes for that of the first
      command, whose own answer then goes unheeded. A bad verdict still to come can only spoil the run. */
  lemma SuccessFakedIff(cfg: Config, leftover: seq<Flight>)
    requires Live(cfg) && |leftover| <= 1
    ensures (exists acts: seq<Action>, s: State :: FakedSuccess(cfg, leftover, acts, s))
       <==> leftover != [] && MayFake(leftover[0])
  {
    if leftover != [] && MayFake(leftover[0]) {
      assert leftover == [leftover[0]];
      var acts, s := StaleVerdictFakesSuccess(cfg, leftover[0]);
    } else {
      forall acts: seq<Action>, s: State ensures !FakedSuccess(cfg, leftover, acts, s) {
        if Exec(cfg, Start(cfg, leftover), acts) == Some(s) && VndSuccess in s.reported {
          SuccessMeant(cfg, leftover, acts, s);
        }
      }
    }
  }

  lemma SuccessMeant(cfg: Config, leftover: seq<Flight>, acts: seq<Action>, s: State)
    requires cfg.Valid() && |leftover| <= 1 && (leftover != [] ==> !MayFake(leftover[0]))
    requires Exec(cfg, Start(cfg, leftover), acts) == Some(s) && VndSuccess in s.reported
    ensures OwnAnswersGood(0, s.sent, s.answers)
  {
    if leftover == [] {
      SuccessMeansPlanDone(cfg, acts, s);
    } else {
      assert leftover == [Checked(leftover[0].cmd, false)];
      SuccessDespiteStaleFailure(cfg, leftover[0].cmd, acts, s);
    }
    AllGoodIsOwn(s.sent, s.answers);
  }

  lemma AllGoodIsOwn(sent: seq<Sent>, answers: seq<seq<Byte>>)
    requires AllGood(sent, answers, |sent|)
    ensures OwnAnswersGood(0, sent, answers)
  {
    forall m | 0 <= m < |sent| ensures Completes(answers[m], Opcode(sent[m].cmd)) {
      assert Good(sent, answers, m);
    }
  }

  /** So two runs in a row are enough: the first is stopped while it waits, the second fakes SUCCESS. */
  lemma SecondRunFakesSuccess(cfg: Config)
      returns (acts: seq<Action>, s: State, next: seq<Action>, t: State)
    requires Live(cfg)
    ensures Reaches(cfg, acts, s) && s.pc.Done? && s.caller.Joined? && |s.flights| == 1
    ensures FakedSuccess(NextRun(cfg, s), s.flights, next, t)
  {
    acts, s := LeftoverReached(cfg);
    assert s.flights == [s.flights[0]];
    next, t := StaleVerdictFakesSuccess(NextRun(cfg, s), s.flights[0]);
  }
}
