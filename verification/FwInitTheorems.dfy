/** What every run of the firmware-init handshake guarantees. */
module FwInitTheorems {
  import opened Base
  import opened HciPackets
  import opened FwInit
  import opened FwInitInvariant

  // ----- safety of every interleaving -----

  /** At most one HCI command is outstanding, and whenever a completion is checked `wOpCode` is the
      opcode of the command it completes, the last one sent. */
  lemma OneOutstandingCommand(cfg: Config, acts: seq<Action>, s: State, k: nat, evt: seq<Byte>)
    requires Reaches(cfg, acts, s)
    ensures |s.flights| <= 1 && |s.sent| - 1 <= |s.answers| <= |s.sent|
    ensures Enabled(cfg, s, Deliver(k, evt)) ==>
              && k == 0 && s.sent != [] && s.flights[k].cmd == s.sent[|s.sent| - 1].cmd
              && s.opcode == Opcode(s.flights[k].cmd)
  {
    ReachInv(cfg, acts, s);
  }

  /** No lost wake-up: a worker inside the wait still has its completion to come. */
  lemma NoLostWakeup(cfg: Config, acts: seq<Action>, s: State)
    requires Reaches(cfg, acts, s)
    ensures s.pc.Blocked? ==> s.status.CmdPending? && |s.flights| == 1
  {
    ReachInv(cfg, acts, s);
  }

  /** The result is reported exactly once when callbacks are set, at the end of the run. */
  lemma ReportedOnce(cfg: Config, acts: seq<Action>, s: State)
    requires Reaches(cfg, acts, s)
    ensures |s.reported| == if cfg.callbacks && (s.pc.Finish? || s.pc.Done?) then 1 else 0
  {
    ReachInv(cfg, acts, s);
  }

  /** SUCCESS only if exactly the planned commands were sent, in order, each answered by a Command
      Complete with its opcode and status 0. */
  lemma SuccessMeansPlanDone(cfg: Config, acts: seq<Action>, s: State)
    requires Reaches(cfg, acts, s) && VndSuccess in s.reported
    ensures cfg.script != [] && Commands(s.sent) == Plan(cfg) && |s.answers| == |s.sent|
    ensures AllGood(s.sent, s.answers, |s.sent|)
    ensures forall k: nat {:trigger s.answers[k]} :: k < |s.sent| ==>
      && |s.answers[k]| >= 6 && s.answers[k][0] == 0x0E && s.answers[k][5] == 0
      && s.answers[k][4] as int * 256 + s.answers[k][3] as int == Opcode(s.sent[k].cmd)
  {
    ReachInv(cfg, acts, s);
    forall k: nat | k < |s.sent| ensures Completes(s.answers[k], Opcode(s.sent[k].cmd)) {
      assert Good(s.sent, s.answers, k);
    }
  }

  /** Conversely: with all answers good, no allocation or transmit failure, no terminate and no
      TERMINATE left over, the run of a known chip reports SUCCESS. */
  lemma GoodRunReportsSuccess(cfg: Config, acts: seq<Action>, s: State)
    requires Reaches(cfg, acts, s) && s.pc.Done? && cfg.callbacks && cfg.script != []
    requires !s.failed && !s.notified && !cfg.leftoverStatus.CmdTerminate?
    requires forall k: nat {:trigger s.answers[k]} :: k < |s.answers| && k < |s.sent| ==>
      && |s.answers[k]| >= 6 && s.answers[k][0] == 0x0E && s.answers[k][5] == 0
      && s.answers[k][4] as int * 256 + s.answers[k][3] as int == Opcode(s.sent[k].cmd)
    ensures s.reported == [VndSuccess]
  {
    forall k: nat | k < |s.answers| <= |s.sent| ensures Good(s.sent, s.answers, k) {
      assert |s.answers[k]| >= 6;
    }
    ReachInv(cfg, acts, s);
  }

  /** Only a successful transmit changes what has been sent, by appending one packet. */
  lemma StepSends(cfg: Config, s: State, a: Action)
    requires Enabled(cfg, s, a)
    ensures Step(cfg, s, a).sent ==
            if a == Transmit(true)
            then s.sent + [Sent(cfg.script[s.i], s.nvram)] else s.sent
  {
    match a
    case TestLoop => assert StepTestLoop(cfg, s).sent == s.sent;
    case EnterWait => assert StepEnterWait(s).sent == s.sent;
    case SetOpcode(r0, r1, r5) => assert StepSetOpcode(cfg, s, r0, r1, r5).sent == s.sent;
    case Deliver(k, evt) => assert StepDeliver(s, k, evt).sent == s.sent;
    case _ =>
  }

  /** Only a completion adds an answer; only it and the builders touch the NVRAM copy. */
  lemma StepAnswers(cfg: Config, s: State, a: Action)
    requires Enabled(cfg, s, a) && !a.Deliver?
    ensures Step(cfg, s, a).answers == s.answers
  {
    match a
    case TestLoop => assert StepTestLoop(cfg, s).answers == s.answers;
    case EnterWait => assert StepEnterWait(s).answers == s.answers;
    case _ =>
  }

  lemma StepNvram(cfg: Config, s: State, a: Action)
    requires Enabled(cfg, s, a) && !a.Deliver? && !a.SetOpcode?
    ensures Step(cfg, s, a).nvram == s.nvram
  {
    match a
    case TestLoop => assert StepTestLoop(cfg, s).nvram == s.nvram;
    case EnterWait => assert StepEnterWait(s).nvram == s.nvram;
    case _ =>
  }

  /** The bytes handed to `xmit_cb`. */
  function Bytes(cfg: Config, x: Sent): seq<Byte>
    requires x.nvram.Valid()
  {
    Packet(x.cmd, cfg.chip, x.nvram)
  }

  ghost predicate AllValid(sent: seq<Sent>) { forall k :: 0 <= k < |sent| ==> sent[k].nvram.Valid() }

  lemma {:induction false} AllValidExec(cfg: Config, s: State, acts: seq<Action>)
    requires AllValid(s.sent) && Exec(cfg, s, acts).Some?
    ensures AllValid(Exec(cfg, s, acts).value.sent)
    decreases acts
  {
    if acts != [] {
      StepSends(cfg, s, acts[0]);
      AllValidExec(cfg, Step(cfg, s, acts[0]), acts[1..]);
    }
  }

  /** Every packet sent is a well-formed HCI command packet with its command's opcode. */
  lemma SentPacketsDecode(cfg: Config, acts: seq<Action>, s: State, k: nat)
    requires Reaches(cfg, acts, s) && k < |s.sent|
    ensures s.sent[k].nvram.Valid() && |Bytes(cfg, s.sent[k])| <= HCI_CMD_MAX_SIZE
    ensures Decode(Bytes(cfg, s.sent[k])).Decoded? && Decode(Bytes(cfg, s.sent[k])).opcode == Opcode(s.sent[k].cmd)
  {
    AllValidExec(cfg, Init(cfg), acts);
    PacketWellFormed(s.sent[k].cmd, cfg.chip, s.sent[k].nvram);
  }

  // ----- the NVRAM record and the address that are sent -----

  /** Whether the run starts with Read BD_ADDR. */
  predicate StartsWithRead(cfg: Config) { cfg.combo && StartIndex(cfg) == 0 }

  /** Read BD_ADDR is planned first from entry 0 of a combo script, and nowhere else. */
  lemma {:induction false} PlannedOrder(cfg: Config, hi: nat)
    requires WellShaped(cfg.combo, cfg.script) && StartsWithRead(cfg) && hi <= |cfg.script|
    ensures var p := Planned(cfg, 0, hi);
            && (forall k :: 0 <= k < |p| ==> (p[k] == GetLocalBdAddr <==> k == 0))
            && (if hi <= 2 then |p| == hi else |p| >= 2) && (|p| >= 2 ==> p[1] == SetLocalBdAddr)
  {
    if hi > 0 {
      PlannedOrder(cfg, hi - 1);
    }
  }

  lemma {:induction false} PlannedWithoutRead(cfg: Config, hi: nat)
    requires WellShaped(cfg.combo, cfg.script) && !StartsWithRead(cfg) && hi <= |cfg.script|
    ensures GetLocalBdAddr !in Planned(cfg, StartIndex(cfg), hi)
  {
    if hi > 0 {
      PlannedWithoutRead(cfg, hi - 1);
    }
  }

  lemma SentOrder(cfg: Config, s: State)
    requires cfg.Valid() && Inv(cfg, StartIndex(cfg), s)
    ensures forall k :: 0 <= k < |s.sent| ==> (s.sent[k].cmd == GetLocalBdAddr <==> StartsWithRead(cfg) && k == 0)
    ensures StartsWithRead(cfg) && |s.sent| >= 2 ==> s.sent[1].cmd == SetLocalBdAddr
  {
    if StartsWithRead(cfg) { PlannedOrder(cfg, s.i); } else { PlannedWithoutRead(cfg, s.i); }
    if s.i < |cfg.script| && StartsWithRead(cfg) { PlannedOrder(cfg, s.i + 1); }
    assert forall k :: 0 <= k < |s.sent| ==> s.sent[k].cmd == Commands(s.sent)[k];
  }

  /** The module's own address once Read BD_ADDR was answered, the NVRAM record's otherwise. */
  function BaseAddr(cfg: Config, answers: seq<seq<Byte>>): seq<Byte> {
    if StartsWithRead(cfg) && answers != [] && |answers[0]| >= 12 then AddressOf(answers[0]) else cfg.nvram.addr
  }

  /** What is sent for an address: the address itself, or, for a blank one in a build that generates
      addresses, one with its middle bytes and the lowest two bits of the first byte set to 10. */
  predicate SentFor(cfg: Config, base: seq<Byte>, addr: seq<Byte>) {
    |addr| == |base| == 6 &&
      if cfg.autogen && (base == cfg.defaultAddr || base == [0, 0, 0, 0, 0, 0])
      then addr[0] % 4 == 2 && addr[2] == base[2] && addr[3] == base[3] && addr[4] == base[4]
      else addr == base
  }

  /** A copy of the run's NVRAM record with another address. */
  predicate Readdressed(cfg: Config, nv: Nvram) { nv == cfg.nvram.(addr := nv.addr) }

  ghost predicate SentKept(cfg: Config, base: seq<Byte>, sent: seq<Sent>) {
    forall k :: 0 <= k < |sent| ==>
      Readdressed(cfg, sent[k].nvram) && (sent[k].cmd == SetLocalBdAddr ==> SentFor(cfg, base, sent[k].nvram.addr))
  }

  /** The copy a builder may work on, and the one it hands over with Set_Local_BD_Addr. */
  ghost predicate CopyKept(cfg: Config, base: seq<Byte>, nv: Nvram, handingOver: bool) {
    && Readdressed(cfg, nv) && (nv.addr == base || SentFor(cfg, base, nv.addr))
    && (handingOver ==> SentFor(cfg, base, nv.addr))
  }

  predicate HandsOverAddr(cfg: Config, s: State) {
    s.pc.Xmit? && s.i < |cfg.script| && cfg.script[s.i] == SetLocalBdAddr
  }

  /** Nothing but the address of the NVRAM copy ever changes, and the address is the run's. */
  ghost predicate NvramKept(cfg: Config, s: State) {
    && (StartsWithRead(cfg) && s.answers != [] ==> |s.answers[0]| >= 12)
    && CopyKept(cfg, BaseAddr(cfg, s.answers), s.nvram, HandsOverAddr(cfg, s))
    && SentKept(cfg, BaseAddr(cfg, s.answers), s.sent)
  }

  /** Read BD_ADDR is answered by the first answer of a run that starts with it, and by no other. */
  lemma DeliversRead(cfg: Config, s: State, k: nat, evt: seq<Byte>)
    requires cfg.Valid() && Inv(cfg, StartIndex(cfg), s) && Enabled(cfg, s, Deliver(k, evt))
    ensures !s.pc.Xmit?
    ensures s.flights[k].cmd == GetLocalBdAddr <==> StartsWithRead(cfg) && s.answers == []
    ensures StartsWithRead(cfg) && s.answers == [] ==> |s.sent| == 1 && s.sent[0].cmd == GetLocalBdAddr
  {
    SentOrder(cfg, s);
    assert |s.sent| == |s.answers| + 1 && s.flights[k].cmd == s.sent[|s.sent| - 1].cmd;
  }

  lemma NvramAnswered(cfg: Config, s: State, t: State, evt: seq<Byte>)
    requires NvramKept(cfg, s) && StartsWithRead(cfg) && s.answers == [] && |evt| >= 12
    requires |s.sent| == 1 && s.sent[0].cmd == GetLocalBdAddr
    requires !t.pc.Xmit? && t.sent == s.sent && t.answers == [evt] && t.nvram == s.nvram.(addr := AddressOf(evt))
    ensures NvramKept(cfg, t)
  {
  }

  lemma NvramOtherAnswer(cfg: Config, s: State, t: State, evt: seq<Byte>)
    requires NvramKept(cfg, s) && (StartsWithRead(cfg) ==> s.answers != [])
    requires !t.pc.Xmit? && t.sent == s.sent && t.answers == s.answers + [evt] && t.nvram == s.nvram
    ensures NvramKept(cfg, t)
  {
    assert s.answers != [] ==> t.answers[0] == s.answers[0];
    assert BaseAddr(cfg, t.answers) == BaseAddr(cfg, s.answers);
  }

  lemma NvramDeliver(cfg: Config, s: State, k: nat, evt: seq<Byte>)
    requires cfg.Valid() && Inv(cfg, StartIndex(cfg), s) && NvramKept(cfg, s) && Enabled(cfg, s, Deliver(k, evt))
    ensures NvramKept(cfg, StepDeliver(s, k, evt))
  {
    var t := StepDeliver(s, k, evt);
    DeliversRead(cfg, s, k, evt);
    assert t.pc == s.pc && t.sent == s.sent && t.answers == s.answers + [evt];
    if StartsWithRead(cfg) && s.answers == [] {
      NvramAnswered(cfg, s, t, evt);
    } else {
      NvramOtherAnswer(cfg, s, t, evt);
    }
  }

  lemma RandomizedIsSentFor(cfg: Config, base: seq<Byte>, addr: seq<Byte>, r0: Byte, r1: Byte, r5: Byte)
    requires |base| == 6 && (addr == base || SentFor(cfg, base, addr)) && r0 % 4 == 2
    ensures SentFor(cfg, base, if cfg.autogen && IsBlank(cfg, addr) then Randomized(addr, r0, r1, r5) else addr)
  {
  }

  lemma NvramSetOpcode(cfg: Config, s: State, r0: Byte, r1: Byte, r5: Byte)
    requires cfg.Valid() && NvramKept(cfg, s) && Enabled(cfg, s, SetOpcode(r0, r1, r5))
    ensures NvramKept(cfg, StepSetOpcode(cfg, s, r0, r1, r5))
  {
    var t := StepSetOpcode(cfg, s, r0, r1, r5);
    assert t.answers == s.answers && t.sent == s.sent && t.i == s.i;
    if cfg.script[s.i] == SetLocalBdAddr {
      RandomizedIsSentFor(cfg, BaseAddr(cfg, s.answers), s.nvram.addr, r0, r1, r5);
    } else {
      assert t.nvram == s.nvram && !HandsOverAddr(cfg, t);
    }
  }

  lemma NvramTransmit(cfg: Config, s: State, ok: bool)
    requires cfg.Valid() && NvramKept(cfg, s) && Enabled(cfg, s, Transmit(ok))
    ensures NvramKept(cfg, StepTransmit(cfg, s, ok))
  {
    var t := StepTransmit(cfg, s, ok);
    assert t.answers == s.answers && t.nvram == s.nvram && !t.pc.Xmit?;
  }

  /** The worker is in Xmit only after SetOpcode. */
  lemma StepXmit(cfg: Config, s: State, a: Action)
    requires Enabled(cfg, s, a) && !a.SetOpcode?
    ensures Step(cfg, s, a).pc.Xmit? ==> s.pc.Xmit? && Step(cfg, s, a).i == s.i
  {
    match a
    case TestLoop => assert !StepTestLoop(cfg, s).pc.Xmit?;
    case EnterWait => assert !StepEnterWait(s).pc.Xmit?;
    case BootWorker => assert !StepBoot(cfg, s).pc.Xmit?;
    case Deliver(k, evt) => assert StepDeliver(s, k, evt).pc == s.pc && StepDeliver(s, k, evt).i == s.i;
    case _ =>
  }

  lemma NvramStep(cfg: Config, s: State, a: Action)
    requires cfg.Valid() && Inv(cfg, StartIndex(cfg), s) && NvramKept(cfg, s) && Enabled(cfg, s, a)
    ensures NvramKept(cfg, Step(cfg, s, a))
  {
    match a
    case Deliver(k, evt) => NvramDeliver(cfg, s, k, evt);
    case SetOpcode(r0, r1, r5) => NvramSetOpcode(cfg, s, r0, r1, r5);
    case Transmit(ok) => NvramTransmit(cfg, s, ok);
    case _ => NvramUnchanged(cfg, s, a);
  }

  lemma NvramUnchanged(cfg: Config, s: State, a: Action)
    requires NvramKept(cfg, s) && Enabled(cfg, s, a) && !a.Deliver? && !a.SetOpcode? && !a.Transmit?
    ensures NvramKept(cfg, Step(cfg, s, a))
  {
    StepSends(cfg, s, a);
    StepAnswers(cfg, s, a);
    StepNvram(cfg, s, a);
    StepXmit(cfg, s, a);
    NvramSame(cfg, s, Step(cfg, s, a));
  }

  lemma NvramSame(cfg: Config, s: State, t: State)
    requires NvramKept(cfg, s) && t.sent == s.sent && t.answers == s.answers && t.nvram == s.nvram
    requires t.pc.Xmit? ==> s.pc.Xmit? && t.i == s.i
    ensures NvramKept(cfg, t)
  {
  }

  lemma {:induction false} NvramExec(cfg: Config, s: State, acts: seq<Action>)
    requires cfg.Valid() && Inv(cfg, StartIndex(cfg), s) && NvramKept(cfg, s) && Exec(cfg, s, acts).Some?
    ensures NvramKept(cfg, Exec(cfg, s, acts).value)
    decreases acts
  {
    if acts != [] {
      NvramStep(cfg, s, acts[0]);
      InvStep(cfg, s, acts[0]);
      NvramExec(cfg, Step(cfg, s, acts[0]), acts[1..]);
    }
  }

  lemma ReachNvram(cfg: Config, acts: seq<Action>, s: State)
    requires Reaches(cfg, acts, s)
    ensures NvramKept(cfg, s)
  {
    InvInit(cfg);
    NvramExec(cfg, Init(cfg), acts);
  }

  // ----- the wish for the module's address -----

  predicate AddressSent(sent: seq<Sent>) { exists k :: 0 <= k < |sent| && sent[k].cmd == SetLocalBdAddr }

  /** What the run makes of the flag at its start. */
  predicate Wish(cfg: Config) {
    cfg.leftoverEfuse ||
      (cfg.combo && (cfg.nvram.addr == cfg.defaultAddr || cfg.nvram.addr == [0, 0, 0, 0, 0, 0]))
  }

  ghost predicate WishKept(cfg: Config, s: State) {
    && (s.pc.Boot? ==> s.getEfuse == cfg.leftoverEfuse && s.sent == [])
    && (s.getEfuse ==> Wish(cfg) && !AddressSent(s.sent) && !HandsOverAddr(cfg, s))
    && (!s.pc.Boot? && !s.failed && Wish(cfg) && !AddressSent(s.sent) && !HandsOverAddr(cfg, s) ==> s.getEfuse)
  }

  lemma StepWish(cfg: Config, s: State, a: Action)
    requires Enabled(cfg, s, a) && !a.BootWorker? && !a.SetOpcode? && !a.Transmit?
    ensures var t := Step(cfg, s, a);
      && t.getEfuse == s.getEfuse && (s.failed ==> t.failed) && t.pc.Boot? == s.pc.Boot?
      && t.pc.Xmit? == s.pc.Xmit? && (s.pc.Xmit? ==> t.i == s.i)
  {
    match a
    case TestLoop => assert StepTestLoop(cfg, s).getEfuse == s.getEfuse && !StepTestLoop(cfg, s).pc.Xmit?;
    case EnterWait => assert StepEnterWait(s).getEfuse == s.getEfuse && !StepEnterWait(s).pc.Xmit?;
    case Deliver(k, evt) => assert StepDeliver(s, k, evt).pc == s.pc && StepDeliver(s, k, evt).i == s.i;
    case _ =>
  }

  lemma WishTransmit(cfg: Config, s: State, ok: bool)
    requires WishKept(cfg, s) && Enabled(cfg, s, Transmit(ok))
    ensures WishKept(cfg, StepTransmit(cfg, s, ok))
  {
    var t := StepTransmit(cfg, s, ok);
    if ok {
      assert t.sent[|s.sent|].cmd == cfg.script[s.i];
      assert forall k :: 0 <= k < |s.sent| ==> t.sent[k] == s.sent[k];
    }
  }

  lemma WishStep(cfg: Config, s: State, a: Action)
    requires cfg.Valid() && WishKept(cfg, s) && Enabled(cfg, s, a)
    ensures WishKept(cfg, Step(cfg, s, a))
  {
    match a
    case BootWorker => assert WishKept(cfg, StepBoot(cfg, s));
    case SetOpcode(r0, r1, r5) => WishSetOpcode(cfg, s, r0, r1, r5);
    case Transmit(ok) => WishTransmit(cfg, s, ok);
    case _ => WishUnchanged(cfg, s, a);
  }

  lemma WishSetOpcode(cfg: Config, s: State, r0: Byte, r1: Byte, r5: Byte)
    requires WishKept(cfg, s) && Enabled(cfg, s, SetOpcode(r0, r1, r5))
    ensures WishKept(cfg, StepSetOpcode(cfg, s, r0, r1, r5))
  {
  }

  lemma WishUnchanged(cfg: Config, s: State, a: Action)
    requires WishKept(cfg, s) && Enabled(cfg, s, a) && !a.BootWorker? && !a.SetOpcode? && !a.Transmit?
    ensures WishKept(cfg, Step(cfg, s, a))
  {
    StepSends(cfg, s, a);
    StepWish(cfg, s, a);
  }

  lemma {:induction false} WishExec(cfg: Config, s: State, acts: seq<Action>)
    requires cfg.Valid() && WishKept(cfg, s) && Exec(cfg, s, acts).Some?
    ensures WishKept(cfg, Exec(cfg, s, acts).value)
    decreases acts
  {
    if acts != [] {
      WishStep(cfg, s, acts[0]);
      WishExec(cfg, Step(cfg, s, acts[0]), acts[1..]);
    }
  }

  /** What a run that no buffer or transmit failure stopped leaves to the next: the wish for the module's own
      address, exactly when it had that wish and its address command was not sent. */
  lemma WishLeftBehindIff(cfg: Config, acts: seq<Action>, s: State)
    requires Reaches(cfg, acts, s) && s.pc.Done?
    ensures s.getEfuse ==> Wish(cfg) && !AddressSent(s.sent)
    ensures !s.failed ==> (s.getEfuse <==> Wish(cfg) && !AddressSent(s.sent))
  {
    WishExec(cfg, Init(cfg), acts);
  }

  /** An eFUSE address goes back out in 0xFC1A byte for byte as the Read BD_ADDR return carried it,
      unless it is blank and the build generates random addresses. */
  lemma EfuseAddressSentBack(cfg: Config, acts: seq<Action>, s: State)
    requires Reaches(cfg, acts, s) && cfg.combo && StartIndex(cfg) == 0 && |s.sent| >= 2
    ensures |s.answers| >= 1 && |s.answers[0]| >= 12 && s.sent[1].nvram.Valid()
    ensures (cfg.autogen ==> !IsBlank(cfg, AddressOf(s.answers[0]))) ==>
              Bytes(cfg, s.sent[1]) == [0x1A, 0xFC, 6] + s.answers[0][6..12]
  {
    ReachNvram(cfg, acts, s);
    ReachInv(cfg, acts, s);
    SentPacketsDecode(cfg, acts, s, 1);
    SentOrder(cfg, s);
    if s.sent[1].nvram.addr == AddressOf(s.answers[0]) {
      AddressRoundTrip(s.answers[0], cfg.chip, s.sent[1].nvram);
    }
  }

  // ----- terminate -----

  /** The first entry from j on that is not skipped, or the end of the script. */
  function NextCommand(cfg: Config, j: nat): (r: nat)
    requires j <= |cfg.script|
    ensures j <= r <= |cfg.script|
    decreases |cfg.script| - j
  {
    if j < |cfg.script| && Skipped(cfg, cfg.script[j]) then NextCommand(cfg, j + 1) else j
  }

  /** A terminate landing here can be overtaken: the worker is handing a command over, or awaits a
      completion that can still store SUCCESS over the request while commands remain. */
  ghost predicate Overtakable(cfg: Config, s: State) {
    || InBuilder(s.pc)
    || (InWait(s.pc) && s.i < |cfg.script| && NextCommand(cfg, s.i + 1) < |cfg.script| &&
        |s.flights| == 1 && (s.flights[0].Checked? ==> s.flights[0].ok))
  }

  /** No continuation from here sends anything. */
  ghost predicate Doomed(cfg: Config, s: State) {
    || Leaving(s.pc)
    || (s.status.CmdTerminate? && !InBuilder(s.pc) && s.flights == [])
    || (InWait(s.pc) && s.status.CmdFail? && s.flights == [])
    || (InWait(s.pc) && !s.status.CmdSuccess? && |s.flights| == 1 && s.flights[0].Checked? && !s.flights[0].ok)
    || (InWait(s.pc) && s.i < |cfg.script| && NextCommand(cfg, s.i + 1) == |cfg.script|)
    || (s.pc.LoopTop? && s.i <= |cfg.script| && NextCommand(cfg, s.i) == |cfg.script|)
  }

  lemma DoomedEnterWait(cfg: Config, s: State)
    requires Doomed(cfg, s) && s.pc.WaitLock?
    ensures Doomed(cfg, StepEnterWait(s))
  {
    match s.status
    case CmdPending => assert Doomed(cfg, s.(pc := Blocked));
    case CmdSuccess => assert Doomed(cfg, s.(pc := LoopTop, i := s.i + 1));
    case _ =>
  }

  lemma DoomedTestLoop(cfg: Config, s: State)
    requires Doomed(cfg, s) && s.pc.LoopTop?
    ensures Doomed(cfg, StepTestLoop(cfg, s))
  {
  }

  lemma DoomedDeliver(cfg: Config, s: State, k: nat, evt: seq<Byte>)
    requires Doomed(cfg, s) && Enabled(cfg, s, Deliver(k, evt))
    ensures Doomed(cfg, StepDeliver(s, k, evt))
  {
  }

  lemma DoomedCommit(cfg: Config, s: State, k: nat)
    requires Doomed(cfg, s) && Enabled(cfg, s, Commit(k))
    ensures Doomed(cfg, StepCommit(s, k))
  {
  }

  lemma DoomedNotify(cfg: Config, s: State)
    requires Doomed(cfg, s)
    ensures Doomed(cfg, StepNotify(s))
  {
  }

  lemma DoomedStep(cfg: Config, s: State, a: Action)
    requires Doomed(cfg, s) && Enabled(cfg, s, a)
    ensures Doomed(cfg, Step(cfg, s, a))
  {
    match a
    case BootWorker => assert Doomed(cfg, StepBoot(cfg, s));
    case TestLoop => DoomedTestLoop(cfg, s);
    case AllocBuffer(ok) => assert Doomed(cfg, StepAlloc(s, ok));
    case ArmCommand => assert Doomed(cfg, StepArm(s));
    case EnterWait => DoomedEnterWait(cfg, s);
    case Deliver(k, evt) => DoomedDeliver(cfg, s, k, evt);
    case Commit(k) => DoomedCommit(cfg, s, k);
    case NotifyExit => DoomedNotify(cfg, s);
    case _ =>
  }

  lemma {:induction false} DoomedExec(cfg: Config, s: State, acts: seq<Action>)
    requires Doomed(cfg, s) && Exec(cfg, s, acts).Some?
    ensures Exec(cfg, s, acts).value.sent == s.sent
    decreases acts
  {
    if acts != [] {
      DoomedStep(cfg, s, acts[0]);
      StepSends(cfg, s, acts[0]);
      DoomedExec(cfg, Step(cfg, s, acts[0]), acts[1..]);
    }
  }

  /** Some continuation from here sends another command. */
  ghost predicate CanSend(cfg: Config, s: State) {
    exists more :: Exec(cfg, s, more).Some? && |Exec(cfg, s, more).value.sent| > |s.sent|
  }

  lemma CanSendAfter(cfg: Config, s: State, a: Action, t: State)
    requires Enabled(cfg, s, a) && t == Step(cfg, s, a) && |t.sent| >= |s.sent| && CanSend(cfg, t)
    ensures CanSend(cfg, s)
  {
    var more :| Exec(cfg, t, more).Some? && |Exec(cfg, t, more).value.sent| > |t.sent|;
    assert ([a] + more)[1..] == more;
    assert Exec(cfg, s, [a] + more) == Exec(cfg, t, more);
  }

  lemma CanSendFromXmit(cfg: Config, s: State)
    requires s.pc.Xmit? && s.i < |cfg.script| && s.nvram.Valid()
    ensures CanSend(cfg, s)
  {
    var acts := [Transmit(true)];
    assert Exec(cfg, s, acts) == Exec(cfg, StepTransmit(cfg, s, true), acts[1..]);
  }

  lemma CanSendFromBuilder(cfg: Config, s: State)
    requires InBuilder(s.pc) && s.i < |cfg.script| && s.nvram.Valid()
    ensures CanSend(cfg, s)
  {
    if s.pc.SetOp? {
      var t := StepSetOpcode(cfg, s, 2, 0, 0);
      assert t.pc.Xmit? && t.i == s.i && t.sent == s.sent && t.nvram.Valid();
      CanSendFromXmit(cfg, t);
      CanSendAfter(cfg, s, SetOpcode(2, 0, 0), t);
    } else {
      CanSendFromXmit(cfg, s);
    }
  }

  lemma CanSendFromAlloc(cfg: Config, s: State)
    requires s.pc.Alloc? && !s.status.CmdTerminate? && s.nvram.Valid() && cfg.callbacks && s.i < |cfg.script|
    ensures CanSend(cfg, s)
  {
    var t := s.(pc := Arm);
    CanSendFromBuilder(cfg, t.(status := CmdPending, pc := SetOp));
    CanSendAfter(cfg, t, ArmCommand, t.(status := CmdPending, pc := SetOp));
    CanSendAfter(cfg, s, AllocBuffer(true), t);
  }

  lemma {:induction false} CanSendFromLoop(cfg: Config, s: State)
    requires s.pc.LoopTop? && !s.status.CmdTerminate? && s.nvram.Valid()
    requires cfg.callbacks && s.i <= |cfg.script| && NextCommand(cfg, s.i) < |cfg.script|
    ensures CanSend(cfg, s)
    decreases |cfg.script| - s.i
  {
    if Skipped(cfg, cfg.script[s.i]) {
      CanSendFromLoop(cfg, s.(i := s.i + 1));
      CanSendAfter(cfg, s, TestLoop, s.(i := s.i + 1));
    } else {
      CanSendFromAlloc(cfg, s.(pc := Alloc));
      CanSendAfter(cfg, s, TestLoop, s.(pc := Alloc));
    }
  }

  /** A Command Complete for the opcode, status 0 and six more bytes. */
  function GoodAnswer(opcode: Opcode16): seq<Byte> {
    [0x0E, 10, 1, opcode % 256, opcode / 256, 0, 0, 0, 0, 0, 0, 0]
  }

  /** From the wait, with the terminate already stored: the verdict overwrites it. */
  lemma CanSendFromCommit(cfg: Config, s: State)
    requires s.pc.WaitLock? && s.nvram.Valid() && cfg.callbacks
    requires |s.flights| == 1 && s.flights[0].Checked? && s.flights[0].ok
    requires s.i < |cfg.script| && NextCommand(cfg, s.i + 1) < |cfg.script|
    ensures CanSend(cfg, s)
  {
    var t := StepCommit(s, 0);
    assert t == s.(status := CmdSuccess, flights := []);
    CanSendFromLoop(cfg, t.(pc := LoopTop, i := t.i + 1));
    CanSendAfter(cfg, t, EnterWait, t.(pc := LoopTop, i := t.i + 1));
    CanSendAfter(cfg, s, Commit(0), t);
  }

  lemma CanSendFromWait(cfg: Config, s: State)
    requires s.pc.WaitLock? && Overtakable(cfg, s) && s.nvram.Valid() && cfg.callbacks
    requires s.flights[0].OnAir? ==> s.opcode == Opcode(s.flights[0].cmd)
    ensures CanSend(cfg, s)
  {
    if s.flights[0].OnAir? {
      var t := StepDeliver(s, 0, GoodAnswer(s.opcode));
      assert t.flights == [Checked(s.flights[0].cmd, true)];
      CanSendFromCommit(cfg, t);
      CanSendAfter(cfg, s, Deliver(0, GoodAnswer(s.opcode)), t);
    } else {
      CanSendFromCommit(cfg, s);
    }
  }

  /** An overtakable terminate is overtaken by some continuation. */
  lemma TerminateOvertaken(cfg: Config, s: State)
    requires Inv(cfg, StartIndex(cfg), s) && s.caller.Notifying? && Overtakable(cfg, s)
    ensures CanSend(cfg, StepNotify(s))
  {
    var t := StepNotify(s);
    if InBuilder(s.pc) {
      assert t.pc == s.pc && t.sent == s.sent;
      CanSendFromBuilder(cfg, t);
    } else {
      CanSendFromWait(cfg, t);
    }
  }

  /** Any other terminate stops the run at once. */
  lemma TerminateDooms(cfg: Config, s: State)
    requires StatusMatches(cfg, s) && s.caller.Notifying? && |s.flights| <= 1
    requires InWait(s.pc) ==> s.i < |cfg.script|
    requires s.flights != [] ==> !InLoop(s.pc) && !s.pc.Boot?
    requires !Overtakable(cfg, s)
    ensures Doomed(cfg, StepNotify(s))
  {
  }

  /** Exactly when a terminate can be lost: some continuation still sends a command if and only if
      it lands while a command is being handed over, or while the completion of one can still store
      SUCCESS over it with commands left to send. */
  lemma TerminateLostIff(cfg: Config, acts: seq<Action>, s: State)
    requires Reaches(cfg, acts, s) && s.caller.Notifying?
    ensures CanSend(cfg, StepNotify(s)) <==> Overtakable(cfg, s)
  {
    ReachInv(cfg, acts, s);
    if Overtakable(cfg, s) {
      TerminateOvertaken(cfg, s);
    } else {
      TerminateDooms(cfg, s);
      DoomedCannotSend(cfg, StepNotify(s));
    }
  }

  lemma DoomedCannotSend(cfg: Config, s: State)
    requires Doomed(cfg, s)
    ensures !CanSend(cfg, s)
  {
    forall more | Exec(cfg, s, more).Some?
      ensures Exec(cfg, s, more).value.sent == s.sent
    {
      DoomedExec(cfg, s, more);
    }
  }

  /** In particular a terminate that lands while no command is pending is never lost: nothing is
      sent after it. */
  lemma TerminateNotPendingHonoured(cfg: Config, acts: seq<Action>, s: State, more: seq<Action>, t: State)
    requires Reaches(cfg, acts, s) && s.caller.Notifying? && !s.status.CmdPending?
    requires Exec(cfg, StepNotify(s), more) == Some(t)
    ensures t.sent == s.sent
  {
    ReachInv(cfg, acts, s);
    TerminateDooms(cfg, s);
    DoomedExec(cfg, StepNotify(s), more);
  }

  // ----- a terminate left for the next run -----

  /** A run that starts with TERMINATE left over sends nothing, reports failure, and leaves
      TERMINATE for the run after it. */
  lemma StickyTerminate(cfg: Config, acts: seq<Action>, s: State)
    requires Reaches(cfg, acts, s) && cfg.leftoverStatus.CmdTerminate?
    ensures s.sent == [] && s.status.CmdTerminate? && VndSuccess !in s.reported
  {
    StickyExec(cfg, Init(cfg), acts);
    ReachInv(cfg, acts, s);
  }

  ghost predicate Sticky(cfg: Config, s: State) {
    && s.sent == [] && s.flights == [] && s.status.CmdTerminate?
    && (s.pc.Boot? || s.pc.LoopTop? || Leaving(s.pc))
    && (s.i < |cfg.script| || cfg.script == [])
  }

  lemma StickyStep(cfg: Config, s: State, a: Action)
    requires cfg.Valid() && Sticky(cfg, s) && Enabled(cfg, s, a)
    ensures Sticky(cfg, Step(cfg, s, a))
  {
    match a
    case BootWorker => assert Sticky(cfg, StepBoot(cfg, s));
    case TestLoop => assert Sticky(cfg, StepTestLoop(cfg, s));
    case ReportResult => assert Sticky(cfg, StepReport(cfg, s));
    case NotifyExit => assert Sticky(cfg, StepNotify(s));
    case _ =>
  }

  lemma {:induction false} StickyExec(cfg: Config, s: State, acts: seq<Action>)
    requires cfg.Valid() && Sticky(cfg, s) && Exec(cfg, s, acts).Some?
    ensures Sticky(cfg, Exec(cfg, s, acts).value)
    decreases acts
  {
    if acts != [] {
      StickyStep(cfg, s, acts[0]);
      StickyExec(cfg, Step(cfg, s, acts[0]), acts[1..]);
    }
  }

  ghost predicate Poisoned(s: State) {
    s.status.CmdTerminate? && s.flights == [] && !InBuilder(s.pc) && !InWait(s.pc)
  }

  lemma PoisonedStep(cfg: Config, s: State, a: Action)
    requires Poisoned(s) && Enabled(cfg, s, a)
    ensures Poisoned(Step(cfg, s, a))
  {
    match a
    case BootWorker => assert Poisoned(StepBoot(cfg, s));
    case TestLoop => assert Poisoned(StepTestLoop(cfg, s));
    case _ =>
  }

  lemma {:induction false} PoisonedExec(cfg: Config, s: State, acts: seq<Action>)
    requires Poisoned(s) && Exec(cfg, s, acts).Some?
    ensures Poisoned(Exec(cfg, s, acts).value)
    decreases acts
  {
    if acts != [] {
      PoisonedStep(cfg, s, acts[0]);
      PoisonedExec(cfg, Step(cfg, s, acts[0]), acts[1..]);
    }
  }

  /** A worker that finds TERMINATE in its wait restores the variable. */
  ghost predicate Restored(s: State) { CleanedUp(s.caller) && (s.status.CmdTerminate? ==> InWait(s.pc)) }

  lemma RestoredStep(cfg: Config, s: State, a: Action)
    requires Restored(s) && Enabled(cfg, s, a)
    ensures Restored(Step(cfg, s, a))
  {
    match a
    case TestLoop => assert Restored(StepTestLoop(cfg, s));
    case EnterWait => assert Restored(StepEnterWait(s));
    case BootWorker => assert Restored(StepBoot(cfg, s));
    case _ =>
  }

  lemma {:induction false} RestoredExec(cfg: Config, s: State, acts: seq<Action>)
    requires Restored(s) && Exec(cfg, s, acts).Some?
    ensures Restored(Exec(cfg, s, acts).value)
    decreases acts
  {
    if acts != [] {
      RestoredStep(cfg, s, acts[0]);
      RestoredExec(cfg, Step(cfg, s, acts[0]), acts[1..]);
    }
  }

  /** After a terminate that lands while a command is being handed over, with `base` sent by then: the
      command is still in hand, or its transmission failed and the worker leaves, or it was sent and
      the worker will find the terminate, or the completion's verdict on top of it, in its wait. */
  ghost predicate HandedOver(s: State, base: seq<Sent>) {
    && CleanedUp(s.caller)
    && (|| (InBuilder(s.pc) && s.status.CmdTerminate? && s.flights == [] && s.sent == base)
        || (Leaving(s.pc) && s.status.CmdTerminate? && s.flights == [] && s.sent == base)
        || (Restored(s) && |s.sent| > |base|))
  }

  lemma HandedOverStep(cfg: Config, s: State, base: seq<Sent>, a: Action)
    requires HandedOver(s, base) && Enabled(cfg, s, a)
    ensures HandedOver(Step(cfg, s, a), base)
  {
    if Restored(s) && |s.sent| > |base| {
      RestoredStep(cfg, s, a);
      StepSends(cfg, s, a);
    } else {
      match a
      case SetOpcode(r0, r1, r5) => assert HandedOver(StepSetOpcode(cfg, s, r0, r1, r5), base);
      case Transmit(ok) => assert HandedOver(StepTransmit(cfg, s, ok), base);
      case ReportResult => assert HandedOver(StepReport(cfg, s), base);
      case _ =>
    }
  }

  lemma {:induction false} HandedOverExec(cfg: Config, s: State, base: seq<Sent>, acts: seq<Action>)
    requires HandedOver(s, base) && Exec(cfg, s, acts).Some?
    ensures HandedOver(Exec(cfg, s, acts).value, base)
    decreases acts
  {
    if acts != [] {
      HandedOverStep(cfg, s, base, acts[0]);
      HandedOverExec(cfg, Step(cfg, s, acts[0]), base, acts[1..]);
    }
  }

  /** When the variable is not restored "for next time", wherever the terminate lands: in the hand-over of
      a command it is left behind at the end of the run exactly when that command is never
      transmitted, elsewhere exactly when it did not land in the wait. */
  lemma TerminateLeftBehindIff(cfg: Config, acts: seq<Action>, s: State, more: seq<Action>, t: State)
    requires Reaches(cfg, acts, s) && s.caller.Notifying?
    requires Exec(cfg, StepNotify(s), more) == Some(t) && t.pc.Done?
    ensures t.status.CmdTerminate? <==> if InBuilder(s.pc) then t.sent == s.sent else !InWait(s.pc)
  {
    ReachInv(cfg, acts, s);
    if InBuilder(s.pc) {
      HandedOverExec(cfg, StepNotify(s), s.sent, more);
    } else if InWait(s.pc) {
      RestoredExec(cfg, StepNotify(s), more);
    } else {
      PoisonedExec(cfg, StepNotify(s), more);
    }
  }

  // ----- the worker always finishes -----

  function PcRank(pc: Pc): nat {
    match pc
    case Done => 0
    case Finish => 1
    case Report => 2
    case Blocked => 3
    case WaitLock => 4
    case Xmit => 8
    case SetOp => 9
    case Arm => 10
    case Alloc => 11
    case LoopTop => 12
    case Boot => 13
  }

  function CallerRank(c: Caller): nat {
    match c
    case Joined => 0
    case Joining => 1
    case Notifying => 2
    case Up => 3
    case Starting => 4
  }

  function FlightRank(flights: seq<Flight>): nat {
    if flights == [] then 0 else if flights[0].OnAir? then 3 else 2
  }

  function Measure(cfg: Config, s: State): nat
    requires s.i <= |cfg.script|
  {
    10 * (|cfg.script| - s.i) + PcRank(s.pc) + FlightRank(s.flights) + 2 * CallerRank(s.caller)
  }

  /** A step lowers the measure, except that a spurious wake-up raises it by one. */
  ghost predicate Lowers(cfg: Config, s: State, t: State, amount: int) {
    s.i <= |cfg.script| && t.i <= |cfg.script| && Measure(cfg, t) + amount <= Measure(cfg, s)
  }

  lemma MeasureEnterWait(cfg: Config, s: State)
    requires s.i < |cfg.script| && s.pc.WaitLock?
    ensures Lowers(cfg, s, StepEnterWait(s), 1)
  {
    match s.status
    case CmdPending => assert Lowers(cfg, s, s.(pc := Blocked), 1);
    case CmdSuccess => assert Lowers(cfg, s, s.(pc := LoopTop, i := s.i + 1), 1);
    case _ =>
  }

  lemma MeasureTestLoop(cfg: Config, s: State)
    requires s.i <= |cfg.script| && s.pc.LoopTop?
    ensures Lowers(cfg, s, StepTestLoop(cfg, s), 1)
  {
    if s.i < |cfg.script| && !s.status.CmdTerminate? && Skipped(cfg, cfg.script[s.i]) {
      assert Lowers(cfg, s, s.(i := s.i + 1), 1);
    }
  }

  lemma MeasureBoot(cfg: Config, s: State)
    requires cfg.Valid() && s.i == 0 && s.pc.Boot?
    ensures Lowers(cfg, s, StepBoot(cfg, s), 1)
  {
  }

  lemma MeasureBuilder(cfg: Config, s: State, r0: Byte, r1: Byte, r5: Byte)
    requires s.i < |cfg.script| && s.pc.SetOp? && s.nvram.Valid()
    ensures Lowers(cfg, s, StepSetOpcode(cfg, s, r0, r1, r5), 1)
  {
    var t := StepSetOpcode(cfg, s, r0, r1, r5);
    assert t.pc.Xmit? && t.i == s.i && t.flights == s.flights && t.caller == s.caller;
  }

  lemma MeasureTransmit(cfg: Config, s: State, ok: bool)
    requires s.i < |cfg.script| && s.flights == [] && s.pc.Xmit? && s.nvram.Valid()
    ensures Lowers(cfg, s, StepTransmit(cfg, s, ok), 1)
  {
  }

  lemma MeasureArm(cfg: Config, s: State)
    requires s.i <= |cfg.script| && s.pc.Arm?
    ensures Lowers(cfg, s, StepArm(s), 1)
  {
  }

  lemma MeasureDeliver(cfg: Config, s: State, k: nat, evt: seq<Byte>)
    requires s.i <= |cfg.script| && |s.flights| <= 1 && Enabled(cfg, s, Deliver(k, evt))
    ensures Lowers(cfg, s, StepDeliver(s, k, evt), 1)
  {
    var t := StepDeliver(s, k, evt);
    assert t.pc == s.pc && t.i == s.i && t.caller == s.caller;
    assert FlightRank(s.flights) == 3 && FlightRank(t.flights) == 2;
  }

  lemma MeasureCommit(cfg: Config, s: State, k: nat)
    requires s.i <= |cfg.script| && |s.flights| <= 1 && Enabled(cfg, s, Commit(k))
    ensures Lowers(cfg, s, StepCommit(s, k), 1)
  {
    var t := StepCommit(s, k);
    assert t.i == s.i && t.caller == s.caller && t.flights == [] && FlightRank(s.flights) == 2;
  }

  lemma MeasureNotify(cfg: Config, s: State)
    requires s.i <= |cfg.script| && s.caller.Notifying?
    ensures Lowers(cfg, s, StepNotify(s), 1)
  {
  }

  ghost predicate Places(cfg: Config, s: State) {
    && cfg.Valid() && s.i <= |cfg.script| && (s.pc.Boot? ==> s.i == 0) && (s.pc.WaitLock? ==> s.i < |cfg.script|)
    && |s.flights| <= 1 && (s.pc.Xmit? ==> s.flights == [])
  }

  predicate InBody(a: Action) { a.AllocBuffer? || a.ArmCommand? || a.SetOpcode? || a.Transmit? || a.EnterWait? }

  lemma MeasureBody(cfg: Config, s: State, a: Action)
    requires Places(cfg, s) && Enabled(cfg, s, a) && InBody(a)
    ensures Lowers(cfg, s, Step(cfg, s, a), 1)
  {
    match a
    case AllocBuffer(ok) => assert Lowers(cfg, s, StepAlloc(s, ok), 1);
    case ArmCommand => MeasureArm(cfg, s);
    case SetOpcode(r0, r1, r5) => MeasureBuilder(cfg, s, r0, r1, r5);
    case Transmit(ok) => MeasureTransmit(cfg, s, ok);
    case EnterWait => MeasureEnterWait(cfg, s);
  }

  lemma MeasureStep(cfg: Config, s: State, a: Action)
    requires Places(cfg, s) && Enabled(cfg, s, a)
    ensures Lowers(cfg, s, Step(cfg, s, a), if a.SpuriousWake? then -1 else 1)
  {
    if InBody(a) {
      MeasureBody(cfg, s, a);
    } else {
      match a
      case BootWorker => MeasureBoot(cfg, s);
      case TestLoop => MeasureTestLoop(cfg, s);
      case Deliver(k, evt) => MeasureDeliver(cfg, s, k, evt);
      case Commit(k) => MeasureCommit(cfg, s, k);
      case NotifyExit => MeasureNotify(cfg, s);
      case SpuriousWake => assert Lowers(cfg, s, s.(pc := WaitLock), -1);
      case ReportResult => assert Lowers(cfg, s, StepReport(cfg, s), 1);
      case _ =>
    }
  }

  function Spurious(acts: seq<Action>): nat {
    if acts == [] then 0 else (if acts[0].SpuriousWake? then 1 else 0) + Spurious(acts[1..])
  }

  lemma {:induction false} MeasureExec(cfg: Config, s: State, acts: seq<Action>)
    requires cfg.Valid() && Inv(cfg, StartIndex(cfg), s) && Exec(cfg, s, acts).Some?
    ensures |acts| <= Measure(cfg, s) + 2 * Spurious(acts)
    decreases acts
  {
    if acts != [] {
      MeasureStep(cfg, s, acts[0]);
      InvStep(cfg, s, acts[0]);
      MeasureExec(cfg, Step(cfg, s, acts[0]), acts[1..]);
    }
  }

  /** The worker's next step, or its pending completion's when it is blocked; evt is the answer. */
  function NextAction(cfg: Config, s: State, evt: seq<Byte>): Action {
    match s.pc
    case Boot => BootWorker
    case LoopTop => TestLoop
    case Alloc => AllocBuffer(cfg.callbacks)
    case Arm => ArmCommand
    case SetOp => SetOpcode(2, 0, 0)
    case Xmit => Transmit(true)
    case WaitLock => EnterWait
    case Blocked => if s.flights != [] && s.flights[0].OnAir? then Deliver(0, evt) else Commit(0)
    case Report => ReportResult
    case Finish => FinishWorker
    case Done => Join
  }

  /** If every sent command is answered, by any event, no run gets stuck before the worker's exit:
      the worker, or the completion it waits for, can always take its step. */
  lemma WorkerNeverStuck(cfg: Config, acts: seq<Action>, s: State, evt: seq<Byte>)
    requires Reaches(cfg, acts, s) && |evt| >= 12
    ensures !s.pc.Done? ==> Enabled(cfg, s, NextAction(cfg, s, evt))
  {
    ReachInv(cfg, acts, s);
    InvNotStuck(cfg, s, evt);
  }

  lemma InvNotStuck(cfg: Config, s: State, evt: seq<Byte>)
    requires PlaceMatches(cfg, StartIndex(cfg), s) && s.nvram.Valid() && |evt| >= 12
    requires s.pc.Blocked? ==> s.flights != []
    ensures !s.pc.Done? ==> Enabled(cfg, s, NextAction(cfg, s, evt))
  {
  }

  /** Nothing can happen any more, but for spurious wake-ups. */
  ghost predicate Ended(cfg: Config, s: State) {
    forall a: Action :: Enabled(cfg, s, a) ==> a.SpuriousWake?
  }

  /** Every run that is over has the worker at its exit, joined by the caller, with exactly one report
      when callbacks are set and no completion outstanding. As RunsAreBounded bounds every run by its
      spurious wake-ups, every run with finitely many of them ends so, whatever the answers, the
      failures and the moment of the terminate. */
  lemma RunsEndJoined(cfg: Config, acts: seq<Action>, s: State)
    requires Reaches(cfg, acts, s) && Ended(cfg, s)
    ensures s.pc.Done? && s.caller.Joined? && s.flights == []
    ensures |s.reported| == if cfg.callbacks then 1 else 0
  {
    WorkerEnds(cfg, acts, s);
    CallerEnds(cfg, s);
    OneOutstandingCommand(cfg, acts, s, 0, ZeroEvent());
    CompletionEnds(cfg, s);
    ReportedOnce(cfg, acts, s);
  }

  function ZeroEvent(): (evt: seq<Byte>)
    ensures |evt| == 12
  {
    [0, 0, 0, 0, 0, 0, 0, 0, 0, 0, 0, 0]
  }

  lemma WorkerEnds(cfg: Config, acts: seq<Action>, s: State)
    requires Reaches(cfg, acts, s) && Ended(cfg, s)
    ensures s.pc.Done?
  {
    WorkerNeverStuck(cfg, acts, s, ZeroEvent());
    var a := NextAction(cfg, s, ZeroEvent());
    assert !Enabled(cfg, s, a) || a.SpuriousWake?;
  }

  lemma CallerEnds(cfg: Config, s: State)
    requires Ended(cfg, s) && s.pc.Done?
    ensures s.caller.Joined?
  {
    assert !Enabled(cfg, s, SetRunning) && !Enabled(cfg, s, CheckRunning);
    assert !Enabled(cfg, s, NotifyExit) && !Enabled(cfg, s, Join);
  }

  lemma CompletionEnds(cfg: Config, s: State)
    requires Ended(cfg, s) && |s.flights| <= 1
    ensures s.flights == []
  {
    assert !Enabled(cfg, s, Deliver(0, ZeroEvent())) && !Enabled(cfg, s, Commit(0));
  }

  /** No run is longer than a fixed number of steps plus twice its spurious wake-ups; with
      WorkerNeverStuck, the worker always reaches its exit. */
  lemma RunsAreBounded(cfg: Config, acts: seq<Action>)
    requires cfg.Valid() && Exec(cfg, Init(cfg), acts).Some?
    ensures |acts| <= 10 * |cfg.script| + 21 + 2 * Spurious(acts)
  {
    InvInit(cfg);
    MeasureExec(cfg, Init(cfg), acts);
  }
}
