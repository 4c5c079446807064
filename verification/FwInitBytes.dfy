/** The firmware-init handshake as seen on the wire: packets, opcodes and events in bytes. */
module FwInitBytes {
  import opened Base
  import opened HciPackets
  import opened FwInit
  import opened FwInitInvariant
  import opened FwInitTheorems

  // ----- the opcodes of a run -----

  /** The opcode in a packet's first two bytes. */
  function OpcodeOf(bytes: seq<Byte>): int
    requires |bytes| >= 2
  {
    bytes[1] as int * 256 + bytes[0] as int
  }

  function SentOpcodes(cmds: seq<Command>): (r: seq<int>)
    ensures |r| == |cmds|
  {
    seq(|cmds|, k requires 0 <= k < |cmds| => Opcode(cmds[k]))
  }

  /** What a chip is sent, by its number: the preload scripts of the source, with the two debug commands
      as their properties say. `readFirst` is whether Read BD_ADDR goes first. */
  function OpcodesFor(chip: int, readFirst: bool, sysLog: bool, sspDebug: bool): seq<int> {
    var read := if readFirst then [0x1009] else [];
    var log := if sysLog then [0xFCBE] else [];
    var ssp := if sspDebug then [0x1804] else [];
    if chip == 0x6628 then
      read + [0xFC1A, 0xFC1B, 0xFC75, 0xFC76, 0x0C0A, 0x0C26, 0xFC72, 0xFC79, 0xFC93, 0xFC7A, 0xFC7D,
              0xFC7B, 0xFC7C, 0xFC74, 0xFCFC, 0x0C03, 0xFCFB, 0xFCFB, 0xFCB0] + log
    else if chip == 0x6630 then
      read + [0xFC1A, 0xFC72, 0xFC79, 0xFC93, 0xFC7A, 0xFC22] + log + ssp
    else if chip == 0x6632 then
      read + [0xFC1A, 0xFC72, 0xFC79, 0xFC93, 0xFC7A, 0x0C03] + log + ssp
    else if chip in {0x8163, 0x8127, 0x8167, 0x6582, 0x6592, 0x6752, 0x0321, 0x0335, 0x0337, 0x6580, 0x6570,
                     0x6755, 0x6797, 0x6757, 0x6759, 0x6763, 0x6758, 0x6739, 0x6771, 0x6775} then
      [0xFC1A, 0xFC79, 0xFC93, 0xFC7A, 0x0C03] + log + ssp
    else []
  }

  /** The run's script is its chip's. */
  ghost predicate OnChip(cfg: Config) {
    cfg.script == Script(cfg.chip) && cfg.combo == IsCombo(cfg.chip)
  }

  /** Whether the address bytes of the NVRAM record call for the module's own address, or an earlier run
      left that wish behind. */
  predicate ReadsFirst(cfg: Config) {
    cfg.leftoverEfuse || cfg.nvram.addr == cfg.defaultAddr || cfg.nvram.addr == [0, 0, 0, 0, 0, 0]
  }

  lemma {:induction false} PlannedPlain(cfg: Config, lo: nat, hi: nat)
    requires lo <= hi <= |cfg.script| && forall k :: lo <= k < hi ==> !Skipped(cfg, cfg.script[k])
    ensures Planned(cfg, lo, hi) == cfg.script[lo..hi]
    decreases hi
  {
    if lo < hi {
      PlannedPlain(cfg, lo, hi - 1);
      assert cfg.script[lo..hi] == cfg.script[lo..hi - 1] + [cfg.script[hi - 1]];
    }
  }

  /** A script of n commands that always run, then the debug commands. */
  lemma PlanOf(cfg: Config, n: nat)
    requires StartIndex(cfg) <= n <= |cfg.script| <= n + 2
    requires forall k :: 0 <= k < n ==> cfg.script[k] != SetFwSysLog && cfg.script[k] != SetSspDebugMode
    requires |cfg.script| > n ==> cfg.script[n] == SetFwSysLog
    requires |cfg.script| > n + 1 ==> cfg.script[n + 1] == SetSspDebugMode
    ensures var log := if |cfg.script| > n && cfg.sysLog then [SetFwSysLog] else [];
      var ssp := if |cfg.script| > n + 1 && cfg.sspDebug then [SetSspDebugMode] else [];
      Plan(cfg) == cfg.script[StartIndex(cfg)..n] + log + ssp
  {
    var lo := StartIndex(cfg);
    PlannedPlain(cfg, lo, n);
    if |cfg.script| > n { PlannedNext(cfg, lo, n); }
    if |cfg.script| > n + 1 { PlannedNext(cfg, lo, n + 1); }
  }

  // ----- what each run sends -----

  lemma OpcodesConcat(a: seq<Command>, b: seq<Command>)
    ensures SentOpcodes(a + b) == SentOpcodes(a) + SentOpcodes(b)
  {
  }

  /** The commands of a plan in opcodes: those that always run, and the two debug commands. */
  lemma OpcodesOfPlan(plain: seq<Command>, log: bool, ssp: bool)
    ensures SentOpcodes(plain + (if log then [SetFwSysLog] else []) + (if ssp then [SetSspDebugMode] else []))
         == SentOpcodes(plain) + (if log then [0xFCBE] else []) + (if ssp then [0x1804] else [])
  {
    var a, b := if log then [SetFwSysLog] else [], if ssp then [SetSspDebugMode] else [];
    OpcodesConcat(plain + a, b);
    OpcodesConcat(plain, a);
    assert SentOpcodes(a) == if log then [0xFCBE] else [];
    assert SentOpcodes(b) == if ssp then [0x1804] else [];
  }

  /** A combo script starts with Read BD_ADDR, unless that is passed over. */
  lemma ComboOpcodes(script: seq<Command>, n: nat, lo: nat)
    requires lo <= 1 <= n <= |script| && script[0] == GetLocalBdAddr
    ensures SentOpcodes(script[lo..n]) == (if lo == 0 then [0x1009] else []) + SentOpcodes(script[1..n])
  {
    if lo == 0 {
      assert script[0..n] == [GetLocalBdAddr] + script[1..n];
      OpcodesConcat([GetLocalBdAddr], script[1..n]);
    }
  }

  lemma Opcodes6628()
    ensures SentOpcodes([SetLocalBdAddr, SetLinkKeyType, SetUnitKey, SetEncryption, SetPinCodeType])
         == [0xFC1A, 0xFC1B, 0xFC75, 0xFC76, 0x0C0A]
    ensures SentOpcodes([SetVoice, SetPcm, SetRadio, SetTxPowerOffset, SetSleepTimeout])
         == [0x0C26, 0xFC72, 0xFC79, 0xFC93, 0xFC7A]
    ensures SentOpcodes([SetBtFtr, SetOscInfo, SetLpoInfo, SetPta, SetBlePta])
         == [0xFC7D, 0xFC7B, 0xFC7C, 0xFC74, 0xFCFC]
    ensures SentOpcodes([Reset, SetInternalPta1, SetInternalPta2, SetRfReg100])
         == [0x0C03, 0xFCFB, 0xFCFB, 0xFCB0]
  {
  }

  lemma Plain6628()
    ensures SentOpcodes(Script6628()[1..20])
         == [0xFC1A, 0xFC1B, 0xFC75, 0xFC76, 0x0C0A, 0x0C26, 0xFC72, 0xFC79, 0xFC93, 0xFC7A, 0xFC7D, 0xFC7B,
             0xFC7C, 0xFC74, 0xFCFC, 0x0C03, 0xFCFB, 0xFCFB, 0xFCB0]
  {
    var a := [SetLocalBdAddr, SetLinkKeyType, SetUnitKey, SetEncryption, SetPinCodeType];
    var b := [SetVoice, SetPcm, SetRadio, SetTxPowerOffset, SetSleepTimeout];
    var c := [SetBtFtr, SetOscInfo, SetLpoInfo, SetPta, SetBlePta];
    var d := [Reset, SetInternalPta1, SetInternalPta2, SetRfReg100];
    assert Script6628()[1..20] == a + (b + (c + d));
    Opcodes6628();
    OpcodesConcat(a, b + (c + d));
    OpcodesConcat(b, c + d);
    OpcodesConcat(c, d);
  }

  lemma Plain6630()
    ensures SentOpcodes(Script6630()[1..7])
         == [0xFC1A, 0xFC72, 0xFC79, 0xFC93, 0xFC7A, 0xFC22]
  {
  }

  lemma Plain6632()
    ensures SentOpcodes(Script6632()[1..7])
         == [0xFC1A, 0xFC72, 0xFC79, 0xFC93, 0xFC7A, 0x0C03]
  {
  }

  lemma PlainConsys()
    ensures SentOpcodes(ScriptConsys()[0..5]) == [0xFC1A, 0xFC79, 0xFC93, 0xFC7A, 0x0C03]
  {
  }

  lemma ComboPlan(cfg: Config, n: nat)
    requires OnChip(cfg) && cfg.combo && cfg.chip != 0x6628 && n == 7
    ensures SentOpcodes(Plan(cfg)) == (if ReadsFirst(cfg) then [0x1009] else []) + SentOpcodes(cfg.script[1..7])
         + (if cfg.sysLog then [0xFCBE] else []) + (if cfg.sspDebug then [0x1804] else [])
  {
    PlanOf(cfg, 7);
    OpcodesOfPlan(cfg.script[StartIndex(cfg)..7], cfg.sysLog, cfg.sspDebug);
    ComboOpcodes(cfg.script, 7, StartIndex(cfg));
  }

  lemma Plan6628(cfg: Config)
    requires OnChip(cfg) && cfg.chip == 0x6628
    ensures SentOpcodes(Plan(cfg)) == (if ReadsFirst(cfg) then [0x1009] else []) + SentOpcodes(cfg.script[1..20])
         + (if cfg.sysLog then [0xFCBE] else [])
  {
    PlanOf(cfg, 20);
    OpcodesOfPlan(cfg.script[StartIndex(cfg)..20], cfg.sysLog, false);
    ComboOpcodes(cfg.script, 20, StartIndex(cfg));
  }

  lemma ConsysPlan(cfg: Config)
    requires OnChip(cfg) && IsConsys(cfg.chip) && !IsCombo(cfg.chip)
    ensures SentOpcodes(Plan(cfg)) == SentOpcodes(cfg.script[0..5])
         + (if cfg.sysLog then [0xFCBE] else []) + (if cfg.sspDebug then [0x1804] else [])
  {
    PlanOf(cfg, 5);
    OpcodesOfPlan(cfg.script[0..5], cfg.sysLog, cfg.sspDebug);
  }

  /** The plan of every chip, in opcodes. */
  lemma PlanOpcodes(cfg: Config)
    requires OnChip(cfg)
    ensures SentOpcodes(Plan(cfg)) == OpcodesFor(cfg.chip, ReadsFirst(cfg), cfg.sysLog, cfg.sspDebug)
  {
    if cfg.chip == 0x6628 {
      Plan6628(cfg);
      Plain6628();
    } else if cfg.chip == 0x6630 {
      ComboPlan(cfg, 7);
      Plain6630();
    } else if cfg.chip == 0x6632 {
      ComboPlan(cfg, 7);
      Plain6632();
    } else if IsConsys(cfg.chip) {
      ConsysPlan(cfg);
      PlainConsys();
    }
  }

  lemma {:induction false} PlannedPrefix(cfg: Config, lo: nat, i: nat, hi: nat)
    requires i <= hi <= |cfg.script|
    ensures Planned(cfg, lo, i) <= Planned(cfg, lo, hi)
    decreases hi
  {
    if i < hi {
      PlannedPrefix(cfg, lo, i, hi - 1);
      PlannedNext(cfg, lo, hi - 1);
    }
  }

  lemma SentPlanned(cfg: Config, lo: nat, s: State)
    requires PlaceMatches(cfg, lo, s) && SentMatches(cfg, lo, s) && (s.pc.Boot? ==> s.i == 0)
    ensures Commands(s.sent) == Planned(cfg, lo, s.i) ||
            (s.i < |cfg.script| && Commands(s.sent) == Planned(cfg, lo, s.i + 1))
  {
    if s.i < |cfg.script| {
      PlannedNext(cfg, lo, s.i);
    }
  }

  lemma SentPrefix(cfg: Config, acts: seq<Action>, s: State)
    requires Reaches(cfg, acts, s)
    ensures Commands(s.sent) <= Plan(cfg)
  {
    ReachInv(cfg, acts, s);
    var lo := StartIndex(cfg);
    SentPlanned(cfg, lo, s);
    PlannedPrefix(cfg, lo, s.i, |cfg.script|);
    if s.i < |cfg.script| {
      PlannedPrefix(cfg, lo, s.i + 1, |cfg.script|);
    }
  }

  lemma PacketOpcode(cfg: Config, x: Sent)
    requires x.nvram.Valid()
    ensures |Bytes(cfg, x)| >= 3 && OpcodeOf(Bytes(cfg, x)) == Opcode(x.cmd)
  {
    assert ToStream16(Opcode(x.cmd)) == [Opcode(x.cmd) % 256, Opcode(x.cmd) / 256];
  }

  /** At any moment the packets sent carry the chip's opcodes up to some point, and all of them once SUCCESS
      is reported. On a combo chip the first is Read BD_ADDR exactly when the address bytes are blank or an
      earlier run left that wish. */
  lemma OpcodesOnTheWire(cfg: Config, acts: seq<Action>, s: State)
    requires Reaches(cfg, acts, s) && OnChip(cfg)
    ensures var ops := OpcodesFor(cfg.chip, ReadsFirst(cfg), cfg.sysLog, cfg.sspDebug);
      && |s.sent| <= |ops| && (VndSuccess in s.reported ==> |s.sent| == |ops|)
      && forall k: nat {:trigger s.sent[k]} :: k < |s.sent| ==>
           && s.sent[k].nvram.Valid() && |Bytes(cfg, s.sent[k])| >= 3
           && OpcodeOf(Bytes(cfg, s.sent[k])) == ops[k]
  {
    SentPrefix(cfg, acts, s);
    PlanOpcodes(cfg);
    AllValidExec(cfg, Init(cfg), acts);
    if VndSuccess in s.reported {
      SuccessMeansPlanDone(cfg, acts, s);
    }
    var ops := OpcodesFor(cfg.chip, ReadsFirst(cfg), cfg.sysLog, cfg.sspDebug);
    forall k: nat | k < |s.sent|
      ensures |Bytes(cfg, s.sent[k])| >= 3 && OpcodeOf(Bytes(cfg, s.sent[k])) == ops[k]
    {
      PacketOpcode(cfg, s.sent[k]);
      assert SentOpcodes(Plan(cfg))[k] == Opcode(Plan(cfg)[k]);
    }
  }

  // ----- the events -----

  /** A Command Complete with status 0 for a packet: the packet's first two bytes are repeated. */
  predicate Answers(evt: seq<Byte>, packet: seq<Byte>) {
    && |evt| >= 6 && |packet| >= 2
    && evt[0] == 0x0E && evt[3] == packet[0] && evt[4] == packet[1] && evt[5] == 0
  }

  lemma CompletesAnswers(evt: seq<Byte>, packet: seq<Byte>, opcode: int)
    requires |packet| >= 2 && OpcodeOf(packet) == opcode
    ensures Completes(evt, opcode) == Answers(evt, packet)
  {
  }

  lemma DeliverVerdict(s: State, evt: seq<Byte>)
    requires |s.flights| == 1 && s.flights[0].OnAir? && s.opcode == Opcode(s.flights[0].cmd)
    requires |evt| >= if s.flights[0].cmd == GetLocalBdAddr then 12 else 6
    ensures StepDeliver(s, 0, evt).flights == [Checked(s.flights[0].cmd, Completes(evt, s.opcode))]
  {
  }

  lemma CommitVerdict(s: State)
    requires |s.flights| == 1 && s.flights[0].Checked?
    ensures StepCommit(s, 0).status == if s.flights[0].ok then CmdSuccess else CmdFail
  {
  }

  /** The verdict on an event, and the status stored for it, go by its code, its opcode bytes, which must be
      the first two of the last packet sent, and its status byte. */
  lemma VerdictInBytes(cfg: Config, acts: seq<Action>, s: State, k: nat, evt: seq<Byte>)
    requires Reaches(cfg, acts, s) && Enabled(cfg, s, Deliver(k, evt))
    ensures s.sent != [] && s.sent[|s.sent| - 1].nvram.Valid()
    ensures var ok := Answers(evt, Bytes(cfg, s.sent[|s.sent| - 1]));
      var t := StepDeliver(s, k, evt);
      t.flights == [Checked(s.flights[k].cmd, ok)] && StepCommit(t, k).status == if ok then CmdSuccess else CmdFail
  {
    OneOutstandingCommand(cfg, acts, s, k, evt);
    AllValidExec(cfg, Init(cfg), acts);
    DeliverVerdict(s, evt);
    CommitVerdict(StepDeliver(s, k, evt));
    var x := s.sent[|s.sent| - 1];
    PacketOpcode(cfg, x);
    CompletesAnswers(evt, Bytes(cfg, x), s.opcode);
  }

  /** In any state, also with commands of earlier runs outstanding: the callback of Read BD_ADDR looks for
      opcode 0x1009, that of any other command for the opcode the worker set last. */
  lemma StrayVerdict(s: State, k: nat, evt: seq<Byte>)
    requires k < |s.flights| && s.flights[k].OnAir? && |evt| >= 12
    ensures var f := StepDeliver(s, k, evt).flights[k];
      && f.Checked? && f.cmd == s.flights[k].cmd
      && f.ok == (evt[0] == 0x0E && evt[5] == 0 &&
                  (if f.cmd == GetLocalBdAddr then evt[3] == 0x09 && evt[4] == 0x10
                   else evt[4] as int * 256 + evt[3] as int == s.opcode))
  {
  }

  /** After SUCCESS every packet sent was answered by a Command Complete that repeats the packet's first two
      bytes and has status 0. */
  lemma AnswersOnTheWire(cfg: Config, acts: seq<Action>, s: State, k: nat)
    requires Reaches(cfg, acts, s) && VndSuccess in s.reported && k < |s.sent|
    ensures |s.answers| == |s.sent| && s.sent[k].nvram.Valid() && Answers(s.answers[k], Bytes(cfg, s.sent[k]))
  {
    SuccessMeansPlanDone(cfg, acts, s);
    AllValidExec(cfg, Init(cfg), acts);
    PacketOpcode(cfg, s.sent[k]);
    assert Good(s.sent, s.answers, k);
    CompletesAnswers(s.answers[k], Bytes(cfg, s.sent[k]), Opcode(s.sent[k].cmd));
  }

  // ----- the NVRAM record -----

  /** The opcodes of the commands that carry NVRAM fields, but for the address. */
  predicate IsField(opcode: int) {
    opcode in {0x0C26, 0xFC72, 0xFC79, 0xFC93, 0xFC7A, 0xFC22, 0xFC7D}
  }

  /** The bytes of the NVRAM record that go with an opcode. */
  function FieldFor(opcode: int, chip: int, nv: Nvram): seq<Byte> {
    if opcode == 0x0C26 then nv.voice
    else if opcode == 0xFC72 then nv.codec
    else if opcode == 0xFC79 then if chip == 0x6632 then nv.radio + nv.radioExt else nv.radio
    else if opcode == 0xFC93 then if chip == 0x6632 then nv.txPwOffset + nv.txPwOffsetExt else nv.txPwOffset
    else if opcode == 0xFC7A then nv.sleep
    else if opcode == 0xFC22 then nv.coexAdjust
    else if opcode == 0xFC7D then nv.btFtr
    else []
  }

  /** A packet with the given opcode whose payload is the given field. */
  predicate Carries(packet: seq<Byte>, opcode: int, field: seq<Byte>) {
    && |packet| >= 3 && packet[1] as int * 256 + packet[0] as int == opcode
    && packet[2] as int == |field| && packet[3..] == field
  }

  lemma VoiceCarried(chip: int, nv: Nvram)
    requires nv.Valid()
    ensures Carries(Packet(SetVoice, chip, nv), 0x0C26, nv.voice)
    ensures Carries(Packet(SetPcm, chip, nv), 0xFC72, nv.codec)
    ensures Carries(Packet(SetBtFtr, chip, nv), 0xFC7D, nv.btFtr)
  {
    VoicePackets(chip, nv);
  }

  lemma SleepCarried(chip: int, nv: Nvram)
    requires nv.Valid()
    ensures Carries(Packet(SetSleepTimeout, chip, nv), 0xFC7A, nv.sleep)
    ensures Carries(Packet(CoexPerformanceAdjust, chip, nv), 0xFC22, nv.coexAdjust)
  {
    SleepPacket(chip, nv);
    AdjustPacket(chip, nv);
  }

  lemma RadioCarried(chip: int, nv: Nvram)
    requires nv.Valid()
    ensures Carries(Packet(SetRadio, chip, nv), 0xFC79, if chip == 0x6632 then nv.radio + nv.radioExt else nv.radio)
  {
    if chip == 0x6632 { RadioPacket6632(nv); } else { RadioPacket(chip, nv); }
  }

  lemma PowerCarried(chip: int, nv: Nvram)
    requires nv.Valid()
    ensures Carries(Packet(SetTxPowerOffset, chip, nv), 0xFC93,
                    if chip == 0x6632 then nv.txPwOffset + nv.txPwOffsetExt else nv.txPwOffset)
  {
    if chip == 0x6632 { PowerPacket6632(nv); } else { RadioPacket(chip, nv); }
  }

  lemma FieldCarried(c: Command, chip: int, nv: Nvram)
    requires nv.Valid() && IsField(Opcode(c))
    ensures Carries(Packet(c, chip, nv), Opcode(c), FieldFor(Opcode(c), chip, nv))
  {
    match c
    case SetVoice => VoiceCarried(chip, nv);
    case SetPcm => VoiceCarried(chip, nv);
    case SetBtFtr => VoiceCarried(chip, nv);
    case SetSleepTimeout => SleepCarried(chip, nv);
    case CoexPerformanceAdjust => SleepCarried(chip, nv);
    case SetRadio => RadioCarried(chip, nv);
    case SetTxPowerOffset => PowerCarried(chip, nv);
    case _ =>
  }

  /** At any moment of a run, the packets with an NVRAM field carry that field of the run's own record. */
  lemma FieldsOnTheWire(cfg: Config, acts: seq<Action>, s: State, k: nat)
    requires Reaches(cfg, acts, s) && k < |s.sent|
    ensures s.sent[k].nvram.Valid() && |Bytes(cfg, s.sent[k])| >= 3
    ensures var p := Bytes(cfg, s.sent[k]);
      IsField(OpcodeOf(p)) ==> Carries(p, OpcodeOf(p), FieldFor(OpcodeOf(p), cfg.chip, cfg.nvram))
  {
    AllValidExec(cfg, Init(cfg), acts);
    ReachNvram(cfg, acts, s);
    var x := s.sent[k];
    PacketOpcode(cfg, x);
    assert Readdressed(cfg, x.nvram);
    if IsField(Opcode(x.cmd)) {
      FieldCarried(x.cmd, cfg.chip, x.nvram);
    }
  }

  /** The packets of two runs are the same. */
  ghost predicate SamePackets(cfg: Config, s: State, cfg': Config, s': State)
    requires AllValid(s.sent) && AllValid(s'.sent)
  {
    |s.sent| == |s'.sent| && forall k :: 0 <= k < |s.sent| ==> Bytes(cfg, s.sent[k]) == Bytes(cfg', s'.sent[k])
  }

  /** The packets of a successful run determine every NVRAM field its chip is sent. */
  lemma PacketsDetermineFields(cfg: Config, acts: seq<Action>, s: State, cfg': Config, acts': seq<Action>,
                               s': State, opcode: int)
    requires Reaches(cfg, acts, s) && Reaches(cfg', acts', s') && OnChip(cfg) && cfg.chip == cfg'.chip
    requires VndSuccess in s.reported && AllValid(s.sent) && AllValid(s'.sent) && SamePackets(cfg, s, cfg', s')
    requires opcode in OpcodesFor(cfg.chip, ReadsFirst(cfg), cfg.sysLog, cfg.sspDebug) && IsField(opcode)
    ensures FieldFor(opcode, cfg.chip, cfg.nvram) == FieldFor(opcode, cfg.chip, cfg'.nvram)
  {
    var ops := OpcodesFor(cfg.chip, ReadsFirst(cfg), cfg.sysLog, cfg.sspDebug);
    var k :| 0 <= k < |ops| && ops[k] == opcode;
    OpcodesOnTheWire(cfg, acts, s);
    FieldsOnTheWire(cfg, acts, s, k);
    FieldsOnTheWire(cfg', acts', s', k);
    SameField(Bytes(cfg, s.sent[k]), opcode, cfg.chip, cfg.nvram, cfg'.nvram);
  }

  lemma SameField(packet: seq<Byte>, opcode: int, chip: int, nv: Nvram, nv': Nvram)
    requires Carries(packet, opcode, FieldFor(opcode, chip, nv))
    requires Carries(packet, opcode, FieldFor(opcode, chip, nv'))
    ensures FieldFor(opcode, chip, nv) == FieldFor(opcode, chip, nv')
  {
  }

  // ----- the address -----

  /** The address the run works on, first byte first: the six bytes of the Read BD_ADDR return in reverse on a
      chip that was asked for it, the NVRAM record's otherwise. */
  function WireBase(cfg: Config, answers: seq<seq<Byte>>): seq<Byte> {
    if (cfg.chip == 0x6628 || cfg.chip == 0x6630 || cfg.chip == 0x6632) && ReadsFirst(cfg)
      && answers != [] && |answers[0]| >= 12
    then [answers[0][11], answers[0][10], answers[0][9], answers[0][8], answers[0][7], answers[0][6]]
    else cfg.nvram.addr
  }

  lemma BaseOnChip(cfg: Config, answers: seq<seq<Byte>>)
    requires OnChip(cfg)
    ensures BaseAddr(cfg, answers) == WireBase(cfg, answers)
  {
  }

  /** Every 0xFC1A packet carries the run's address, last byte first; a build that generates addresses
      replaces the first two bytes and the last of a blank one, and makes the first 10 in its lowest
      two bits. */
  lemma AddressOnTheWire(cfg: Config, acts: seq<Action>, s: State, k: nat)
    requires Reaches(cfg, acts, s) && OnChip(cfg) && k < |s.sent| && s.sent[k].nvram.Valid()
    requires |Bytes(cfg, s.sent[k])| >= 3 && OpcodeOf(Bytes(cfg, s.sent[k])) == 0xFC1A
    ensures var p, a := Bytes(cfg, s.sent[k]), WireBase(cfg, s.answers);
      && |a| == 6 && |p| == 9 && p[2] == 6 && p[4] == a[4] && p[5] == a[3] && p[6] == a[2]
      && if cfg.autogen && (a == cfg.defaultAddr || a == [0, 0, 0, 0, 0, 0]) then p[8] % 4 == 2
         else p[3] == a[5] && p[7] == a[1] && p[8] == a[0]
  {
    ReachNvram(cfg, acts, s);
    BaseOnChip(cfg, s.answers);
    PacketOpcode(cfg, s.sent[k]);
    AddressPacket(cfg.chip, s.sent[k].nvram);
    assert s.sent[k].cmd == SetLocalBdAddr;
  }
}
