/** The HCI command packets of the firmware-init scripts (hal/bluedroid/radiomod.c, bt_mtk.h),
    in the format of the Bluetooth Core Specification 5.2, Vol 4 Part E, section 5.4.1. */
module HciPackets {
  import opened Base

  const HCI_CMD_MAX_SIZE := 251

  /** The NVRAM record; `addr` is kept most significant byte first, as the source keeps it. */
  datatype Nvram = Nvram(
    addr: seq<Byte>, voice: seq<Byte>, codec: seq<Byte>, radio: seq<Byte>, sleep: seq<Byte>,
    btFtr: seq<Byte>, txPwOffset: seq<Byte>, coexAdjust: seq<Byte>,
    radioExt: seq<Byte>, txPwOffsetExt: seq<Byte>)
  {
    predicate Valid() {
      |addr| == 6 && |voice| == 2 && |codec| == 4 && |radio| == 6 && |sleep| == 7 &&
      |btFtr| == 2 && |txPwOffset| == 3 && |coexAdjust| == 6 && |radioExt| == 2 && |txPwOffsetExt| == 3
    }
  }

  datatype Command =
    | GetLocalBdAddr | SetLocalBdAddr | SetLinkKeyType | SetUnitKey | SetEncryption
    | SetPinCodeType | SetVoice | SetPcm | SetRadio | SetTxPowerOffset | SetSleepTimeout
    | CoexPerformanceAdjust | SetBtFtr | SetOscInfo | SetLpoInfo | SetPta | SetBlePta | Reset
    | SetInternalPta1 | SetInternalPta2 | SetRfReg100 | SetFwSysLog | SetSspDebugMode

  type Opcode16 = x: int | 0 <= x < 0x10000

  function Opcode(c: Command): Opcode16 {
    match c
    case GetLocalBdAddr => 0x1009
    case SetLocalBdAddr => 0xFC1A
    case SetLinkKeyType => 0xFC1B
    case SetUnitKey => 0xFC75
    case SetEncryption => 0xFC76
    case SetPinCodeType => 0x0C0A
    case SetVoice => 0x0C26
    case SetPcm => 0xFC72
    case SetRadio => 0xFC79
    case SetTxPowerOffset => 0xFC93
    case SetSleepTimeout => 0xFC7A
    case CoexPerformanceAdjust => 0xFC22
    case SetBtFtr => 0xFC7D
    case SetOscInfo => 0xFC7B
    case SetLpoInfo => 0xFC7C
    case SetPta => 0xFC74
    case SetBlePta => 0xFCFC
    case Reset => 0x0C03
    case SetInternalPta1 => 0xFCFB
    case SetInternalPta2 => 0xFCFB
    case SetRfReg100 => 0xFCB0
    case SetFwSysLog => 0xFCBE
    case SetSspDebugMode => 0x1804
  }

  /** What each builder stores in `p_cmd->len`. */
  function HeaderLen(c: Command, chip: int): nat {
    match c
    case GetLocalBdAddr => 3
    case SetLocalBdAddr => 9
    case SetLinkKeyType => 4
    case SetUnitKey => 19
    case SetEncryption => 6
    case SetPinCodeType => 4
    case SetVoice => 5
    case SetPcm => 7
    case SetRadio => if chip != 0x6632 then 9 else 11
    case SetTxPowerOffset => if chip != 0x6632 then 6 else 9
    case SetSleepTimeout => 10
    case CoexPerformanceAdjust => 9
    case SetBtFtr => 5
    case SetOscInfo => 8
    case SetLpoInfo => 13
    case SetPta => 13
    case SetBlePta => 8
    case Reset => 3
    case SetInternalPta1 => 18
    case SetInternalPta2 => 10
    case SetRfReg100 => 9
    case SetFwSysLog => 4
    case SetSspDebugMode => 4
  }

  /** What each builder writes as the parameter-length byte. */
  function LengthByte(c: Command, chip: int): Byte {
    match c
    case GetLocalBdAddr => 0
    case SetLocalBdAddr => 6
    case SetLinkKeyType => 1
    case SetUnitKey => 16
    case SetEncryption => 3
    case SetPinCodeType => 1
    case SetVoice => 2
    case SetPcm => 4
    case SetRadio => if chip != 0x6632 then 6 else 8
    case SetTxPowerOffset => if chip != 0x6632 then 3 else 6
    case SetSleepTimeout => 7
    case CoexPerformanceAdjust => 6
    case SetBtFtr => 2
    case SetOscInfo => 5
    case SetLpoInfo => 10
    case SetPta => 10
    case SetBlePta => 5
    case Reset => 0
    case SetInternalPta1 => 15
    case SetInternalPta2 => 7
    case SetRfReg100 => 6
    case SetFwSysLog => 1
    case SetSspDebugMode => 1
  }

  function Reversed(s: seq<Byte>): (r: seq<Byte>)
    ensures |r| == |s| && forall k :: 0 <= k < |s| ==> r[k] == s[|s| - 1 - k]
  {
    seq(|s|, k requires 0 <= k < |s| => s[|s| - 1 - k])
  }

  /** The parameter bytes each builder writes after the length byte. */
  function Params(c: Command, chip: int, nv: Nvram): seq<Byte>
    requires nv.Valid()
  {
    match c
    case GetLocalBdAddr => []
    case SetLocalBdAddr => Reversed(nv.addr)
    case SetLinkKeyType => [0x01]
    case SetUnitKey => [0, 0, 0, 0, 0, 0, 0, 0, 0, 0, 0, 0, 0, 0, 0, 0]
    case SetEncryption => [0x00, 0x02, 0x10]
    case SetPinCodeType => [0x00]
    case SetVoice => nv.voice
    case SetPcm => nv.codec
    case SetRadio => if chip != 0x6632 then nv.radio else nv.radio + nv.radioExt
    case SetTxPowerOffset => if chip != 0x6632 then nv.txPwOffset else nv.txPwOffset + nv.txPwOffsetExt
    case SetSleepTimeout => nv.sleep
    case CoexPerformanceAdjust => nv.coexAdjust
    case SetBtFtr => nv.btFtr
    case SetOscInfo => [0x01, 0x01, 0x14, 0x0A, 0x08]
    case SetLpoInfo => [0x01, 0xFA, 0x0A, 0x02, 0x00, 0xA6, 0x0E, 0x00, 0x40, 0x00]
    case SetPta => [0xC9, 0x8B, 0xBF, 0x00, 0x00, 0x52, 0x0E, 0x0E, 0x1F, 0x1B]
    case SetBlePta => [0x16, 0x0E, 0x0E, 0x00, 0x07]
    case Reset => []
    case SetInternalPta1 =>
      [0x00, 0x01, 0x0F, 0x0F, 0x01, 0x0F, 0x0F, 0x01, 0x0F, 0x0F, 0x01, 0x0F, 0x0F, 0x02, 0x01]
    case SetInternalPta2 => [0x01, 0x19, 0x19, 0x07, 0xD0, 0x00, 0x01]
    case SetRfReg100 => [0x64, 0x01, 0x02, 0x00, 0x00, 0x00]
    case SetFwSysLog => [0x05]
    case SetSspDebugMode => [0x01]
  }

  /** UINT16_TO_STREAM and STREAM_TO_UINT16. */
  function ToStream16(v: Opcode16): seq<Byte> { [v % 256, v / 256] }
  function FromStream16(lo: Byte, hi: Byte): Opcode16 { lo + 256 * hi }

  /** All the bytes a builder writes. */
  function Packet(c: Command, chip: int, nv: Nvram): seq<Byte>
    requires nv.Valid()
  {
    ToStream16(Opcode(c)) + [LengthByte(c, chip)] + Params(c, chip, nv)
  }

  /** ARRAY_TO_STREAM: copies the bytes to position p and advances it. */
  method ArrayToStream(buf: array<Byte>, p: nat, bytes: seq<Byte>) returns (next: nat)
    requires p + |bytes| <= buf.Length
    modifies buf
    ensures next == p + |bytes|
    ensures buf[..] == old(buf[..p]) + bytes + old(buf[p + |bytes|..])
  {
    for i := 0 to |bytes|
      invariant buf[..p] == old(buf[..p]) && buf[p..p + i] == bytes[..i]
      invariant buf[p + |bytes|..] == old(buf[p + |bytes|..])
    {
      buf[p + i] := bytes[i];
    }
    next := p + |bytes|;
  }

  /** A builder: writes through an advancing index and returns the value stored in `p_cmd->len`. */
  method Build(c: Command, chip: int, nv: Nvram, buf: array<Byte>) returns (len: nat)
    requires nv.Valid() && buf.Length == HCI_CMD_MAX_SIZE
    modifies buf
    ensures len <= buf.Length && buf[..len] == Packet(c, chip, nv)
    ensures buf[len..] == old(buf[len..])
  {
    var op, bytes, params := ToStream16(Opcode(c)), [LengthByte(c, chip)], Params(c, chip, nv);
    PacketWellFormed(c, chip, nv);
    len := HeaderLen(c, chip);
    ghost var was := buf[..];
    var p := ArrayToStream(buf, 0, op);
    assert buf[..] == op + was[2..];
    p := ArrayToStream(buf, p, bytes);
    assert buf[..] == op + bytes + was[3..];
    p := ArrayToStream(buf, p, params);
    assert buf[..] == op + bytes + params + was[len..];
  }

  /** The receiver's reading of a command packet: opcode and parameters, or None if malformed. */
  datatype Decoded = Malformed | Decoded(opcode: Opcode16, params: seq<Byte>)

  function Decode(bytes: seq<Byte>): Decoded {
    if |bytes| < 3 || |bytes| - 3 != bytes[2] then Malformed
    else Decoded(FromStream16(bytes[0], bytes[1]), bytes[3..])
  }

  /** For every builder, chip and NVRAM content the declared length, the length byte and the bytes
      written agree, and the packet decodes to the command's opcode and parameters. */
  lemma PacketWellFormed(c: Command, chip: int, nv: Nvram)
    requires nv.Valid()
    ensures |Packet(c, chip, nv)| == HeaderLen(c, chip) <= HCI_CMD_MAX_SIZE
    ensures Decode(Packet(c, chip, nv)) == Decoded(Opcode(c), Params(c, chip, nv))
  {
    assert |Params(c, chip, nv)| == LengthByte(c, chip);
    var p := Packet(c, chip, nv);
    assert p[3..] == Params(c, chip, nv);
    assert p[0] == Opcode(c) % 256 && p[1] == Opcode(c) / 256;
  }

  // ----- every packet, byte by byte -----

  lemma ShortPackets(chip: int, nv: Nvram)
    requires nv.Valid()
    ensures Packet(GetLocalBdAddr, chip, nv) == [0x09, 0x10, 0]
    ensures Packet(Reset, chip, nv) == [0x03, 0x0C, 0]
    ensures Packet(SetLinkKeyType, chip, nv) == [0x1B, 0xFC, 1, 0x01]
    ensures Packet(SetPinCodeType, chip, nv) == [0x0A, 0x0C, 1, 0x00]
  {
  }

  lemma DebugPackets(chip: int, nv: Nvram)
    requires nv.Valid()
    ensures Packet(SetFwSysLog, chip, nv) == [0xBE, 0xFC, 1, 0x05]
    ensures Packet(SetSspDebugMode, chip, nv) == [0x04, 0x18, 1, 0x01]
  {
  }

  lemma EncryptionPackets(chip: int, nv: Nvram)
    requires nv.Valid()
    ensures Packet(SetUnitKey, chip, nv) == [0x75, 0xFC, 16] + [0, 0, 0, 0, 0, 0, 0, 0, 0, 0, 0, 0, 0, 0, 0, 0]
    ensures Packet(SetEncryption, chip, nv) == [0x76, 0xFC, 3, 0x00, 0x02, 0x10]
  {
  }

  lemma ClockPackets(chip: int, nv: Nvram)
    requires nv.Valid()
    ensures Packet(SetOscInfo, chip, nv) == [0x7B, 0xFC, 5] + [0x01, 0x01, 0x14, 0x0A, 0x08]
    ensures Packet(SetLpoInfo, chip, nv)
         == [0x7C, 0xFC, 10] + [0x01, 0xFA, 0x0A, 0x02, 0x00, 0xA6, 0x0E, 0x00, 0x40, 0x00]
  {
  }

  lemma PtaPackets(chip: int, nv: Nvram)
    requires nv.Valid()
    ensures Packet(SetPta, chip, nv)
         == [0x74, 0xFC, 10] + [0xC9, 0x8B, 0xBF, 0x00, 0x00, 0x52, 0x0E, 0x0E, 0x1F, 0x1B]
    ensures Packet(SetBlePta, chip, nv) == [0xFC, 0xFC, 5] + [0x16, 0x0E, 0x0E, 0x00, 0x07]
  {
  }

  lemma InternalPtaPackets(chip: int, nv: Nvram)
    requires nv.Valid()
    ensures Packet(SetInternalPta1, chip, nv) == [0xFB, 0xFC, 15] +
      [0x00, 0x01, 0x0F, 0x0F, 0x01, 0x0F, 0x0F, 0x01, 0x0F, 0x0F, 0x01, 0x0F, 0x0F, 0x02, 0x01]
    ensures Packet(SetInternalPta2, chip, nv) == [0xFB, 0xFC, 7] + [0x01, 0x19, 0x19, 0x07, 0xD0, 0x00, 0x01]
    ensures Packet(SetRfReg100, chip, nv) == [0xB0, 0xFC, 6] + [0x64, 0x01, 0x02, 0x00, 0x00, 0x00]
  {
  }

  /** The packets that carry NVRAM fields; the address goes out least significant byte first. */
  lemma AddressPacket(chip: int, nv: Nvram)
    requires nv.Valid()
    ensures Packet(SetLocalBdAddr, chip, nv)
         == [0x1A, 0xFC, 6, nv.addr[5], nv.addr[4], nv.addr[3], nv.addr[2], nv.addr[1], nv.addr[0]]
  {
    var a := nv.addr;
    assert Params(SetLocalBdAddr, chip, nv) == [a[5], a[4], a[3], a[2], a[1], a[0]];
  }

  lemma VoicePackets(chip: int, nv: Nvram)
    requires nv.Valid()
    ensures Packet(SetVoice, chip, nv) == [0x26, 0x0C, 2, nv.voice[0], nv.voice[1]]
    ensures Packet(SetPcm, chip, nv) == [0x72, 0xFC, 4, nv.codec[0], nv.codec[1], nv.codec[2], nv.codec[3]]
    ensures Packet(SetBtFtr, chip, nv) == [0x7D, 0xFC, 2, nv.btFtr[0], nv.btFtr[1]]
  {
  }

  lemma SleepPacket(chip: int, nv: Nvram)
    requires nv.Valid()
    ensures Packet(SetSleepTimeout, chip, nv)
         == [0x7A, 0xFC, 7, nv.sleep[0], nv.sleep[1], nv.sleep[2], nv.sleep[3], nv.sleep[4], nv.sleep[5], nv.sleep[6]]
  {
  }

  lemma AdjustPacket(chip: int, nv: Nvram)
    requires nv.Valid()
    ensures Packet(CoexPerformanceAdjust, chip, nv)
         == [0x22, 0xFC, 6, nv.coexAdjust[0], nv.coexAdjust[1], nv.coexAdjust[2], nv.coexAdjust[3],
             nv.coexAdjust[4], nv.coexAdjust[5]]
  {
  }

  /** Radio and transmit power grow by two and three bytes on chip 0x6632. */
  lemma RadioPacket(chip: int, nv: Nvram)
    requires nv.Valid() && chip != 0x6632
    ensures Packet(SetRadio, chip, nv)
         == [0x79, 0xFC, 6, nv.radio[0], nv.radio[1], nv.radio[2], nv.radio[3], nv.radio[4], nv.radio[5]]
    ensures Packet(SetTxPowerOffset, chip, nv)
         == [0x93, 0xFC, 3, nv.txPwOffset[0], nv.txPwOffset[1], nv.txPwOffset[2]]
  {
  }

  lemma RadioPacket6632(nv: Nvram)
    requires nv.Valid()
    ensures Packet(SetRadio, 0x6632, nv)
         == [0x79, 0xFC, 8, nv.radio[0], nv.radio[1], nv.radio[2], nv.radio[3], nv.radio[4], nv.radio[5],
             nv.radioExt[0], nv.radioExt[1]]
  {
  }

  lemma PowerPacket6632(nv: Nvram)
    requires nv.Valid()
    ensures Packet(SetTxPowerOffset, 0x6632, nv)
         == [0x93, 0xFC, 6, nv.txPwOffset[0], nv.txPwOffset[1], nv.txPwOffset[2],
             nv.txPwOffsetExt[0], nv.txPwOffsetExt[1], nv.txPwOffsetExt[2]]
  {
  }

  /** The address bytes of a Read BD_ADDR return, as GORMevt_HCE_Get_Local_BD_Addr stores them. */
  function AddressOf(evt: seq<Byte>): (a: seq<Byte>)
    requires |evt| >= 12
    ensures |a| == 6
  {
    Reversed(evt[6..12])
  }

  lemma ReversedTwice(s: seq<Byte>)
    ensures Reversed(Reversed(s)) == s
  {
  }

  /** Storing a Read BD_ADDR return and sending it with Set_Local_BD_Addr reproduces its bytes. */
  lemma AddressRoundTrip(evt: seq<Byte>, chip: int, nv: Nvram)
    requires nv.Valid() && |evt| >= 12 && nv.addr == AddressOf(evt)
    ensures Packet(SetLocalBdAddr, chip, nv) == [0x1A, 0xFC, 6] + evt[6..12]
  {
    ReversedTwice(evt[6..12]);
    assert Params(SetLocalBdAddr, chip, nv) == evt[6..12];
    assert ToStream16(Opcode(SetLocalBdAddr)) + [LengthByte(SetLocalBdAddr, chip)] == [0x1A, 0xFC, 6];
  }
}
