/** The serial-number request and the vendor-command dispatch of rdwr.c as
    functions: the value returned, the calls made, and what is left in the
    gSerialNum buffer. */
module VendorSpec {
  import opened Fx3
  import opened Handlers
  import opened Trace
  import opened RdwrSpec

  /** The bRequest codes of vendor_commands.h that handle_vendor_cmd routes. */
  datatype VendorCodes = VendorCodes(hiRdwr: byte, serial: byte, renum: byte)

  /** The serial number's place in the PROM: FX3_PROM_SERIALNUM0_0, and
      m24xx_get_dev_addr(dev_addr, reg_addr, size, rw), which gives the I2C
      device-select byte for an access. */
  datatype Prom = Prom(regAddr: u32, devAddr: (byte, u32, byte, byte) -> byte)

  /** The build's constants: the handler tables, sizeof(rdwr_data_header_t),
      the vendor request codes and the PROM layout. */
  datatype Config = Config(tbl: HandlerTable, headerSize: nat, codes: VendorCodes, prom: Prom)

  const SerialLength: nat := 16
  const PromDevAddr: byte := 0x50
  const PromSize: byte := 17
  const SerialReadType: byte := 0xC0
  const SerialWriteType: byte := 0x40
  const ReadCtrlMask: u16 := 0x0004
  /** The retry count of the PROM read and write calls. */
  const PromRetries: nat := 1
  /** The retry count of the ACK poll after the PROM write. */
  const AckRetries: nat := 200

  /** A transfer into gSerialNum: the status the call returned and the 16
      bytes it left in the buffer. */
  datatype Transfer = Transfer(status: Status, data: seq<byte>)

  /** Results of the SDK calls handle_serial_num may make, in the order it
      makes them: the PROM read and the EP0 send (read request), the EP0 get,
      the PROM write and the wait for its ACK (write request). */
  datatype SerialIo = SerialIo(promRead: Transfer, ep0Send: Status, ep0Get: Transfer, promWrite: Status, ackWait: Status) {
    predicate WellFormed() {
      |promRead.data| == SerialLength && |ep0Get.data| == SerialLength
    }
  }

  /** What handle_serial_num did: `ret` is the CyBool_t it returns as written,
      `status` the CyU3PReturnStatus_t it evidently means to report (success,
      BAD_ARGUMENT or the failing call's status), `deposit` the bytes now in
      gSerialNum[0..16], if it was written. */
  datatype SerialStep = SerialStep(ret: u32, status: Status, effects: seq<Effect>, deposit: Option<seq<byte>>)

  /** The two register-address bytes of a preamble: (uint8_t)(reg_addr >> 8)
      and (uint8_t)(reg_addr & 0xFF), the big-endian low half of the address. */
  function AddressBytes(reg: u32): (b: seq<byte>)
    ensures |b| == 2 && (b[0] as int) * 0x100 + b[1] == reg % 0x1_0000
  {
    var hi, lo := (reg / 0x100) % 0x100, reg % 0x100;
    assert reg % 0x1_0000 == hi * 0x100 + lo by {
      assert reg == (reg / 0x1_0000) * 0x1_0000 + hi * 0x100 + lo by {
        assert reg / 0x100 == (reg / 0x1_0000) * 0x100 + hi;
      }
    }
    [hi, lo]
  }

  /** The preamble of the PROM read: write select, address, read select, with
      a repeated start before the read select. */
  function ReadPreamble(prom: Prom): (p: Preamble)
    ensures |p.bytes| == 4 && p.ctrlMask == ReadCtrlMask
  {
    Preamble([prom.devAddr(PromDevAddr, prom.regAddr, PromSize, 0)] + AddressBytes(prom.regAddr)
             + [prom.devAddr(PromDevAddr, prom.regAddr, PromSize, 1)], ReadCtrlMask)
  }

  /** The preamble of the PROM write: write select and address. */
  function WritePreamble(prom: Prom): (p: Preamble)
    ensures |p.bytes| == 3 && p.ctrlMask == 0
  {
    Preamble([prom.devAddr(PromDevAddr, prom.regAddr, PromSize, 0)] + AddressBytes(prom.regAddr), 0)
  }

  /** The write preamble cut to its first byte, used to poll for the ACK. */
  function AckPreamble(prom: Prom): (p: Preamble)
    ensures p.bytes == WritePreamble(prom).bytes[..1] && p.ctrlMask == 0
  {
    Preamble([prom.devAddr(PromDevAddr, prom.regAddr, PromSize, 0)], 0)
  }

  /** gSerialNum (32 bytes, for DMA alignment) after a transfer that may have
      left new bytes in its first 16. */
  function AfterDeposit(buffer: seq<byte>, deposit: Option<seq<byte>>): seq<byte>
    requires |buffer| >= SerialLength
    requires deposit.Some? ==> |deposit.value| == SerialLength
  {
    if deposit.Some? then deposit.value + buffer[SerialLength..] else buffer
  }

  /** A status as the uint16_t `status` variable of handle_serial_num tests it. */
  predicate Failed(st: Status) {
    ToU16(st) != 0
  }

  /** handle_serial_num(bReqType, wLength). */
  function SerialNum(prom: Prom, bReqType: byte, wLength: u16, io: SerialIo): (r: SerialStep)
    requires io.WellFormed()
    ensures r.deposit.Some? ==> |r.deposit.value| == SerialLength
    ensures Stall !in r.effects && MutexGet(MutexTimeoutMs) !in r.effects
    ensures r.effects == [] <==> !(wLength == SerialLength && bReqType in {SerialReadType, SerialWriteType})
    ensures r.effects == [] <==> r.deposit.None?
    ensures r.effects == [] ==> r.ret == BadArgument && r.status == BadArgument
  {
    if wLength != SerialLength then SerialStep(BadArgument, BadArgument, [], None)
    else if bReqType == SerialReadType then
      var read := io.promRead;
      var rx := [I2cReceive(ReadPreamble(prom), SerialLength, PromRetries)];
      if Failed(read.status) then SerialStep(CyFalse, read.status, rx, Some(read.data))
      else
        var tx := rx + [Ep0Send(read.data)];
        if Failed(io.ep0Send) then SerialStep(CyFalse, io.ep0Send, tx, Some(read.data))
        else SerialStep(CyTrue, Success, tx, Some(read.data))
    else if bReqType == SerialWriteType then
      var host := io.ep0Get;
      var get := [Ep0Get(SerialLength)];
      if Failed(host.status) then SerialStep(ToU16(host.status), host.status, get, Some(host.data))
      else
        var put := get + [I2cTransmit(WritePreamble(prom), host.data, PromRetries)];
        if Failed(io.promWrite) then SerialStep(CyFalse, io.promWrite, put, Some(host.data))
        else
          var ack := put + [I2cWaitForAck(AckPreamble(prom), AckRetries)];
          if Failed(io.ackWait) then SerialStep(CyFalse, io.ackWait, ack, Some(host.data))
          else SerialStep(CyTrue, Success, ack + [ThreadSleep(1)], Some(host.data))
    else SerialStep(BadArgument, BadArgument, [], None)
  }

  /** The serial request ran to its end: a 16-byte read whose PROM read and
      EP0 send succeeded, or a 16-byte write whose EP0 get, PROM write and ACK
      wait succeeded. */
  predicate SerialCompleted(bReqType: byte, wLength: u16, io: SerialIo) {
    && wLength == SerialLength
    && ((bReqType == SerialReadType && !Failed(io.promRead.status) && !Failed(io.ep0Send))
        || (bReqType == SerialWriteType && !Failed(io.ep0Get.status) && !Failed(io.promWrite) && !Failed(io.ackWait)))
  }

  datatype VendorIo = VendorIo(start: StartIo, serial: SerialIo)

  /** What handle_vendor_cmd did: its return value, the new command state,
      the calls made and the bytes left in gSerialNum[0..16], if written. */
  datatype VendorStep = VendorStep(ret: u32, state: CmdState, effects: seq<Effect>, deposit: Option<seq<byte>>)

  /** The switch on bRequest: whether the request is handled, the status the
      stall test reads (as written, and as evidently meant), and what the
      chosen handler did. */
  datatype Routed = Routed(handled: bool, status: u32, intended: Status, state: CmdState,
                           effects: seq<Effect>, deposit: Option<seq<byte>>)

  function Route(cfg: Config, s: CmdState, bRequest: byte, bReqType: byte,
                 wValue: u16, wIndex: u16, wLength: u16, io: VendorIo): (r: Routed)
    requires WellFormed(cfg.tbl, s) && io.serial.WellFormed()
    ensures WellFormed(cfg.tbl, r.state)
    ensures r.deposit.Some? ==> |r.deposit.value| == SerialLength
    ensures bRequest != cfg.codes.hiRdwr ==> r.state == s
    ensures !r.handled <==> bRequest !in {cfg.codes.hiRdwr, cfg.codes.serial, cfg.codes.renum}
    ensures !r.handled ==> r.effects == []
  {
    if bRequest == cfg.codes.hiRdwr then
      var r := HandleRdwr(cfg.tbl, cfg.headerSize, s, bReqType, wValue, wIndex, wLength, io.start);
      Routed(true, r.status, r.status, r.state, r.effects, None)
    else if bRequest == cfg.codes.serial then
      var r := SerialNum(cfg.prom, bReqType, wLength, io.serial);
      Routed(true, r.ret, r.status, s, r.effects, r.deposit)
    else if bRequest == cfg.codes.renum then
      Routed(true, Success, Success, s, [DeviceReset], None)
    else
      Routed(false, Success, Success, s, [], None)
  }

  /** The EP0 stall made for an unhandled request or a non-zero status. */
  function StallIf(stall: bool): seq<Effect> {
    if stall then [Stall] else []
  }

  /** handle_vendor_cmd(bRequest, bReqType, bType, bTarget, wValue, wIndex,
      wLength) as written: the status tested is the handler's return value. */
  function VendorCmd(cfg: Config, s: CmdState, bRequest: byte, bReqType: byte,
                     wValue: u16, wIndex: u16, wLength: u16, io: VendorIo): (v: VendorStep)
    requires WellFormed(cfg.tbl, s) && io.serial.WellFormed()
    ensures v.ret == CyTrue && WellFormed(cfg.tbl, v.state)
    ensures bRequest != cfg.codes.hiRdwr ==> v.state == s
  {
    var r := Route(cfg, s, bRequest, bReqType, wValue, wIndex, wLength, io);
    VendorStep(CyTrue, r.state, r.effects + StallIf(!r.handled || r.status != Success), r.deposit)
  }

  /** handle_vendor_cmd with handle_serial_num reporting a status instead of
      a CyBool_t, as the stall test expects. */
  function VendorCmdIntended(cfg: Config, s: CmdState, bRequest: byte, bReqType: byte,
                             wValue: u16, wIndex: u16, wLength: u16, io: VendorIo): (v: VendorStep)
    requires WellFormed(cfg.tbl, s) && io.serial.WellFormed()
    ensures v.ret == CyTrue && WellFormed(cfg.tbl, v.state)
    ensures bRequest != cfg.codes.hiRdwr ==> v.state == s
  {
    var r := Route(cfg, s, bRequest, bReqType, wValue, wIndex, wLength, io);
    VendorStep(CyTrue, r.state, r.effects + StallIf(!r.handled || r.intended != Success), r.deposit)
  }

  // ---------------------------------------------------------------------
  // Properties of handle_serial_num

  /** The PROM read and write address the serial number's register: bytes 1
      and 2 of both preambles are the low 16 bits of FX3_PROM_SERIALNUM0_0,
      and both start with the write device-select byte. */
  lemma PreamblesAddressSerial(prom: Prom)
    ensures var rd, wr := ReadPreamble(prom).bytes, WritePreamble(prom).bytes;
      && |rd| == 4 && |wr| == 3
      && (rd[1] as int) * 0x100 + rd[2] == prom.regAddr % 0x1_0000
      && (wr[1] as int) * 0x100 + wr[2] == prom.regAddr % 0x1_0000
      && rd[0] == wr[0] == AckPreamble(prom).bytes[0]
      && rd[3] == prom.devAddr(PromDevAddr, prom.regAddr, PromSize, 1)
  {
    var b := AddressBytes(prom.regAddr);
    assert ReadPreamble(prom).bytes[1..3] == b;
    assert WritePreamble(prom).bytes[1..3] == b;
  }

  /** A request that is not 16 bytes long, or neither a read (0xC0) nor a
      write (0x40), returns BAD_ARGUMENT and touches neither the bus nor the
      buffer. */
  lemma SerialRejects(prom: Prom, bReqType: byte, wLength: u16, io: SerialIo)
    requires io.WellFormed()
    ensures var r := SerialNum(prom, bReqType, wLength, io);
      (wLength != SerialLength || (bReqType != SerialReadType && bReqType != SerialWriteType))
      <==> (r.ret == BadArgument && r.effects == [] && r.deposit == None)
  {
  }

  /** As written, handle_serial_num returns CyTrue when the request ran to its
      end (and when a failed EP0 get reports status 1), CyFalse when a PROM
      access, the EP0 send or the ACK wait failed, and the 16-bit status of a failed EP0
      get otherwise; the status it means to report is success exactly when
      the request ran to its end. */
  lemma SerialReturn(prom: Prom, bReqType: byte, wLength: u16, io: SerialIo)
    requires io.WellFormed()
    ensures var r := SerialNum(prom, bReqType, wLength, io);
      && (r.ret == CyTrue <==>
            SerialCompleted(bReqType, wLength, io)
            || (wLength == SerialLength && bReqType == SerialWriteType && ToU16(io.ep0Get.status) == CyTrue))
      && (r.status == Success <==> SerialCompleted(bReqType, wLength, io))
      && (wLength == SerialLength && bReqType == SerialReadType && Failed(io.promRead.status) ==> r.ret == CyFalse)
      && ((wLength == SerialLength && bReqType == SerialReadType && !Failed(io.promRead.status)
           && Failed(io.ep0Send)) ==> r.ret == CyFalse)
      && ((wLength == SerialLength && bReqType == SerialWriteType && !Failed(io.ep0Get.status)
           && Failed(io.promWrite)) ==> r.ret == CyFalse)
      && ((wLength == SerialLength && bReqType == SerialWriteType && !Failed(io.ep0Get.status)
           && !Failed(io.promWrite) && Failed(io.ackWait)) ==> r.ret == CyFalse)
      && (wLength == SerialLength && bReqType == SerialWriteType && Failed(io.ep0Get.status)
          ==> r.ret == ToU16(io.ep0Get.status) != 0)
  {
  }

  /** The serial number moves unchanged: what the host reads is what the PROM
      gave, what is written to the PROM is what the host sent, and each
      transfer addresses the serial-number register. */
  lemma SerialForwardsBytes(prom: Prom, bReqType: byte, wLength: u16, io: SerialIo)
    requires io.WellFormed()
    ensures var r := SerialNum(prom, bReqType, wLength, io);
      && (forall d :: Ep0Send(d) in r.effects ==> d == io.promRead.data && r.deposit == Some(d))
      && (forall p, d, k :: I2cTransmit(p, d, k) in r.effects ==>
            p == WritePreamble(prom) && d == io.ep0Get.data && k == PromRetries && r.deposit == Some(d))
      && (forall p, n, k :: I2cReceive(p, n, k) in r.effects ==>
            p == ReadPreamble(prom) && n == SerialLength && k == PromRetries)
      && (r.deposit.Some? ==> |r.deposit.value| == SerialLength)
  {
  }

  // ---------------------------------------------------------------------
  // Properties of handle_vendor_cmd

  /** handle_vendor_cmd always returns CyTrue; it stalls EP0 once, as its last
      call, exactly for an unknown request or a non-zero status: the status
      of handle_rdwr, the return value of handle_serial_num; never for the
      renumerate request. */
  lemma VendorStallRule(cfg: Config, s: CmdState, bRequest: byte, bReqType: byte,
                        wValue: u16, wIndex: u16, wLength: u16, io: VendorIo)
    requires WellFormed(cfg.tbl, s) && io.serial.WellFormed()
    ensures var v := VendorCmd(cfg, s, bRequest, bReqType, wValue, wIndex, wLength, io);
      && v.ret == CyTrue
      && multiset(v.effects)[Stall] <= 1
      && (Stall in v.effects ==> v.effects[|v.effects| - 1] == Stall)
      && (bRequest == cfg.codes.hiRdwr ==>
            (Stall in v.effects <==>
               HandleRdwr(cfg.tbl, cfg.headerSize, s, bReqType, wValue, wIndex, wLength, io.start).status != Success))
      && (bRequest != cfg.codes.hiRdwr && bRequest == cfg.codes.serial ==>
            (Stall in v.effects <==> SerialNum(cfg.prom, bReqType, wLength, io.serial).ret != 0))
      && (bRequest !in {cfg.codes.hiRdwr, cfg.codes.serial} && bRequest == cfg.codes.renum ==>
            v.effects == [DeviceReset])
      && (bRequest !in {cfg.codes.hiRdwr, cfg.codes.serial, cfg.codes.renum} ==> v.effects == [Stall])
  {
    var r := Route(cfg, s, bRequest, bReqType, wValue, wIndex, wLength, io);
    assert Stall !in r.effects by {
      if bRequest == cfg.codes.hiRdwr {
        HandleRdwrNoStall(cfg, s, bReqType, wValue, wIndex, wLength, io.start);
      }
    }
    var v := VendorCmd(cfg, s, bRequest, bReqType, wValue, wIndex, wLength, io);
    assert multiset(v.effects)[Stall] == multiset(r.effects)[Stall] + multiset(StallIf(!r.handled || r.status != Success))[Stall];
  }

  /** handle_rdwr never stalls on its own: the stall is the dispatcher's. */
  lemma HandleRdwrNoStall(cfg: Config, s: CmdState, bReqType: byte, wValue: u16, wIndex: u16, wLength: u16, io: StartIo)
    requires WellFormed(cfg.tbl, s)
    ensures Stall !in HandleRdwr(cfg.tbl, cfg.headerSize, s, bReqType, wValue, wIndex, wLength, io).effects
  {
    if bReqType == RdwrRequestType && wLength == cfg.headerSize {
      var d := Done(s, true);
      var st := Start(cfg.tbl, d.state, wValue, wIndex, false, io);
      StartOrdered(cfg.tbl, d.state, wValue, wIndex, false, io);
      Beyond(st.effects, Phase(EventSet), Stall);
      assert HandleRdwr(cfg.tbl, cfg.headerSize, s, bReqType, wValue, wIndex, wLength, io).effects == d.effects + st.effects;
    }
  }

  // ---------------------------------------------------------------------
  // The serial request's return value against the stall test

  /** As written, a serial request that runs to its end is answered with an
      EP0 stall, and one whose PROM read fails is not. */
  lemma SerialSuccessStalls(cfg: Config, s: CmdState, bReqType: byte, wValue: u16, wIndex: u16, wLength: u16, io: VendorIo)
    requires WellFormed(cfg.tbl, s) && io.serial.WellFormed()
    requires cfg.codes.serial != cfg.codes.hiRdwr
    ensures var v := VendorCmd(cfg, s, cfg.codes.serial, bReqType, wValue, wIndex, wLength, io);
      && (SerialCompleted(bReqType, wLength, io.serial) ==> Stall in v.effects)
      && (wLength == SerialLength && bReqType == SerialReadType && Failed(io.serial.promRead.status)
          ==> Stall !in v.effects)
  {
    SerialReturn(cfg.prom, bReqType, wLength, io.serial);
    VendorStallRule(cfg, s, cfg.codes.serial, bReqType, wValue, wIndex, wLength, io);
  }

  /** With the status handle_serial_num means to report, EP0 is stalled
      exactly when the serial request did not run to its end. */
  lemma IntendedStallsIffFailed(cfg: Config, s: CmdState, bReqType: byte, wValue: u16, wIndex: u16, wLength: u16, io: VendorIo)
    requires WellFormed(cfg.tbl, s) && io.serial.WellFormed()
    requires cfg.codes.serial != cfg.codes.hiRdwr
    ensures var v := VendorCmdIntended(cfg, s, cfg.codes.serial, bReqType, wValue, wIndex, wLength, io);
      Stall in v.effects <==> !SerialCompleted(bReqType, wLength, io.serial)
  {
    SerialReturn(cfg.prom, bReqType, wLength, io.serial);
    var r := SerialNum(cfg.prom, bReqType, wLength, io.serial);
    assert Stall !in r.effects;
  }
}
