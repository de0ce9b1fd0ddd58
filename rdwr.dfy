/** rdwr.c's global state and its vendor-command entry points (FIRMWARE_DI
    build). Each method does what the C function does, step by step, and is
    proved to agree with the function of RdwrSpec or VendorSpec that states
    its effect; the properties are proved about those functions. */
module Rdwr {
  import opened Fx3
  import opened Handlers
  import opened Trace
  import opened RdwrSpec
  import opened VendorSpec

  class Firmware {
    /** The build's handler tables, header size, request codes and PROM layout. */
    const cfg: Config
    /** gSerialNum: 16 bytes used, 32 allocated for the DMA cache. */
    const serialNum: array<byte>

    // gRdwrCmd
    var handler: Option<HandlerRef>
    var header: Header
    var done: bool
    var transferedSoFar: nat
    /** gRdwrLocked: the main context holds the rdwr mutex. */
    var rdwrLocked: bool
    /** gRdwrCmd.rdwr_mutex is held. */
    var mutexHeld: bool

    /** The calls made so far into the SDK and the handler implementations. */
    ghost var trace: seq<Effect>

    ghost predicate Valid()
      reads this
    {
      serialNum.Length == 32 && WellFormed(cfg.tbl, Cmd())
    }

    ghost function Cmd(): CmdState
      reads this
    {
      CmdState(handler, header, done, transferedSoFar, rdwrLocked, mutexHeld)
    }

    /** The zero-initialised globals at boot. */
    constructor (cfg: Config)
      ensures Valid() && fresh(serialNum)
      ensures this.cfg == cfg && trace == []
      ensures Cmd() == CmdState(None, Header(0, 0, 0, 0), false, 0, false, false)
    {
      this.cfg := cfg;
      serialNum := new byte[32](_ => 0);
      handler := None;
      header := Header(0, 0, 0, 0);
      done := false;
      transferedSoFar := 0;
      rdwrLocked := false;
      mutexHeld := false;
      trace := [];
    }

    /** rdwr_teardown() */
    method RdwrTeardown()
      requires Valid()
      modifies this`trace
      ensures Valid()
      ensures trace == old(trace) + Teardown(cfg.tbl, Cmd())
    {
      if handler.Some? {
        match cfg.tbl.Get(handler.value).kind
        case Cpu => trace := trace + [CpuTeardown];
        case SlaveFifo => trace := trace + [SlfifoTeardown];
        case _ =>
      }
    }

    /** RDWR_DONE(main) */
    method RdwrDone(main: bool)
      requires Valid()
      modifies this`rdwrLocked, this`mutexHeld, this`trace
      ensures Valid()
      ensures Cmd() == Done(old(Cmd()), main).state
      ensures trace == old(trace) + Done(old(Cmd()), main).effects
    {
      if !main || rdwrLocked {
        if main {
          rdwrLocked := false;
        }
        mutexHeld := false;
        trace := trace + [MutexPut];
      }
    }

    /** start_rdwr(term, len_hint, rdwr_setup, firmware_di); `io` holds what
        the mutex, the type-specific setup and the rdwr_setup callback return. */
    method StartRdwr(term: u16, lenHint: u16, firmwareDi: bool, io: StartIo) returns (status: Status)
      requires Valid()
      modifies this`handler, this`header, this`done, this`transferedSoFar, this`rdwrLocked, this`mutexHeld, this`trace
      ensures Valid()
      ensures var r := Start(cfg.tbl, old(Cmd()), term, lenHint, firmwareDi, io);
        status == r.status && Cmd() == r.state && trace == old(trace) + r.effects
    {
      trace := trace + [MutexGet(MutexTimeoutMs)];
      if io.mutexStatus != Success {
        return io.mutexStatus;
      }
      mutexHeld := true;
      if !firmwareDi {
        rdwrLocked := true;
      }

      var newHandler := ChooseHandler(cfg.tbl, term, firmwareDi);
      ghost var t0 := old(trace);
      ghost var lock := [MutexGet(MutexTimeoutMs)];
      ghost var uninit := UninitCall(cfg.tbl, handler, newHandler);
      ghost var down := SwitchTeardown(cfg.tbl, handler, newHandler);
      ghost var setup := SetupCall(KindOf(cfg.tbl, newHandler), lenHint);
      status := SwitchHandler(newHandler, lenHint, io.setupStatus);
      AppendAssoc(t0, lock, uninit);
      AppendAssoc(t0, lock + uninit, down);
      AppendAssoc(t0, lock + uninit + down, setup);
      ghost var switched := lock + uninit + down + setup;
      if status != Success {
        return;
      }
      status := BeginCommand(io.fetch);
      AppendAssoc(t0, switched, [RdwrSetup]);
      if io.fetch.Fetched? {
        ghost var start := CmdStartCall(KindOf(cfg.tbl, newHandler));
        AppendAssoc(t0, switched + [RdwrSetup], start);
        AppendAssoc(t0, switched + [RdwrSetup] + start, [EventSet]);
      }
    }

    /** The handler switch of start_rdwr: uninit the old handler if the
        pointer changes, tear down its DMA path if the type changes, bind the
        new handler, and run its type-specific setup. */
    method SwitchHandler(newHandler: Option<HandlerRef>, lenHint: u16, setupStatus: Status) returns (status: Status)
      requires Valid() && cfg.tbl.ValidOpt(newHandler)
      modifies this`handler, this`trace
      ensures Valid() && handler == newHandler
      ensures var setup := SetupCall(KindOf(cfg.tbl, newHandler), lenHint);
        && trace == old(trace) + UninitCall(cfg.tbl, old(handler), newHandler)
                    + SwitchTeardown(cfg.tbl, old(handler), newHandler) + setup
        && status == if setup != [] then setupStatus else Success
    {
      if handler != newHandler {
        if handler.Some? && cfg.tbl.Get(handler.value).hasUninit {
          trace := trace + [Uninit(handler.value)];
        }
      }
      assert trace == old(trace) + UninitCall(cfg.tbl, handler, newHandler);
      ghost var uninitDone := trace;

      if handler.Some? && (newHandler.None? || cfg.tbl.Get(handler.value).kind != cfg.tbl.Get(newHandler.value).kind) {
        match cfg.tbl.Get(handler.value).kind
        case Cpu => trace := trace + [CpuTeardown];
        case SlaveFifo => trace := trace + [SlfifoTeardown];
        case Fdi => trace := trace + [FdiTeardown];
        case Other =>
      }
      assert trace == uninitDone + SwitchTeardown(cfg.tbl, handler, newHandler);
      ghost var teardownDone := trace;

      handler := newHandler;

      status := Success;
      if handler.Some? {
        match cfg.tbl.Get(handler.value).kind
        case Cpu =>
          trace := trace + [CpuSetup];
          status := setupStatus;
        case SlaveFifo =>
          trace := trace + [SlfifoSetup(lenHint % 4 == 0)];
          status := setupStatus;
        case Fdi =>
          trace := trace + [FdiSetup];
          status := setupStatus;
        case Other =>
      }
    }

    /** The tail of start_rdwr: fetch the header through rdwr_setup, reset
        the transfer, start the handler's command and wake the worker. */
    method BeginCommand(fetch: Fetch) returns (status: Status)
      requires Valid()
      modifies this`header, this`done, this`transferedSoFar, this`trace
      ensures Valid()
      ensures fetch.FetchFailed? ==>
        status == fetch.status && Cmd() == old(Cmd()) && trace == old(trace) + [RdwrSetup]
      ensures fetch.Fetched? ==>
        && status == Success
        && Cmd() == old(Cmd()).(header := fetch.header, done := false, transferedSoFar := 0)
        && trace == old(trace) + [RdwrSetup] + CmdStartCall(KindOf(cfg.tbl, handler)) + [EventSet]
    {
      trace := trace + [RdwrSetup];
      match fetch
      case FetchFailed(st) =>
        return st;
      case Fetched(h) =>
        header := h;

      done := false;
      transferedSoFar := 0;

      if handler.Some? {
        match cfg.tbl.Get(handler.value).kind
        case Cpu => trace := trace + [CpuCmdStart];
        case Fdi => trace := trace + [SlfifoCmdStart];
        case SlaveFifo => trace := trace + [SlfifoCmdStart];
        case Other =>
      }

      trace := trace + [EventSet];
      return Success;
    }

    /** handle_rdwr(bReqType, wValue, wIndex, wLength); `io.fetch` is what
        ep0_rdwr_setup's CyU3PUsbGetEP0Data delivered. */
    method HandleRdwr(bReqType: byte, wValue: u16, wIndex: u16, wLength: u16, io: StartIo) returns (status: Status)
      requires Valid()
      modifies this`handler, this`header, this`done, this`transferedSoFar, this`rdwrLocked, this`mutexHeld, this`trace
      ensures Valid()
      ensures var r := RdwrSpec.HandleRdwr(cfg.tbl, cfg.headerSize, old(Cmd()), bReqType, wValue, wIndex, wLength, io);
        status == r.status && Cmd() == r.state && trace == old(trace) + r.effects
    {
      if bReqType != RdwrRequestType || wLength != cfg.headerSize {
        return BadArgument;
      }
      ghost var s0 := Cmd();
      RdwrDone(true);
      ghost var d := Done(s0, true);
      status := StartRdwr(wValue, wIndex, false, io);
      AppendAssoc(old(trace), d.effects, Start(cfg.tbl, d.state, wValue, wIndex, false, io).effects);
    }

    /** handle_serial_num(bReqType, wLength); `io` holds what the I2C and EP0
        calls return and leave in gSerialNum. */
    method HandleSerialNum(bReqType: byte, wLength: u16, io: SerialIo) returns (ret: u32)
      requires Valid() && io.WellFormed()
      modifies serialNum, this`trace
      ensures Valid()
      ensures var r := SerialNum(cfg.prom, bReqType, wLength, io);
        && ret == r.ret
        && trace == old(trace) + r.effects
        && serialNum[..] == AfterDeposit(old(serialNum[..]), r.deposit)
    {
      if wLength != SerialLength {
        return BadArgument;
      }
      if bReqType == SerialReadType {
        trace := trace + [I2cReceive(ReadPreamble(cfg.prom), SerialLength, PromRetries)];
        Deposit(io.promRead.data);
        var st := ToU16(io.promRead.status);
        if st != 0 {
          return CyFalse;
        }
        trace := trace + [Ep0Send(serialNum[..SerialLength])];
        st := ToU16(io.ep0Send);
        if st != 0 {
          return CyFalse;
        }
        return CyTrue;
      } else if bReqType == SerialWriteType {
        trace := trace + [Ep0Get(SerialLength)];
        Deposit(io.ep0Get.data);
        var st := ToU16(io.ep0Get.status);
        if st != 0 {
          return st;
        }
        trace := trace + [I2cTransmit(WritePreamble(cfg.prom), serialNum[..SerialLength], PromRetries)];
        st := ToU16(io.promWrite);
        if st != 0 {
          return CyFalse;
        }
        trace := trace + [I2cWaitForAck(AckPreamble(cfg.prom), AckRetries)];
        st := ToU16(io.ackWait);
        if st != 0 {
          return CyFalse;
        }
        trace := trace + [ThreadSleep(1)];
        return CyTrue;
      } else {
        return BadArgument;
      }
    }

    /** A DMA transfer of 16 bytes into the front of gSerialNum. */
    method Deposit(data: seq<byte>)
      requires Valid() && |data| == SerialLength
      modifies serialNum
      ensures Valid()
      ensures serialNum[..] == AfterDeposit(old(serialNum[..]), Some(data))
    {
      forall k | 0 <= k < SerialLength {
        serialNum[k] := data[k];
      }
    }

    /** handle_vendor_cmd(bRequest, bReqType, bType, bTarget, wValue, wIndex,
        wLength), as written. */
    method HandleVendorCmd(bRequest: byte, bReqType: byte, bType: byte, bTarget: byte,
                           wValue: u16, wIndex: u16, wLength: u16, io: VendorIo) returns (r: u32)
      requires Valid() && io.serial.WellFormed()
      modifies this`handler, this`header, this`done, this`transferedSoFar, this`rdwrLocked, this`mutexHeld, this`trace
      modifies serialNum
      ensures Valid()
      ensures var v := VendorCmd(cfg, old(Cmd()), bRequest, bReqType, wValue, wIndex, wLength, io);
        && r == v.ret && Cmd() == v.state && trace == old(trace) + v.effects
        && serialNum[..] == AfterDeposit(old(serialNum[..]), v.deposit)
    {
      var isHandled := true;
      var status: u32 := Success;
      if bRequest == cfg.codes.hiRdwr {
        status := HandleRdwr(bReqType, wValue, wIndex, wLength, io.start);
      } else if bRequest == cfg.codes.serial {
        status := HandleSerialNum(bReqType, wLength, io.serial);
      } else if bRequest == cfg.codes.renum {
        trace := trace + [DeviceReset];
      } else {
        isHandled := false;
      }

      if !isHandled || status != Success {
        trace := trace + [Stall];
      }
      return CyTrue;
    }
  }
}
