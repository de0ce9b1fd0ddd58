# rdwr.c: vendor commands and the transfer-handler lifecycle of the Nitro FX3 firmware

This project models the vendor-command entry points of the Nitro firmware for
the Cypress FX3 USB controller, in the `FIRMWARE_DI` build:

- `handle_vendor_cmd` routes a vendor request on `bRequest` and stalls
  endpoint 0 when the request is unknown or its handler reports a non-zero
  status;
- `handle_rdwr` validates a read/write request (`bmRequestType` 0x40, a
  header-sized data stage), releases a stale main-context lock and starts
  the command;
- `start_rdwr` locks the rdwr mutex, picks the transfer handler for the
  terminal (first match in `io_handlers`, address 0 being a wildcard, or the
  firmware-DI handler), uninitialises and tears down the old handler as
  needed, sets up the new one, fetches the header, resets the transfer
  counters, starts the command and wakes the worker thread;
- `RDWR_DONE` is the asymmetric unlock: the firmware-DI context always puts
  the mutex, the main context only while `gRdwrLocked` says it holds it;
- `rdwr_teardown` tears down the current handler's DMA path;
- `handle_serial_num` reads the 16-byte serial number from the PROM over I2C
  and sends it to the host, or takes it from the host and writes it to the
  PROM.

The globals `gRdwrCmd`, `gRdwrLocked` and `gSerialNum` are the fields of the
class `Rdwr.Firmware`; its methods follow the C functions statement by
statement. Every call into the Cypress SDK or into a handler implementation
is recorded in a ghost trace of `Trace.Effect`s, and its result is a
parameter (`StartIo`, `SerialIo`, `VendorIo`). Each method is proved to
agree with a function of `RdwrSpec` or `VendorSpec` that gives its status or
return value, its new state and the calls it makes. The lemmas about those
functions state the rules of the lifecycle. `Trace.Phase` numbers the calls
in protocol order: unlock, lock, uninit, teardown, setup, header fetch,
command start, wake-up. Ordering is stated as phases that strictly increase
along the trace (`Trace.Ordered`).

Files: `fx3.dfy` (SDK integer widths and status codes), `handlers.dfy`
(handler table and lookup), `trace.dfy` (the calls and their order),
`rdwr_spec.dfy` (start_rdwr, RDWR_DONE, handle_rdwr, rdwr_teardown as
functions, with lemmas), `vendor_spec.dfy` (handle_serial_num and
handle_vendor_cmd as functions, with lemmas), `rdwr.dfy` (the class).

Constants that rdwr.c takes from headers not included here are parameters
of `VendorSpec.Config`: the `VC_*` request codes, `sizeof(rdwr_data_header_t)`,
`FX3_PROM_SERIALNUM0_0` and `m24xx_get_dev_addr`, which is an uninterpreted
function. `CY_U3P_ERROR_BAD_ARGUMENT` is taken as 0x40, the SDK's value. The
proofs use only that it differs from 0 (success) and from 1 (`CyTrue`), which
0x40 does.

rdwr.c has none of the following, and the model follows the code:

- there is no serial-number cache: `gSerialNum` is a scratch buffer that
  every serial request overwrites;
- there is no deferred initialisation status, and the result of `cmd_start`
  is not looked at;
- the error returns of `start_rdwr` after a successful lock do not unlock
  the mutex;
- nothing is rolled back when setup or the header fetch fails;
- `rdwr_teardown` has no FDI case, unlike the teardown switch in
  `start_rdwr`.

## Model

| member | source | states |
|---|---|---|
| Fx3.ToU16 | firmware/rdwr.c:256 | Storing a 32-bit status into the `uint16_t status` of handle_serial_num keeps values below 2^16 and otherwise drops a multiple of 2^16 |
| Handlers.FirstMatch | firmware/rdwr.c:129-138 | The result is the index of the first entry at or after `from` whose term_addr is the terminal or 0; None means no such entry |
| Handlers.FindHandler | firmware/rdwr.c:129-138 | The while loop over io_handlers stops at the first matching entry, or at the terminator with nothing found |
| Handlers.Select | firmware/rdwr.c:119-141 | With firmware_di the handler is firmware_di_handler; otherwise it is the first io_handlers entry serving the terminal, none before it matches, and NULL only when no entry matches |
| Handlers.ChooseHandler | firmware/rdwr.c:119-141 | The handler-choice code of start_rdwr computes `Select` |
| Handlers.WildcardShadows | firmware/rdwr.c:121-138 | Once an entry has term_addr 0, a handler is always found and no later entry is ever chosen |
| RdwrSpec.UninitCall | firmware/rdwr.c:145-149 | At most one call, in the uninit phase, and only the old handler's own uninit |
| RdwrSpec.TeardownCall | firmware/rdwr.c:156-173 | At most one call, in the teardown phase, and always a teardown; none exactly for a type outside CPU, slave FIFO and FDI |
| RdwrSpec.SwitchTeardown | firmware/rdwr.c:151-174 | At most one teardown, in the teardown phase; none when there was no old handler or the new handler has the old one's type |
| RdwrSpec.SetupCall | firmware/rdwr.c:178-200 | At most one call, in the setup phase, and always a setup; none exactly when there is no handler or its type has no setup |
| RdwrSpec.CmdStartCall | firmware/rdwr.c:226-240 | At most one call, in the command-start phase, and always a CPU or slave-FIFO command start; none exactly when there is no handler or its type has no start |
| RdwrSpec.Start | firmware/rdwr.c:102-248 | The handler pointer stays in the tables. After a successful lock it is the selected handler; after a failed lock it is unchanged |
| RdwrSpec.Done | firmware/rdwr.c:51-57 | RDWR_DONE makes no call or exactly one mutex put. With no call the state is unchanged; after the put the mutex is not held |
| RdwrSpec.HandleRdwr | firmware/rdwr.c:75-93 | The handler pointer stays in the tables |
| RdwrSpec.Teardown | firmware/rdwr.c:26-37 | rdwr_teardown makes at most one call, and it is a teardown |
| RdwrSpec.MutexTimeoutChangesNothing | firmware/rdwr.c:111-114 | A failed mutex get returns its status, changes no state, does not set gRdwrLocked and makes no other call |
| RdwrSpec.StartBindsAndLocks | firmware/rdwr.c:111-176 | After the lock the selected handler is stored, whatever happens afterwards. The mutex is held, gRdwrLocked is set only for the main context, and nothing is unlocked |
| RdwrSpec.UninitRule | firmware/rdwr.c:145-149 | The old handler's uninit is called if and only if the lock succeeded, the old pointer is set, it has an uninit function and the new pointer differs |
| RdwrSpec.TeardownRule | firmware/rdwr.c:151-174 | A DMA teardown happens if and only if there was an old handler of a type with a teardown and either the new handler is NULL or its type differs; any teardown is the old type's own |
| RdwrSpec.SameTypeNeverTearsDown | firmware/rdwr.c:153-155 | Switching between two handlers of the same type makes no teardown |
| RdwrSpec.SetupEveryCall | firmware/rdwr.c:178-200 | After the lock, the new handler's type-specific setup runs on every call, changed or not. Slave-FIFO setup is passed len_hint % 4 == 0. A setup call happens if and only if the handler has a CPU, slave-FIFO or FDI type |
| RdwrSpec.SetupFailureNoRollback | firmware/rdwr.c:176-204 | A failed setup returns its status. The new handler stays bound, and header, done and transfered_so_far are unchanged. There is no header fetch, command start or wake-up |
| RdwrSpec.FetchFailureNoRollback | firmware/rdwr.c:206-208 | A failed rdwr_setup returns its status after setup. The new handler stays bound, header, done and transfered_so_far are unchanged, and there is no wake-up |
| RdwrSpec.StartSuccess | firmware/rdwr.c:201-247 | start_rdwr succeeds if and only if the lock, the setup (when one is called) and the header fetch succeed. Then the fetched header is stored, done and transfered_so_far are 0, the CPU or slave-FIFO command start matches the type (FDI uses the slave-FIFO start) and the worker is woken; on failure it is not |
| RdwrSpec.StartOnce | firmware/rdwr.c:102-248 | start_rdwr makes no call twice (in particular it wakes the worker at most once) |
| RdwrSpec.StartShape | firmware/rdwr.c:143-247 | After the lock the calls are the switch (lock, uninit, teardown, setup), then the header fetch if setup did not fail, then command start and wake-up exactly on success |
| RdwrSpec.StartOrdered | firmware/rdwr.c:102-248 | The calls of start_rdwr follow the protocol order lock, uninit, teardown, setup, header fetch, command start, wake-up, and none comes later |
| RdwrSpec.SwitchOrdered | firmware/rdwr.c:143-200 | Lock, uninit, teardown and setup come in that order |
| RdwrSpec.BeginOrdered | firmware/rdwr.c:206-245 | Header fetch, command start and wake-up come after the switch, in that order |
| RdwrSpec.StartBeginsWithLock | firmware/rdwr.c:110-117 | The first call of start_rdwr is the 2000 ms mutex get, and nothing it does comes before it |
| RdwrSpec.DoneRule | firmware/rdwr.c:50-57 | RDWR_DONE puts the mutex if and only if it is called from the firmware-DI context or gRdwrLocked is set. From the main context it leaves gRdwrLocked clear, and it changes nothing else |
| RdwrSpec.DoneTwiceUnlocksOnce | firmware/rdwr.c:50-57 | Two main-context RDWR_DONE calls with no lock in between unlock at most once, and the second does nothing |
| RdwrSpec.HandleRdwrRejects | firmware/rdwr.c:81-84 | handle_rdwr returns BAD_ARGUMENT with no call at all (no unlock, lock, handler or setup) if and only if bReqType is not 0x40 or wLength is not the header size; such a request leaves the whole state unchanged |
| RdwrSpec.HandleRdwrReleasesFirst | firmware/rdwr.c:86-92 | A valid request unlocks only when the main context holds the lock, at most once and before locking again; the result is start_rdwr's for the main context with wValue as terminal and wIndex as length hint |
| RdwrSpec.TeardownOnlyCurrent | firmware/rdwr.c:26-37 | rdwr_teardown makes at most one teardown, that of the current handler's type, and only for CPU or slave-FIFO handlers |
| VendorSpec.AddressBytes | firmware/rdwr.c:267-268 | The two address bytes of a preamble are the big-endian low 16 bits of the register address |
| VendorSpec.ReadPreamble | firmware/rdwr.c:265-270 | The read preamble is 4 bytes long with control mask 0x0004 (a repeated start before the read select) |
| VendorSpec.WritePreamble | firmware/rdwr.c:290-294 | The write preamble is 3 bytes long with control mask 0 |
| VendorSpec.AckPreamble | firmware/rdwr.c:303-304 | The ACK poll uses the write preamble cut to its first byte, with control mask 0 |
| VendorSpec.SerialNum | firmware/rdwr.c:251-319 | Whatever gSerialNum receives is 16 bytes. No stall and no mutex call. No call is made exactly when the length is not 16 or the request type is neither 0xC0 nor 0x40, and then the buffer is untouched and BAD_ARGUMENT is returned |
| VendorSpec.Route | firmware/rdwr.c:333-354 | A request is handled exactly when bRequest is VC_HI_RDWR, VC_SERIAL or VC_RENUM; an unhandled one makes no call. Only VC_HI_RDWR changes the command state, and the handler pointer stays in the tables |
| VendorSpec.VendorCmd | firmware/rdwr.c:323-364 | handle_vendor_cmd returns CyTrue, keeps the handler pointer in the tables and changes the command state only for VC_HI_RDWR |
| VendorSpec.VendorCmdIntended | firmware/rdwr.c:323-364 | The same as `VendorCmd`, for the dispatch that stalls on the status the serial request means to report |
| VendorSpec.PreamblesAddressSerial | firmware/rdwr.c:265-304 | The 4-byte read preamble and the 3-byte write preamble address the serial-number register. They begin with the write device-select byte that the ACK poll also uses, and the read ends with the read select |
| VendorSpec.SerialRejects | firmware/rdwr.c:258-317 | A length other than 16 or a request type other than 0xC0/0x40 returns BAD_ARGUMENT with no bus or EP0 call and no buffer write, and only those inputs do |
| VendorSpec.SerialReturn | firmware/rdwr.c:263-312 | The return value is CyTrue exactly for a completed transfer (or an EP0 get failing with status 1). It is CyFalse after a failed PROM read, EP0 send, PROM write or ACK wait, and the 16-bit status after a failed EP0 get. The status meant to be reported is success exactly on completion |
| VendorSpec.SerialForwardsBytes | firmware/rdwr.c:271-296 | The host is sent exactly what the PROM read left in gSerialNum. The PROM is written exactly what the host sent, through the write preamble. The PROM read uses the read preamble and 16 bytes. Both the PROM read and the PROM write pass a retry count of 1 |
| VendorSpec.VendorStallRule | firmware/rdwr.c:323-364 | handle_vendor_cmd returns CyTrue. It stalls at most once, as its last call, exactly when handle_rdwr's status or handle_serial_num's return value is non-zero or the request is unknown. The renumerate request only resets the device |
| VendorSpec.HandleRdwrNoStall | firmware/rdwr.c:75-93 | handle_rdwr itself never stalls EP0 |
| VendorSpec.SerialSuccessStalls | firmware/rdwr.c:271-360 | As written, a completed serial request is answered with an EP0 stall, and one whose PROM read fails is not |
| VendorSpec.IntendedStallsIffFailed | firmware/rdwr.c:339-360 | When the serial request reports a status, EP0 is stalled exactly when the request did not complete |
| Rdwr.Firmware.constructor | firmware/rdwr.c:22-50 | The globals start zeroed: no handler, not done, no lock, a 32-byte serial buffer |
| Rdwr.Firmware.RdwrTeardown | firmware/rdwr.c:26-37 | Appends `Teardown` of the current state to the trace and changes nothing else |
| Rdwr.Firmware.RdwrDone | firmware/rdwr.c:51-57 | The new lock flag, mutex state and calls are those of `Done` |
| Rdwr.Firmware.StartRdwr | firmware/rdwr.c:102-248 | Status, new gRdwrCmd/gRdwrLocked state and calls are those of `Start` |
| Rdwr.Firmware.SwitchHandler | firmware/rdwr.c:143-200 | The calls are the uninit, teardown and setup calls of `Start`. The new handler is stored, and the status is the setup's when a setup was called |
| Rdwr.Firmware.BeginCommand | firmware/rdwr.c:206-247 | A failed header fetch returns its status and changes nothing. Otherwise the header is stored, the counters reset, the command started and the worker woken |
| Rdwr.Firmware.HandleRdwr | firmware/rdwr.c:75-93 | Status, new state and calls are those of `RdwrSpec.HandleRdwr` |
| Rdwr.Firmware.HandleSerialNum | firmware/rdwr.c:251-319 | Return value and calls are those of `SerialNum`, and gSerialNum holds what the last transfer left in its first 16 bytes |
| Rdwr.Firmware.Deposit | firmware/rdwr.c:271-284 | A DMA transfer replaces the first 16 bytes of gSerialNum and keeps the other 16 |
| Rdwr.Firmware.HandleVendorCmd | firmware/rdwr.c:323-364 | Return value, new state, calls and gSerialNum are those of `VendorCmd`, as written |

## Left out

- The Cypress SDK calls (mutex get/put, EP0 get/send, stall, event set,
  device reset, I2C receive/transmit/ACK wait, thread sleep): each is a trace
  entry, and its result is a parameter. Timing, the 2000 ms timeout itself
  and the ACK retry loop are not modelled.
- The mutex is a flag. Its ownership by a thread, blocking, and the rule
  that only the locking thread may put it are not modelled, and neither is
  any concurrency with the worker thread or the firmware-DI thread.
- The handler implementations (`cpu_handler_*`, `slfifo_*`, `fdi_*`,
  `uninit_handler`) are trace entries; their own state is not modelled.
- The layout of `rdwr_data_header_t` and the copy from `glEp0Buffer`:
  `ep0_rdwr_setup` (rdwr.c:62-73) is the `Fetch` parameter, a header value or
  a failing status.
- The build without `FIRMWARE_DI` (no lock, no firmware-DI handler).
- The commented-out `VC_RDWR_RAM` case, and the `bType`/`bTarget` arguments
  of handle_vendor_cmd, which are unused.
- Logging.
- The `rdwr_setup` callbacks that the firmware-DI thread passes to
  `start_rdwr` are not part of this model. `Fetch` assumes they behave like
  `ep0_rdwr_setup`: they write only `gRdwrCmd.header`, and only when they
  succeed.
- `m24xx_get_dev_addr` is an uninterpreted function of its four arguments.
  `FX3_PROM_SERIALNUM0_0`, the `VC_*` codes and the header size are
  configuration values.
- `CyU3PDeviceReset` does not return on the device; the model records the call
  and carries on as the C text does.
- Rdwr.Firmware.HandleVendorCmd: follows the code as written, so a completed
  serial request stalls EP0. The status the request is evidently meant to
  report is stated by `VendorSpec.VendorCmdIntended`.

## Findings

| source | as written | input that shows it | evidently intended | confidence | as-written member | corrected member |
|---|---|---|---|---|---|---|
| firmware/rdwr.c:281-356 | handle_serial_num returns CyTrue (1) on success and CyFalse (0) on a PROM or EP0-send failure. handle_vendor_cmd stores that as a status and stalls on any non-zero status | a serial read (bReqType 0xC0, wLength 16) whose PROM read and EP0 send both succeed: the return value 1 makes handle_vendor_cmd stall EP0; a read whose PROM read fails returns 0 and is not stalled | stall exactly when the serial request fails, with success reported as CY_U3P_SUCCESS | high for the inversion; not executed | VendorSpec.SerialSuccessStalls | VendorSpec.IntendedStallsIffFailed |
