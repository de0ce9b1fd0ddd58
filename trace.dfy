/** The externally visible effects of the vendor-command code: one entry per
    call into the SDK or into a handler implementation, in the order made. */
module Trace {
  import opened Fx3
  import opened Handlers

  datatype Effect =
    | MutexPut                          // CyU3PMutexPut on gRdwrCmd.rdwr_mutex
    | MutexGet(timeoutMs: nat)          // CyU3PMutexGet on gRdwrCmd.rdwr_mutex
    | Uninit(handler: HandlerRef)       // the old handler's uninit_handler()
    | CpuTeardown | SlfifoTeardown | FdiTeardown
    | CpuSetup | SlfifoSetup(wordAligned: bool) | FdiSetup
    | RdwrSetup                         // the rdwr_setup callback (fetches the header, acks the request)
    | CpuCmdStart | SlfifoCmdStart
    | EventSet                          // NITRO_EVENT_DATA set on glThreadEvent
    | Stall                             // CyU3PUsbStall(0, CyTrue, CyFalse)
    | DeviceReset                       // CyU3PDeviceReset(CyFalse)
    | I2cReceive(preamble: Preamble, count: nat, retries: nat)
    | I2cTransmit(preamble: Preamble, data: seq<byte>, retries: nat)
    | I2cWaitForAck(preamble: Preamble, retries: nat)
    | Ep0Send(data: seq<byte>)
    | Ep0Get(count: nat)
    | ThreadSleep(ticks: nat)

  predicate IsTeardown(e: Effect) {
    e.CpuTeardown? || e.SlfifoTeardown? || e.FdiTeardown?
  }

  predicate IsSetup(e: Effect) {
    e.CpuSetup? || e.SlfifoSetup? || e.FdiSetup?
  }

  predicate IsCmdStart(e: Effect) {
    e.CpuCmdStart? || e.SlfifoCmdStart?
  }

  /** The position of an effect in the handler-switch protocol: release a
      stale lock, lock, uninit the old handler, tear down its DMA path, set up
      the new one, fetch the header, start the command, wake the worker. */
  function Phase(e: Effect): nat {
    match e
    case MutexPut => 0
    case MutexGet(_) => 1
    case Uninit(_) => 2
    case CpuTeardown | SlfifoTeardown | FdiTeardown => 3
    case CpuSetup | SlfifoSetup(_) | FdiSetup => 4
    case RdwrSetup => 5
    case CpuCmdStart | SlfifoCmdStart => 6
    case EventSet => 7
    case Stall => 9
    case _ => 8
  }

  /** Every effect belongs to a strictly later phase than the one before it. */
  ghost predicate Ordered(t: seq<Effect>) {
    forall i, j :: 0 <= i < j < |t| ==> Phase(t[i]) < Phase(t[j])
  }

  /** In an ordered trace no phase, hence no effect, occurs twice. */
  lemma {:induction false} OrderedOnce(t: seq<Effect>, e: Effect)
    requires Ordered(t)
    ensures multiset(t)[e] <= 1
  {
    if t != [] {
      assert t == [t[0]] + t[1..];
      assert Ordered(t[1..]) by {
        forall i, j | 0 <= i < j < |t[1..]| ensures Phase(t[1..][i]) < Phase(t[1..][j]) {
          assert t[1..][i] == t[i + 1] && t[1..][j] == t[j + 1];
        }
      }
      OrderedOnce(t[1..], e);
      if t[0] == e {
        assert e !in t[1..] by {
          forall k | 0 <= k < |t[1..]| ensures t[1..][k] != e {
            assert Phase(t[0]) < Phase(t[k + 1]);
          }
        }
      }
    }
  }

  /** At most one effect, in phase `k`. */
  ghost predicate Layer(t: seq<Effect>, k: nat) {
    |t| <= 1 && forall e :: e in t ==> Phase(e) == k
  }

  /** An ordered trace whose effects all lie in phases up to `k`. */
  ghost predicate UpTo(t: seq<Effect>, k: nat) {
    Ordered(t) && forall i :: 0 <= i < |t| ==> Phase(t[i]) <= k
  }

  lemma Widen(t: seq<Effect>, k: nat, k': nat)
    requires UpTo(t, k) && k <= k'
    ensures UpTo(t, k')
  {
  }

  /** A trace bounded by phase `k` holds no effect of a later phase. */
  lemma Beyond(t: seq<Effect>, k: nat, e: Effect)
    requires UpTo(t, k) && Phase(e) > k
    ensures e !in t
  {
  }

  /** Appending a layer of a later phase keeps a trace ordered. */
  lemma Extend(a: seq<Effect>, b: seq<Effect>, k: nat)
    requires 0 < k && UpTo(a, k - 1) && Layer(b, k)
    ensures UpTo(a + b, k)
  {
    if b != [] {
      assert b[0] in b;
      OrderedAppend(a, b);
    }
    forall i | 0 <= i < |a + b| ensures Phase((a + b)[i]) <= k {
      if i >= |a| {
        assert (a + b)[i] in b;
      }
    }
  }

  /** Regrouping a concatenation of traces. */
  lemma AppendAssoc(a: seq<Effect>, b: seq<Effect>, c: seq<Effect>)
    ensures a + (b + c) == a + b + c
  {
  }

  /** Two ordered traces in phases that do not overlap join to an ordered one. */
  lemma OrderedAppend(a: seq<Effect>, b: seq<Effect>)
    requires Ordered(a) && Ordered(b)
    requires forall i, j :: 0 <= i < |a| && 0 <= j < |b| ==> Phase(a[i]) < Phase(b[j])
    ensures Ordered(a + b)
  {
    forall i, j | 0 <= i < j < |a + b| ensures Phase((a + b)[i]) < Phase((a + b)[j]) {
      if j < |a| {
      } else if i >= |a| {
        assert (a + b)[i] == b[i - |a|] && (a + b)[j] == b[j - |a|];
      } else {
        assert (a + b)[i] == a[i] && (a + b)[j] == b[j - |a|];
      }
    }
  }
}
