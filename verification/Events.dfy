/** The events read from the two recordings. */
module Events {

  type u64 = x: int | 0 <= x < 0x1_0000_0000_0000_0000

  const U64_MAX: u64 := 0xFFFF_FFFF_FFFF_FFFF

  /** A number cast to 64 unsigned bits, signed ones by two's complement. */
  function ToU64(x: int): u64 {
    x % 0x1_0000_0000_0000_0000
  }

  /** The instrumented GPU and NCCL functions; each has an entry and a return probe. */
  datatype Api =
    | NvidiaLaunch | NvidiaStreamSync | NvidiaDeviceSync | NvidiaEventSync
    | NvidiaMemcpyHtoD | NvidiaMemcpyDtoH | NvidiaMemcpyDtoD | NvidiaMemcpyAsync | NvidiaMemcpyPeer
    | NvidiaMalloc | NvidiaFree
    | NcclAllReduce | NcclBroadcast | NcclReduceScatter

  /** A perf event type together with the part of the payload that the type selects. */
  datatype PerfKind =
    | SchedSwitch(prevTid: int, nextTid: int, prevState: int)
    | SchedWakeup(targetTid: int)
    | SchedFork(childPid: int, childTid: int)
    | SchedStatRuntime
    | ContextSwitch
    | TakeGil
    | TakeGilReturn
    | DropGil
    | ApiEntry(api: Api)
    | ApiReturn(api: Api)
    | Comm
    | Other

  predicate GilKind(k: PerfKind) {
    k.TakeGil? || k.TakeGilReturn? || k.DropGil?
  }

  predicate ApiKind(k: PerfKind) {
    k.ApiEntry? || k.ApiReturn?
  }

  datatype PerfEvent = PerfEvent(timestampNs: u64, pid: int, tid: int, cpu: int, kind: PerfKind)

  datatype VizEvent = VizEvent(tsUs: real, durUs: real, pid: int, tid: int, ph: char, depth: int,
                               name: string, cat: string, args: string)
}
