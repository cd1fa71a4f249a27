/** The calls an output writer receives. Times are exact: nanoseconds as integers,
    microseconds as reals. */
module Output {
  import opened Events

  /** The sleep states that a scheduler `prev_state` word is shown as. */
  datatype SleepState = Preempted | Interruptible | Uninterruptible | Stopped | Traced | Unknown

  function PrevStateName(state: int): SleepState {
    match state % 16
    case 0 => Preempted
    case 1 => Interruptible
    case 2 => Uninterruptible
    case 4 => Stopped
    case 8 => Traced
    case _ => Unknown
  }

  datatype Label =
    | OnCpu
    | OffCpu(why: SleepState)
    | WakeupMark
    | ForkMark
    | GilAcquire
    | GilHeld
    | ApiSpan(api: Api)
    | Text(text: string)

  datatype Args =
    | NoArgs
    | CpuArg(cpu: int)
    | ReasonArg(why: SleepState)
    | TargetArg(target: int)
    | ForkArg(childPid: int, childTid: int)
    | Json(json: string)

  datatype Call =
    | Complete(name: Label, cat: string, tsUs: real, durUs: real, pid: int, tid: int, args: Args)
    | Begin(name: Label, cat: string, tsUs: real, pid: int, tid: int)
    | End(name: Label, cat: string, tsUs: real, pid: int, tid: int)
    | Instant(name: Label, cat: string, tsUs: real, pid: int, tid: int, args: Args)
    | Viz(ph: char, name: Label, cat: string, tsUs: real, durUs: real, pid: int, tid: int, args: Args)
    | Metadata(name: Label, pid: int, tid: int, args: Args)

  const GIL_TID_OFFSET := 100_000_000
  const SCHED_TID_OFFSET := 200_000_000
  const GPU_TID_OFFSET := 300_000_000
  const MAX_REAL_TID := 10_000_000

  function Us(ns: int): real {
    ns as real / 1000.0
  }

  function ApiCategory(api: Api): string {
    match api
    case NvidiaLaunch => "gpu"
    case NvidiaStreamSync => "gpu.sync"
    case NvidiaDeviceSync => "gpu.sync"
    case NvidiaEventSync => "gpu.sync"
    case NvidiaMemcpyHtoD => "gpu.memcpy"
    case NvidiaMemcpyDtoH => "gpu.memcpy"
    case NvidiaMemcpyDtoD => "gpu.memcpy"
    case NvidiaMemcpyAsync => "gpu.memcpy"
    case NvidiaMemcpyPeer => "gpu.memcpy"
    case NvidiaMalloc => "gpu.alloc"
    case NvidiaFree => "gpu.alloc"
    case NcclAllReduce => "nccl"
    case NcclBroadcast => "nccl"
    case NcclReduceScatter => "nccl"
  }
}
