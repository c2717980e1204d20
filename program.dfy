/** Programs: the pre-load handle `OpenProgram`, the loaded `Program`, the
    program and attach type tables, pinning, the attach operations (each
    producing a `Link`, except the sockmap binding) and test runs. */
module Programs {
  import opened CTypes
  import opened Errors
  import opened Libbpf

  // ---------------------------------------------------------- type tables

  /** `enum bpf_prog_type` as the library knows it; `Unknown` stands for every other code. */
  datatype ProgramType =
    | Unspec | SocketFilter | Kprobe | SchedCls | SchedAct | Tracepoint | Xdp
    | PerfEvent | CgroupSkb | CgroupSock | LwtIn | LwtOut | LwtXmit | SockOps | SkSkb
    | CgroupDevice | SkMsg | RawTracepoint | CgroupSockAddr | LwtSeg6local | LircMode2
    | SkReuseport | FlowDissector | CgroupSysctl | RawTracepointWritable | CgroupSockopt
    | Tracing | StructOps | Ext | Lsm | Unknown

  /** Number of known variants: they occupy the codes 0 .. PROGRAM_TYPES - 1. */
  const PROGRAM_TYPES: u32 := 30

  /** `t as u32`: the `#[repr(u32)]` discriminant. */
  function ProgramTypeCode(t: ProgramType): (c: u32)
    ensures t != ProgramType.Unknown <==> c < PROGRAM_TYPES
    ensures t == ProgramType.Unknown <==> c == U32_MAX
  {
    match t
    case Unspec => 0
    case SocketFilter => 1
    case Kprobe => 2
    case SchedCls => 3
    case SchedAct => 4
    case Tracepoint => 5
    case Xdp => 6
    case PerfEvent => 7
    case CgroupSkb => 8
    case CgroupSock => 9
    case LwtIn => 10
    case LwtOut => 11
    case LwtXmit => 12
    case SockOps => 13
    case SkSkb => 14
    case CgroupDevice => 15
    case SkMsg => 16
    case RawTracepoint => 17
    case CgroupSockAddr => 18
    case LwtSeg6local => 19
    case LircMode2 => 20
    case SkReuseport => 21
    case FlowDissector => 22
    case CgroupSysctl => 23
    case RawTracepointWritable => 24
    case CgroupSockopt => 25
    case Tracing => 26
    case StructOps => 27
    case Ext => 28
    case Lsm => 29
    case Unknown => U32_MAX
  }

  /** `ProgramType::try_from(code)`: the variant whose discriminant is `code`, if any. */
  function ProgramTypeTryFrom(code: u32): (r: Option<ProgramType>)
    ensures r.Some? <==> code < PROGRAM_TYPES || code == U32_MAX
    ensures r.Some? ==> ProgramTypeCode(r.value) == code
  {
    if code < PROGRAM_TYPES then Some(ProgramTypeAt(code))
    else if code == U32_MAX then Some(ProgramType.Unknown)
    else None
  }

  /** The known variant with discriminant `code`. */
  function ProgramTypeAt(code: u32): (t: ProgramType)
    requires code < PROGRAM_TYPES
    ensures ProgramTypeCode(t) == code
  {
    match code
    case 0 => ProgramType.Unspec
    case 1 => ProgramType.SocketFilter
    case 2 => ProgramType.Kprobe
    case 3 => ProgramType.SchedCls
    case 4 => ProgramType.SchedAct
    case 5 => ProgramType.Tracepoint
    case 6 => ProgramType.Xdp
    case 7 => ProgramType.PerfEvent
    case 8 => ProgramType.CgroupSkb
    case 9 => ProgramType.CgroupSock
    case 10 => ProgramType.LwtIn
    case 11 => ProgramType.LwtOut
    case 12 => ProgramType.LwtXmit
    case 13 => ProgramType.SockOps
    case 14 => ProgramType.SkSkb
    case 15 => ProgramType.CgroupDevice
    case 16 => ProgramType.SkMsg
    case 17 => ProgramType.RawTracepoint
    case 18 => ProgramType.CgroupSockAddr
    case 19 => ProgramType.LwtSeg6local
    case 20 => ProgramType.LircMode2
    case 21 => ProgramType.SkReuseport
    case 22 => ProgramType.FlowDissector
    case 23 => ProgramType.CgroupSysctl
    case 24 => ProgramType.RawTracepointWritable
    case 25 => ProgramType.CgroupSockopt
    case 26 => ProgramType.Tracing
    case 27 => ProgramType.StructOps
    case 28 => ProgramType.Ext
    case _ => ProgramType.Lsm
  }

  /** `enum bpf_attach_type` as the library knows it; `Unknown` stands for every other code. */
  datatype ProgramAttachType =
    | CgroupInetIngress | CgroupInetEgress | CgroupInetSockCreate | CgroupSockOps
    | SkSkbStreamParser | SkSkbStreamVerdict | CgroupDevice | SkMsgVerdict
    | CgroupInet4Bind | CgroupInet6Bind | CgroupInet4Connect | CgroupInet6Connect
    | CgroupInet4PostBind | CgroupInet6PostBind | CgroupUdp4Sendmsg | CgroupUdp6Sendmsg
    | LircMode2 | FlowDissector | CgroupSysctl | CgroupUdp4Recvmsg | CgroupUdp6Recvmsg
    | CgroupGetsockopt | CgroupSetsockopt | TraceRawTp | TraceFentry | TraceFexit
    | ModifyReturn | LsmMac | Unknown

  /** Number of known variants: they occupy the codes 0 .. ATTACH_TYPES - 1. */
  const ATTACH_TYPES: u32 := 28

  /** `t as u32`: the `#[repr(u32)]` discriminant. */
  function ProgramAttachTypeCode(t: ProgramAttachType): (c: u32)
    ensures t != ProgramAttachType.Unknown <==> c < ATTACH_TYPES
    ensures t == ProgramAttachType.Unknown <==> c == U32_MAX
  {
    match t
    case CgroupInetIngress => 0
    case CgroupInetEgress => 1
    case CgroupInetSockCreate => 2
    case CgroupSockOps => 3
    case SkSkbStreamParser => 4
    case SkSkbStreamVerdict => 5
    case CgroupDevice => 6
    case SkMsgVerdict => 7
    case CgroupInet4Bind => 8
    case CgroupInet6Bind => 9
    case CgroupInet4Connect => 10
    case CgroupInet6Connect => 11
    case CgroupInet4PostBind => 12
    case CgroupInet6PostBind => 13
    case CgroupUdp4Sendmsg => 14
    case CgroupUdp6Sendmsg => 15
    case LircMode2 => 16
    case FlowDissector => 17
    case CgroupSysctl => 18
    case CgroupUdp4Recvmsg => 19
    case CgroupUdp6Recvmsg => 20
    case CgroupGetsockopt => 21
    case CgroupSetsockopt => 22
    case TraceRawTp => 23
    case TraceFentry => 24
    case TraceFexit => 25
    case ModifyReturn => 26
    case LsmMac => 27
    case Unknown => U32_MAX
  }

  /** `ProgramAttachType::try_from(code)`: the variant whose discriminant is `code`, if any. */
  function ProgramAttachTypeTryFrom(code: u32): (r: Option<ProgramAttachType>)
    ensures r.Some? <==> code < ATTACH_TYPES || code == U32_MAX
    ensures r.Some? ==> ProgramAttachTypeCode(r.value) == code
  {
    if code < ATTACH_TYPES then Some(ProgramAttachTypeAt(code))
    else if code == U32_MAX then Some(ProgramAttachType.Unknown)
    else None
  }

  /** The known variant with discriminant `code`. */
  function ProgramAttachTypeAt(code: u32): (t: ProgramAttachType)
    requires code < ATTACH_TYPES
    ensures ProgramAttachTypeCode(t) == code
  {
    match code
    case 0 => ProgramAttachType.CgroupInetIngress
    case 1 => ProgramAttachType.CgroupInetEgress
    case 2 => ProgramAttachType.CgroupInetSockCreate
    case 3 => ProgramAttachType.CgroupSockOps
    case 4 => ProgramAttachType.SkSkbStreamParser
    case 5 => ProgramAttachType.SkSkbStreamVerdict
    case 6 => ProgramAttachType.CgroupDevice
    case 7 => ProgramAttachType.SkMsgVerdict
    case 8 => ProgramAttachType.CgroupInet4Bind
    case 9 => ProgramAttachType.CgroupInet6Bind
    case 10 => ProgramAttachType.CgroupInet4Connect
    case 11 => ProgramAttachType.CgroupInet6Connect
    case 12 => ProgramAttachType.CgroupInet4PostBind
    case 13 => ProgramAttachType.CgroupInet6PostBind
    case 14 => ProgramAttachType.CgroupUdp4Sendmsg
    case 15 => ProgramAttachType.CgroupUdp6Sendmsg
    case 16 => ProgramAttachType.LircMode2
    case 17 => ProgramAttachType.FlowDissector
    case 18 => ProgramAttachType.CgroupSysctl
    case 19 => ProgramAttachType.CgroupUdp4Recvmsg
    case 20 => ProgramAttachType.CgroupUdp6Recvmsg
    case 21 => ProgramAttachType.CgroupGetsockopt
    case 22 => ProgramAttachType.CgroupSetsockopt
    case 23 => ProgramAttachType.TraceRawTp
    case 24 => ProgramAttachType.TraceFentry
    case 25 => ProgramAttachType.TraceFexit
    case 26 => ProgramAttachType.ModifyReturn
    case _ => ProgramAttachType.LsmMac
  }

  /** Decoding a program type's own code gives it back. */
  lemma ProgramTypeRoundTrip(t: ProgramType)
    ensures ProgramTypeTryFrom(ProgramTypeCode(t)) == Some(t)
  {
  }

  /** Decoding an attach type's own code gives it back. */
  lemma ProgramAttachTypeRoundTrip(t: ProgramAttachType)
    ensures ProgramAttachTypeTryFrom(ProgramAttachTypeCode(t)) == Some(t)
  {
  }

  // ------------------------------------------------------- libbpf object

  /** The libbpf program object that both the open and the loaded handle
      point at. `progType` and `expectedAttachType` are raw kernel codes. */
  class BpfProgram {
    const handle: nat
    var progType: u32
    var expectedAttachType: u32
    var ifindex: u32
    var autoload: bool
    var fd: i32

    constructor (handle: nat, progType: u32, expectedAttachType: u32, fd: i32)
      ensures this.handle == handle && this.progType == progType
      ensures this.expectedAttachType == expectedAttachType && this.fd == fd
      ensures ifindex == 0 && autoload
    {
      this.handle := handle;
      this.progType := progType;
      this.expectedAttachType := expectedAttachType;
      this.fd := fd;
      ifindex := 0;
      autoload := true;
    }
  }

  // -------------------------------------------------------- open program

  /** A parsed, not yet loaded program. Its setters change the libbpf object. */
  class OpenProgram {
    const ptr: BpfProgram

    constructor (ptr: BpfProgram)
      ensures this.ptr == ptr
    {
      this.ptr := ptr;
    }

    /** `set_prog_type(t)`: stores `t as u32`, which decodes back to `t`. */
    method SetProgType(t: ProgramType)
      modifies ptr
      ensures ptr.progType == ProgramTypeCode(t)
      ensures ProgramTypeTryFrom(ptr.progType) == Some(t)
      ensures ptr.expectedAttachType == old(ptr.expectedAttachType) && ptr.ifindex == old(ptr.ifindex)
      ensures ptr.autoload == old(ptr.autoload) && ptr.fd == old(ptr.fd)
    {
      ptr.progType := ProgramTypeCode(t);
      ProgramTypeRoundTrip(t);
    }

    /** `set_attach_type(t)`: stores `t as u32`, which decodes back to `t`. */
    method SetAttachType(t: ProgramAttachType)
      modifies ptr
      ensures ptr.expectedAttachType == ProgramAttachTypeCode(t)
      ensures ProgramAttachTypeTryFrom(ptr.expectedAttachType) == Some(t)
      ensures ptr.progType == old(ptr.progType) && ptr.ifindex == old(ptr.ifindex)
      ensures ptr.autoload == old(ptr.autoload) && ptr.fd == old(ptr.fd)
    {
      ptr.expectedAttachType := ProgramAttachTypeCode(t);
      ProgramAttachTypeRoundTrip(t);
    }

    /** `set_ifindex(idx)`: unconditional. */
    method SetIfindex(idx: u32)
      modifies ptr
      ensures ptr.ifindex == idx
      ensures ptr.progType == old(ptr.progType) && ptr.expectedAttachType == old(ptr.expectedAttachType)
      ensures ptr.autoload == old(ptr.autoload) && ptr.fd == old(ptr.fd)
    {
      ptr.ifindex := idx;
    }

    /** `set_autoload(b)`: only a negative return is an error (negated); the
        object takes the flag when the call does not fail. */
    method SetAutoload(autoload: bool, env: Env) returns (r: Result<()>)
      modifies ptr
      ensures var ret := env.status(ProgramSetAutoload(ptr.handle, autoload)).ret;
        && r == FromNegativeReturn(ret)
        && ptr.autoload == (if ret >= 0 then autoload else old(ptr.autoload))
      ensures ptr.progType == old(ptr.progType) && ptr.expectedAttachType == old(ptr.expectedAttachType)
      ensures ptr.ifindex == old(ptr.ifindex) && ptr.fd == old(ptr.fd)
    {
      var ret := env.status(ProgramSetAutoload(ptr.handle, autoload)).ret;
      if ret < 0 {
        return Err(System(Neg(ret)));
      }
      ptr.autoload := autoload;
      r := Ok(());
    }

    /** `autoload()` */
    function Autoload(): bool
      reads ptr
    {
      ptr.autoload
    }
  }

  // ------------------------------------------------------- loaded program

  /** A live attachment; `ptr` is the `struct bpf_link *` libbpf returned. */
  datatype Link = Link(ptr: nat)

  /** The first `n` bytes of `s`, or all of it. */
  function Clip(s: Bytes, n: nat): (r: Bytes)
    ensures |r| <= n && |r| <= |s| && r == s[..|r|]
    ensures |s| <= n ==> r == s
  {
    if |s| <= n then s else s[..n]
  }

  /** A loaded program. Its type, attach type and descriptor are read from
      the libbpf object on demand. */
  class Program {
    const ptr: BpfProgram
    const name: string
    const section: string

    constructor (ptr: BpfProgram, name: string, section: string)
      ensures this.ptr == ptr && this.name == name && this.section == section
    {
      this.ptr := ptr;
      this.name := name;
      this.section := section;
    }

    /** `prog_type()`: decode the object's raw type, falling back to `Unknown`. */
    function ProgType(): (t: ProgramType)
      reads ptr
      ensures ptr.progType < PROGRAM_TYPES ==> ProgramTypeCode(t) == ptr.progType
      ensures ptr.progType >= PROGRAM_TYPES ==> t == ProgramType.Unknown
    {
      match ProgramTypeTryFrom(ptr.progType)
      case Some(t) => t
      case None => ProgramType.Unknown
    }

    /** `attach_type()`: decode the object's raw expected attach type, falling
        back to `Unknown`. */
    function AttachType(): (t: ProgramAttachType)
      reads ptr
      ensures ptr.expectedAttachType < ATTACH_TYPES ==> ProgramAttachTypeCode(t) == ptr.expectedAttachType
      ensures ptr.expectedAttachType >= ATTACH_TYPES ==> t == ProgramAttachType.Unknown
    {
      match ProgramAttachTypeTryFrom(ptr.expectedAttachType)
      case Some(t) => t
      case None => ProgramAttachType.Unknown
    }

    /** `prog_run(repeat, data_in, data_out)`: one `bpf_prog_test_run`,
        announcing the output buffer's length as a `u32` (`TestRunCall`). The
        kernel is taken to write at most the announced capacity into the
        buffer; a non-zero return is a negated errno; success yields the
        program's return value and the run time in nanoseconds. */
    method ProgRun(repeat: i32, dataIn: Bytes, dataOut: Option<array<u8>>, env: Env)
      returns (r: Result<(u32, nat)>)
      modifies if dataOut.Some? then {dataOut.value} else {}
      ensures var call := TestRunCall(ptr.fd, repeat, dataIn, if dataOut.Some? then Some(dataOut.value.Length) else None);
        var reply := env.run(call);
        && (r.Ok? <==> reply.ret == 0)
        && (r.Ok? ==> r.value == (reply.retval, reply.duration as nat))
        && (r.Err? ==> r == Err(FromNonZeroReturn(reply.ret).error))
        && (dataOut.Some? ==>
              dataOut.value[..] == Overlay(Clip(reply.out, call.outCapacity.value as nat), old(dataOut.value[..])))
    {
      var call := TestRunCall(ptr.fd, repeat, dataIn, if dataOut.Some? then Some(dataOut.value.Length) else None);
      var reply := env.run(call);
      if dataOut.Some? {
        WriteOut(Clip(reply.out, call.outCapacity.value as nat), dataOut.value);
      }
      if reply.ret != 0 {
        return Err(System(Neg(reply.ret)));
      }
      r := Ok((reply.retval, reply.duration as nat));
    }
  }

  /** The `bpf_prog_test_run` call `prog_run` means to make: the input length
      and, when there is an output buffer of `outLen` bytes, that length as a
      `u32` capacity. The capacity never exceeds the buffer. */
  function TestRunCall(fd: i32, repeat: i32, dataIn: Bytes, outLen: Option<nat>): (c: Call)
    ensures c.ProgTestRun? && c.progFd == fd && c.repeat == repeat && c.dataIn == dataIn
    ensures c.sizeIn as nat == |dataIn| % 0x1_0000_0000
    ensures c.outCapacity.Some? <==> outLen.Some?
    ensures outLen.Some? ==> c.outCapacity.value as nat <= outLen.value
    ensures outLen.Some? && outLen.value < 0x1_0000_0000 ==> c.outCapacity.value as nat == outLen.value
  {
    var cap := if outLen.Some? then Some(TruncU32(outLen.value)) else None;
    ProgTestRun(fd, repeat, dataIn, TruncU32(|dataIn|), cap)
  }

  /** The call `prog_run` makes as written: the length pointer it passes
      points at `len`, a local of the match arm that has ended before the
      call, so the capacity libbpf reads is whatever value `stale` that
      storage holds by then. */
  function TestRunCallAsWritten(fd: i32, repeat: i32, dataIn: Bytes, outLen: Option<nat>, stale: u32): (c: Call)
    ensures c.ProgTestRun? && c.progFd == fd && c.repeat == repeat && c.dataIn == dataIn
    ensures c.sizeIn as nat == |dataIn| % 0x1_0000_0000
    ensures c.outCapacity == (if outLen.Some? then Some(stale) else None)
  {
    ProgTestRun(fd, repeat, dataIn, TruncU32(|dataIn|), if outLen.Some? then Some(stale) else None)
  }

  /** As written, the announced capacity is not tied to the buffer: any stale
      value above the buffer's length lets the callee write past its end,
      which the intended call rules out. */
  lemma StaleCapacityExceedsBuffer(fd: i32, repeat: i32, dataIn: Bytes, n: nat, stale: u32)
    requires n < stale as nat
    ensures TestRunCallAsWritten(fd, repeat, dataIn, Some(n), stale).outCapacity.value as nat > n
    ensures TestRunCall(fd, repeat, dataIn, Some(n)).outCapacity.value as nat <= n
    ensures TestRunCallAsWritten(fd, repeat, dataIn, Some(n), stale) != TestRunCall(fd, repeat, dataIn, Some(n))
  {
  }

  /** Setting a type on the open handle and reading it from the loaded handle
      over the same libbpf object gives the type back. */
  lemma SetTypesReadBack(p: Program, t: ProgramType, a: ProgramAttachType)
    requires p.ptr.progType == ProgramTypeCode(t)
    requires p.ptr.expectedAttachType == ProgramAttachTypeCode(a)
    ensures p.ProgType() == t && p.AttachType() == a
  {
    ProgramTypeRoundTrip(t);
    ProgramAttachTypeRoundTrip(a);
  }

  // ------------------------------------------------------------- pinning

  /** `Program::pin(path)`: convert the path, then `bpf_program__pin`; a
      non-zero return is a negated errno. */
  function Pin(p: Program, path: string, env: Env): (r: Outcome<()>)
    ensures env.cstring(path).Err? ==> r == Outcome(Err(env.cstring(path).error), [])
    ensures env.cstring(path).Ok? ==>
      && r.calls == [ProgramPin(p.ptr.handle, env.cstring(path).value)]
      && r.result == FromNonZeroReturn(env.status(ProgramPin(p.ptr.handle, env.cstring(path).value)).ret)
  {
    match env.cstring(path)
    case Err(e) => Outcome(Err(e), [])
    case Ok(cpath) =>
      var call := ProgramPin(p.ptr.handle, cpath);
      Outcome(FromNonZeroReturn(env.status(call).ret), [call])
  }

  /** `Program::unpin(path)`: as `Pin`, through `bpf_program__unpin`. */
  function Unpin(p: Program, path: string, env: Env): (r: Outcome<()>)
    ensures env.cstring(path).Err? ==> r == Outcome(Err(env.cstring(path).error), [])
    ensures env.cstring(path).Ok? ==>
      && r.calls == [ProgramUnpin(p.ptr.handle, env.cstring(path).value)]
      && r.result == FromNonZeroReturn(env.status(ProgramUnpin(p.ptr.handle, env.cstring(path).value)).ret)
  {
    match env.cstring(path)
    case Err(e) => Outcome(Err(e), [])
    case Ok(cpath) =>
      var call := ProgramUnpin(p.ptr.handle, cpath);
      Outcome(FromNonZeroReturn(env.status(call).ret), [call])
  }

  // ----------------------------------------------------------- attaching

  /** The contract every `Link`-producing attach shares once its arguments
      are converted: it issues `call`, then asks `libbpf_get_error` about the
      returned pointer; a non-zero signal is the error and no `Link` is made,
      otherwise the `Link` wraps exactly that pointer. */
  ghost predicate LinkContract(r: Outcome<Link>, call: Call, env: Env)
  {
    var ptr := env.link(call);
    var err := env.getError(ptr);
    && r.calls == [call, GetError(ptr)]
    && (r.result.Ok? <==> err == 0)
    && (r.result.Ok? ==> r.result.value == Link(ptr))
    && (r.result.Err? ==> r.result.error == FromErrorSignal(err).error)
  }

  function LinkFrom(call: Call, env: Env): (r: Outcome<Link>)
    ensures LinkContract(r, call, env)
  {
    var ptr := env.link(call);
    var err := env.getError(ptr);
    match FromErrorSignal(err)
    case Err(e) => Outcome(Err(e), [call, GetError(ptr)])
    case Ok(_) => Outcome(Ok(Link(ptr)), [call, GetError(ptr)])
  }

  /** The attach family keeps `libbpf_get_error`'s sign: a signal of -1
      becomes `System(-1)`, where the negating convention of `pin` and the
      map setters turns a return of -1 into `System(1)`. */
  lemma AttachKeepsSignalSign(call: Call, env: Env)
    requires env.getError(env.link(call)) == -1
    ensures LinkFrom(call, env).result == Err(System(-1))
    ensures FromNonZeroReturn(-1) == Err(System(1))
  {
  }

  /** `attach()`: auto-attach by section. */
  function Attach(p: Program, env: Env): (r: Outcome<Link>)
    ensures LinkContract(r, ProgramAttach(p.ptr.handle), env)
  {
    LinkFrom(ProgramAttach(p.ptr.handle), env)
  }

  /** `attach_cgroup(cgroup_fd)` */
  function AttachCgroup(p: Program, cgroupFd: i32, env: Env): (r: Outcome<Link>)
    ensures LinkContract(r, ProgramAttachCgroup(p.ptr.handle, cgroupFd), env)
  {
    LinkFrom(ProgramAttachCgroup(p.ptr.handle, cgroupFd), env)
  }

  /** `attach_perf_event(pfd)` */
  function AttachPerfEvent(p: Program, pfd: i32, env: Env): (r: Outcome<Link>)
    ensures LinkContract(r, ProgramAttachPerfEvent(p.ptr.handle, pfd), env)
  {
    LinkFrom(ProgramAttachPerfEvent(p.ptr.handle, pfd), env)
  }

  /** `attach_uprobe(retprobe, pid, binary_path, func_offset)`: the path is
      converted before anything is attached. */
  function AttachUprobe(p: Program, retprobe: bool, pid: i32, binaryPath: string, funcOffset: nat, env: Env)
    : (r: Outcome<Link>)
    ensures env.cstring(binaryPath).Err? ==> r == Outcome(Err(env.cstring(binaryPath).error), [])
    ensures env.cstring(binaryPath).Ok? ==>
      LinkContract(r, ProgramAttachUprobe(p.ptr.handle, retprobe, pid, env.cstring(binaryPath).value, funcOffset), env)
  {
    match env.cstring(binaryPath)
    case Err(e) => Outcome(Err(e), [])
    case Ok(cpath) => LinkFrom(ProgramAttachUprobe(p.ptr.handle, retprobe, pid, cpath, funcOffset), env)
  }

  /** `attach_kprobe(retprobe, func_name)`: the name is converted first. */
  function AttachKprobe(p: Program, retprobe: bool, funcName: string, env: Env): (r: Outcome<Link>)
    ensures env.cstring(funcName).Err? ==> r == Outcome(Err(env.cstring(funcName).error), [])
    ensures env.cstring(funcName).Ok? ==>
      LinkContract(r, ProgramAttachKprobe(p.ptr.handle, retprobe, env.cstring(funcName).value), env)
  {
    match env.cstring(funcName)
    case Err(e) => Outcome(Err(e), [])
    case Ok(cname) => LinkFrom(ProgramAttachKprobe(p.ptr.handle, retprobe, cname), env)
  }

  /** `attach_tracepoint(tp_category, tp_name)`: the category is converted
      before the name, so a bad category is reported whatever the name is. */
  function AttachTracepoint(p: Program, category: string, name: string, env: Env): (r: Outcome<Link>)
    ensures env.cstring(category).Err? ==> r == Outcome(Err(env.cstring(category).error), [])
    ensures env.cstring(category).Ok? && env.cstring(name).Err? ==>
      r == Outcome(Err(env.cstring(name).error), [])
    ensures env.cstring(category).Ok? && env.cstring(name).Ok? ==>
      LinkContract(r, ProgramAttachTracepoint(p.ptr.handle, env.cstring(category).value, env.cstring(name).value), env)
  {
    match env.cstring(category)
    case Err(e) => Outcome(Err(e), [])
    case Ok(ccat) =>
      match env.cstring(name)
      case Err(e) => Outcome(Err(e), [])
      case Ok(cname) => LinkFrom(ProgramAttachTracepoint(p.ptr.handle, ccat, cname), env)
  }

  /** `attach_raw_tracepoint(tp_name)`: the name is converted first. */
  function AttachRawTracepoint(p: Program, name: string, env: Env): (r: Outcome<Link>)
    ensures env.cstring(name).Err? ==> r == Outcome(Err(env.cstring(name).error), [])
    ensures env.cstring(name).Ok? ==>
      LinkContract(r, ProgramAttachRawTracepoint(p.ptr.handle, env.cstring(name).value), env)
  {
    match env.cstring(name)
    case Err(e) => Outcome(Err(e), [])
    case Ok(cname) => LinkFrom(ProgramAttachRawTracepoint(p.ptr.handle, cname), env)
  }

  /** `attach_lsm()` */
  function AttachLsm(p: Program, env: Env): (r: Outcome<Link>)
    ensures LinkContract(r, ProgramAttachLsm(p.ptr.handle), env)
  {
    LinkFrom(ProgramAttachLsm(p.ptr.handle), env)
  }

  /** `attach_trace()`: fentry/fexit. */
  function AttachTrace(p: Program, env: Env): (r: Outcome<Link>)
    ensures LinkContract(r, ProgramAttachTrace(p.ptr.handle), env)
  {
    LinkFrom(ProgramAttachTrace(p.ptr.handle), env)
  }

  /** `attach_xdp(ifindex)` */
  function AttachXdp(p: Program, ifindex: i32, env: Env): (r: Outcome<Link>)
    ensures LinkContract(r, ProgramAttachXdp(p.ptr.handle, ifindex), env)
  {
    LinkFrom(ProgramAttachXdp(p.ptr.handle, ifindex), env)
  }

  /** `attach_sockmap(map_fd)`: a direct `bpf_prog_attach` of the program's
      descriptor into the map, with the decoded attach type re-encoded (so an
      unknown raw code is passed as `u32::MAX`); errors come through `errno`
      and no `Link` is made. */
  function AttachSockmap(p: Program, mapFd: i32, env: Env): (r: Outcome<()>)
    reads p.ptr
    ensures |r.calls| == 1 && r.calls[0].ProgAttach?
    ensures r.calls[0].progFd == p.ptr.fd && r.calls[0].targetFd == mapFd && r.calls[0].attachFlags == 0
    ensures p.ptr.expectedAttachType < ATTACH_TYPES ==> r.calls[0].attachType == p.ptr.expectedAttachType
    ensures p.ptr.expectedAttachType >= ATTACH_TYPES ==> r.calls[0].attachType == U32_MAX
    ensures var s := env.status(r.calls[0]);
      && (r.result.Ok? <==> s.ret == 0)
      && (r.result.Err? ==> r.result.error == System(s.errno))
  {
    var call := ProgAttach(p.ptr.fd, mapFd, ProgramAttachTypeCode(p.AttachType()), 0);
    var s := env.status(call);
    Outcome(FromErrno(s.ret, s.errno), [call])
  }
}
