/** The world below the library: libbpf, the kernel's BPF subsystem and the
    string-conversion helpers, seen only through what each call returns.
    An `Env` may answer any call with anything its type allows, and a
    different `Env` may be used for every operation (which is how other
    processes' concurrent changes appear). The setters and accessors of the
    libbpf objects are not calls here but field accesses of the classes
    `Maps.BpfMap` and `Programs.BpfProgram`. */
module Libbpf {
  import opened CTypes
  import opened Errors

  /** Every call the core makes below itself, with the arguments it passes.
      Object handles (`*mut bpf_map`, `*mut bpf_program`) are opaque numbers. */
  datatype Call =
    // map.rs
    | MapSetInitialValue(obj: nat, data: Bytes, size: nat)  // `size_t`: never truncated
    | MapSetMaxEntries(obj: nat, count: u32)
    | MapReuseFd(obj: nat, fd: i32)
    | MapPin(obj: nat, path: string)
    | MapUnpin(obj: nat, path: string)
    | MapLookupElem(fd: i32, key: Bytes, flags: bv64)
    | MapDeleteElem(fd: i32, key: Bytes)
    | MapLookupAndDeleteElem(fd: i32, key: Bytes)
    | MapUpdateElem(fd: i32, key: Bytes, value: Bytes, flags: bv64)
    | MapGetNextKey(fd: i32, prev: Option<Bytes>)
    // wrappers.rs and unistd
    | ObjGet(path: string)
    | CloseFd(fd: i32)
    // program.rs
    | ProgramSetAutoload(prog: nat, autoload: bool)
    | ProgramPin(prog: nat, path: string)
    | ProgramUnpin(prog: nat, path: string)
    | ProgramAttach(prog: nat)
    | ProgramAttachCgroup(prog: nat, cgroupFd: i32)
    | ProgramAttachPerfEvent(prog: nat, pfd: i32)
    | ProgramAttachUprobe(prog: nat, retprobe: bool, pid: i32, binaryPath: string, offset: nat)
    | ProgramAttachKprobe(prog: nat, retprobe: bool, funcName: string)
    | ProgramAttachTracepoint(prog: nat, category: string, name: string)
    | ProgramAttachRawTracepoint(prog: nat, name: string)
    | ProgramAttachLsm(prog: nat)
    | ProgramAttachTrace(prog: nat)
    | ProgramAttachXdp(prog: nat, ifindex: i32)
    | GetError(ptr: nat)
    | ProgAttach(progFd: i32, targetFd: i32, attachType: u32, attachFlags: u32)
    | ProgTestRun(progFd: i32, repeat: i32, dataIn: Bytes, sizeIn: u32, outCapacity: Option<u32>)

  /** Answer to a call returning a C `int`: the value, `errno` as it stands
      after the call, and the bytes the callee writes into the caller's output
      buffer (clipped to the buffer by `Overlay`). */
  datatype Status = Status(ret: i32, errno: i32, out: Bytes)

  /** Answer to `bpf_prog_test_run`: return value, the program's return value
      and run time written through the out-pointers, and the output bytes. */
  datatype RunReply = RunReply(ret: i32, retval: u32, duration: u32, out: Bytes)

  /** The oracle. `cstring` is `util::path_to_cstring`/`util::str_to_cstring`:
      it either yields the C string handed to libbpf or fails with its own error. */
  datatype Env = Env(
    status: Call -> Status,
    link: Call -> nat,
    getError: nat -> i64,
    run: Call -> RunReply,
    cstring: string -> Result<string>)

  /** What an operation returned, and the calls it issued, in order. */
  datatype Outcome<T> = Outcome(result: Result<T>, calls: seq<Call>)

  /** The contents of a `buf`-sized output buffer after the callee wrote
      `data` into it: the callee writes at most the buffer's length, and bytes
      it does not reach keep their previous contents. */
  function Overlay(data: Bytes, buf: Bytes): (r: Bytes)
    ensures |r| == |buf|
    ensures forall i :: 0 <= i < |r| ==> r[i] == (if i < |data| then data[i] else buf[i])
  {
    if |data| >= |buf| then data[..|buf|] else data + buf[|data|..]
  }

  /** Copies the callee's output into a caller-owned buffer, one byte at a time. */
  method WriteOut(data: Bytes, buf: array<u8>)
    modifies buf
    ensures buf[..] == Overlay(data, old(buf[..]))
  {
    var i := 0;
    while i < buf.Length && i < |data|
      invariant 0 <= i <= buf.Length
      invariant i <= |data|
      invariant forall j :: 0 <= j < i ==> buf[j] == data[j]
      invariant forall j :: i <= j < buf.Length ==> buf[j] == old(buf[j])
    {
      buf[i] := data[i];
      i := i + 1;
    }
  }

  /** `wrappers::bpf_obj_get`: convert the path, ask for a descriptor of the
      pinned object, and report a negative descriptor through `errno`. */
  function ObjGetFd(path: string, env: Env): (r: Outcome<i32>)
    ensures env.cstring(path).Err? ==> r == Outcome(Err(env.cstring(path).error), [])
    ensures env.cstring(path).Ok? ==>
      var s := env.status(ObjGet(env.cstring(path).value));
      && r.calls == [ObjGet(env.cstring(path).value)]
      && (r.result.Ok? <==> s.ret >= 0)
      && (r.result.Ok? ==> r.result.value == s.ret)
      && (r.result.Err? ==> r.result.error == System(s.errno))
  {
    match env.cstring(path)
    case Err(e) => Outcome(Err(e), [])
    case Ok(cpath) =>
      var s := env.status(ObjGet(cpath));
      if s.ret < 0 then Outcome(Err(System(s.errno)), [ObjGet(cpath)])
      else Outcome(Ok(s.ret), [ObjGet(cpath)])
  }
}
