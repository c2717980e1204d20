# libbpf-rs map and program core, modelled in Dafny

This project models the client-side contract layer of libbpf-rs that sits in
front of libbpf and the kernel's BPF system calls: the byte-buffer CRUD
contract shared by map handles (`MapOps::lookup`, `delete`,
`lookup_and_delete`, `update`), the map key iterator `MapKeyIter`, pinning
of maps and programs, the pre-load setters of `OpenMap` and `OpenProgram`,
the decoding of the kernel's map, program and attach type codes with an
`Unknown` fallback, the `attach_*` family that produces `Link`s, the
sockmap binding, `prog_run`, and the two sign conventions by which kernel
failures become `Error::System(code)`.

Everything below the library is an oracle, `Libbpf.Env`: for each call the
library makes through a status-returning entry point (`Libbpf.Call`,
carrying the arguments passed, with a `size_t` as an unbounded number) it gives
the C return value, the `errno` left behind, and the bytes written into the
caller's output buffer; for the attach functions the returned link pointer
and what `libbpf_get_error` says about it; for `bpf_prog_test_run` the
return value, the program's return value and duration; and for
`util::path_to_cstring`/`str_to_cstring` either the C string or the error.
The libbpf setters and getters whose result the source ignores or which
cannot fail are not calls but plain field accesses of the libbpf objects
`BpfMap` and `BpfProgram`: `bpf_map__set_ifindex`,
`bpf_map__set_inner_map_fd`, `bpf_program__set_type`,
`bpf_program__set_expected_attach_type`, `bpf_program__set_ifindex`,
`bpf_program__autoload`, `bpf_program__get_type`,
`bpf_program__get_expected_attach_type` and `bpf_program__fd`. Kernel
semantics are not modelled; the few assumptions made about the layer below
are listed under "Left out". Pure operations return an
`Outcome` holding the result and the calls issued, so "no kernel call" is
`calls == []`. The iterator takes one `Env` per step, which is how changes
made to the map between steps appear.

Layout: `ctypes.dfy` (C integer widths and Rust's casts), `errors.dfy`
(error taxonomy and normalisation), `libbpf.dfy` (the oracle, output-buffer
writes, `wrappers::bpf_obj_get`), `map.dfy` (map.rs), `program.dfy`
(program.rs). `OpenMap`, `OpenProgram`, `MapKeyIter` and the libbpf objects
`BpfMap`/`BpfProgram` are classes whose methods change their fields;
`lookup`/`lookup_and_delete` hand the kernel a `value_size` array and return
it; `prog_run` lets the kernel write into the caller's `data_out` array.

Where the code and its own comments differ, the model follows the code: the
comment at map.rs:42 says a negative return is flipped to match `errno`, but
the `attach_*` functions pass `libbpf_get_error`'s value through as
`System(err as i32)` without changing its sign (program.rs:213-215), whereas
`pin`, `unpin`, the map setters and `prog_run` negate a negative return; so
only the latter are guaranteed to yield a positive code.

## Model

| member | source | states |
|---|---|---|
| `Errors.FromNonZeroReturn` | libbpf-rs/src/map.rs:41-44 | fails exactly on a non-zero return; the code is `-ret` (two's complement), positive for every negative `ret` above `i32::MIN` |
| `Errors.FromNegativeReturn` | libbpf-rs/src/program.rs:45-47 | fails exactly on a negative return, with the code `-ret`, positive for every `ret` above `i32::MIN` |
| `Errors.FromErrno` | libbpf-rs/src/map.rs:152-156 | fails exactly on a non-zero return, carrying `errno` unchanged |
| `Errors.FromErrorSignal` | libbpf-rs/src/program.rs:213-218 | fails exactly on a non-zero signal, carrying its low 32 bits (`err as i32`), equal to the signal whenever it fits |
| `Errors.ConventionsDifferOnPositive` | libbpf-rs/src/program.rs:43-49 | `set_autoload`'s convention accepts a positive return that `pin`/`unpin`'s rejects, and the two agree on every other return |
| `Libbpf.ObjGetFd` | libbpf-rs/src/wrappers.rs:9-16 | a path that does not convert fails with no call; otherwise one `bpf_obj_get`, a negative descriptor reported through `errno`, a non-negative one returned |
| `Maps.FlagConstants` | libbpf-rs/src/map.rs:399-408 | `ANY` is empty and `NO_EXIST`, `EXIST`, `LOCK` are three distinct single bits |
| `Maps.MapTypeCode` | libbpf-rs/src/map.rs:414-447 | known map types have the dense codes 0..27, `Unknown` exactly `u32::MAX` |
| `Maps.MapTypeAt` | libbpf-rs/src/map.rs:415-442 | the variant picked for a code below 28 has that code |
| `Maps.MapTypeTryFrom` | libbpf-rs/src/map.rs:411-447 | `try_from` succeeds exactly on 0..27 and `u32::MAX`, and then returns the variant with that code |
| `Maps.MapTypeOf` | libbpf-rs/src/map.rs:318-323 | `map_type` (of `Map`, and alike of `PinnedMap` at map.rs:377-382) returns the variant whose code is the raw type for 0..27 and `Unknown` for every other value |
| `Maps.MapTypeRoundTrip` | libbpf-rs/src/map.rs:414-447 | decoding a variant's code gives the variant back, `Unknown` included |
| `Maps.ReadValue` | libbpf-rs/src/map.rs:121-133 | success yields `Some` of exactly `value_size` bytes; `ENOENT` and only `ENOENT` yields `None`; any other errno `e` yields `System(e)` |
| `Maps.LookupOutcome` | libbpf-rs/src/map.rs:101-134 | a wrong-size key fails with `InvalidInput` and no call; otherwise one lookup call with the flags' bits forwarded, classified as success/`ENOENT`/other errno, a success value being `value_size` bytes |
| `Maps.Lookup` | libbpf-rs/src/map.rs:101-134 | filling a `value_size` buffer through the kernel gives exactly `LookupOutcome` |
| `Maps.LookupAndDeleteOutcome` | libbpf-rs/src/map.rs:165-197 | as `LookupOutcome`, through one lookup-and-delete call without flags |
| `Maps.LookupAndDelete` | libbpf-rs/src/map.rs:165-197 | filling a `value_size` buffer through the kernel gives exactly `LookupAndDeleteOutcome` |
| `Maps.Delete` | libbpf-rs/src/map.rs:139-157 | a wrong-size key fails with `InvalidInput` and no call; otherwise one delete call, and every non-zero return is `System(errno)` with no absence case |
| `Maps.Update` | libbpf-rs/src/map.rs:203-234 | the key size is checked before the value size, neither failure makes a call; otherwise one update call with the flags' bits, every non-zero return being `System(errno)` |
| `Maps.AbsentKeyAsymmetry` | libbpf-rs/src/map.rs:126-156 | when the kernel reports `ENOENT` to both, `lookup` returns `Ok(None)` while `delete` fails with `System(ENOENT)` |
| `Maps.Pin` | libbpf-rs/src/map.rs:271-282 | a path that does not convert fails with no call; otherwise one `bpf_map__pin`, a non-zero return negated into `System` |
| `Maps.Unpin` | libbpf-rs/src/map.rs:286-297 | as `Pin`, through `bpf_map__unpin` |
| `Maps.MapKeyIter.constructor` | libbpf-rs/src/map.rs:456-462 | a new cursor has no previous key and a zeroed buffer of `key_size` bytes |
| `Maps.MapKeyIter.Next` | libbpf-rs/src/map.rs:468-480 | one get-next-key call after `prev`; any failure yields `None` and keeps the cursor; a success yields the buffer's `key_size` bytes and makes exactly them `prev`, keeping `prev` the last key yielded |
| `Maps.Keys` | libbpf-rs/src/map.rs:304-306 | `keys()` is a fresh cursor sized by the map's key size |
| `Maps.Drain` | libbpf-rs/src/map.rs:465-480 | consuming the iterator until its first `None` takes at most one step per kernel answer |
| `Maps.DrainCursorChain` | libbpf-rs/src/map.rs:468-480 | across a traversal every key is `key_size` bytes, each step asks after the key yielded just before, and the traversal ends only at a failed step; nothing about exhaustiveness or duplicates |
| `Maps.CollectKeys` | libbpf-rs/src/map.rs:299-306 | running a fresh `keys()` cursor to its first `None` yields exactly `Drain` from an empty cursor and a zeroed buffer |
| `Maps.OpenMap.constructor` | libbpf-rs/src/map.rs:24-26 | the handle points at the given libbpf map object |
| `Maps.OpenMap.SetMapIfindex` | libbpf-rs/src/map.rs:28-30 | sets the object's ifindex and nothing else |
| `Maps.OpenMap.SetInitialValue` | libbpf-rs/src/map.rs:32-47 | one `bpf_map__set_initial_value` with the data and its full length as `size_t`; a non-zero return is negated into `System`; the object takes the data only on success; nothing else changes |
| `Maps.OpenMap.SetMaxEntries` | libbpf-rs/src/map.rs:49-58 | as `SetInitialValue`, for the entry count |
| `Maps.OpenMap.SetInnerMapFd` | libbpf-rs/src/map.rs:60-62 | records the inner map's descriptor and nothing else |
| `Maps.OpenMap.ReusePinnedMap` | libbpf-rs/src/map.rs:65-79 | a failed `bpf_obj_get` is returned with no further call; otherwise `reuse_fd` is followed by closing the obtained descriptor on both its success and failure path, and a non-zero return is negated into `System` |
| `Programs.ProgramTypeCode` | libbpf-rs/src/program.rs:56-93 | known program types have the dense codes 0..29, `Unknown` exactly `u32::MAX` |
| `Programs.ProgramTypeAt` | libbpf-rs/src/program.rs:61-90 | the variant picked for a code below 30 has that code |
| `Programs.ProgramTypeTryFrom` | libbpf-rs/src/program.rs:57-93 | `try_from` succeeds exactly on 0..29 and `u32::MAX`, returning the variant with that code |
| `Programs.ProgramTypeRoundTrip` | libbpf-rs/src/program.rs:25-29 | decoding `t as u32` gives `t` back for every variant |
| `Programs.ProgramAttachTypeCode` | libbpf-rs/src/program.rs:95-130 | known attach types have the dense codes 0..27, `Unknown` exactly `u32::MAX` |
| `Programs.ProgramAttachTypeAt` | libbpf-rs/src/program.rs:100-127 | the variant picked for a code below 28 has that code |
| `Programs.ProgramAttachTypeTryFrom` | libbpf-rs/src/program.rs:96-130 | `try_from` succeeds exactly on 0..27 and `u32::MAX`, returning the variant with that code |
| `Programs.ProgramAttachTypeRoundTrip` | libbpf-rs/src/program.rs:31-35 | decoding `t as u32` gives `t` back for every variant |
| `Programs.OpenProgram.constructor` | libbpf-rs/src/program.rs:21-23 | the handle points at the given libbpf program object |
| `Programs.OpenProgram.SetProgType` | libbpf-rs/src/program.rs:25-29 | stores `t as u32`, which decodes back to `t`; nothing else changes |
| `Programs.OpenProgram.SetAttachType` | libbpf-rs/src/program.rs:31-35 | stores `t as u32`, which decodes back to `t`; nothing else changes |
| `Programs.OpenProgram.SetIfindex` | libbpf-rs/src/program.rs:37-41 | sets the object's ifindex and nothing else |
| `Programs.OpenProgram.SetAutoload` | libbpf-rs/src/program.rs:43-49 | fails only on a negative return, negated into `System`; the object takes the flag when the call does not fail |
| `Programs.Program.constructor` | libbpf-rs/src/program.rs:146-148 | the loaded handle points at the given object, with its name and section |
| `Programs.Program.ProgType` | libbpf-rs/src/program.rs:159-164 | the variant whose code is the object's raw type for 0..29, `Unknown` otherwise |
| `Programs.Program.AttachType` | libbpf-rs/src/program.rs:171-178 | the variant whose code is the object's raw expected attach type for 0..27, `Unknown` otherwise |
| `Programs.SetTypesReadBack` | libbpf-rs/src/program.rs:25-35 | types set on the open handle read back unchanged from a loaded handle over the same object |
| `Programs.Pin` | libbpf-rs/src/program.rs:182-193 | a path that does not convert fails with no call; otherwise one `bpf_program__pin`, any non-zero return negated into `System` |
| `Programs.Unpin` | libbpf-rs/src/program.rs:197-208 | as `Pin`, through `bpf_program__unpin` |
| `Programs.LinkFrom` | libbpf-rs/src/program.rs:212-218 | the attach call is followed by one `libbpf_get_error` on its pointer; a non-zero signal is the error and no `Link` exists; otherwise the `Link` wraps that pointer |
| `Programs.Attach` | libbpf-rs/src/program.rs:211-219 | the `Link` contract for auto-attach |
| `Programs.AttachCgroup` | libbpf-rs/src/program.rs:223-231 | the `Link` contract, with the cgroup descriptor forwarded |
| `Programs.AttachPerfEvent` | libbpf-rs/src/program.rs:234-242 | the `Link` contract, with the perf event descriptor forwarded |
| `Programs.AttachUprobe` | libbpf-rs/src/program.rs:246-270 | a binary path that does not convert fails with no call; otherwise the `Link` contract with retprobe, pid, path and offset forwarded |
| `Programs.AttachKprobe` | libbpf-rs/src/program.rs:274-285 | a function name that does not convert fails with no call; otherwise the `Link` contract |
| `Programs.AttachTracepoint` | libbpf-rs/src/program.rs:289-303 | the category is converted before the name, either failure returned with no call; otherwise the `Link` contract |
| `Programs.AttachRawTracepoint` | libbpf-rs/src/program.rs:307-317 | a name that does not convert fails with no call; otherwise the `Link` contract |
| `Programs.AttachLsm` | libbpf-rs/src/program.rs:320-328 | the `Link` contract for an LSM hook |
| `Programs.AttachTrace` | libbpf-rs/src/program.rs:331-339 | the `Link` contract for fentry/fexit |
| `Programs.AttachSockmap` | libbpf-rs/src/program.rs:342-350 | one `bpf_prog_attach` of the program descriptor into the map with flags 0 and the decoded-then-re-encoded attach type (the raw code for 0..27, `u32::MAX` otherwise); failure is `System(errno)` and no `Link` is produced |
| `Programs.AttachXdp` | libbpf-rs/src/program.rs:353-361 | the `Link` contract, with the interface index forwarded |
| `Programs.Program.ProgRun` | libbpf-rs/src/program.rs:363-382 | one test run through `TestRunCall`; a non-zero return is negated into `System`; success returns the program's return value and duration; `data_out` ends up as the callee's reply laid over its old contents (how much the callee writes is assumed, see "Left out") |
| `Programs.TestRunCall` | libbpf-rs/src/program.rs:367-376 | the intended call: input length as `u32`, and an output capacity present exactly when there is a buffer, never larger than it and equal to its length below 2^32 |
| `Programs.TestRunCallAsWritten` | libbpf-rs/src/program.rs:367-376 | the call as written: the capacity read through the pointer to the ended `len` is an arbitrary stale value |
| `Programs.StaleCapacityExceedsBuffer` | libbpf-rs/src/program.rs:367-376 | a stale value above the buffer's length announces more room than the buffer has, which the intended call never does |
| `Programs.AttachKeepsSignalSign` | libbpf-rs/src/program.rs:213-218 | a `libbpf_get_error` signal of -1 yields `System(-1)`, while the negating convention turns a return of -1 into `System(1)` |

## Left out

- `PinnedMap::try_from_path` and `Drop for PinnedMap` (map.rs:343-365, 393-397): file-system checks, descriptor acquisition and a panicking `close` are OS I/O; a pinned map enters the model only as a `MapDesc`.
- `wrappers::bpf_obj_get_info_by_fd`: used only by `try_from_path`; its zeroed-struct size handshake is libbpf's business.
- Kernel semantics: what hash, queue or stack maps do with an update, lookup or delete, the meaning of `NO_EXIST`/`EXIST`/`LOCK`, verifier acceptance, and detaching when a `Link` is dropped. The code only forwards `flags.bits` and classifies return codes, so no update-then-lookup round trip or flag precondition is claimed.
- Concurrency and ownership: races on `Program`, descriptor lifetimes and what iteration sees under concurrent mutation (each step simply gets its own `Env`).
- `util::path_to_cstring`/`str_to_cstring`: not part of this model beyond being a fallible conversion supplied by `Env.cstring`.
- `Display` names of the enums, the plain accessors (`fd`, `name`, `key_size`, `value_size`, `section`), which are fields of `MapDesc`/`Program`, and `OpenProgram::autoload`, which `OpenProgram.Autoload` reads without a contract.
- `Duration`: the run time is returned as a number of nanoseconds.
- `Maps.Lookup`: the bytes of the `Vec::with_capacity` buffer that the kernel does not write are uninitialised in Rust; the model reads them as zeros.
- `Programs.Program.ProgRun`: the length pointer passed to `bpf_prog_test_run` points at `len`, whose storage ends with its match arm before the call (program.rs:368-371, 375); the model passes the intended capacity instead (see "Findings"), assumes the callee writes no more than that capacity (it clips the reply), and does not model the length written back through that pointer.
- `Errors.FromNonZeroReturn`: `-ret` is modelled as a release build computes it (wrapping at `i32::MIN`); a debug build would panic there instead.
- `Errors.FromNegativeReturn`: likewise wraps at `i32::MIN` instead of panicking, so the code is positive only for returns above `i32::MIN`.
- Setters that return a status (`set_initial_value`, `set_max_entries`, `set_autoload`, `reuse_fd`): the libbpf object is assumed to take the new value exactly when the wrapper reports success; setters whose libbpf result the source ignores always take it.

## Findings

| source | as written | input that shows it | evidently intended | confidence | as-written member | corrected member |
|---|---|---|---|---|---|---|
| libbpf-rs/src/program.rs:367-376 | the output length pointer points at `len`, a local of the match arm, whose storage has ended before `bpf_prog_test_run` reads it | `data_out` of `n` bytes while the dead storage holds any value above `n`: the callee is told the buffer is larger than it is | the pointer refers to a `u32` holding `data_out.len()` that lives across the call | medium, not executed | `Programs.TestRunCallAsWritten` (with `Programs.StaleCapacityExceedsBuffer`) | `Programs.TestRunCall`, used by `Programs.Program.ProgRun` |
