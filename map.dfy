/** Maps: the pre-load handle `OpenMap`, the loaded `Map`, the byte-buffer
    CRUD contract every map handle shares (the `MapOps` defaults), pinning,
    the key iterator, the map type table and the operation flags. */
module Maps {
  import opened CTypes
  import opened Errors
  import opened Libbpf

  // ---------------------------------------------------------------- flags

  /** `MapFlags`, a `u64` bit set; operations forward `bits` to the kernel
      unchanged and attach no meaning of their own to them. */
  datatype MapFlags = MapFlags(bits: bv64)

  const ANY := MapFlags(0)
  const NO_EXIST := MapFlags(1)
  const EXIST := MapFlags(1 << 1)
  const LOCK := MapFlags(1 << 2)

  /** The named flags are three distinct single bits, and `ANY` sets none. */
  lemma FlagConstants()
    ensures ANY.bits == 0
    ensures NO_EXIST.bits & EXIST.bits == 0 && NO_EXIST.bits & LOCK.bits == 0 && EXIST.bits & LOCK.bits == 0
    ensures NO_EXIST.bits != 0 && EXIST.bits != 0 && LOCK.bits != 0
    ensures NO_EXIST.bits | EXIST.bits | LOCK.bits == 7
  {
  }

  // ------------------------------------------------------------ map types

  /** `enum bpf_map_type` as the library knows it; `Unknown` stands for every
      other code the kernel may report. */
  datatype MapType =
    | Unspec | Hash | Array | ProgArray | PerfEventArray | PercpuHash
    | PercpuArray | StackTrace | CgroupArray | LruHash | LruPercpuHash
    | LpmTrie | ArrayOfMaps | HashOfMaps | Devmap | Sockmap | Cpumap
    | Xskmap | Sockhash | CgroupStorage | ReuseportSockarray
    | PercpuCgroupStorage | Queue | Stack | SkStorage | DevmapHash
    | StructOps | RingBuf | Unknown

  /** Number of known map types: they occupy the codes 0 .. MAP_TYPES - 1. */
  const MAP_TYPES: u32 := 28

  /** `t as u32`: the `#[repr(u32)]` discriminant. */
  function MapTypeCode(t: MapType): (c: u32)
    ensures t != Unknown <==> c < MAP_TYPES
    ensures t == Unknown <==> c == U32_MAX
  {
    match t
    case Unspec => 0
    case Hash => 1
    case Array => 2
    case ProgArray => 3
    case PerfEventArray => 4
    case PercpuHash => 5
    case PercpuArray => 6
    case StackTrace => 7
    case CgroupArray => 8
    case LruHash => 9
    case LruPercpuHash => 10
    case LpmTrie => 11
    case ArrayOfMaps => 12
    case HashOfMaps => 13
    case Devmap => 14
    case Sockmap => 15
    case Cpumap => 16
    case Xskmap => 17
    case Sockhash => 18
    case CgroupStorage => 19
    case ReuseportSockarray => 20
    case PercpuCgroupStorage => 21
    case Queue => 22
    case Stack => 23
    case SkStorage => 24
    case DevmapHash => 25
    case StructOps => 26
    case RingBuf => 27
    case Unknown => U32_MAX
  }

  /** `MapType::try_from(code)`: the variant whose discriminant is `code`, if any. */
  function MapTypeTryFrom(code: u32): (r: Option<MapType>)
    ensures r.Some? <==> code < MAP_TYPES || code == U32_MAX
    ensures r.Some? ==> MapTypeCode(r.value) == code
  {
    if code < MAP_TYPES then Some(MapTypeAt(code))
    else if code == U32_MAX then Some(MapType.Unknown)
    else None
  }

  /** The known variant with discriminant `code`. */
  function MapTypeAt(code: u32): (t: MapType)
    requires code < MAP_TYPES
    ensures MapTypeCode(t) == code
  {
    match code
    case 0 => MapType.Unspec
    case 1 => MapType.Hash
    case 2 => MapType.Array
    case 3 => MapType.ProgArray
    case 4 => MapType.PerfEventArray
    case 5 => MapType.PercpuHash
    case 6 => MapType.PercpuArray
    case 7 => MapType.StackTrace
    case 8 => MapType.CgroupArray
    case 9 => MapType.LruHash
    case 10 => MapType.LruPercpuHash
    case 11 => MapType.LpmTrie
    case 12 => MapType.ArrayOfMaps
    case 13 => MapType.HashOfMaps
    case 14 => MapType.Devmap
    case 15 => MapType.Sockmap
    case 16 => MapType.Cpumap
    case 17 => MapType.Xskmap
    case 18 => MapType.Sockhash
    case 19 => MapType.CgroupStorage
    case 20 => MapType.ReuseportSockarray
    case 21 => MapType.PercpuCgroupStorage
    case 22 => MapType.Queue
    case 23 => MapType.Stack
    case 24 => MapType.SkStorage
    case 25 => MapType.DevmapHash
    case 26 => MapType.StructOps
    case _ => MapType.RingBuf
  }

  /** `map_type()` of both `Map` and `PinnedMap`: decode the stored raw type,
      falling back to `Unknown`. */
  function MapTypeOf(ty: u32): (t: MapType)
    ensures ty < MAP_TYPES ==> MapTypeCode(t) == ty
    ensures ty >= MAP_TYPES ==> t == Unknown
  {
    match MapTypeTryFrom(ty)
    case Some(t) => t
    case None => Unknown
  }

  /** Decoding a variant's own code gives the variant back. */
  lemma MapTypeRoundTrip(t: MapType)
    ensures MapTypeOf(MapTypeCode(t)) == t
  {
  }

  // ------------------------------------------------------------ handles

  /** What the `MapOps` defaults use of a map handle: its descriptor, name,
      raw type and the fixed key and value sizes. Both `Map` and `PinnedMap`
      supply these. */
  datatype MapDesc = MapDesc(fd: i32, name: string, ty: u32, keySize: u32, valueSize: u32)

  /** A loaded map; `ptr` is the libbpf object it was created from. */
  datatype Map = Map(desc: MapDesc, ptr: nat)

  // ---------------------------------------------------------------- CRUD

  function KeySizeError(d: MapDesc, key: Bytes): Error
  {
    InvalidInput(KeySize(|key|, d.keySize))
  }

  /** How `lookup` and `lookup_and_delete` read the kernel's answer: success
      yields the `value_size` bytes of the output buffer, `ENOENT` means the
      key is absent, any other errno is a system error. */
  function ReadValue(s: Status, valueSize: u32): (r: Result<Option<Bytes>>)
    ensures r.Ok? && r.value.Some? <==> s.ret == 0
    ensures r.Ok? && r.value.Some? ==> |r.value.value| == valueSize as int
    ensures r == Ok(None) <==> s.ret != 0 && s.errno == ENOENT
    ensures r.Err? <==> s.ret != 0 && s.errno != ENOENT
    ensures r.Err? ==> r.error == System(s.errno)
  {
    if s.ret == 0 then Ok(Some(Overlay(s.out, Zeros(valueSize as nat))))
    else if s.errno == ENOENT then Ok(None)
    else Err(System(s.errno))
  }

  /** The outcome of `lookup(key, flags)`. */
  function LookupOutcome(d: MapDesc, key: Bytes, flags: MapFlags, env: Env): (r: Outcome<Option<Bytes>>)
    ensures |key| != d.keySize as int ==> r == Outcome(Err(KeySizeError(d, key)), [])
    ensures |key| == d.keySize as int ==>
      var s := env.status(MapLookupElem(d.fd, key, flags.bits));
      && r.calls == [MapLookupElem(d.fd, key, flags.bits)]
      && (s.ret == 0 ==> r.result == Ok(Some(Overlay(s.out, Zeros(d.valueSize as nat)))))
      && (s.ret != 0 && s.errno == ENOENT ==> r.result == Ok(None))
      && (s.ret != 0 && s.errno != ENOENT ==> r.result == Err(System(s.errno)))
    ensures r.result.Ok? && r.result.value.Some? ==> |r.result.value.value| == d.valueSize as int
  {
    if |key| != d.keySize as int then Outcome(Err(KeySizeError(d, key)), [])
    else
      var call := MapLookupElem(d.fd, key, flags.bits);
      Outcome(ReadValue(env.status(call), d.valueSize), [call])
  }

  /** The outcome of `lookup_and_delete(key)`: `lookup` without flags, through
      the kernel's atomic pop. */
  function LookupAndDeleteOutcome(d: MapDesc, key: Bytes, env: Env): (r: Outcome<Option<Bytes>>)
    ensures |key| != d.keySize as int ==> r == Outcome(Err(KeySizeError(d, key)), [])
    ensures |key| == d.keySize as int ==>
      var s := env.status(MapLookupAndDeleteElem(d.fd, key));
      && r.calls == [MapLookupAndDeleteElem(d.fd, key)]
      && (s.ret == 0 ==> r.result == Ok(Some(Overlay(s.out, Zeros(d.valueSize as nat)))))
      && (s.ret != 0 && s.errno == ENOENT ==> r.result == Ok(None))
      && (s.ret != 0 && s.errno != ENOENT ==> r.result == Err(System(s.errno)))
    ensures r.result.Ok? && r.result.value.Some? ==> |r.result.value.value| == d.valueSize as int
  {
    if |key| != d.keySize as int then Outcome(Err(KeySizeError(d, key)), [])
    else
      var call := MapLookupAndDeleteElem(d.fd, key);
      Outcome(ReadValue(env.status(call), d.valueSize), [call])
  }

  /** `lookup`: check the key, hand the kernel a `value_size` buffer, and
      return that buffer on success. */
  method Lookup(d: MapDesc, key: Bytes, flags: MapFlags, env: Env) returns (r: Outcome<Option<Bytes>>)
    ensures r == LookupOutcome(d, key, flags, env)
  {
    if |key| != d.keySize as int {
      return Outcome(Err(KeySizeError(d, key)), []);
    }
    var out := new u8[d.valueSize as int](_ => 0);
    var call := MapLookupElem(d.fd, key, flags.bits);
    var s := env.status(call);
    assert out[..] == Zeros(d.valueSize as nat);
    WriteOut(s.out, out);
    if s.ret == 0 {
      r := Outcome(Ok(Some(out[..])), [call]);
    } else if s.errno == ENOENT {
      r := Outcome(Ok(None), [call]);
    } else {
      r := Outcome(Err(System(s.errno)), [call]);
    }
  }

  /** `lookup_and_delete`: as `Lookup`, through the kernel's atomic pop. */
  method LookupAndDelete(d: MapDesc, key: Bytes, env: Env) returns (r: Outcome<Option<Bytes>>)
    ensures r == LookupAndDeleteOutcome(d, key, env)
  {
    if |key| != d.keySize as int {
      return Outcome(Err(KeySizeError(d, key)), []);
    }
    var out := new u8[d.valueSize as int](_ => 0);
    var call := MapLookupAndDeleteElem(d.fd, key);
    var s := env.status(call);
    assert out[..] == Zeros(d.valueSize as nat);
    WriteOut(s.out, out);
    if s.ret == 0 {
      r := Outcome(Ok(Some(out[..])), [call]);
    } else if s.errno == ENOENT {
      r := Outcome(Ok(None), [call]);
    } else {
      r := Outcome(Err(System(s.errno)), [call]);
    }
  }

  /** `delete(key)`: no absence case; every kernel failure is a system error. */
  function Delete(d: MapDesc, key: Bytes, env: Env): (r: Outcome<()>)
    ensures |key| != d.keySize as int ==> r == Outcome(Err(KeySizeError(d, key)), [])
    ensures |key| == d.keySize as int ==>
      var s := env.status(MapDeleteElem(d.fd, key));
      && r.calls == [MapDeleteElem(d.fd, key)]
      && (r.result.Ok? <==> s.ret == 0)
      && (r.result.Err? ==> r.result.error == System(s.errno))
  {
    if |key| != d.keySize as int then Outcome(Err(KeySizeError(d, key)), [])
    else
      var call := MapDeleteElem(d.fd, key);
      var s := env.status(call);
      Outcome(FromErrno(s.ret, s.errno), [call])
  }

  /** `update(key, value, flags)`: the key is checked before the value, and
      neither check lets a call through. */
  function Update(d: MapDesc, key: Bytes, value: Bytes, flags: MapFlags, env: Env): (r: Outcome<()>)
    ensures |key| != d.keySize as int ==> r == Outcome(Err(KeySizeError(d, key)), [])
    ensures |key| == d.keySize as int && |value| != d.valueSize as int ==>
      r == Outcome(Err(InvalidInput(ValueSize(|value|, d.valueSize))), [])
    ensures |key| == d.keySize as int && |value| == d.valueSize as int ==>
      var s := env.status(MapUpdateElem(d.fd, key, value, flags.bits));
      && r.calls == [MapUpdateElem(d.fd, key, value, flags.bits)]
      && (r.result.Ok? <==> s.ret == 0)
      && (r.result.Err? ==> r.result.error == System(s.errno))
  {
    if |key| != d.keySize as int then Outcome(Err(KeySizeError(d, key)), [])
    else if |value| != d.valueSize as int then Outcome(Err(InvalidInput(ValueSize(|value|, d.valueSize))), [])
    else
      var call := MapUpdateElem(d.fd, key, value, flags.bits);
      var s := env.status(call);
      Outcome(FromErrno(s.ret, s.errno), [call])
  }

  /** The asymmetry between `lookup` and `delete`: when the kernel reports
      `ENOENT` to both, `lookup` answers `None` and `delete` fails. */
  lemma AbsentKeyAsymmetry(d: MapDesc, key: Bytes, flags: MapFlags, env: Env)
    requires |key| == d.keySize as int
    requires env.status(MapLookupElem(d.fd, key, flags.bits)).ret != 0
    requires env.status(MapLookupElem(d.fd, key, flags.bits)).errno == ENOENT
    requires env.status(MapDeleteElem(d.fd, key)).ret != 0
    requires env.status(MapDeleteElem(d.fd, key)).errno == ENOENT
    ensures LookupOutcome(d, key, flags, env).result == Ok(None)
    ensures Delete(d, key, env).result == Err(System(ENOENT))
  {
  }

  // ------------------------------------------------------------- pinning

  /** `Map::pin(path)`: convert the path, then `bpf_map__pin`; a non-zero
      return is a negated errno. */
  function Pin(m: Map, path: string, env: Env): (r: Outcome<()>)
    ensures env.cstring(path).Err? ==> r == Outcome(Err(env.cstring(path).error), [])
    ensures env.cstring(path).Ok? ==>
      && r.calls == [MapPin(m.ptr, env.cstring(path).value)]
      && r.result == FromNonZeroReturn(env.status(MapPin(m.ptr, env.cstring(path).value)).ret)
  {
    match env.cstring(path)
    case Err(e) => Outcome(Err(e), [])
    case Ok(cpath) => Outcome(FromNonZeroReturn(env.status(MapPin(m.ptr, cpath)).ret), [MapPin(m.ptr, cpath)])
  }

  /** `Map::unpin(path)`: as `Pin`, through `bpf_map__unpin`. */
  function Unpin(m: Map, path: string, env: Env): (r: Outcome<()>)
    ensures env.cstring(path).Err? ==> r == Outcome(Err(env.cstring(path).error), [])
    ensures env.cstring(path).Ok? ==>
      && r.calls == [MapUnpin(m.ptr, env.cstring(path).value)]
      && r.result == FromNonZeroReturn(env.status(MapUnpin(m.ptr, env.cstring(path).value)).ret)
  {
    match env.cstring(path)
    case Err(e) => Outcome(Err(e), [])
    case Ok(cpath) => Outcome(FromNonZeroReturn(env.status(MapUnpin(m.ptr, cpath)).ret), [MapUnpin(m.ptr, cpath)])
  }

  // ------------------------------------------------------------ iteration

  /** `MapKeyIter`: a cursor over the keys of a map. Each step asks the kernel
      for the key after `prev` (or the first key when `prev` is `None`), into
      the reused buffer `next`. The cursor promises only what is stated here:
      when the map changes between steps the kernel may skip, repeat or
      restart, and nothing below claims otherwise. */
  class MapKeyIter {
    const source: Map
    const keySize: u32
    var prev: Option<Bytes>
    const next: array<u8>
    /** The keys yielded so far, in order. */
    ghost var yielded: seq<Bytes>

    ghost predicate Valid()
      reads this
    {
      && next.Length == keySize as int
      && (forall i :: 0 <= i < |yielded| ==> |yielded[i]| == keySize as int)
      && (yielded == [] <==> prev == None)
      && (yielded != [] ==> prev == Some(yielded[|yielded| - 1]))
    }

    /** `MapKeyIter::new(map, key_size)` */
    constructor (source: Map, keySize: u32)
      ensures Valid()
      ensures this.source == source && this.keySize == keySize
      ensures prev == None && yielded == []
      ensures fresh(next) && next[..] == Zeros(keySize as nat)
    {
      this.source := source;
      this.keySize := keySize;
      prev := None;
      next := new u8[keySize as int](_ => 0);
      yielded := [];
    }

    /** `Iterator::next`: one `bpf_map_get_next_key` call. A failure of any
        kind ends the step with `None` and leaves the cursor where it was; a
        success yields the buffer's `key_size` bytes and makes them `prev`. */
    method Next(env: Env) returns (r: Option<Bytes>)
      requires Valid()
      modifies this, next
      ensures Valid()
      ensures var s := env.status(MapGetNextKey(source.desc.fd, old(prev)));
        && (r.None? <==> s.ret != 0)
        && (r.None? ==> prev == old(prev) && yielded == old(yielded))
        && (r.Some? ==> |r.value| == keySize as int && r.value == Overlay(s.out, old(next[..])))
        && (r.Some? ==> prev == r && yielded == old(yielded) + [r.value])
        && next[..] == Overlay(s.out, old(next[..]))
    {
      var s := env.status(MapGetNextKey(source.desc.fd, prev));
      WriteOut(s.out, next);
      if s.ret != 0 {
        r := None;
      } else {
        prev := Some(next[..]);
        yielded := yielded + [next[..]];
        r := Some(next[..]);
      }
    }
  }

  /** `Map::keys()`: a fresh cursor sized by the map's key size. */
  method Keys(m: Map) returns (it: MapKeyIter)
    ensures fresh(it) && fresh(it.next) && it.Valid()
    ensures it.source == m && it.keySize == m.desc.keySize
    ensures it.prev == None && it.next[..] == Zeros(m.desc.keySize as nat)
  {
    it := new MapKeyIter(m, m.desc.keySize);
  }

  /** The keys a consumer of `keys()` receives when it calls `next()` until
      the first `None`, answered by `envs[0]`, `envs[1]`, ... (one `Env` per
      step, since the map may change in between), starting from the cursor
      `prev` and the buffer contents `buf`; at most `|envs|` steps. */
  function Drain(fd: i32, prev: Option<Bytes>, buf: Bytes, envs: seq<Env>): (keys: seq<Bytes>)
    ensures |keys| <= |envs|
    decreases |envs|
  {
    if envs == [] then []
    else
      var s := envs[0].status(MapGetNextKey(fd, prev));
      if s.ret != 0 then []
      else
        var k := Overlay(s.out, buf);
        [k] + Drain(fd, Some(k), k, envs[1..])
  }

  /** What a whole traversal guarantees, and no more: every key has the
      buffer's length, the first step asks from `prev` and every later step
      asks for the key after the one just yielded, each yielded key came from
      a successful step, and the traversal stops only at a failed step (or
      when `envs` runs out). */
  lemma {:induction false} DrainCursorChain(fd: i32, prev: Option<Bytes>, buf: Bytes, envs: seq<Env>)
    ensures var keys := Drain(fd, prev, buf, envs);
      && (forall i :: 0 <= i < |keys| ==> |keys[i]| == |buf|)
      && (|keys| > 0 ==> envs[0].status(MapGetNextKey(fd, prev)).ret == 0)
      && (forall i :: 0 < i < |keys| ==> envs[i].status(MapGetNextKey(fd, Some(keys[i - 1]))).ret == 0)
      && (|keys| == 0 < |envs| ==> envs[0].status(MapGetNextKey(fd, prev)).ret != 0)
      && (0 < |keys| < |envs| ==> envs[|keys|].status(MapGetNextKey(fd, Some(keys[|keys| - 1]))).ret != 0)
    decreases |envs|
  {
    if envs != [] {
      var s := envs[0].status(MapGetNextKey(fd, prev));
      if s.ret == 0 {
        var k := Overlay(s.out, buf);
        DrainCursorChain(fd, Some(k), k, envs[1..]);
        var rest := Drain(fd, Some(k), k, envs[1..]);
        var keys := Drain(fd, prev, buf, envs);
        assert keys == [k] + rest;
        forall i | 0 < i < |keys|
          ensures envs[i].status(MapGetNextKey(fd, Some(keys[i - 1]))).ret == 0
        {
          assert envs[i] == envs[1..][i - 1];
          if i > 1 {
            assert keys[i - 1] == rest[i - 2];
          }
        }
      }
    }
  }

  /** Runs a fresh `keys()` cursor to its first `None` (or for `|envs|`
      steps) and returns what it yielded: exactly `Drain` from the initial
      cursor, a zeroed `key_size` buffer and no previous key. */
  method CollectKeys(m: Map, envs: seq<Env>) returns (keys: seq<Bytes>)
    ensures keys == Drain(m.desc.fd, None, Zeros(m.desc.keySize as nat), envs)
  {
    var it := Keys(m);
    keys := [];
    var i := 0;
    while i < |envs|
      invariant 0 <= i <= |envs|
      invariant it.Valid() && it.source == m && fresh(it.next)
      invariant keys + Drain(m.desc.fd, it.prev, it.next[..], envs[i..])
             == Drain(m.desc.fd, None, Zeros(m.desc.keySize as nat), envs)
      decreases |envs| - i
    {
      DrainStep(m.desc.fd, it.prev, it.next[..], envs[i..]);
      assert envs[i..][0] == envs[i] && envs[i..][1..] == envs[i + 1..];
      var k := it.Next(envs[i]);
      if k.None? {
        break;
      }
      keys := keys + [k.value];
      i := i + 1;
    }
  }

  /** One step of `Drain`, as `MapKeyIter.Next` takes it. */
  lemma DrainStep(fd: i32, prev: Option<Bytes>, buf: Bytes, envs: seq<Env>)
    requires envs != []
    ensures var s := envs[0].status(MapGetNextKey(fd, prev));
      Drain(fd, prev, buf, envs)
        == if s.ret != 0 then []
           else [Overlay(s.out, buf)] + Drain(fd, Some(Overlay(s.out, buf)), Overlay(s.out, buf), envs[1..])
  {
  }

  // ------------------------------------------------------- pre-load state

  /** The libbpf map object an `OpenMap` points at: its pre-load settings. */
  class BpfMap {
    const handle: nat
    var ifindex: u32
    var initialValue: Bytes
    var maxEntries: u32
    var innerMapFd: Option<i32>
    /** The descriptor passed to a successful `reuse_fd`; it records which
        pinned map was reused (the wrapper closes that descriptor right after). */
    var reusedFd: Option<i32>

    constructor (handle: nat, maxEntries: u32)
      ensures this.handle == handle && this.maxEntries == maxEntries
      ensures ifindex == 0 && initialValue == [] && innerMapFd == None && reusedFd == None
    {
      this.handle := handle;
      this.maxEntries := maxEntries;
      ifindex := 0;
      initialValue := [];
      innerMapFd := None;
      reusedFd := None;
    }
  }

  /** A parsed, not yet loaded map. Its setters change the libbpf object. */
  class OpenMap {
    const ptr: BpfMap

    constructor (ptr: BpfMap)
      ensures this.ptr == ptr
    {
      this.ptr := ptr;
    }

    /** `set_map_ifindex`: unconditional. */
    method SetMapIfindex(idx: u32)
      modifies ptr
      ensures ptr.ifindex == idx
      ensures ptr.initialValue == old(ptr.initialValue) && ptr.maxEntries == old(ptr.maxEntries)
      ensures ptr.innerMapFd == old(ptr.innerMapFd) && ptr.reusedFd == old(ptr.reusedFd)
    {
      ptr.ifindex := idx;
    }

    /** `set_initial_value(data)`: a non-zero return is a negated errno; the
        object takes the data only when the call succeeds. */
    method SetInitialValue(data: Bytes, env: Env) returns (r: Result<()>)
      modifies ptr
      ensures var ret := env.status(MapSetInitialValue(ptr.handle, data, |data|)).ret;
        && r == FromNonZeroReturn(ret)
        && ptr.initialValue == (if ret == 0 then data else old(ptr.initialValue))
      ensures ptr.ifindex == old(ptr.ifindex) && ptr.maxEntries == old(ptr.maxEntries)
      ensures ptr.innerMapFd == old(ptr.innerMapFd) && ptr.reusedFd == old(ptr.reusedFd)
    {
      var ret := env.status(MapSetInitialValue(ptr.handle, data, |data|)).ret;
      if ret != 0 {
        return Err(System(Neg(ret)));
      }
      ptr.initialValue := data;
      r := Ok(());
    }

    /** `set_max_entries(count)`: as `SetInitialValue`. */
    method SetMaxEntries(count: u32, env: Env) returns (r: Result<()>)
      modifies ptr
      ensures var ret := env.status(MapSetMaxEntries(ptr.handle, count)).ret;
        && r == FromNonZeroReturn(ret)
        && ptr.maxEntries == (if ret == 0 then count else old(ptr.maxEntries))
      ensures ptr.ifindex == old(ptr.ifindex) && ptr.initialValue == old(ptr.initialValue)
      ensures ptr.innerMapFd == old(ptr.innerMapFd) && ptr.reusedFd == old(ptr.reusedFd)
    {
      var ret := env.status(MapSetMaxEntries(ptr.handle, count)).ret;
      if ret != 0 {
        return Err(System(Neg(ret)));
      }
      ptr.maxEntries := count;
      r := Ok(());
    }

    /** `set_inner_map_fd(inner)`: unconditional. */
    method SetInnerMapFd(inner: Map)
      modifies ptr
      ensures ptr.innerMapFd == Some(inner.desc.fd)
      ensures ptr.ifindex == old(ptr.ifindex) && ptr.initialValue == old(ptr.initialValue)
      ensures ptr.maxEntries == old(ptr.maxEntries) && ptr.reusedFd == old(ptr.reusedFd)
    {
      ptr.innerMapFd := Some(inner.desc.fd);
    }

    /** `reuse_pinned_map(path)`: obtain a descriptor for the pinned map, let
        libbpf take it over, and close the obtained descriptor on both the
        success and the failure path of the take-over. */
    method ReusePinnedMap(path: string, env: Env) returns (r: Result<()>, ghost calls: seq<Call>)
      modifies ptr
      ensures var g := ObjGetFd(path, env);
        && (g.result.Err? ==> r == Err(g.result.error) && calls == g.calls)
        && (g.result.Err? ==> ptr.reusedFd == old(ptr.reusedFd))
        && (g.result.Ok? ==>
              var fd := g.result.value;
              var ret := env.status(MapReuseFd(ptr.handle, fd)).ret;
              && calls == g.calls + [MapReuseFd(ptr.handle, fd), CloseFd(fd)]
              && r == FromNonZeroReturn(ret)
              && ptr.reusedFd == (if ret == 0 then Some(fd) else old(ptr.reusedFd)))
      ensures ptr.ifindex == old(ptr.ifindex) && ptr.initialValue == old(ptr.initialValue)
      ensures ptr.maxEntries == old(ptr.maxEntries) && ptr.innerMapFd == old(ptr.innerMapFd)
    {
      var g := ObjGetFd(path, env);
      if g.result.Err? {
        return Err(g.result.error), g.calls;
      }
      var fd := g.result.value;
      var ret := env.status(MapReuseFd(ptr.handle, fd)).ret;
      if ret == 0 {
        ptr.reusedFd := Some(fd);
      }
      // The close result is ignored, as in the source.
      calls := g.calls + [MapReuseFd(ptr.handle, fd), CloseFd(fd)];
      if ret != 0 {
        return Err(System(Neg(ret))), calls;
      }
      r := Ok(());
    }
  }
}
