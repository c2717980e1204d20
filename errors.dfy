/** The library's error taxonomy and the ways a libbpf or kernel failure is
    turned into it. Two sign conventions meet here: entry points that return
    a negated errno, and entry points that report through a separate channel
    (the thread's `errno`, or `libbpf_get_error`). */
module Errors {
  import opened CTypes

  const ENOENT: i32 := 2

  datatype Option<T> = None | Some(value: T)

  /** What was wrong with a caller-supplied input; the structured form of the
      messages the source formats (`"key_size {} != {}"`, ...). */
  datatype InputProblem =
    | KeySize(got: nat, expected: u32)
    | ValueSize(got: nat, expected: u32)

  datatype Error =
    | InvalidInput(problem: InputProblem)
    | System(code: i32)

  datatype Result<T> = Ok(value: T) | Err(error: Error) {
    predicate IsFailure() { Err? }
    function PropagateFailure<U>(): Result<U>
      requires Err?
    {
      Err(error)
    }
    function Extract(): T
      requires Ok?
    {
      value
    }
  }

  /** "Negative return, negate it", failing on any non-zero return value
      (`if ret != 0 { Err(System(-ret)) }`). */
  function FromNonZeroReturn(ret: i32): (r: Result<()>)
    ensures r.Ok? <==> ret == 0
    ensures r.Err? ==> r.error.System? && (r.error.code as int + ret as int) % 0x1_0000_0000 == 0
    ensures I32_MIN < ret < 0 ==> r.Err? && r.error.System? && r.error.code as int == -(ret as int) > 0
  {
    if ret != 0 then Err(System(Neg(ret))) else Ok(())
  }

  /** "Negative return, negate it", failing only on a negative return value
      (`if ret < 0 { Err(System(-ret)) }`). */
  function FromNegativeReturn(ret: i32): (r: Result<()>)
    ensures r.Ok? <==> ret >= 0
    ensures ret != I32_MIN && r.Err? ==> r.error.System? && r.error.code as int == -(ret as int) > 0
  {
    if ret < 0 then Err(System(Neg(ret))) else Ok(())
  }

  /** Separate errno channel: a non-zero return reports whatever `errno` holds
      afterwards, unchanged. */
  function FromErrno(ret: i32, errno: i32): (r: Result<()>)
    ensures r.Ok? <==> ret == 0
    ensures r.Err? ==> r.error == System(errno)
  {
    if ret != 0 then Err(System(errno)) else Ok(())
  }

  /** Separate `libbpf_get_error` channel: a non-zero signal is reported as
      `System(err as i32)`, with no change of sign. */
  function FromErrorSignal(err: i64): (r: Result<()>)
    ensures r.Ok? <==> err == 0
    ensures r.Err? ==> r.error.System? && (r.error.code as int - err as int) % 0x1_0000_0000 == 0
    ensures r.Err? && I32_MIN as int <= err as int < 0x8000_0000 ==> r.error.code as int == err as int
  {
    if err != 0 then Err(System(TruncI32(err))) else Ok(())
  }

  /** The two negating conventions disagree exactly on positive return values:
      `set_autoload` accepts them, `pin`/`unpin` report them as errors. */
  lemma ConventionsDifferOnPositive(ret: i32)
    ensures FromNegativeReturn(ret).Ok? && FromNonZeroReturn(ret).Err? <==> ret > 0
    ensures ret <= 0 ==> FromNegativeReturn(ret) == FromNonZeroReturn(ret)
  {
  }
}
