/** Option, Result and fixed-width integer types shared by every module, and the launcher's error values. */
module Wrappers {

  datatype Option<+T> = None | Some(value: T)

  /** The Rust `Result<T, E>`; `Err` carries what `?` propagates. */
  datatype Result<+T, +E> = Ok(value: T) | Err(error: E)

  /**
   * The errors the launcher core raises: the two `LauncherError` variants it uses,
   * and `Message` for every `anyhow` error built with `bail!` or coming from a
   * collaborator (a failed read, a failed parse, an invalid regex).
   */
  datatype LauncherError =
    | InvalidVersionProfile(message: string)
    | UnknownTemplateParameter(parameter: string)
    | Message(text: string)

  /** Rust's `u32` and `i32`, as ranges of the unbounded integers. */
  type u32 = x: int | 0 <= x < 0x1_0000_0000
  type i32 = x: int | -0x8000_0000 <= x < 0x8000_0000

  /** Prefix the value of a successful sequence result; an error is passed on unchanged. */
  function PrependOk<T, E>(prefix: seq<T>, r: Result<seq<T>, E>): Result<seq<T>, E> {
    if r.Ok? then Ok(prefix + r.value) else r
  }

  lemma PrependOkAssoc<T, E>(a: seq<T>, b: seq<T>, r: Result<seq<T>, E>)
    ensures PrependOk(a, PrependOk(b, r)) == PrependOk(a + b, r)
    ensures PrependOk([], r) == r
  {
    if r.Ok? {
      assert a + (b + r.value) == (a + b) + r.value;
      assert [] + r.value == r.value;
    }
  }
}
