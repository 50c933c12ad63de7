/** Shared vocabulary: optional values, results, and JavaScript text as UTF-16 code units. */
module Prelude {

  datatype Option<+T> = None | Some(value: T) {
    predicate IsFailure() {
      None?
    }

    function PropagateFailure<U>(): Option<U>
      requires None?
    {
      None
    }

    function Extract(): T
      requires Some?
    {
      value
    }
  }

  datatype Result<+T, +E> = Ok(value: T) | Err(error: E)

  /** One UTF-16 code unit, the element of a JavaScript string. */
  type Unit = u: int | 0 <= u < 0x1_0000

  /** A JavaScript string. Dafny's own `char` excludes lone surrogates, so it is not used. */
  type Text = seq<Unit>

  /** The JavaScript string an ASCII literal denotes. */
  function Ascii(s: string): (t: Text)
    requires forall i | 0 <= i < |s| :: s[i] < 128 as char
    ensures |t| == |s| && forall i | 0 <= i < |s| :: t[i] == s[i] as int
  {
    seq(|s|, i requires 0 <= i < |s| => s[i] as int)
  }

  /** White space and line ends, as `trim` knows them. */
  predicate IsWhiteSpace(u: Unit) {
    || 0x09 <= u <= 0x0D || u == 0x20 || u == 0xA0 || u == 0x1680 || 0x2000 <= u <= 0x200A
    || u == 0x2028 || u == 0x2029 || u == 0x202F || u == 0x205F || u == 0x3000 || u == 0xFEFF
  }

  /** `Number.MAX_SAFE_INTEGER`. */
  const MAX_SAFE_INTEGER: int := 0x1F_FFFF_FFFF_FFFF

  /** A non-negative safe integer of milliseconds. */
  type Timestamp = n: int | 0 <= n <= MAX_SAFE_INTEGER
}
