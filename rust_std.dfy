/** The pieces of Rust's standard library that the error layer relies on:
    integer widths, `CString::new` with its `NulError`, and the checked
    narrowing `u32 -> i32` with its `TryFromIntError`. */
module RustStd {
  import opened Wrappers

  type byte = x: int | 0 <= x < 0x100
  type u32 = x: int | 0 <= x < 0x1_0000_0000
  type usize = x: int | 0 <= x < 0x1_0000_0000_0000_0000
  type i32 = x: int | -0x8000_0000 <= x < 0x8000_0000

  const I32_MAX: int := 0x7FFF_FFFF

  /** A NUL-terminated native string: its bytes without the terminator,
      none of which is NUL. */
  datatype CString = CString(bytes: seq<byte>)

  predicate NoNul(bytes: seq<byte>) {
    forall i :: 0 <= i < |bytes| ==> bytes[i] != 0
  }

  /** The failure of `CString::new`: the position of the first NUL byte and
      the rejected bytes. */
  datatype NulError = NulError(nulPosition: nat, bytes: seq<byte>)

  /** Rust's `TryFromIntError`, which carries no information. */
  datatype TryFromIntError = TryFromIntError

  /** The index of the first NUL byte of `bytes`, if there is one. */
  function FirstNul(bytes: seq<byte>): (r: Option<nat>)
    ensures r.None? <==> NoNul(bytes)
    ensures r.Some? ==> r.value < |bytes| && bytes[r.value] == 0 && NoNul(bytes[..r.value])
  {
    if bytes == [] then None
    else if bytes[0] == 0 then Some(0)
    else match FirstNul(bytes[1..])
      case None => None
      case Some(i) =>
        assert bytes[..i + 1] == [bytes[0]] + bytes[1..][..i];
        Some(i + 1)
  }

  /** `CString::new`: succeeds exactly on byte strings without a NUL, keeping
      the bytes; otherwise reports where the first NUL is. */
  function CStringNew(bytes: seq<byte>): (r: Result<CString, NulError>)
    ensures r.Ok? <==> NoNul(bytes)
    ensures r.Ok? ==> r.value.bytes == bytes
    ensures r.Err? ==> r.error.bytes == bytes && r.error.nulPosition < |bytes|
                       && bytes[r.error.nulPosition] == 0
                       && NoNul(bytes[..r.error.nulPosition])
  {
    match FirstNul(bytes)
    case None => Ok(CString(bytes))
    case Some(i) => Err(NulError(i, bytes))
  }

  /** `<i32 as TryFrom<u32>>::try_from`: the same value when it fits. */
  function TryIntoI32(x: u32): (r: Result<i32, TryFromIntError>)
    ensures r.Ok? <==> x <= I32_MAX
    ensures r.Ok? ==> r.value == x
  {
    if x <= I32_MAX then Ok(x) else Err(TryFromIntError)
  }
}
