/**
 * The narrow-to-wide conversion behind `DebugStream::ConvertAndOutput`:
 * measure, check, convert, each failure an exception.
 *
 * `MultiByteToWideChar` is a foreign routine; it is represented by a
 * `Converter`, two functions of the C string's bytes (the bytes before its
 * terminating null) for the configured code page `DEBUG_CODE_PAGE`.
 */
module Conversion {
  import opened Text
  import opened Errors

  /** The C++ `int` that `MultiByteToWideChar` returns. */
  type Int32 = x: int | -0x8000_0000 <= x < 0x8000_0000

  const INT32_MAX: Int32 := 0x7FFF_FFFF

  /** `SIZE_MAX` of a 64-bit target, of a 32-bit target, and `sizeof(WCHAR)`. */
  const SIZE_MAX: nat := 0xFFFF_FFFF_FFFF_FFFF
  const SIZE_MAX_32: nat := 0xFFFF_FFFF
  const SIZEOF_WCHAR: nat := 2

  const NULL_POINTER := "Null string pointer"
  const CONVERSION_FAILED := "Failed to convert string to wide string."
  const TOO_LONG := "String too long"

  /** What a converting call reports: its return value and the code units it stored at the start of the caller's buffer. */
  datatype Stored = Stored(count: Int32, units: WString)

  /**
   * `MultiByteToWideChar(DEBUG_CODE_PAGE, 0, str, -1, ...)`:
   * `measure(s)` is the call without an output buffer, which returns the
   * length the output needs; `convert(s, n)` is the call with an output
   * buffer of `n` code units.
   */
  datatype Converter = Converter(measure: NarrowString -> Int32, convert: (NarrowString, nat) -> Stored)

  /** The `length > SIZE_MAX / sizeof(WCHAR)` guard: it fires exactly when `length` code units take more bytes than `sizeMax`. */
  predicate TooLong(length: int, sizeMax: nat): (b: bool)
    ensures b <==> length * SIZEOF_WCHAR > sizeMax
  {
    length > sizeMax / SIZEOF_WCHAR
  }

  /**
   * `std::wstring wstr(length, L'\0')` after the converter stored `units` at
   * its start: the string keeps its length, holds the stored units where it
   * has room for them, and NUL everywhere else.
   */
  function Filled(units: WString, length: nat): (r: WString)
    ensures |r| == length
    ensures forall i | 0 <= i < length :: r[i] == if i < |units| then units[i] else NUL
  {
    if length <= |units| then units[..length] else units + seq(length - |units|, _ => NUL)
  }

  /**
   * The conversion `ConvertAndOutput` performs before anything reaches the
   * buffer. `str` is the memory a `const char*` points to (`None` for a null
   * pointer); the converter reads it up to its first zero byte.
   */
  function Convert(conv: Converter, str: Option<seq<Byte>>): (r: Result<WString>)
    ensures str.None? ==> r == Err(InvalidArgument(NULL_POINTER))
    ensures str.Some? ==>
      var s := UpTo(str.value, NUL_BYTE);
      var length := conv.measure(s);
      && (length <= 0 ==> r == Err(RuntimeError(CONVERSION_FAILED)))
      && (length > 0 && conv.convert(s, length).count == 0 ==> r == Err(RuntimeError(CONVERSION_FAILED)))
      && (length > 0 && conv.convert(s, length).count != 0 ==>
            r.Ok? && |r.value| == length &&
            var units := conv.convert(s, length).units;
            forall i | 0 <= i < length :: r.value[i] == if i < |units| then units[i] else NUL)
  {
    if str.None? then Err(InvalidArgument(NULL_POINTER))
    else
      var s := UpTo(str.value, NUL_BYTE);
      var length := conv.measure(s);
      if length <= 0 then Err(RuntimeError(CONVERSION_FAILED))
      else if TooLong(length, SIZE_MAX) then Err(RuntimeError(TOO_LONG))
      else
        var stored := conv.convert(s, length);
        if stored.count == 0 then Err(RuntimeError(CONVERSION_FAILED))
        else Ok(Filled(stored.units, length))
  }

  /**
   * The length guard never fires: a length that fits the `int` the converter
   * returns is within `SIZE_MAX / sizeof(WCHAR)` on a 64-bit and on a 32-bit
   * target alike, so the only runtime errors are the two conversion failures.
   */
  lemma LengthGuardNeverFires(length: Int32)
    ensures !TooLong(length, SIZE_MAX) && !TooLong(length, SIZE_MAX_32)
  {
  }

  /** The length a converter reports for text `d` that it decodes to, terminator included; 0 when it cannot. */
  function Required(d: Option<WString>): (n: Int32)
    ensures d.Some? && |d.value| < INT32_MAX ==> n == |d.value| + 1
    ensures d.None? || |d.value| >= INT32_MAX ==> n == 0
  {
    if d.Some? && |d.value| < INT32_MAX then |d.value| + 1 else 0
  }

  /**
   * A converter that behaves as `MultiByteToWideChar` is documented to when
   * the input length is -1: the terminating null is converted too, so the
   * length counts it; a call whose buffer is too small returns 0. `decode`
   * maps a string's bytes to its wide text under the code page, `None`
   * where the code page cannot map them.
   */
  function DecodingConverter(decode: NarrowString -> Option<WString>): (c: Converter)
    ensures forall s :: c.measure(s) == Required(decode(s))
    ensures forall s :: c.measure(s) > 0 ==>
      var stored := c.convert(s, c.measure(s));
      stored.count == c.measure(s) && |stored.units| == c.measure(s) && stored.units[|stored.units| - 1] == NUL
  {
    Converter(
      s => Required(decode(s)),
      (s, capacity) =>
        var n := Required(decode(s));
        if 0 < n <= capacity then Stored(n, decode(s).value + [NUL]) else Stored(0, []))
  }

  /**
   * Against a converter that decodes the text, a conversion yields the decoded
   * text with its terminator: `length` units of which the last is NUL. Text
   * the code page cannot map, or too long for an `int` length, is a
   * `runtime_error`.
   */
  lemma DecodedConversion(decode: NarrowString -> Option<WString>, str: seq<Byte>)
    ensures var d := decode(UpTo(str, NUL_BYTE));
      Convert(DecodingConverter(decode), Some(str)) ==
        if d.Some? && |d.value| < INT32_MAX then Ok(d.value + [NUL])
        else Err(RuntimeError(CONVERSION_FAILED))
  {
    var d := decode(UpTo(str, NUL_BYTE));
    if d.Some? && |d.value| < INT32_MAX {
      var w := d.value + [NUL];
      var r := Convert(DecodingConverter(decode), Some(str));
      assert r.Ok? && |r.value| == |w|;
      assert r.value == w;
    }
  }
}
