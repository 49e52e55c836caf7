/** Characters and strings as the Win32 wide-character API sees them. */
module Text {
  /** A WCHAR: one 16-bit UTF-16 code unit. */
  type WChar = c: int | 0 <= c < 0x1_0000

  /** A narrow `char`, taken as the byte it stores. */
  type Byte = b: int | 0 <= b < 0x100

  type WString = seq<WChar>
  type NarrowString = seq<Byte>

  const NUL: WChar := 0
  const NUL_BYTE: Byte := 0
  const SPACE: WChar := 0x20

  /**
   * The part of `s` before the first `stop`: what a reader of a terminated
   * string (a `const char*`, a `const wchar_t*`, the result of `c_str()`)
   * sees of the memory `s`. All of `s` when `stop` does not occur in it.
   */
  function UpTo<T(==)>(s: seq<T>, stop: T): (r: seq<T>)
    ensures |r| <= |s| && r == s[..|r|]
    ensures stop !in r
    ensures |r| < |s| ==> s[|r|] == stop
  {
    if s == [] || s[0] == stop then [] else [s[0]] + UpTo(s[1..], stop)
  }

  /** A terminated string read from `a + b` stops inside `a` when `a` holds the terminator, and reads on into `b` otherwise. */
  lemma {:induction false} UpToConcat<T>(a: seq<T>, b: seq<T>, stop: T)
    ensures stop in a ==> UpTo(a + b, stop) == UpTo(a, stop)
    ensures stop !in a ==> UpTo(a + b, stop) == a + UpTo(b, stop)
  {
    if a == [] {
      assert a + b == b;
    } else {
      assert (a + b)[0] == a[0];
      assert (a + b)[1..] == a[1..] + b;
      UpToConcat(a[1..], b, stop);
      if a[0] != stop {
        assert stop in a[1..] <==> stop in a;
        assert a == [a[0]] + a[1..];
      }
    }
  }
}
