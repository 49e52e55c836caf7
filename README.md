# DebugUtil: a verified model of the debug stream

`DebugUtil.h` gives Windows programs a stream for debug output:
`Debug() << L"Count: " << 1 << "narrow text";` collects text in a
`std::wostringstream` and hands it to `OutputDebugStringW`, after every
append (auto-flush, the default) or on `Flush` and in the destructor. Narrow
strings passed as `const char*` (string literals included) or `std::string`
are converted with `MultiByteToWideChar` under `DEBUG_CODE_PAGE`, in
two passes (measure, then convert), and every failure is an exception. In a
build without `_DEBUG` the same class name stands for a stream whose every
operation does nothing.

This project models that header in Dafny.

- `Text` (text.dfy): wide characters (`WChar`, a 16-bit unit), bytes, and
  `UpTo`, the part of a sequence before its first terminator. That is what a
  reader of a null-terminated string sees.
- `Errors` (errors.dfy): `std::invalid_argument` and `std::runtime_error`
  with their messages. A call that may throw returns a `Result` or `Outcome`.
- `WStream` (wstream.dfy): the `std::wostringstream` as a value. It holds the
  character sequence, the put position and the formatting state (width,
  fill, adjustment, other flags). Output overwrites from the put position.
  Formatted text insertion pads to the field width and then resets it.
- `Conversion` (conversion.dfy): `ConvertAndOutput`'s conversion as a pure
  function over a `Converter`. The `Converter` stands for the two
  `MultiByteToWideChar` calls. `DecodingConverter` is a reference converter
  that behaves as the routine is documented to for an input length of -1.
- `DebugChannel` (debug_channel.dfy): the debug channel as a ghost log of
  writes. It receives its argument up to the first NUL.
- `LiveDebug` (live_debug.dfy): the `_DEBUG` class `DebugStream`. Its
  `buffer` field is updated in place. Its invariant says that with
  auto-flush on, nothing is pending between calls.
- `ReleaseDebug` (release_debug.dfy): the release class. It has no state.
  Its appends return the same object, and nothing it does modifies anything.

Behaviour the model keeps from the code:

- A `const char*` or `std::string` is measured with input length -1, so its length counts the
  terminator. The whole `length`-unit `std::wstring` goes into the buffer,
  and so does its trailing `L'\0'`. `Flush` passes `buffer.str().c_str()`,
  so the channel receives only the text before the first NUL. With
  auto-flush off, two narrow appends followed by a flush emit only the first
  string (`LiveDebug.NarrowPair`).
- The length guard `length > SIZE_MAX / sizeof(WCHAR)` is in the model, but
  it can never fire, because the length is a 32-bit `int`
  (`Conversion.LengthGuardNeverFires`).
- The C++98 copy constructor and assignment build the stream from the copied
  text. `wostringstream(str)` and `str(s)` open the stream for output only,
  so the put position goes back to the start, and later appends to the copy
  overwrite the copied text rather than follow it
  (`WStream.PutAfterSetStr`, `LiveDebug.CopyThenAppend`).
- A manipulator that outputs no text (`std::hex`, `std::left`,
  `std::setw(n)`, `std::flush`) still flushes when auto-flush is on, so the
  channel receives an empty write. `std::endl` outputs `L'\n'`, so its
  flush writes that line break. `Flush` keeps the formatting state
  (`buffer.str(L"")` and `buffer.clear()` do not reset it).

## Model

| member | source | states |
|---|---|---|
| `Text.UpTo` | DebugUtil.h:167 | the text a null-terminated reader sees: a prefix of the memory, free of NUL, ending where the first NUL is |
| `Text.UpToConcat` | DebugUtil.h:167 | reading `a + b` stops inside `a` when `a` holds a NUL, and otherwise reads all of `a` and then on into `b` |
| `WStream.Put` | DebugUtil.h:185 | output replaces the characters from the put position on, extends the sequence past the end when needed, keeps all others, and advances the position |
| `WStream.PutAtEnd` | DebugUtil.h:301 | with the put position at the end, an append extends the buffer by exactly the appended text |
| `WStream.PutAfterSetStr` | DebugUtil.h:141-149 | after `str(s)`, output of `w` (no longer than `s`) yields `w` followed by the rest of `s` |
| `WStream.Write` | DebugUtil.h:185 | one insertion outputs its characters from the put position, as `Put` does, advances the position past them and adopts the formatting state the insertion leaves |
| `WStream.SetStr` | DebugUtil.h:168 | `str(s)` makes the sequence `s`, moves the put position to the start and keeps the formatting state |
| `WStream.Padded` | DebugUtil.h:300-304 | formatted text is padded with the fill character up to the field width, after the text when left-adjusted and before it otherwise |
| `WStream.TextRendering` | DebugUtil.h:301 | wide-text insertion leaves the field width at 0 and does not change text already at least as wide as the field |
| `WStream.TextRenderingAtZeroWidth` | DebugUtil.h:301 | at width 0, wide text is inserted unchanged and the formatting state stays |
| `Conversion.Filled` | DebugUtil.h:127-128 | the converted `wstring` has exactly `length` units: the stored ones where there is room, NUL elsewhere |
| `Conversion.TooLong` | DebugUtil.h:123-125 | the guard fires exactly when `length` wide characters take more bytes than `SIZE_MAX` |
| `Conversion.DecodingConverter` | DebugUtil.h:118-128 | the reference converter measures the decoded text plus its terminator, and given a buffer of that size stores exactly that many units, the last a NUL |
| `Conversion.Convert` | DebugUtil.h:113-131 | null pointer gives `invalid_argument`; measured length <= 0 or a zero second pass gives `runtime_error`; otherwise the result has `length` units |
| `Conversion.Required` | DebugUtil.h:118 | a measured length is 0 or the decoded text's length plus one, for the terminator |
| `Conversion.LengthGuardNeverFires` | DebugUtil.h:123-125 | no 32-bit `int` length exceeds `SIZE_MAX / sizeof(WCHAR)` on a 64-bit or 32-bit target |
| `Conversion.DecodedConversion` | DebugUtil.h:118-132 | with a decoding converter, the result is the decoded text plus one NUL (so it is `length` units long and ends in NUL), or a `runtime_error` |
| `DebugChannel.DebugOutput.OutputDebugStringW` | DebugUtil.h:167 | one write is logged, holding the argument up to its first NUL |
| `LiveDebug.DebugStream.constructor` | DebugUtil.h:137 | a new stream has an empty buffer, the default formatting state and the given flag |
| `LiveDebug.DebugStream.Copy` | DebugUtil.h:141 | the copy holds the other's text with its put position at the start, and the other's flag |
| `LiveDebug.DebugStream.Assign` | DebugUtil.h:142-149 | self-assignment changes nothing; otherwise the text and flag are copied, the put position is reset and the formatting state is kept; the same object is returned |
| `LiveDebug.DebugStream.Flush` | DebugUtil.h:166-170 | exactly one write, of the buffer up to its first NUL; then the buffer is empty, and the flag and format are unchanged |
| `LiveDebug.DebugStream.Destroy` | DebugUtil.h:156-158 | exactly one write, of the pending text up to its first NUL; the buffer is left empty |
| `LiveDebug.DebugStream.Take` | DebugUtil.h:185-186 | with auto-flush, the appended text goes out as one write and the buffer ends empty; without it, nothing is written and the text is output from the put position, so the buffer grows by exactly the text when that position is at the end (not so after `Copy` or `Assign`) |
| `LiveDebug.DebugStream.Append` | DebugUtil.h:183-188 | a rendered value is appended (then auto-flushed); the invariant is kept and the same object is returned |
| `LiveDebug.DebugStream.AppendOstreamManipulator` | DebugUtil.h:201-205 | the manipulator's output and new formatting state are taken as an append, auto-flush included |
| `LiveDebug.DebugStream.AppendFormatManipulator` | DebugUtil.h:218-237 | only the formatting state changes; with auto-flush an empty write still happens |
| `LiveDebug.DebugStream.AppendWString` | DebugUtil.h:300-304 | the whole string, embedded NULs included, is appended as formatted text, then auto-flushed |
| `LiveDebug.DebugStream.AppendWideCString` | DebugUtil.h:282-288 | a null pointer changes neither buffer nor channel; otherwise the text before the first NUL is appended, then auto-flushed |
| `LiveDebug.DebugStream.ConvertAndOutput` | DebugUtil.h:113-134 | each conversion failure is reported before the buffer or channel changes; success appends all `length` converted units, then auto-flushes |
| `LiveDebug.DebugStream.AppendCString` | DebugUtil.h:250-253 | the conversion's exception propagates with nothing changed; otherwise the same object is returned after the append |
| `LiveDebug.DebugStream.AppendString` | DebugUtil.h:266-269 | `std::string` follows the `const char*` path on `c_str()`, so conversion stops at its first zero byte |
| `LiveDebug.FlushTwice` | DebugUtil.h:166-170 | a second flush with no append in between writes the empty string |
| `LiveDebug.NarrowPair` | DebugUtil.h:127-133 | without auto-flush, two clean narrow appends and the destructor emit only the first string |
| `LiveDebug.CleanConversion` | DebugUtil.h:118-132 | a string without zero bytes that the code page maps converts to its wide text plus a NUL |
| `LiveDebug.TerminatedPairReadsFirst` | DebugUtil.h:167 | two terminated texts laid end to end read as the first alone |
| `LiveDebug.CopyThenAppend` | DebugUtil.h:141 | appending to a C++98 copy overwrites the head of the copied text instead of following it |
| `LiveDebug.Debug` | DebugUtil.h:315-317 | a fresh stream with auto-flush on and an empty buffer |
| `ReleaseDebug.DebugStream.Append` | DebugUtil.h:329-330 | returns the same stream and changes nothing, for any value (a null `const char*` included) |
| `ReleaseDebug.DebugStream.AppendManipulator` | DebugUtil.h:333-335 | returns the same stream and changes nothing |
| `ReleaseDebug.DebugStream.Flush` | DebugUtil.h:337 | has no effect |
| `ReleaseDebug.Debug` | DebugUtil.h:348-350 | a fresh, stateless stream |

## Left out

- `OutputDebugStringW` is operating-system I/O. It is modelled as a ghost log
  of writes. Ordering across threads and the "thread-safe output" claim are
  left to the channel.
- `MultiByteToWideChar` is a foreign routine. A `Converter` stands for its
  two calls, and UTF-8 or code-page decoding is not specified.
  `DecodingConverter` fixes only the documented length and terminator
  behaviour.
- The values of `DEBUG_CODE_PAGE` are a configuration constant. The code
  page is folded into the `Converter`.
- Rendering of numbers, booleans and user types, and the exact effect of
  each manipulator (`hex`, `setw`, `setfill`, `endl`), are library
  formatting. They are passed in as functions, so the `ff` and `0042`
  outputs of the header's usage examples are not derived.
- `LiveDebug.DebugStream.Append`: the `render` function is trusted to reset
  the width, which is what the standard inserters do.
- The stream's error state (`buffer.clear()` in `Flush` resets it) is not
  modelled. A value that goes through the generic `operator<<(const T&)` can
  set it: a user-defined inserter may set `failbit`. A null non-const
  `char*` or `wchar_t*` is undefined behaviour there (libstdc++ sets
  `badbit`). Once the stream has failed, every
  later insertion is dropped until the next `Flush`. With auto-flush off,
  the model still appends that later text.
- A non-const `char*` or a `char` array reaches the generic
  `operator<<(const T&)`, not the `const char*` overload. The stream's own
  `const char*` inserter then widens it byte by byte, with no code page and
  no conversion errors. The model covers this only as an abstract `render`
  passed to `LiveDebug.DebugStream.Append`.
- A negative field width (`setw(-1)`) is not modelled: the width is a `nat`.
- The compile-time selection between the two classes (`_DEBUG`,
  `__cplusplus`) and the zero-overhead claim are compile-time facts. The two
  variants are two modules. The model has the C++98 copy constructor and
  assignment and a mutable `autoFlush`. In C++11 and later, copying is
  deleted and `autoFlush` is `const`.
- `LiveDebug.DebugStream.Destroy`: the destructor is an ordinary method that
  the caller invokes. The model does not enforce that it runs once at the
  end of the object's life.
