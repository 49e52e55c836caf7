/**
 * The `DebugStream` of a build with `_DEBUG` defined: a wide string stream
 * that collects what is appended and hands it to the debug channel, after
 * every append or when flushed.
 */
module LiveDebug {
  import opened Text
  import opened Errors
  import opened WStream
  import opened Conversion
  import opened DebugChannel

  class DebugStream {
    /** The `std::wostringstream` that collects output. */
    var buffer: WBuffer
    /** `const` from C++11 on; the C++98 assignment operator overwrites it. */
    var autoFlush: bool
    /** The channel `OutputDebugStringW` writes to. */
    const out: DebugOutput

    /** The buffer is well formed, and with auto-flush nothing is left pending between calls. */
    ghost predicate Valid()
      reads this
    {
      buffer.Valid() && (autoFlush ==> buffer.text == [] && buffer.pos == 0)
    }

    /**
     * What an append leaves behind once `rendered` went into the buffer: with
     * auto-flush, the rendered text went to the channel as one write and the
     * buffer is empty; without it, the buffer holds the output and nothing was
     * written, and when its put position was at the end the buffer grew by
     * exactly the rendered text.
     */
    twostate predicate Appended(rendered: Rendered)
      reads this, out
      requires old(buffer).Valid()
    {
      var written := Write(old(buffer), rendered);
      && autoFlush == old(autoFlush)
      && (old(autoFlush) ==>
            out.log == old(out.log) + [UpTo(rendered.text, NUL)] && buffer == SetStr(written, []))
      && (!old(autoFlush) ==>
            out.log == old(out.log) && buffer == written &&
            (old(buffer).AtEnd() ==> buffer.text == old(buffer.text) + rendered.text && buffer.AtEnd()))
    }

    /** `explicit DebugStream(bool autoFlushEnabled = true)`. */
    constructor(autoFlushEnabled: bool, out: DebugOutput)
      ensures Valid() && this.out == out
      ensures buffer == Empty && autoFlush == autoFlushEnabled
    {
      buffer := Empty;
      autoFlush := autoFlushEnabled;
      this.out := out;
    }

    /**
     * The C++98 copy constructor: a new stream built from the other's text,
     * so its put position is at the start, with the other's flag and a
     * default formatting state.
     */
    constructor Copy(other: DebugStream)
      requires other.Valid()
      ensures Valid() && out == other.out
      ensures buffer == WBuffer(other.buffer.text, 0, DefaultFormat) && autoFlush == other.autoFlush
    {
      buffer := SetStr(Empty, other.buffer.text);
      autoFlush := other.autoFlush;
      out := other.out;
    }

    /**
     * The C++98 assignment operator: assigning a stream to itself changes
     * nothing; otherwise the text and the flag are copied, the put position
     * returns to the start and this stream's formatting state stays.
     */
    method Assign(other: DebugStream) returns (self: DebugStream)
      requires Valid() && other.Valid()
      modifies this
      ensures self == this && Valid()
      ensures other == this ==> buffer == old(buffer) && autoFlush == old(autoFlush)
      ensures other != this ==>
        buffer == WBuffer(old(other.buffer.text), 0, old(buffer.format)) && autoFlush == old(other.autoFlush)
    {
      if this != other {
        buffer := SetStr(buffer, other.buffer.text);
        autoFlush := other.autoFlush;
      }
      self := this;
    }

    /**
     * `Flush`: one write of the buffer's text up to its first NUL, after which
     * the buffer is empty; the flag and the formatting state stay.
     */
    method Flush()
      requires buffer.Valid()
      modifies this, out
      ensures Valid()
      ensures out.log == old(out.log) + [UpTo(old(buffer.text), NUL)]
      ensures buffer == WBuffer([], 0, old(buffer.format)) && autoFlush == old(autoFlush)
    {
      out.OutputDebugStringW(buffer.text);
      buffer := SetStr(buffer, []);
    }

    /** The destructor: exactly one flush. */
    method Destroy()
      requires Valid()
      modifies this, out
      ensures out.log == old(out.log) + [UpTo(old(buffer.text), NUL)]
      ensures buffer == WBuffer([], 0, old(buffer.format))
    {
      Flush();
    }

    /** Outputs one rendering into the buffer, then flushes when auto-flush is on. */
    method Take(rendered: Rendered)
      requires Valid()
      modifies this, out
      ensures Valid() && Appended(rendered)
    {
      if buffer.AtEnd() {
        PutAtEnd(buffer, rendered.text);
        assert autoFlush ==> buffer.text + rendered.text == rendered.text;
      }
      buffer := Write(buffer, rendered);
      if autoFlush {
        Flush();
      }
    }

    /**
     * `operator<<(const T&)`: the stream renders `value` under its formatting
     * state; `render` stands for that formatting, which may reset the width.
     */
    method Append<V>(value: V, render: (FormatState, V) -> Rendered) returns (self: DebugStream)
      requires Valid()
      modifies this, out
      ensures self == this && Valid() && Appended(render(old(buffer.format), value))
    {
      Take(render(buffer.format, value));
      self := this;
    }

    /** `operator<<` for a `basic_ostream` manipulator such as `std::endl`, which may output characters as well as change the state. */
    method AppendOstreamManipulator(manip: FormatState -> Rendered) returns (self: DebugStream)
      requires Valid()
      modifies this, out
      ensures self == this && Valid() && Appended(manip(old(buffer.format)))
    {
      Take(manip(buffer.format));
      self := this;
    }

    /**
     * `operator<<` for an `ios_base` or `basic_ios` manipulator such as
     * `std::hex`: it changes the formatting state only, and with auto-flush
     * the flush still writes the (empty) buffer.
     */
    method AppendFormatManipulator(manip: FormatState -> FormatState) returns (self: DebugStream)
      requires Valid()
      modifies this, out
      ensures self == this && Valid() && Appended(Rendered([], manip(old(buffer.format))))
    {
      Take(Rendered([], manip(buffer.format)));
      self := this;
    }

    /** `operator<<(const std::wstring&)`: the whole string, embedded NULs included, as formatted text. */
    method AppendWString(value: WString) returns (self: DebugStream)
      requires Valid()
      modifies this, out
      ensures self == this && Valid() && Appended(TextRendering(old(buffer.format), value))
    {
      Take(TextRendering(buffer.format, value));
      self := this;
    }

    /**
     * `operator<<(const wchar_t*)`: a null pointer changes nothing; otherwise
     * the characters before the first NUL go in as formatted text.
     */
    method AppendWideCString(value: Option<WString>) returns (self: DebugStream)
      requires Valid()
      modifies this, out
      ensures self == this && Valid()
      ensures value.None? ==> buffer == old(buffer) && autoFlush == old(autoFlush) && out.log == old(out.log)
      ensures value.Some? ==> Appended(TextRendering(old(buffer.format), UpTo(value.value, NUL)))
    {
      if value.Some? {
        Take(TextRendering(buffer.format, UpTo(value.value, NUL)));
      }
      self := this;
    }

    /**
     * `ConvertAndOutput`: a failed conversion throws before the buffer or the
     * channel is touched; a successful one goes in as formatted text, all
     * `length` units of it, the converted terminator included.
     */
    method ConvertAndOutput(str: Option<seq<Byte>>, conv: Converter) returns (r: Outcome)
      requires Valid()
      modifies this, out
      ensures Valid()
      ensures Convert(conv, str).Ok? ==>
        r == Pass && Appended(TextRendering(old(buffer.format), Convert(conv, str).value))
      ensures Convert(conv, str).Err? ==>
        r == Fail(Convert(conv, str).error) &&
        buffer == old(buffer) && autoFlush == old(autoFlush) && out.log == old(out.log)
    {
      var converted := Convert(conv, str);
      if converted.Err? {
        return Fail(converted.error);
      }
      Take(TextRendering(buffer.format, converted.value));
      r := Pass;
    }

    /** `operator<<(const char*)`: the conversion path; a thrown exception propagates. */
    method AppendCString(value: Option<seq<Byte>>, conv: Converter) returns (r: Result<DebugStream>)
      requires Valid()
      modifies this, out
      ensures Valid()
      ensures Convert(conv, value).Ok? ==>
        r == Ok(this) && Appended(TextRendering(old(buffer.format), Convert(conv, value).value))
      ensures Convert(conv, value).Err? ==>
        r == Err(Convert(conv, value).error) &&
        buffer == old(buffer) && autoFlush == old(autoFlush) && out.log == old(out.log)
    {
      var outcome := ConvertAndOutput(value, conv);
      if outcome.Fail? {
        return Err(outcome.error);
      }
      r := Ok(this);
    }

    /**
     * `operator<<(const std::string&)`: the conversion path on `c_str()`, so
     * the converter sees the string up to its first zero byte.
     */
    method AppendString(value: seq<Byte>, conv: Converter) returns (r: Result<DebugStream>)
      requires Valid()
      modifies this, out
      ensures Valid()
      ensures Convert(conv, Some(value)).Ok? ==>
        r == Ok(this) && Appended(TextRendering(old(buffer.format), Convert(conv, Some(value)).value))
      ensures Convert(conv, Some(value)).Err? ==>
        r == Err(Convert(conv, Some(value)).error) &&
        buffer == old(buffer) && autoFlush == old(autoFlush) && out.log == old(out.log)
    {
      r := AppendCString(Some(value + [NUL_BYTE]), conv);
      UpToConcat(value, [NUL_BYTE], NUL_BYTE);
    }
  }

  /**
   * Flushing twice with no append in between: the second write is the empty
   * string, since the first left the buffer empty.
   */
  method FlushTwice(s: DebugStream)
    requires s.buffer.Valid()
    modifies s, s.out
    ensures s.out.log == old(s.out.log) + [UpTo(old(s.buffer.text), NUL), []]
    ensures s.buffer.text == []
  {
    s.Flush();
    s.Flush();
  }

  /**
   * Two narrow strings on a stream without auto-flush: each conversion brings
   * its terminator into the buffer, which then holds `a`, NUL, `b`, NUL, and
   * the destructor's write, read up to the first NUL, carries `a` alone.
   */
  method NarrowPair(out: DebugOutput, decode: NarrowString -> Option<WString>, a: NarrowString, b: NarrowString)
    requires NUL_BYTE !in a && NUL_BYTE !in b
    requires decode(a).Some? && |decode(a).value| < INT32_MAX && NUL !in decode(a).value
    requires decode(b).Some? && |decode(b).value| < INT32_MAX
    modifies out
    ensures out.log == old(out.log) + [decode(a).value]
  {
    var conv := DecodingConverter(decode);
    var da, db := decode(a).value, decode(b).value;
    CleanConversion(decode, a);
    CleanConversion(decode, b);
    TextRenderingAtZeroWidth(DefaultFormat, da + [NUL]);
    TextRenderingAtZeroWidth(DefaultFormat, db + [NUL]);
    var s := new DebugStream(false, out);
    var r := s.AppendCString(Some(a), conv);
    assert s.buffer.text == [] + (da + [NUL]);
    r := s.AppendCString(Some(b), conv);
    assert s.buffer.text == (da + [NUL]) + (db + [NUL]);
    TerminatedPairReadsFirst(da, db);
    s.Destroy();
  }

  /** A reader of a terminated string sees only the first of two terminated texts laid end to end. */
  lemma TerminatedPairReadsFirst(da: WString, db: WString)
    requires NUL !in da
    ensures UpTo((da + [NUL]) + (db + [NUL]), NUL) == da
  {
    assert (da + [NUL]) + (db + [NUL]) == da + ([NUL] + (db + [NUL]));
    UpToConcat(da, [NUL] + (db + [NUL]), NUL);
    UpToConcat([NUL], db + [NUL], NUL);
  }

  /** A string free of zero bytes that the code page maps converts to its wide text and a terminator. */
  lemma CleanConversion(decode: NarrowString -> Option<WString>, a: NarrowString)
    requires NUL_BYTE !in a
    requires decode(a).Some? && |decode(a).value| < INT32_MAX
    ensures Convert(DecodingConverter(decode), Some(a)) == Ok(decode(a).value + [NUL])
  {
    UpToConcat(a, [], NUL_BYTE);
    assert a + [] == a;
    DecodedConversion(decode, a);
  }

  /**
   * A C++98 copy of a stream without auto-flush writes from the start of the
   * copied text: wide text no longer than that text replaces its head
   * instead of following it.
   */
  method CopyThenAppend(other: DebugStream, w: WString) returns (copy: DebugStream)
    requires other.Valid() && !other.autoFlush && |w| <= |other.buffer.text|
    modifies other.out
    ensures fresh(copy) && copy.out == other.out
    ensures copy.buffer.text == w + other.buffer.text[|w|..]
    ensures other.out.log == old(other.out.log)
  {
    copy := new DebugStream.Copy(other);
    TextRenderingAtZeroWidth(DefaultFormat, w);
    PutAfterSetStr(Empty, other.buffer.text, w);
    var self := copy.AppendWString(w);
  }

  /** `Debug()`: a fresh stream with auto-flush on. */
  method Debug(out: DebugOutput) returns (s: DebugStream)
    ensures fresh(s) && s.Valid() && s.out == out
    ensures s.autoFlush && s.buffer == Empty
  {
    s := new DebugStream(true, out);
  }
}
