/**
 * The part of `std::wostringstream` the debug stream relies on, as a value:
 * the character sequence (`str()`), the put position where the next output
 * lands, and the formatting state that manipulators change and formatted
 * insertions read.
 */
module WStream {
  import opened Text

  /**
   * The formatting state of a wide output stream: field width, fill
   * character, whether the `left` adjustment is selected, and the remaining
   * flags (base, precision, float format, `boolalpha`, ...) as one opaque
   * number that only value renderers read.
   */
  datatype FormatState = FormatState(width: nat, fill: WChar, left: bool, flags: nat)

  /** A freshly constructed stream: width 0, fill ' ', right adjustment. */
  const DefaultFormat := FormatState(0, SPACE, false, 0)

  /** The characters one insertion produces and the formatting state it leaves behind. */
  datatype Rendered = Rendered(text: WString, format: FormatState)

  datatype WBuffer = WBuffer(text: WString, pos: nat, format: FormatState) {
    predicate Valid() { pos <= |text| }

    /** The put position is at the end: output appends. */
    predicate AtEnd() { pos == |text| }
  }

  /** A default-constructed `std::wostringstream`. */
  const Empty := WBuffer([], 0, DefaultFormat)

  /**
   * Output of `w` at the put position: it replaces the characters it covers
   * and extends the sequence where it runs past the end; the put position
   * moves past it.
   */
  function Put(b: WBuffer, w: WString): (r: WBuffer)
    requires b.Valid()
    ensures r.Valid() && r.format == b.format && r.pos == b.pos + |w|
    ensures |r.text| == if b.pos + |w| <= |b.text| then |b.text| else b.pos + |w|
    ensures forall i | 0 <= i < |r.text| ::
      r.text[i] == if b.pos <= i < r.pos then w[i - b.pos] else b.text[i]
  {
    var rest := if b.pos + |w| <= |b.text| then b.text[b.pos + |w|..] else [];
    WBuffer(b.text[..b.pos] + w + rest, b.pos + |w|, b.format)
  }

  /** One insertion: its characters are output and its formatting state is adopted. */
  function Write(b: WBuffer, rd: Rendered): (r: WBuffer)
    requires b.Valid()
    ensures r.Valid() && r.format == rd.format
    ensures r.text == Put(b, rd.text).text && r.pos == b.pos + |rd.text|
  {
    Put(b, rd.text).(format := rd.format)
  }

  /** `buffer.str(s)`: the sequence becomes `s` and, the stream being opened for output only, the put position returns to its start. */
  function SetStr(b: WBuffer, s: WString): (r: WBuffer)
    ensures r.Valid() && r.text == s && r.pos == 0 && r.format == b.format
  {
    WBuffer(s, 0, b.format)
  }

  /**
   * Padding of a formatted insertion of text `w`: fill characters up to the
   * field width, after the text when `left` is selected and before it
   * otherwise.
   */
  function Padded(f: FormatState, w: WString): (r: WString)
    ensures |r| == if |w| < f.width then f.width else |w|
    ensures f.left ==> r[..|w|] == w && forall i | |w| <= i < |r| :: r[i] == f.fill
    ensures !f.left ==> r[|r| - |w|..] == w && forall i | 0 <= i < |r| - |w| :: r[i] == f.fill
  {
    var pad := if |w| < f.width then seq(f.width - |w|, _ => f.fill) else [];
    if f.left then w + pad else pad + w
  }

  /** `stream << s` for wide text `s`: the padded text, after which the field width is 0 again. */
  function TextRendering(f: FormatState, w: WString): (r: Rendered)
    ensures r.format == f.(width := 0)
    ensures f.width <= |w| ==> r.text == w
    ensures |w| < f.width ==> |r.text| == f.width
  {
    Rendered(Padded(f, w), f.(width := 0))
  }

  /** With the put position at the end, output appends exactly its characters and the position stays at the end. */
  lemma PutAtEnd(b: WBuffer, w: WString)
    requires b.Valid() && b.AtEnd()
    ensures Put(b, w).text == b.text + w && Put(b, w).AtEnd()
  {
  }

  /**
   * After `str(s)` the put position is at the start, so output of `w` no
   * longer than `s` overwrites the head of `s` instead of following it.
   */
  lemma PutAfterSetStr(b: WBuffer, s: WString, w: WString)
    requires |w| <= |s|
    ensures Put(SetStr(b, s), w).text == w + s[|w|..]
  {
  }

  /** Wide text rendered at width 0 is the text itself, and the formatting state does not change. */
  lemma TextRenderingAtZeroWidth(f: FormatState, w: WString)
    requires f.width == 0
    ensures TextRendering(f, w) == Rendered(w, f)
  {
  }
}
