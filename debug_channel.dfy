/** The operating system's debug output channel, as the record of what was written to it. */
module DebugChannel {
  import opened Text

  class DebugOutput {
    /** Every write, in order, as the channel received it. */
    ghost var log: seq<WString>

    constructor()
      ensures log == []
    {
      log := [];
    }

    /**
     * `OutputDebugStringW(s)`: one write. The channel reads its argument as a
     * null-terminated string, so it receives `s` up to its first NUL.
     */
    method OutputDebugStringW(s: WString)
      modifies this
      ensures log == old(log) + [UpTo(s, NUL)]
    {
      log := log + [UpTo(s, NUL)];
    }
  }
}
