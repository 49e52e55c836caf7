/**
 * The `DebugStream` of a build without `_DEBUG`: every operation is an empty
 * body. The class has no state and its methods modify nothing, so nothing is
 * buffered, converted or written, and no input is an error.
 */
module ReleaseDebug {
  class DebugStream {
    constructor() {}

    /** `operator<<(const T&)`, whatever `T` is (a null `const char*` included): returns the same stream. */
    method Append<V>(value: V) returns (self: DebugStream)
      ensures self == this
    {
      self := this;
    }

    /** `operator<<` for the three kinds of manipulator: returns the same stream. */
    method AppendManipulator<M>(manip: M) returns (self: DebugStream)
      ensures self == this
    {
      self := this;
    }

    /**
     * `Flush`: no effect. The class has no fields, so the postcondition holds
     * of any body; what rules out every effect is the absence of a
     * `modifies` clause.
     */
    method Flush()
      ensures unchanged(this)
    {
    }
  }

  /** `Debug()`: a fresh stream. */
  method Debug() returns (s: DebugStream)
    ensures fresh(s)
  {
    s := new DebugStream();
  }
}
