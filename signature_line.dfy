/** One captured segment of a signature: `SignatureLine` of the `sain` library. */
module SignatureLines {
  import opened Geometry

  /**
   * An immutable pair of points.  As a Kotlin data class it has structural
   * equality; a Dafny datatype has exactly that equality.  Nothing is
   * validated: zero-length lines and negative coordinates are lines like any
   * other.
   */
  datatype SignatureLine = SignatureLine(start: Offset, end: Offset)
  {
    /**
     * The data class's generated `copy`: each argument that is left out
     * keeps the value of this line.
     */
    function Copy(start: Offset := this.start, end: Offset := this.end): (r: SignatureLine)
      ensures r.start == start && r.end == end
      ensures r == this <==> start == this.start && end == this.end
    {
      SignatureLine(start, end)
    }

    /** True when the line has no length (a tap). */
    predicate IsPoint()
    {
      start == end
    }
  }

  /** Two lines are equal exactly when their starts and their ends are. */
  lemma EqualityIsStructural(a: SignatureLine, b: SignatureLine)
    ensures a == b <==> a.start == b.start && a.end == b.end
  {
  }

  /** `copy()` with no argument is the same line. */
  lemma CopyWithoutOverridesIsIdentity(l: SignatureLine)
    ensures l.Copy() == l
  {
  }
}
