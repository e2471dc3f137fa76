/**
 * The rectangle-area validator of the testing example and the vectors its
 * two test files check. Go's (int, error) pair becomes AreaResult; a nil
 * error is Nil. Integers are unbounded: the Go code makes no promise about
 * overflow of w*h.
 */
module Example {

  /** Go's error interface value: nil, or an error carrying its Error() text. */
  datatype Error = Nil | Failure(message: string)

  datatype AreaResult = AreaResult(area: int, err: Error)

  const ErrorMessage: string := "width and height must be positive"

  /**
   * CalcArea: a side below 1 yields area 0 with ErrorMessage; otherwise the
   * product with a nil error.
   */
  function CalcArea(w: int, h: int): (r: AreaResult)
    ensures r.err != Nil <==> w < 1 || h < 1
    ensures r.err != Nil ==> r.err == Failure(ErrorMessage) && r.area == 0
    ensures r.err == Nil ==> r.area == w * h && r.area > 0
  {
    if w < 1 || h < 1 then AreaResult(0, Failure(ErrorMessage))
    else AreaResult(w * h, Nil)
  }

  /** Swapping the sides gives the same outcome, error or area. */
  lemma CalcAreaSymmetric(w: int, h: int)
    ensures CalcArea(w, h) == CalcArea(h, w)
  {
  }

  /** A successful area is at least each side, so it never shrinks a side. */
  lemma CalcAreaCoversSides(w: int, h: int)
    requires CalcArea(w, h).err == Nil
    ensures CalcArea(w, h).area >= w && CalcArea(w, h).area >= h
  {
  }

  /** TestCalcAreaSuccess: 3 by 5 is 15 without error. */
  lemma TestCalcAreaSuccess()
    ensures CalcArea(3, 5) == AreaResult(15, Nil)
  {
  }

  /** TestCalcAreaFail: -3 by 6 fails, and the error text is ErrorMessage. */
  lemma TestCalcAreaFail()
    ensures CalcArea(-3, 6).err != Nil
    ensures CalcArea(-3, 6).err.message == ErrorMessage
  {
  }

  datatype AreaCase = AreaCase(width: int, height: int, expected: int)

  /** The table the table-driven and parallel tests iterate. */
  const Table: seq<AreaCase> :=
    [AreaCase(1, 1, 1), AreaCase(5, 6, 30), AreaCase(1, 99, 99), AreaCase(7, 6, 42)]

  /** Every row of the table succeeds with its expected area. */
  lemma TestCalcAreaViaTable()
    ensures forall c :: c in Table ==> CalcArea(c.width, c.height) == AreaResult(c.expected, Nil)
  {
  }

  /**
   * The two rows commented out of the table, {-8, -8, 64} and {0, 5, 0},
   * would fail the test: both are rejected with an error.
   */
  lemma CommentedOutRowsAreRejected()
    ensures CalcArea(-8, -8) == AreaResult(0, Failure(ErrorMessage))
    ensures CalcArea(0, 5) == AreaResult(0, Failure(ErrorMessage))
  {
  }
}
