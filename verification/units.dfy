/** The four unit conversions of `kungpao/utils.py` (lines 44-61).

    The arithmetic is exact over `real`; π is the decimal value of the
    double `np.pi`, a positive constant.  Note that the names `hr2deg` and
    `deg2hr` are the other way round from what they compute: `hr2deg`
    multiplies by 24/360 and so turns DEGREES into HOURS, as its docstring
    says, while `deg2hr` multiplies by 15 and turns hours into degrees.
 */
module Units {

  /** The double nearest to π, written out exactly. */
  const Pi: real := 3.141592653589793

  /** `rad2deg`: radians to degrees. */
  function Rad2Deg(rad: real): real {
    rad * 180.0 / Pi
  }

  /** `deg2rad`: degrees to radians. */
  function Deg2Rad(deg: real): real {
    deg * Pi / 180.0
  }

  /** `hr2deg`: despite the name, degrees to hours. */
  function Hr2Deg(deg: real): real {
    deg * (24.0 / 360.0)
  }

  /** `deg2hr`: despite the name, hours to degrees. */
  function Deg2Hr(hr: real): real {
    hr * 15.0
  }

  /** The angle conversions are mutual inverses, in both orders. */
  lemma AngleRoundTrip(x: real)
    ensures Deg2Rad(Rad2Deg(x)) == x
    ensures Rad2Deg(Deg2Rad(x)) == x
  {
  }

  /** The hour conversions are mutual inverses, in both orders. */
  lemma HourRoundTrip(x: real)
    ensures Deg2Hr(Hr2Deg(x)) == x
    ensures Hr2Deg(Deg2Hr(x)) == x
  {
  }

  /** Fixed points that show the direction of each conversion: half a turn
      is π radians or 180 degrees, a full turn is 360 degrees or 24 hours. */
  lemma ConversionLandmarks()
    ensures Rad2Deg(Pi) == 180.0 && Deg2Rad(180.0) == Pi
    ensures Hr2Deg(360.0) == 24.0 && Deg2Hr(24.0) == 360.0
  {
  }

  /** Both conversion pairs are linear and strictly increasing, so they keep
      the order of angles. */
  lemma ConversionsMonotone(x: real, y: real)
    requires x < y
    ensures Rad2Deg(x) < Rad2Deg(y) && Deg2Rad(x) < Deg2Rad(y)
    ensures Hr2Deg(x) < Hr2Deg(y) && Deg2Hr(x) < Deg2Hr(y)
  {
  }
}
