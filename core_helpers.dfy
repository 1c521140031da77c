/** Weekday numbering shared by the views and the commands. */
module CoreHelpers {

  /** Python numbers weekdays Monday = 0 .. Sunday = 6; Django's `week_day`
      lookup numbers them Sunday = 1, Monday = 2 .. Saturday = 7. */
  function PythonWeekdayToDjangoWeekday(pythonWeekday: int): (r: int)
    ensures 0 <= pythonWeekday <= 5 ==> r == pythonWeekday + 2
    ensures pythonWeekday == 6 ==> r == 1
    ensures 0 <= pythonWeekday <= 6 ==> 1 <= r <= 7
  {
    if pythonWeekday != 6 then pythonWeekday + 2 else 1
  }

  /** The reverse numbering, Django's `week_day` back to Python's `weekday()`. */
  function DjangoWeekdayToPythonWeekday(djangoWeekday: int): (r: int)
    requires 1 <= djangoWeekday <= 7
    ensures 0 <= r <= 6
  {
    if djangoWeekday == 1 then 6 else djangoWeekday - 2
  }

  /** Converting a Python weekday and back gives the weekday again. */
  lemma PythonRoundTrip(w: int)
    requires 0 <= w <= 6
    ensures DjangoWeekdayToPythonWeekday(PythonWeekdayToDjangoWeekday(w)) == w
  {
  }

  /** Converting a Django weekday and back gives the weekday again. */
  lemma DjangoRoundTrip(d: int)
    requires 1 <= d <= 7
    ensures PythonWeekdayToDjangoWeekday(DjangoWeekdayToPythonWeekday(d)) == d
  {
  }

  /** The conversion is a bijection from 0..6 onto 1..7: it is injective there,
      and every Django weekday is the image of its Python counterpart. */
  lemma ConversionIsBijective()
    ensures forall a, b :: 0 <= a <= 6 && 0 <= b <= 6 && PythonWeekdayToDjangoWeekday(a) == PythonWeekdayToDjangoWeekday(b) ==> a == b
    ensures forall d :: 1 <= d <= 7 ==> PythonWeekdayToDjangoWeekday(DjangoWeekdayToPythonWeekday(d)) == d
  {
    forall a, b | 0 <= a <= 6 && 0 <= b <= 6 && PythonWeekdayToDjangoWeekday(a) == PythonWeekdayToDjangoWeekday(b)
      ensures a == b
    {
      PythonRoundTrip(a);
      PythonRoundTrip(b);
    }
    forall d | 1 <= d <= 7
      ensures PythonWeekdayToDjangoWeekday(DjangoWeekdayToPythonWeekday(d)) == d
    {
      DjangoRoundTrip(d);
    }
  }
}
