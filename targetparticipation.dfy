/** The target participation of an asset or a group: a percentage validated
    once, at construction, and never changed afterwards. */
module Participation {
  import opened Common

  /** The values a `TargetParticipation` can hold: 0 < p <= 100. */
  type Percent = p: real | 0.0 < p <= 100.0 witness 100.0

  /** The constructor's range checks, in the order the source makes them. */
  function NewParticipation(value: real): (r: Result<Percent, Error>)
    ensures r.Ok? <==> 0.0 < value <= 100.0
    ensures r.Ok? ==> r.value == value
    ensures value < 0.0 ==> r == Err(NegativeParticipation(value))
    ensures value == 0.0 ==> r == Err(ZeroParticipation)
    ensures value > 100.0 ==> r == Err(ParticipationAboveHundred(value))
    ensures r.Err? ==> r.error.IsValueError()
  {
    if value < 0.0 then Err(NegativeParticipation(value))
    else if value == 0.0 then Err(ZeroParticipation)
    else if value > 100.0 then Err(ParticipationAboveHundred(value))
    else Ok(value)
  }

  /** The constructor applied to a Python value: anything but a float is a
      `TypeError` (an int, a bool, None, a missing key), then the range checks. */
  function ParticipationFromValue(v: Value, field: string): (r: Result<Percent, Error>)
    ensures r.Ok? <==> v.PyFloat? && 0.0 < v.f <= 100.0
    ensures r.Ok? ==> r.value == v.f
    ensures !v.PyFloat? ==> r == Err(WrongType(field))
    ensures v.PyFloat? && v.f < 0.0 ==> r == Err(NegativeParticipation(v.f))
    ensures v.PyFloat? && v.f == 0.0 ==> r == Err(ZeroParticipation)
    ensures v.PyFloat? && v.f > 100.0 ==> r == Err(ParticipationAboveHundred(v.f))
  {
    if v.PyFloat? then NewParticipation(v.f) else Err(WrongType(field))
  }
}
