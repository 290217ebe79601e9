/**
 * `validate_query_boundaries`: the check that the time window and the id window
 * given on the command line are not inverted. A bound that was not given is
 * `None`. The time check skips only missing bounds; the id check uses Python
 * truthiness, so an id of `0` also disables it.
 */
module QueryBoundaries {
  import opened Wrappers

  datatype QueryArgs = QueryArgs(startTime: Option<int>, endTime: Option<int>, sinceId: Option<int>, untilId: Option<int>)

  /** The two `InvalidArgumentsError`s the check raises. */
  datatype BoundsError = EndTimeBeforeStartTime | UntilIdBeforeSinceId

  /** Truthiness of an optional id: given and non-zero. */
  predicate IdTruthy(id: Option<int>) {
    id.Some? && id.value != 0
  }

  predicate TimesInverted(a: QueryArgs) {
    a.startTime.Some? && a.endTime.Some? && a.endTime.value < a.startTime.value
  }

  predicate IdsInverted(a: QueryArgs) {
    IdTruthy(a.sinceId) && IdTruthy(a.untilId) && a.untilId.value < a.sinceId.value
  }

  /**
   * `None` when the check returns normally, otherwise the error it raises.
   * It passes exactly when neither window is inverted, and the time window is
   * checked first.
   */
  function ValidateQueryBoundaries(a: QueryArgs): (r: Option<BoundsError>)
    ensures r.None? ==> (a.startTime.Some? && a.endTime.Some? ==> a.startTime.value <= a.endTime.value)
    ensures r.None? ==> (IdTruthy(a.sinceId) && IdTruthy(a.untilId) ==> a.sinceId.value <= a.untilId.value)
    ensures r == Some(EndTimeBeforeStartTime) ==> TimesInverted(a)
    ensures r == Some(UntilIdBeforeSinceId) ==> IdsInverted(a) && !TimesInverted(a)
  {
    if a.startTime.Some? && a.endTime.Some? && a.endTime.value < a.startTime.value then
      Some(EndTimeBeforeStartTime)
    else if IdTruthy(a.sinceId) && IdTruthy(a.untilId) && a.untilId.value < a.sinceId.value then
      Some(UntilIdBeforeSinceId)
    else
      None
  }

  /** A zero id turns the id check off, whatever the other id is. */
  lemma ZeroIdDisablesIdCheck(a: QueryArgs)
    requires a.sinceId == Some(0) || a.untilId == Some(0)
    ensures ValidateQueryBoundaries(a) != Some(UntilIdBeforeSinceId)
    ensures !TimesInverted(a) ==> ValidateQueryBoundaries(a).None?
  {
  }

  /**
   * Two given times are always compared, whatever their value (0 included):
   * only a missing bound skips the time check.
   */
  lemma GivenTimesAreCompared(a: QueryArgs)
    ensures a.startTime.Some? && a.endTime.Some? ==>
              (ValidateQueryBoundaries(a) == Some(EndTimeBeforeStartTime) <==> a.endTime.value < a.startTime.value)
    ensures a.startTime.None? || a.endTime.None? ==> ValidateQueryBoundaries(a) != Some(EndTimeBeforeStartTime)
  {
  }
}
