/** `getDefinedNumber`: a default that applies only to `undefined`. */
module NumberUtil {
  import opened JsCommon

  /**
   * `getDefinedNumber(value, defaultValue = 0)`. Only an absent value is
   * replaced; 0 and negative numbers are returned as given. An absent
   * `defaultValue` is 0.
   */
  function GetDefinedNumber(value: Option<int>, defaultValue: Option<int>): (r: int)
    ensures value.Some? ==> r == value.value
    ensures value.None? && defaultValue.Some? ==> r == defaultValue.value
    ensures value.None? && defaultValue.None? ==> r == 0
  {
    if value.Some? then value.value else defaultValue.GetOr(0)
  }

  /** Feeding the result back in returns it, whatever the new default. */
  lemma GetDefinedNumberIdempotent(value: Option<int>, d: Option<int>, d': Option<int>)
    ensures GetDefinedNumber(Some(GetDefinedNumber(value, d)), d') == GetDefinedNumber(value, d)
  {
  }

  /**
   * Unlike the `||` defaults of the uploader's constructor, a defined 0 is
   * kept: the two agree exactly on non-zero and absent values.
   */
  lemma DefinedNumberVersusOr(value: Option<int>, d: int)
    ensures GetDefinedNumber(value, Some(d)) == NumberOr(value, d) <==> value != Some(0) || d == 0
  {
  }
}
