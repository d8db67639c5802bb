/**
 * The array helpers. An element that may be `null` is an `Option`, with
 * `None` standing for `null`.
 */
module ArrayUtil {
  import opened JsCommon

  /** `isNullArray`: `arr.every(item => item === null)`; true of []. */
  function IsNullArray<T>(arr: seq<Option<T>>): (r: bool)
    ensures r <==> forall i :: 0 <= i < |arr| ==> arr[i].None?
  {
    if arr == [] then true else arr[0].None? && IsNullArray(arr[1..])
  }

  /** `getNonNullItems`: `arr.filter(item => item !== null)`. */
  function GetNonNullItems<T>(arr: seq<Option<T>>): (r: seq<T>)
    ensures |r| <= |arr|
    ensures forall i :: 0 <= i < |r| ==> Some(r[i]) in arr
    ensures forall i :: 0 <= i < |arr| && arr[i].Some? ==> arr[i].value in r
  {
    if arr == [] then []
    else if arr[0].Some? then [arr[0].value] + GetNonNullItems(arr[1..])
    else GetNonNullItems(arr[1..])
  }

  /** Filtering distributes over concatenation, so the kept items stay in their order. */
  lemma {:induction false} GetNonNullItemsAppend<T>(a: seq<Option<T>>, b: seq<Option<T>>)
    ensures GetNonNullItems(a + b) == GetNonNullItems(a) + GetNonNullItems(b)
  {
    if a == [] {
      assert a + b == b;
    } else {
      assert (a + b)[1..] == a[1..] + b;
      GetNonNullItemsAppend(a[1..], b);
    }
  }

  /** With no `null` in the input, filtering only unwraps it, element by element. */
  lemma {:induction false} GetNonNullItemsAllPresent<T>(arr: seq<Option<T>>)
    requires forall i :: 0 <= i < |arr| ==> arr[i].Some?
    ensures |GetNonNullItems(arr)| == |arr|
    ensures forall i :: 0 <= i < |arr| ==> GetNonNullItems(arr)[i] == arr[i].value
  {
    if arr != [] {
      GetNonNullItemsAllPresent(arr[1..]);
    }
  }

  /** `getNullIndex`: `arr.findIndex(e => e === null)`. */
  function GetNullIndex<T>(arr: seq<Option<T>>): (r: int)
    ensures -1 <= r < |arr|
    ensures r == -1 <==> forall i :: 0 <= i < |arr| ==> arr[i].Some?
    ensures r >= 0 ==> arr[r].None? && forall i :: 0 <= i < r ==> arr[i].Some?
  {
    if arr == [] then -1
    else if arr[0].None? then 0
    else
      var rest := GetNullIndex(arr[1..]);
      if rest == -1 then -1 else rest + 1
  }

  /** `isIncluded`: `arr.findIndex(e => e === value)`, an index rather than a boolean. */
  function IsIncluded<T(==)>(value: T, arr: seq<T>): (r: int)
    ensures -1 <= r < |arr|
    ensures r == -1 <==> value !in arr
    ensures r >= 0 ==> arr[r] == value && value !in arr[..r]
  {
    if arr == [] then -1
    else if arr[0] == value then 0
    else
      var rest := IsIncluded(value, arr[1..]);
      if rest == -1 then -1 else rest + 1
  }
}
