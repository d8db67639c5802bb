/**
 * Byte helpers: the total length of a list of typed arrays and their
 * concatenation into one preallocated `Uint8Array`.
 */
module ByteUtil {
  import opened JsCommon

  /** The in-order concatenation of the blocks: the reference meaning of `concatTypedArrays`. */
  function Flatten(arr: seq<seq<byte>>): seq<byte> {
    if arr == [] then [] else Flatten(arr[..|arr| - 1]) + arr[|arr| - 1]
  }

  /** `sumTypedArrayLength`: `arr.reduce((acc, val) => acc + val.length, 0)`. */
  function SumTypedArrayLength(arr: seq<seq<byte>>): (n: nat)
    ensures n == |Flatten(arr)|
  {
    if arr == [] then 0 else SumTypedArrayLength(arr[..|arr| - 1]) + |arr[|arr| - 1]|
  }

  lemma {:induction false} FlattenAppend(a: seq<seq<byte>>, b: seq<seq<byte>>)
    ensures Flatten(a + b) == Flatten(a) + Flatten(b)
  {
    if b == [] {
      assert a + b == a;
    } else {
      var init, last := b[..|b| - 1], b[|b| - 1];
      assert (a + b)[..|a + b| - 1] == a + init;
      assert (a + b)[|a + b| - 1] == last;
      FlattenAppend(a, init);
      calc {
        Flatten(a + b);
        Flatten(a + init) + last;
        (Flatten(a) + Flatten(init)) + last;
        Flatten(a) + (Flatten(init) + last);
      }
    }
  }

  /** Concatenating one more block extends the running total by that block. */
  lemma FlattenSnoc(acc: seq<seq<byte>>, x: seq<byte>)
    ensures Flatten(acc + [x]) == Flatten(acc) + x
  {
    assert (acc + [x])[..|acc + [x]| - 1] == acc;
  }

  /** A prefix of the blocks never adds up to more than all of them. */
  lemma {:induction false} SumPrefixBounded(arr: seq<seq<byte>>, i: nat)
    requires i <= |arr|
    ensures SumTypedArrayLength(arr[..i]) <= SumTypedArrayLength(arr)
  {
    if i < |arr| {
      assert arr[..|arr|][..|arr| - 1] == arr[..|arr| - 1];
      assert arr[..i] == arr[..|arr| - 1][..i];
      SumPrefixBounded(arr[..|arr| - 1], i);
      assert arr[..|arr|] == arr;
    } else {
      assert arr[..i] == arr;
    }
  }

  /**
   * Block `idx` lands at an offset equal to the total length of the
   * blocks before it.
   */
  lemma {:induction false} FlattenOffsets(arr: seq<seq<byte>>, idx: nat, j: nat)
    requires idx < |arr| && j < |arr[idx]|
    ensures SumTypedArrayLength(arr[..idx]) + j < |Flatten(arr)|
    ensures Flatten(arr)[SumTypedArrayLength(arr[..idx]) + j] == arr[idx][j]
  {
    var last := |arr| - 1;
    assert Flatten(arr) == Flatten(arr[..last]) + arr[last];
    if idx == last {
      assert arr[..idx] == arr[..last];
    } else {
      assert arr[..last][..idx] == arr[..idx];
      FlattenOffsets(arr[..last], idx, j);
    }
  }

  /**
   * `TypedArray.prototype.set(item, offset)`: copies `item` into `target`
   * from `offset` on, or throws a RangeError (`ok == false`, nothing
   * written) when it does not fit.
   */
  method Set(target: array<byte>, item: seq<byte>, offset: nat) returns (ok: bool)
    modifies target
    ensures ok <==> offset + |item| <= target.Length
    ensures ok ==> target[..] == old(target[..offset]) + item + old(target[offset + |item|..])
    ensures !ok ==> target[..] == old(target[..])
  {
    if offset + |item| > target.Length {
      return false;
    }
    for j := 0 to |item|
      invariant forall m :: 0 <= m < j ==> target[offset + m] == item[m]
      invariant forall m :: 0 <= m < target.Length && !(offset <= m < offset + j) ==> target[m] == old(target[m])
    {
      target[offset + j] := item[j];
    }
    assert target[..] == old(target[..offset]) + item + old(target[offset + |item|..]);
    return true;
  }

  /**
   * `concatTypedArrays(arr, accLen?)`: allocates `accLen ?? sum` zero
   * bytes and writes each block after the previous ones. A RangeError is
   * the result when that length is below the total: the allocation of a
   * negative length or the `set` of the block that runs past the end.
   */
  method ConcatTypedArrays(arr: seq<seq<byte>>, accLen: Option<int>) returns (r: Result<array<byte>, string>)
    ensures r.Err? <==> accLen.Some? && accLen.value < SumTypedArrayLength(arr)
    ensures r.Ok? ==> r.value.Length == accLen.GetOr(SumTypedArrayLength(arr))
    ensures r.Ok? ==> r.value[..SumTypedArrayLength(arr)] == Flatten(arr)
    ensures r.Ok? ==> forall i :: SumTypedArrayLength(arr) <= i < r.value.Length ==> r.value[i] == 0
  {
    var total := accLen.GetOr(SumTypedArrayLength(arr));
    if total < 0 {
      return Err("RangeError: invalid typed array length");
    }
    var data := new byte[total](_ => 0);
    var calculatedChnkLength := 0;
    for idx := 0 to |arr|
      invariant calculatedChnkLength == SumTypedArrayLength(arr[..idx]) <= total
      invariant data[..calculatedChnkLength] == Flatten(arr[..idx])
      invariant forall i :: calculatedChnkLength <= i < total ==> data[i] == 0
    {
      var item := arr[idx];
      var startOffset := if idx > 0 then calculatedChnkLength else 0;
      var ok := Set(data, item, startOffset);
      if !ok {
        assert arr[..idx + 1][..idx] == arr[..idx];
        SumPrefixBounded(arr, idx + 1);
        return Err("RangeError: offset is out of bounds");
      }
      assert arr[..idx + 1][..idx] == arr[..idx];
      assert data[..calculatedChnkLength + |item|] == data[..calculatedChnkLength] + item;
      calculatedChnkLength := calculatedChnkLength + |item|;
    }
    assert arr[..|arr|] == arr;
    return Ok(data);
  }
}
